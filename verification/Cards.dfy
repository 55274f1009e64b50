/** The tables of installed cards in the host setup script, and the loop that checks their shells. */
module Cards {
  import opened Policy

  /** A line of the device listing: the device ID and the slot. */
  datatype Device = Device(id: string, slot: string)

  function CardType(id: string): Option<string> {
    if id in ["5000", "d000", "5010"] then Some("alveo-u200")
    else if id in ["5004", "d004"] then Some("alveo-u250")
    else if id in ["5008", "d008", "500c", "d00c"] then Some("alveo-u280")
    else if id in ["5020", "d020"] then Some("alveo-u50")
    else if id == "505c" then Some("alveo-u55c")
    else if id == "513c" then Some("alveo-u30")
    else None
  }

  /** Which device identifiers are which card, and that there are no others. */
  lemma CardTypes(id: string)
    ensures CardType(id) == Some("alveo-u200") <==> id in {"5000", "d000", "5010"}
    ensures CardType(id) == Some("alveo-u250") <==> id in {"5004", "d004"}
    ensures CardType(id) == Some("alveo-u280") <==> id in {"5008", "d008", "500c", "d00c"}
    ensures CardType(id) == Some("alveo-u50") <==> id in {"5020", "d020"}
    ensures CardType(id) == Some("alveo-u55c") <==> id in {"505c"}
    ensures CardType(id) == Some("alveo-u30") <==> id in {"513c"}
    ensures CardType(id).Some? ==>
              CardType(id).value in {"alveo-u200", "alveo-u250", "alveo-u280", "alveo-u50", "alveo-u55c", "alveo-u30"}
  {
  }

  predicate Recognised(d: Device) {
    CardType(d.id).Some?
  }

  function Location(d: Device): string {
    "0000:" + d.slot
  }

  /** The types of the recognised devices, in listing order. */
  function TypesOf(devices: seq<Device>): seq<string> {
    if devices == [] then []
    else (if Recognised(devices[0]) then [CardType(devices[0].id).value] else []) + TypesOf(devices[1..])
  }

  function LocationsOf(devices: seq<Device>): seq<string> {
    if devices == [] then [] else [Location(devices[0])] + LocationsOf(devices[1..])
  }

  function Count(types: seq<string>, t: string): nat {
    if types == [] then 0 else (if types[0] == t then 1 else 0) + Count(types[1..], t)
  }

  /** One call of the shell check: the platform it takes the card for, and the card's location. */
  datatype Check = Check(platform: string, location: string)

  predicate Asked(platformOnly: Option<string>, cardType: string) {
    platformOnly.None? || platformOnly.value == cardType
  }

  /** The checks the loop over the types makes, for one platform or for all. */
  function Checked(types: seq<string>, locations: seq<string>, platformOnly: Option<string>): seq<Check>
    requires |types| <= |locations|
  {
    if types == [] then []
    else
      (if Asked(platformOnly, types[0]) then [Check(types[0], locations[0])] else []) +
      Checked(types[1..], locations[1..], platformOnly)
  }

  class CardTable {
    var cardTypeArr: seq<string>
    var cardLocArr: seq<string>
    var cardIndex: nat
    var u200: nat
    var u250: nat
    var u280: nat
    var u50: nat
    var u55c: nat
    var u30: nat

    /** The counters count the types. */
    ghost predicate Valid()
      reads this
    {
      && u200 == Count(cardTypeArr, "alveo-u200") && u250 == Count(cardTypeArr, "alveo-u250")
      && u280 == Count(cardTypeArr, "alveo-u280") && u50 == Count(cardTypeArr, "alveo-u50")
      && u55c == Count(cardTypeArr, "alveo-u55c") && u30 == Count(cardTypeArr, "alveo-u30")
    }

    constructor ()
      ensures Valid() && cardTypeArr == [] && cardLocArr == [] && cardIndex == 0
    {
      cardTypeArr, cardLocArr, cardIndex := [], [], 0;
      u200, u250, u280, u50, u55c, u30 := 0, 0, 0, 0, 0, 0;
    }

    method AddType(t: string)
      requires Valid() && t in ["alveo-u200", "alveo-u250", "alveo-u280", "alveo-u50", "alveo-u55c", "alveo-u30"]
      modifies this`cardTypeArr, this`u200, this`u250, this`u280, this`u50, this`u55c, this`u30
      ensures Valid() && cardTypeArr == old(cardTypeArr) + [t]
    {
      CountLast(cardTypeArr, t);
      if t == "alveo-u200" { u200 := u200 + 1; }
      else if t == "alveo-u250" { u250 := u250 + 1; }
      else if t == "alveo-u280" { u280 := u280 + 1; }
      else if t == "alveo-u50" { u50 := u50 + 1; }
      else if t == "alveo-u55c" { u55c := u55c + 1; }
      else { u30 := u30 + 1; }
      cardTypeArr := cardTypeArr + [t];
    }

    /** Reads the listing twice: once for the types and counters, once for the locations. */
    method CardSetup(devices: seq<Device>)
      requires Valid()
      modifies this
      ensures Valid() && cardIndex == old(cardIndex)
      ensures cardTypeArr == old(cardTypeArr) + TypesOf(devices)
      ensures cardLocArr == old(cardLocArr) + LocationsOf(devices)
    {
      for i := 0 to |devices|
        invariant Valid() && cardIndex == old(cardIndex) && cardLocArr == old(cardLocArr)
        invariant cardTypeArr + TypesOf(devices[i..]) == old(cardTypeArr) + TypesOf(devices)
      {
        assert devices[i..][0] == devices[i] && devices[i..][1..] == devices[i + 1..];
        var t := CardType(devices[i].id);
        if t.Some? {
          AddType(t.value);
        }
      }
      for i := 0 to |devices|
        invariant Valid() && cardIndex == old(cardIndex) && cardTypeArr == old(cardTypeArr) + TypesOf(devices)
        invariant cardLocArr + LocationsOf(devices[i..]) == old(cardLocArr) + LocationsOf(devices)
      {
        assert devices[i..][0] == devices[i] && devices[i..][1..] == devices[i + 1..];
        cardLocArr := cardLocArr + [Location(devices[i])];
      }
    }

    /** The card loop of the flash step: goes through the types, counting `cardIndex` along. */
    method ShellFlash(platformOnly: Option<string>) returns (checked: seq<Check>)
      requires cardIndex == 0 && |cardTypeArr| <= |cardLocArr|
      modifies this`cardIndex
      ensures checked == Checked(cardTypeArr, cardLocArr, platformOnly) && cardIndex == |cardTypeArr|
    {
      checked := [];
      ghost var goal := Checked(cardTypeArr, cardLocArr, platformOnly);
      assert cardTypeArr[0..] == cardTypeArr && cardLocArr[0..] == cardLocArr;
      while cardIndex < |cardTypeArr|
        invariant cardIndex <= |cardTypeArr|
        invariant checked + Checked(cardTypeArr[cardIndex..], cardLocArr[cardIndex..], platformOnly) == goal
      {
        CheckedAt(checked, cardTypeArr, cardLocArr, platformOnly, cardIndex);
        var cardType := cardTypeArr[cardIndex];
        if Asked(platformOnly, cardType) {
          checked := checked + [Check(cardType, cardLocArr[cardIndex])];
        }
        cardIndex := cardIndex + 1;
      }
    }
  }

  /** One turn of the loop, after the checks already done. */
  lemma CheckedAt(done: seq<Check>, types: seq<string>, locations: seq<string>, platformOnly: Option<string>, k: nat)
    requires k < |types| <= |locations|
    ensures done + Checked(types[k..], locations[k..], platformOnly) ==
            (if Asked(platformOnly, types[k]) then done + [Check(types[k], locations[k])] else done) +
            Checked(types[k + 1..], locations[k + 1..], platformOnly)
  {
    assert types[k..][1..] == types[k + 1..] && locations[k..][1..] == locations[k + 1..];
    var now := if Asked(platformOnly, types[k]) then [Check(types[k], locations[k])] else [];
    var rest := Checked(types[k + 1..], locations[k + 1..], platformOnly);
    assert done + (now + rest) == (done + now) + rest;
  }

  lemma {:induction false} CountAppend(types: seq<string>, t: string, u: string)
    ensures Count(types + [t], u) == Count(types, u) + if t == u then 1 else 0
  {
    if types == [] {
      assert (types + [t])[1..] == [];
    } else {
      assert (types + [t])[1..] == types[1..] + [t];
      CountAppend(types[1..], t, u);
    }
  }

  lemma CountLast(types: seq<string>, t: string)
    ensures forall u :: Count(types + [t], u) == Count(types, u) + if t == u then 1 else 0
  {
    forall u ensures Count(types + [t], u) == Count(types, u) + if t == u then 1 else 0 {
      CountAppend(types, t, u);
    }
  }

  lemma {:induction false} ListLengths(devices: seq<Device>)
    ensures |TypesOf(devices)| <= |LocationsOf(devices)| == |devices|
    ensures |TypesOf(devices)| == |devices| <==> forall d :: d in devices ==> Recognised(d)
  {
    if devices != [] {
      ListLengths(devices[1..]);
      assert forall d :: d in devices <==> d == devices[0] || d in devices[1..];
    }
  }

  /** The device is recognised, and its type is asked for. */
  predicate AskedFor(d: Device, platformOnly: Option<string>) {
    Recognised(d) && Asked(platformOnly, CardType(d.id).value)
  }

  /** No card asked for is listed after an unrecognised device. */
  ghost predicate AskedFirst(devices: seq<Device>, platformOnly: Option<string>) {
    forall a, b :: 0 <= a < b < |devices| && !Recognised(devices[a]) ==> !AskedFor(devices[b], platformOnly)
  }

  /** No recognised device is listed after an unrecognised one. */
  ghost predicate RecognisedFirst(devices: seq<Device>) {
    forall a, b :: 0 <= a < b < |devices| && !Recognised(devices[a]) ==> !Recognised(devices[b])
  }

  function RightCheck(d: Device): Check
    requires Recognised(d)
  {
    Check(CardType(d.id).value, "0000:" + d.slot)
  }

  /** The checks that are right: of each recognised card asked for, as its own platform at its own location. */
  function RightChecks(devices: seq<Device>, platformOnly: Option<string>): seq<Check> {
    if devices == [] then []
    else
      (if AskedFor(devices[0], platformOnly) then [RightCheck(devices[0])] else []) +
      RightChecks(devices[1..], platformOnly)
  }

  /** The checks the script makes. */
  function CheckedFor(devices: seq<Device>, platformOnly: Option<string>): seq<Check> {
    ListLengths(devices);
    Checked(TypesOf(devices), LocationsOf(devices), platformOnly)
  }

  lemma {:induction false} NoneAskedFor(devices: seq<Device>, locations: seq<string>, platformOnly: Option<string>)
    requires forall d :: d in devices ==> !AskedFor(d, platformOnly)
    requires |TypesOf(devices)| <= |locations|
    ensures Checked(TypesOf(devices), locations, platformOnly) == [] && RightChecks(devices, platformOnly) == []
  {
    if devices != [] {
      var d, rest := devices[0], devices[1..];
      assert d in devices && forall e :: e in rest ==> e in devices;
      if Recognised(d) {
        assert TypesOf(devices)[1..] == TypesOf(rest);
        NoneAskedFor(rest, locations[1..], platformOnly);
      } else {
        assert TypesOf(devices) == TypesOf(rest);
        NoneAskedFor(rest, locations, platformOnly);
      }
    }
  }

  /** What the check of a recognised device listed first should be. */
  function FirstChecks(devices: seq<Device>, platformOnly: Option<string>): seq<Check>
    requires devices != [] && Recognised(devices[0])
  {
    if AskedFor(devices[0], platformOnly) then [RightCheck(devices[0])] else []
  }

  lemma CheckedStep(devices: seq<Device>, platformOnly: Option<string>)
    requires devices != [] && Recognised(devices[0])
    ensures var first, rest := FirstChecks(devices, platformOnly), devices[1..];
      && CheckedFor(devices, platformOnly) == first + CheckedFor(rest, platformOnly)
      && RightChecks(devices, platformOnly) == first + RightChecks(rest, platformOnly)
  {
    assert TypesOf(devices)[1..] == TypesOf(devices[1..]);
    assert LocationsOf(devices)[1..] == LocationsOf(devices[1..]);
    ListLengths(devices);
  }

  lemma AskedFirstStep(devices: seq<Device>, platformOnly: Option<string>)
    requires devices != []
    ensures AskedFirst(devices, platformOnly) <==>
            if Recognised(devices[0]) then AskedFirst(devices[1..], platformOnly)
            else forall d :: d in devices ==> !AskedFor(d, platformOnly)
  {
    var rest := devices[1..];
    assert forall a :: 0 <= a < |rest| ==> rest[a] == devices[a + 1];
    if Recognised(devices[0]) {
      if AskedFirst(rest, platformOnly) {
        forall a, b | 0 <= a < b < |devices| && !Recognised(devices[a]) ensures !AskedFor(devices[b], platformOnly) {
          assert rest[a - 1] == devices[a] && rest[b - 1] == devices[b];
        }
      }
    } else if AskedFirst(devices, platformOnly) {
      forall d | d in devices ensures !AskedFor(d, platformOnly) {
        var b :| 0 <= b < |devices| && devices[b] == d;
      }
    }
  }

  /** As long as no card asked for is listed after an unrecognised device, the loop checks exactly the cards asked
      for, each once, in order, as its own type and at its own location. */
  lemma {:induction false} AlignedChecks(devices: seq<Device>, platformOnly: Option<string>)
    requires AskedFirst(devices, platformOnly)
    ensures CheckedFor(devices, platformOnly) == RightChecks(devices, platformOnly)
  {
    if devices != [] {
      AskedFirstStep(devices, platformOnly);
      if Recognised(devices[0]) {
        CheckedStep(devices, platformOnly);
        AlignedChecks(devices[1..], platformOnly);
      } else {
        ListLengths(devices);
        NoneAskedFor(devices, LocationsOf(devices), platformOnly);
      }
    }
  }

  ghost predicate DistinctSlots(devices: seq<Device>) {
    forall a, b :: 0 <= a < b < |devices| ==> Location(devices[a]) != Location(devices[b])
  }

  lemma {:induction false} LocationAt(devices: seq<Device>, k: nat)
    requires k < |devices|
    ensures |LocationsOf(devices)| == |devices| && LocationsOf(devices)[k] == Location(devices[k])
  {
    ListLengths(devices);
    if k > 0 {
      LocationAt(devices[1..], k - 1);
    }
  }

  /** The first right check is of the first device asked for, at `m`. The first check the loop makes takes the
      location at `k`, where `k` counts only the recognised devices before that one. */
  lemma {:induction false} FirstAskedFor(devices: seq<Device>, locations: seq<string>, platformOnly: Option<string>)
    returns (k: nat, m: nat)
    requires exists d :: d in devices && AskedFor(d, platformOnly)
    requires |TypesOf(devices)| <= |locations| && |devices| <= |locations|
    ensures k <= m < |devices|
    ensures var right := RightChecks(devices, platformOnly);
            var checked := Checked(TypesOf(devices), locations, platformOnly);
      && right != [] && right[0].location == Location(devices[m])
      && checked != [] && checked[0].location == locations[k]
  {
    var d, rest := devices[0], devices[1..];
    if AskedFor(d, platformOnly) {
      k, m := 0, 0;
    } else {
      var e :| e in devices && AskedFor(e, platformOnly);
      assert e in rest;
      if Recognised(d) {
        assert TypesOf(devices)[1..] == TypesOf(rest);
        k, m := FirstAskedFor(rest, locations[1..], platformOnly);
        k, m := k + 1, m + 1;
      } else {
        assert TypesOf(devices) == TypesOf(rest);
        k, m := FirstAskedFor(rest, locations, platformOnly);
        m := m + 1;
      }
    }
  }

  /** With an unrecognised device at the head, the first card asked for is checked at another card's location. */
  lemma WrongLocation(devices: seq<Device>, platformOnly: Option<string>)
    requires devices != [] && !Recognised(devices[0]) && DistinctSlots(devices)
    requires exists d :: d in devices && AskedFor(d, platformOnly)
    ensures CheckedFor(devices, platformOnly) != RightChecks(devices, platformOnly)
  {
    var rest := devices[1..];
    var e :| e in devices && AskedFor(e, platformOnly);
    assert e in rest;
    ListLengths(devices);
    assert TypesOf(devices) == TypesOf(rest);
    var k, m := FirstAskedFor(rest, LocationsOf(devices), platformOnly);
    LocationAt(devices, k);
    assert rest[m] == devices[m + 1];
    assert Location(devices[k]) != Location(devices[m + 1]);
  }

  /** Otherwise some check is wrong. */
  lemma {:induction false} MisalignedChecks(devices: seq<Device>, platformOnly: Option<string>)
    requires !AskedFirst(devices, platformOnly) && DistinctSlots(devices)
    ensures CheckedFor(devices, platformOnly) != RightChecks(devices, platformOnly)
  {
    AskedFirstStep(devices, platformOnly);
    if Recognised(devices[0]) {
      assert forall a :: 0 <= a < |devices[1..]| ==> devices[1..][a] == devices[a + 1];
      MisalignedChecks(devices[1..], platformOnly);
      CheckedStep(devices, platformOnly);
      var n := |FirstChecks(devices, platformOnly)|;
      assert CheckedFor(devices, platformOnly)[n..] == CheckedFor(devices[1..], platformOnly);
      assert RightChecks(devices, platformOnly)[n..] == RightChecks(devices[1..], platformOnly);
    } else {
      WrongLocation(devices, platformOnly);
    }
  }

  /** For all cards, or for the one platform asked for: the checks are right exactly if no card asked for is listed
      after an unrecognised device. */
  lemma ChecksRightIff(devices: seq<Device>, platformOnly: Option<string>)
    requires DistinctSlots(devices)
    ensures CheckedFor(devices, platformOnly) == RightChecks(devices, platformOnly) <==>
            AskedFirst(devices, platformOnly)
  {
    if AskedFirst(devices, platformOnly) {
      AlignedChecks(devices, platformOnly);
    } else {
      MisalignedChecks(devices, platformOnly);
    }
  }

  /** So the check of all cards, and the checks of every platform one may ask for, are right exactly if no recognised
      device is listed after an unrecognised one. */
  lemma AllChecksRightIff(devices: seq<Device>)
    requires DistinctSlots(devices)
    ensures CheckedFor(devices, None) == RightChecks(devices, None) <==> RecognisedFirst(devices)
    ensures (forall p :: CheckedFor(devices, Some(p)) == RightChecks(devices, Some(p))) <==> RecognisedFirst(devices)
  {
    ChecksRightIff(devices, None);
    assert AskedFirst(devices, None) <==> RecognisedFirst(devices) by {
      assert forall d :: AskedFor(d, None) <==> Recognised(d);
    }
    forall p ensures CheckedFor(devices, Some(p)) == RightChecks(devices, Some(p)) <==> AskedFirst(devices, Some(p)) {
      ChecksRightIff(devices, Some(p));
    }
    if a, b :| 0 <= a < b < |devices| && !Recognised(devices[a]) && Recognised(devices[b]) {
      var p := CardType(devices[b].id).value;
      assert AskedFor(devices[b], Some(p));
      assert !AskedFirst(devices, Some(p));
    }
  }

  /** The sum of the six counters. */
  function Counted(types: seq<string>): nat {
    Count(types, "alveo-u200") + Count(types, "alveo-u250") + Count(types, "alveo-u280") +
    Count(types, "alveo-u50") + Count(types, "alveo-u55c") + Count(types, "alveo-u30")
  }

  /** A card type bumps exactly one of the six counters. */
  lemma CountedFirst(t: string, types: seq<string>)
    requires exists id :: CardType(id) == Some(t)
    ensures Counted([t] + types) == Counted(types) + 1
  {
    forall u ensures Count([t] + types, u) == Count(types, u) + if t == u then 1 else 0 {
      assert ([t] + types)[1..] == types;
    }
  }

  /** The six counters add up to the number of types. */
  lemma {:induction false} CountersSum(devices: seq<Device>)
    ensures Counted(TypesOf(devices)) == |TypesOf(devices)|
  {
    if devices != [] {
      CountersSum(devices[1..]);
      if Recognised(devices[0]) {
        assert CardType(devices[0].id) == Some(CardType(devices[0].id).value);
        CountedFirst(CardType(devices[0].id).value, TypesOf(devices[1..]));
      } else {
        assert TypesOf(devices) == TypesOf(devices[1..]);
      }
    }
  }
}
