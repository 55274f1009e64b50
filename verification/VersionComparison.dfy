/** The comparison of dotted versions in the host setup script. */
module VersionComparison {

  predicate Numeric(field: string) {
    field != "" && forall k :: 0 <= k < |field| ==> '0' <= field[k] <= '9'
  }

  /** A dotted version, split at the dots. */
  type Version = v: seq<string> | forall k :: 0 <= k < |v| ==> Numeric(v[k])

  /** A field read in base ten, leading zeros and all. */
  function Value(field: string): nat
    requires field == "" || Numeric(field)
  {
    if field == "" then 0
    else
      var n := |field| - 1;
      10 * Value(field[..n]) + (field[n] as int - '0' as int)
  }

  /** The number at a position, zero past the end. */
  function Field(v: Version, i: nat): nat {
    if i < |v| then Value(v[i]) else 0
  }

  ghost predicate Same(a: Version, b: Version) {
    forall i: nat :: Field(a, i) == Field(b, i)
  }

  ghost predicate FirstBelow(a: Version, b: Version, i: nat) {
    Field(a, i) < Field(b, i) && forall k: nat :: k < i ==> Field(a, k) == Field(b, k)
  }

  /** The first field in which they differ is smaller in the first version. */
  ghost predicate Below(a: Version, b: Version) {
    exists i: nat :: FirstBelow(a, b, i)
  }

  /** The return code of the script's function: 0 for equal, 1 for greater, 2 for smaller. */
  method Vercomp(v1: Version, v2: Version) returns (code: nat)
    ensures code <= 2
    ensures code == 0 <==> Same(v1, v2)
    ensures code == 1 <==> Below(v2, v1)
    ensures code == 2 <==> Below(v1, v2)
  {
    ExactlyOne(v1, v2);
    if v1 == v2 {
      return 0;
    }
    var ver1: seq<string>, ver2: seq<string> := v1, v2;
    var i := |ver1|;
    while i < |ver2|
      invariant |v1| <= i && |ver1| == i && (i <= |v2| || i == |v1|) && ver2 == v2
      invariant v1 <= ver1 && forall k :: |v1| <= k < i ==> ver1[k] == "0"
    {
      ver1 := ver1 + ["0"];
      i := i + 1;
    }
    i := 0;
    while i < |ver1|
      invariant i <= |ver1| && |ver1| >= |v1| && |ver1| >= |v2|
      invariant v1 <= ver1 && forall k :: |v1| <= k < |ver1| ==> ver1[k] == "0"
      invariant v2 <= ver2 && i <= |ver2| <= |ver1| && (|ver2| == |v2| || |ver2| == i)
      invariant forall k :: |v2| <= k < |ver2| ==> ver2[k] == "0"
      invariant forall k: nat :: k < i ==> Field(v1, k) == Field(v2, k)
    {
      if i >= |ver2| {
        ver2 := ver2 + ["0"];
      }
      assert Value("0") == 0;
      assert Value(ver1[i]) == Field(v1, i);
      assert Value(ver2[i]) == Field(v2, i);
      if Value(ver1[i]) > Value(ver2[i]) {
        assert FirstBelow(v2, v1, i);
        return 1;
      }
      if Value(ver1[i]) < Value(ver2[i]) {
        assert FirstBelow(v1, v2, i);
        return 2;
      }
      i := i + 1;
    }
    code := 0;
  }

  /** Finds the first difference, if there is one among the first fields. */
  lemma {:induction false} FirstDifference(a: Version, b: Version, from: nat, n: nat) returns (i: nat)
    requires from <= n && forall k: nat :: k < from ==> Field(a, k) == Field(b, k)
    ensures i <= n && (forall k: nat :: k < i ==> Field(a, k) == Field(b, k))
    ensures i < n ==> Field(a, i) != Field(b, i)
    decreases n - from
  {
    if from == n || Field(a, from) != Field(b, from) {
      i := from;
    } else {
      i := FirstDifference(a, b, from + 1, n);
    }
  }

  lemma BelowAsymmetric(a: Version, b: Version)
    requires Below(a, b)
    ensures !Below(b, a)
  {
    var p: nat :| FirstBelow(a, b, p);
    forall q: nat ensures !FirstBelow(b, a, q) {}
  }

  /** Two versions are equal or one is below the other, and never two of these. */
  lemma ExactlyOne(a: Version, b: Version)
    ensures Same(a, b) || Below(a, b) || Below(b, a)
    ensures !(Same(a, b) && Below(a, b)) && !(Same(a, b) && Below(b, a)) && !(Below(a, b) && Below(b, a))
  {
    var n := if |a| > |b| then |a| else |b|;
    var i := FirstDifference(a, b, 0, n);
    if i == n {
      assert forall k: nat :: n <= k ==> Field(a, k) == 0 && Field(b, k) == 0;
    } else {
      assert FirstBelow(a, b, i) || FirstBelow(b, a, i);
    }
    if Below(a, b) {
      BelowAsymmetric(a, b);
    }
  }

  /** Smaller is transitive, and versions equal after padding are interchangeable. */
  lemma BelowTransitive(a: Version, b: Version, c: Version)
    requires (Below(a, b) || Same(a, b)) && (Below(b, c) || Same(b, c))
    ensures Below(a, c) || Same(a, c)
    ensures Below(a, b) || Below(b, c) ==> Below(a, c)
  {
    if Below(a, b) {
      var p: nat :| FirstBelow(a, b, p);
      if Below(b, c) {
        var q: nat :| FirstBelow(b, c, q);
        assert FirstBelow(a, c, if p < q then p else q);
      } else {
        assert FirstBelow(a, c, p);
      }
    } else if Below(b, c) {
      var q: nat :| FirstBelow(b, c, q);
      assert FirstBelow(a, c, q);
    }
  }

  // ----- fields are decimal numbers

  /** The decimal notation of a number, without leading zeros. */
  function Decimal(n: nat): (s: string)
    ensures Numeric(s)
  {
    if n < 10 then ["0123456789"[n]] else Decimal(n / 10) + ["0123456789"[n % 10]]
  }

  lemma DigitValue(n: nat)
    requires n < 10
    ensures "0123456789"[n] as int - '0' as int == n
  {
  }

  lemma ValueLast(s: string, c: char)
    requires Numeric(s) && '0' <= c <= '9'
    ensures Value(s + [c]) == 10 * Value(s) + (c as int - '0' as int)
  {
    assert (s + [c])[..|s|] == s;
  }

  /** Reading the decimal notation of a number gives the number. */
  lemma {:induction false} DecimalRead(n: nat)
    ensures Value(Decimal(n)) == n
  {
    if n < 10 {
      DigitValue(n);
      assert Decimal(n)[..0] == "";
    } else {
      DecimalRead(n / 10);
      DigitValue(n % 10);
      ValueLast(Decimal(n / 10), "0123456789"[n % 10]);
    }
  }

  /** Leading zeros do not count. */
  lemma {:induction false} LeadingZero(field: string)
    requires Numeric(field)
    ensures Value("0" + field) == Value(field)
  {
    var n := |field| - 1;
    assert "0" + field == ("0" + field[..n]) + [field[n]];
    ValueLast("0" + field[..n], field[n]);
    if n > 0 {
      LeadingZero(field[..n]);
    } else {
      assert "0" + field[..0] == "0" && Value("0") == 0;
    }
  }
}
