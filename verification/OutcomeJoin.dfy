/** How the outcomes of a list of templates combine into the state of one control function. */
module OutcomeJoin {
  import opened Policy
  import opened Enforcement

  function Fold(os: seq<Outcome>, result: State): Verdict {
    if os == [] then Returned(result)
    else if os[0].Panicked? then Crashed
    else Fold(os[1..], Merge(result, os[0]))
  }

  ghost predicate OfEnabled(os: seq<Outcome>) {
    forall o :: o in os ==> !o.Retired? && !o.RetireFailed?
  }

  ghost predicate OfDisabled(os: seq<Outcome>) {
    forall o :: o in os ==> o.Retired? || o.RetireFailed?
  }

  /** In an enabled state the worst outcome decides, wherever it stands. */
  lemma {:induction false} EnabledJoin(os: seq<Outcome>, result: State)
    requires OfEnabled(os) && result in {Ready, Ignored, NotReady}
    ensures Fold(os, result) ==
            if Panicked in os then Crashed
            else if result == NotReady || Bad in os then Returned(NotReady)
            else if result == Ignored || Unmatched in os then Returned(Ignored)
            else Returned(Ready)
  {
    if os != [] {
      assert os[0] in os;
      assert forall o :: o in os <==> o == os[0] || o in os[1..];
      if !os[0].Panicked? {
        EnabledJoin(os[1..], Merge(result, os[0]));
      }
    }
  }

  /** The order of the templates of an enabled state does not matter. */
  lemma EnabledOrderFree(os: seq<Outcome>, os': seq<Outcome>)
    requires OfEnabled(os) && multiset(os) == multiset(os')
    ensures Fold(os, Ready) == Fold(os', Ready)
  {
    forall o: Outcome ensures o in os <==> o in os' {
      assert o in os <==> o in multiset(os);
      assert o in os' <==> o in multiset(os');
    }
    EnabledJoin(os, Ready);
    EnabledJoin(os', Ready);
  }

  /** In a disabled state the last outcome alone decides: an earlier failed delete is masked. */
  lemma {:induction false} DisabledLast(os: seq<Outcome>, result: State)
    requires OfDisabled(os)
    ensures Fold(os, result) ==
            Returned(if os == [] then result else if os[|os| - 1].Retired? then Disabled else NotReady)
  {
    if os != [] {
      assert os[0] in os;
      assert forall o :: o in os[1..] ==> o in os;
      DisabledLast(os[1..], Merge(result, os[0]));
    }
  }
}
