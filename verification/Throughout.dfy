/** Conditions that a run keeps at every moment, traced to a condition on each of its calls. */
module Throughout {
  import opened Records
  import opened Transactions

  /** The tables are good before the run and after every call of it. */
  ghost predicate Always(db: Db, calls: seq<Call>, good: Db -> bool) {
    forall k :: 0 <= k <= |calls| ==> good(PerformAll(db, calls[..k]))
  }

  /** Every call is allowed on the tables it finds. */
  ghost predicate EachCall(db: Db, calls: seq<Call>, allowed: (Db, Call) -> bool) {
    forall k :: 0 <= k < |calls| ==> allowed(PerformAll(db, calls[..k]), calls[k])
  }

  /** If one call keeps good tables good exactly when it is allowed, then a run keeps them good
      throughout exactly when each of its calls is allowed. */
  lemma {:induction false} AlwaysIff(db: Db, calls: seq<Call>, good: Db -> bool, allowed: (Db, Call) -> bool)
    requires good(db)
    requires forall d: Db, c: Call :: good(d) ==> (good(Perform(d, c).db) <==> allowed(d, c))
    ensures Always(db, calls, good) <==> EachCall(db, calls, allowed)
  {
    hide Perform;
    if calls == [] {
      assert calls[..0] == [];
    } else {
      var n := |calls| - 1;
      var init := calls[..n];
      AlwaysIff(db, init, good, allowed);
      assert forall k :: 0 <= k <= n ==> init[..k] == calls[..k];
      assert calls[..|calls|] == calls;
      assert good(PerformAll(db, init)) ==> (good(PerformAll(db, calls)) <==> allowed(PerformAll(db, init), calls[n]));
      AlwaysLast(db, calls, good);
      EachCallLast(db, calls, allowed);
    }
  }

  lemma AlwaysLast(db: Db, calls: seq<Call>, good: Db -> bool)
    requires calls != []
    ensures Always(db, calls, good) <==> Always(db, calls[..|calls| - 1], good) && good(PerformAll(db, calls))
    ensures Always(db, calls[..|calls| - 1], good) ==> good(PerformAll(db, calls[..|calls| - 1]))
  {
    hide PerformAll;
    var n := |calls| - 1;
    assert forall k :: 0 <= k <= n ==> calls[..n][..k] == calls[..k];
    assert calls[..|calls|] == calls && calls[..n][..n] == calls[..n];
  }

  lemma EachCallLast(db: Db, calls: seq<Call>, allowed: (Db, Call) -> bool)
    requires calls != []
    ensures EachCall(db, calls, allowed) <==>
      EachCall(db, calls[..|calls| - 1], allowed) && allowed(PerformAll(db, calls[..|calls| - 1]), calls[|calls| - 1])
  {
    hide PerformAll;
    var n := |calls| - 1;
    assert forall k :: 0 <= k < n ==> calls[..n][..k] == calls[..k] && calls[..n][k] == calls[k];
  }
}
