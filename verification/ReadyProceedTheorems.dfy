/** What every run of the ready/proceed protocol does, for any number of workers and any schedule. */
module ReadyProceedTheorems {
  import opened Sequences
  import opened Runs
  import opened ReadyRing
  import opened ReadyProceed
  import opened ReadyProceedInvariant
  import opened ReadyProceedProgress

  /** Whatever an agent can do at any point of a run respects the rules of MainLegal and WorkerLegal:
      no data race, no foreign unlock, no use after destruction, no destruction of a primitive in use. */
  lemma RunsAreLegal(n: nat, moves: seq<Move>, states: seq<State>, k: nat, m: Move)
    requires IsRun(n, moves, states) && k <= |moves| && Enabled(states[k], m)
    ensures Legal(states[k], m)
  {
    RunInv(n, moves, states, k);
    InvLegal(states[k], m);
  }

  /** Conservation and fairness: what was granted, what main holds and what is queued is, in this order,
      what was pushed; nobody is pushed twice, only workers that are ready are pushed, and exactly the granted ones
      have permission. */
  lemma GrantsFollowPushes(n: nat, moves: seq<Move>, states: seq<State>, k: nat)
    requires IsRun(n, moves, states) && k <= |moves|
    ensures var s := states[k];
            && |s.ws| == n
            && s.ring.Valid()
            && s.granted + Hand(s.main) + s.ring.Contents() == s.pushed
            && s.granted <= s.pushed
            && Distinct(s.pushed) && Within(s.pushed, n)
            && s.count == |s.granted|
            && (forall i :: 0 <= i < n ==>
                  (s.ws[i].toProceed <==> i in s.granted) && (i in s.pushed ==> s.ws[i].ready))
            && (s.main.TestProceed? ==> 0 <= s.main.id < n && !s.ws[s.main.id].toProceed)
  {
    RunInv(n, moves, states, k);
    var s := states[k];
    assert s.granted + Hand(s.main) + s.ring.Contents() == s.granted + (Hand(s.main) + s.ring.Contents());
    if s.main.TestProceed? {
      PoppedIsNew(s);
    }
    forall i | 0 <= i < n ensures (s.ws[i].toProceed <==> i in s.granted) && (i in s.pushed ==> s.ws[i].ready) {
      assert RecordOk(s.pushed, s.granted, s.ws[i], i);
    }
  }

  /** The queue never overflows: whoever is about to push finds a free slot. */
  lemma NeverOverflows(n: nat, moves: seq<Move>, states: seq<State>, k: nat)
    requires IsRun(n, moves, states) && k <= |moves|
    ensures states[k].overflows == 0
    ensures forall i :: 0 <= i < |states[k].ws| && states[k].ws[i].pc.PushId? ==>
              states[k].ring.Valid() && !states[k].ring.Overflows()
  {
    RunInv(n, moves, states, k);
    forall i | 0 <= i < |states[k].ws| && states[k].ws[i].pc.PushId?
      ensures states[k].ring.Valid() && !states[k].ring.Overflows()
    {
      RoomToPush(states[k], i);
    }
  }

  /** The count of finished threads is the number of zeroed handles, and a handle is zeroed only after its
      worker has gone; until then none of the worker's primitives is destroyed. */
  lemma SafeTeardown(n: nat, moves: seq<Move>, states: seq<State>, k: nat)
    requires IsRun(n, moves, states) && k <= |moves|
    ensures states[k].finished == SumBy(JoinedBit, states[k].ws)
    ensures forall i :: 0 <= i < |states[k].ws| ==>
              var w := states[k].ws[i];
              && w.mutexDestroys <= 1 && w.condToDestroys <= 1 && w.condFromDestroys <= 1
              && (w.mutexDestroys + w.condToDestroys + w.condFromDestroys > 0 ==>
                    w.joined && w.pc.Gone? && w.lock.Free?)
  {
    RunInv(n, moves, states, k);
    var s := states[k];
    forall i | 0 <= i < |s.ws|
      ensures s.ws[i].mutexDestroys <= 1 && s.ws[i].condToDestroys <= 1 && s.ws[i].condFromDestroys <= 1
      ensures s.ws[i].mutexDestroys + s.ws[i].condToDestroys + s.ws[i].condFromDestroys > 0 ==>
                s.ws[i].joined && s.ws[i].pc.Gone? && s.ws[i].lock.Free?
    {
      assert LifeOk(s.main, s.ws[i], i) && LockOk(s.main, s.global, s.ws[i], i);
    }
  }

  /** No lost wakeup: while main sleeps the queue is empty or a pusher is about to signal it; while a worker sleeps it
      has no permission, or main is about to signal it. */
  lemma NoLostWakeup(n: nat, moves: seq<Move>, states: seq<State>, k: nat)
    requires IsRun(n, moves, states) && k <= |moves|
    ensures var s := states[k];
            && (s.main.Asleep? ==>
                  s.ring.IsEmpty() || exists i :: 0 <= i < |s.ws| && s.ws[i].pc.SignalMain?)
            && (forall i :: 0 <= i < |s.ws| && s.ws[i].pc.Sleeping? ==>
                  !s.ws[i].toProceed || s.main == SignalGrant(i))
  {
    RunInv(n, moves, states, k);
    var s := states[k];
    forall i | 0 <= i < |s.ws| && s.ws[i].pc.Sleeping? ensures !s.ws[i].toProceed || s.main == SignalGrant(i) {
      assert WakeOk(s.main, s.ws[i], i);
    }
  }

  /** No deadlock: as long as the program is not over, a productive move is possible. */
  lemma NeverStuck(n: nat, moves: seq<Move>, states: seq<State>, k: nat)
    requires IsRun(n, moves, states) && k <= |moves|
    ensures Final(states[k]) || exists m :: Productive(states[k], m)
  {
    RunInv(n, moves, states, k);
    if !Final(states[k]) {
      var m := NoDeadlock(states[k]);
      assert Productive(states[k], m);
    }
  }

  /** How many of the first `k` moves are try-joins on a running worker. */
  ghost function BusyCount(moves: seq<Move>, states: seq<State>, k: nat): nat
    requires k <= |moves| < |states|
  {
    if k == 0 then 0 else BusyCount(moves, states, k - 1) + if BusyPoll(states[k - 1], moves[k - 1]) then 1 else 0
  }

  lemma {:induction false} InitialMeasure(n: nat)
    ensures Measure(Initial(n)) == 42 * n + 11
  {
    AllUnborn(Initial(n).ws);
  }

  lemma {:induction false} AllUnborn(ws: seq<Worker>)
    requires forall i :: 0 <= i < |ws| ==> ws[i].pc.Unborn?
    ensures SumBy(WorkerRank, ws) == 18 * |ws|
  {
    if ws == [] {
    } else {
      AllUnborn(ws[1..]);
    }
  }

  lemma {:induction false} BoundedPrefix(n: nat, moves: seq<Move>, states: seq<State>, k: nat)
    requires IsRun(n, moves, states) && k <= |moves|
    ensures k + Measure(states[k])
            <= Measure(Initial(n)) + 4 * CountMoves(Spurious, moves, k) + (n + 3) * BusyCount(moves, states, k)
  {
    hide Measure, IsStep, Inv;
    if k == 0 {
    } else {
      BoundedPrefix(n, moves, states, k - 1);
      RunInv(n, moves, states, k - 1);
      assert IsStep(states[k - 1], moves[k - 1], states[k - 1 + 1]);
      StepLowers(states[k - 1], moves[k - 1], states[k]);
      Distribute(n + 3, BusyCount(moves, states, k - 1));
    }
  }

  /** Bounded runs: the length of a run is linear in the number of workers, spurious wakeups
      and unsuccessful try-joins. */
  lemma BoundedRun(n: nat, moves: seq<Move>, states: seq<State>)
    requires IsRun(n, moves, states)
    ensures |moves| <= 42 * n + 11 + 4 * CountMoves(Spurious, moves, |moves|)
                       + (n + 3) * BusyCount(moves, states, |moves|)
  {
    BoundedPrefix(n, moves, states, |moves|);
    RunInv(n, moves, states, |moves|);
    RankNonNegative(states[|moves|]);
    InitialMeasure(n);
  }

  /** When it is over, every worker was granted exactly once, in push order, the queue is empty, and every
      mutex and condition variable was destroyed exactly once. */
  lemma Outcome(n: nat, moves: seq<Move>, states: seq<State>)
    requires IsRun(n, moves, states) && Final(states[|moves|])
    ensures var s := states[|moves|];
            && s.granted == s.pushed && |s.granted| == n && s.count == n
            && Distinct(s.granted) && (forall i :: 0 <= i < n ==> i in s.granted)
            && s.ring.Valid() && s.ring.Contents() == []
            && s.finished == n && |s.ws| == n
            && (forall i :: 0 <= i < n ==>
                  s.ws[i].toProceed && s.ws[i].joined && s.ws[i].mutexDestroys == 1
                  && s.ws[i].condToDestroys == 1 && s.ws[i].condFromDestroys == 1)
  {
    RunInv(n, moves, states, |moves|);
    var s := states[|moves|];
    AllGranted(s);
    assert |s.granted + Hand(s.main) + s.ring.Contents()| == |s.granted| + |s.ring.Contents()|;
    SumFull(JoinedBit, s.ws, 1);
    forall i | 0 <= i < n
      ensures s.ws[i].joined && s.ws[i].mutexDestroys == 1
      ensures s.ws[i].condToDestroys == 1 && s.ws[i].condFromDestroys == 1
    {
      assert JoinedBit(s.ws[i]) == 1;
      assert LifeOk(s.main, s.ws[i], i);
    }
  }

  /** Every run can be continued to the end without spurious wakeups and unsuccessful try-joins. */
  lemma {:induction false} CanFinish(n: nat, moves: seq<Move>, states: seq<State>)
    returns (more: seq<Move>, all: seq<State>)
    requires IsRun(n, moves, states)
    ensures IsRun(n, moves + more, all) && states <= all && Final(all[|moves + more|])
    ensures forall j :: 0 <= j < |more| ==> Productive(all[|moves| + j], more[j])
    decreases Measure(states[|moves|])
  {
    hide Measure, Final, Productive, Inv;
    var s := states[|moves|];
    RunInv(n, moves, states, |moves|);
    if Final(s) {
      more, all := [], states;
      assert moves + more == moves;
    } else {
      var m := NoDeadlock(s);
      var t := OneMore(n, moves, states, m);
      var rest;
      rest, all := CanFinish(n, moves + [m], states + [t]);
      more := [m] + rest;
      assert moves + more == moves + [m] + rest;
      assert all[|moves|] == s;
      forall j | 0 <= j < |more| ensures Productive(all[|moves| + j], more[j]) {
        if j > 0 {
          assert Productive(all[|moves + [m]| + (j - 1)], rest[j - 1]);
        }
      }
    }
  }

  /** Appending an enabled, productive move gives a run with a smaller measure. */
  lemma OneMore(n: nat, moves: seq<Move>, states: seq<State>, m: Move) returns (t: State)
    requires IsRun(n, moves, states) && Inv(states[|moves|]) && Productive(states[|moves|], m)
    ensures IsRun(n, moves + [m], states + [t])
    ensures 0 <= Measure(t) < Measure(states[|moves|])
  {
    var s := states[|moves|];
    InvLegal(s, m);
    t := Next(s, m);
    assert IsStep(s, m, t);
    hide Measure, Inv, IsStep;
    StepLowers(s, m, t);
    StepKeepsInv(s, m, t);
    RankNonNegative(t);
    var ms, ss := moves + [m], states + [t];
    forall k | 0 <= k < |ms| ensures IsStep(ss[k], ms[k], ss[k + 1]) {
      if k < |moves| {
        assert IsStep(states[k], moves[k], states[k + 1]);
      }
    }
  }
}
