/**
 The system calls on either end of the FIFO: what each can do, and what the calls of one resumable loop say about errors
 and stop signals.
 */
module IoCalls {
  import opened SystemCalls

  /** What one call of read or write does: move up to `limit` bytes or report an error; a signal may set the stop
      flag. Only a write can find that there is no reader. */
  datatype IoEvent =
    | Transfer(limit: nat, stop: bool)
    | Interrupted(stop: bool)
    | WouldBlock(stop: bool)
    | NoReader(stop: bool)
    | Failure(stop: bool)

  /** No stop signal, no hard error; EAGAIN only on a non-blocking descriptor. */
  predicate Benign(script: seq<IoEvent>, mode: Mode) {
    forall i :: 0 <= i < |script| ==>
      && !script[i].stop && !script[i].Failure? && !script[i].NoReader?
      && (script[i].WouldBlock? ==> mode.Polling?)
  }

  /** A call that was made: with the number of bytes it moved, or a poll that meets an error the program gives up on or
      a stop signal. */
  datatype Call = IoCall(event: IoEvent, moved: nat) | PollCall(fatal: bool, stop: bool)

  /** A stop signal arrives during the call. */
  predicate Stops(c: Call) {
    match c
    case IoCall(e, _) => e.stop
    case PollCall(_, stop) => stop
  }

  /** An error that the programs do not handle. */
  predicate Hard(c: Call, mode: Mode) {
    match c
    case IoCall(e, _) => e.Failure? || e.NoReader? || (e.WouldBlock? && mode.Blocking?)
    case PollCall(fatal, _) => fatal
  }

  /** The bytes moved by all the calls. */
  function Moved(calls: seq<Call>): nat {
    if calls == [] then 0
    else
      var c := calls[|calls| - 1];
      Moved(calls[..|calls| - 1]) + if c.IoCall? then c.moved else 0
  }

  // ----- What a sequence of calls says about stop signals and errors -----

  /** The stop flag after the calls. */
  ghost predicate Flag(before: bool, calls: seq<Call>) {
    before || exists i :: 0 <= i < |calls| && Stops(calls[i])
  }

  lemma FlagMore(before: bool, calls: seq<Call>, more: seq<Call>)
    ensures Flag(before, calls + more) == Flag(Flag(before, calls), more)
    ensures forall j :: 0 <= j <= |calls| ==> (Flag(before, calls[..j]) ==> Flag(before, calls))
  {
    assert forall i :: 0 <= i < |calls| ==> (calls + more)[i] == calls[i];
    assert forall i :: 0 <= i < |more| ==> (calls + more)[|calls| + i] == more[i];
  }

  lemma {:induction false} MovedMore(calls: seq<Call>, more: seq<Call>)
    ensures Moved(calls + more) == Moved(calls) + Moved(more)
  {
    if more == [] {
      assert calls + more == calls;
    } else {
      var last := |more| - 1;
      assert (calls + more)[..|calls + more| - 1] == calls + more[..last];
      MovedMore(calls, more[..last]);
    }
  }

  lemma MovedPrefix(calls: seq<Call>, j: nat)
    requires j <= |calls|
    ensures Moved(calls[..j]) <= Moved(calls)
  {
    assert calls == calls[..j] + calls[j..];
    MovedMore(calls[..j], calls[j..]);
  }

  /** An unhandled error is the last call, and that is what a failure means. */
  ghost predicate EndsOnError(calls: seq<Call>, mode: Mode, failed: bool) {
    && (failed <==> calls != [] && Hard(calls[|calls| - 1], mode))
    && forall i :: 0 <= i < |calls| - 1 ==> !Hard(calls[i], mode)
  }

  /** A call that a stop signal interrupts is the last one. */
  ghost predicate Heeds(calls: seq<Call>, before: bool) {
    forall j :: 0 <= j < |calls| - 1 && calls[j].IoCall? && calls[j].event.Interrupted? ==>
      !Flag(before, calls[..j + 1])
  }

  predicate AllIo(calls: seq<Call>) {
    forall i :: 0 <= i < |calls| ==> calls[i].IoCall?
  }

  /** The calls have the recorded outcomes, one after the other, and move all they can when these are used up. */
  ghost predicate Played(calls: seq<Call>, script: seq<IoEvent>, later: seq<IoEvent>) {
    && AllIo(calls)
    && later == (if |calls| <= |script| then script[|calls|..] else [])
    && forall i :: 0 <= i < |calls| ==>
         if i < |script| then calls[i].event == script[i] else calls[i].event.Transfer? && !calls[i].event.stop
  }

  lemma PlayedMore(calls: seq<Call>, more: seq<Call>, script: seq<IoEvent>, later: seq<IoEvent>,
                   last: seq<IoEvent>)
    requires Played(calls, script, later) && Played(more, later, last)
    ensures Played(calls + more, script, last)
  {
  }

  lemma OneMoreCall(calls: seq<Call>, c: Call, before: bool, first: seq<IoEvent>, script: seq<IoEvent>,
                    later: seq<IoEvent>)
    requires Played(calls, first, script) && c.IoCall?
    requires later == if script == [] then [] else script[1..]
    requires if script == [] then c.event.Transfer? && !c.event.stop else c.event == script[0]
    ensures Played(calls + [c], first, later)
    ensures Flag(before, calls + [c]) == (Flag(before, calls) || Stops(c))
    ensures Moved(calls + [c]) == Moved(calls) + c.moved
  {
    FlagMore(before, calls, [c]);
    assert (calls + [c])[..|calls|] == calls;
  }

  datatype FieldStatus = Complete | EndOfStream | Interrupt | Broken

  /** What one round of a resumable loop yields: further bytes, nothing, or the end of the loop. */
  datatype Step = More(n: nat) | Again | End(status: FieldStatus)

  predicate LastInterrupted(calls: seq<Call>) {
    calls != [] && calls[|calls| - 1].IoCall? && calls[|calls| - 1].event.Interrupted?
  }

  predicate LastAtEnd(calls: seq<Call>) {
    calls != [] && calls[|calls| - 1].IoCall? && calls[|calls| - 1].event.Transfer? && calls[|calls| - 1].moved == 0
  }

  /** How a resumable loop ends and its calls, with the stop flag before and after them. */
  ghost predicate FieldOk(status: FieldStatus, calls: seq<Call>, before: bool, after: bool, mode: Mode,
                          checkStop: bool) {
    && after == Flag(before, calls)
    && EndsOnError(calls, mode, status.Broken?)
    && Heeds(calls, before)
    // with a check before each read only the last one can meet a stop signal
    && (checkStop && calls != [] ==> !Flag(before, calls[..|calls| - 1]))
    && (status.Interrupt? ==> after && (checkStop || LastInterrupted(calls)))
    && (LastInterrupted(calls) ==> status.Interrupt?)
    && (status.EndOfStream? <==> LastAtEnd(calls))
  }

  /** The calls of a resumable loop that goes on. */
  ghost predicate Going(calls: seq<Call>, before: bool, mode: Mode, checkStop: bool) {
    && (forall i :: 0 <= i < |calls| ==> !Hard(calls[i], mode))
    && (forall j :: 0 <= j < |calls| && calls[j].IoCall? && calls[j].event.Interrupted? ==>
          !Flag(before, calls[..j + 1]))
    && (checkStop && calls != [] ==> !Flag(before, calls[..|calls| - 1]))
    && !LastAtEnd(calls)
  }

  lemma GoesOn(calls: seq<Call>, c: Call, before: bool, mode: Mode, checkStop: bool)
    requires Going(calls, before, mode, checkStop) && (checkStop ==> !Flag(before, calls))
    requires c.IoCall? && !Hard(c, mode) && (c.event.Interrupted? ==> !Flag(before, calls + [c]))
    requires c.event.Transfer? ==> c.moved > 0
    ensures Going(calls + [c], before, mode, checkStop)
  {
    var all := calls + [c];
    assert all[..|all| - 1] == calls && all[..|all|] == all;
    forall j | 0 <= j < |all| && all[j].IoCall? && all[j].event.Interrupted? ensures !Flag(before, all[..j + 1]) {
      assert j < |calls| ==> all[..j + 1] == calls[..j + 1];
    }
  }

  lemma StopsHere(status: FieldStatus, calls: seq<Call>, c: Call, before: bool, mode: Mode, checkStop: bool)
    requires Going(calls, before, mode, checkStop) && (checkStop ==> !Flag(before, calls)) && c.IoCall?
    requires match status
             case Broken => Hard(c, mode)
             case Interrupt => c.event.Interrupted? && Flag(before, calls + [c])
             case EndOfStream => c.event.Transfer? && c.moved == 0
             case Complete => false
    ensures FieldOk(status, calls + [c], before, Flag(before, calls + [c]), mode, checkStop)
  {
    var all := calls + [c];
    assert all[..|all| - 1] == calls && all[|all| - 1] == c;
    forall j | 0 <= j < |all| - 1 && all[j].IoCall? && all[j].event.Interrupted? ensures !Flag(before, all[..j + 1]) {
      assert all[..j + 1] == calls[..j + 1];
    }
  }

  lemma StopsBetween(status: FieldStatus, calls: seq<Call>, before: bool, mode: Mode, checkStop: bool)
    requires Going(calls, before, mode, checkStop)
    requires match status
             case Interrupt => checkStop && Flag(before, calls)
             case Complete => !LastInterrupted(calls)
             case _ => false
    ensures FieldOk(status, calls, before, Flag(before, calls), mode, checkStop)
  {
    assert calls[..|calls|] == calls;
  }

  /** The calls of this run of a method. */
  ghost function Since(log: seq<Call>, before: seq<Call>): seq<Call> {
    if |before| <= |log| then log[|before|..] else []
  }

  lemma Chain(log: seq<Call>, mid: seq<Call>, now: seq<Call>)
    requires log <= mid <= now
    ensures log <= now && Since(now, log) == Since(mid, log) + Since(now, mid)
  {
  }

  /** A resumable loop that goes on after `total` bytes: the log has grown from `log` to `now`, the outcomes to come
      from `first` to `script`, and the stop flag was and is as given. */
  ghost predicate Begun(total: nat, log: seq<Call>, now: seq<Call>, first: seq<IoEvent>, script: seq<IoEvent>,
                        before: bool, after: bool, mode: Mode, checkStop: bool) {
    var calls := Since(now, log);
    && log <= now && total == Moved(calls) && Played(calls, first, script) && after == Flag(before, calls)
    && Going(calls, before, mode, checkStop)
  }

  /** A resumable loop that has ended. */
  ghost predicate FieldDone(
      status: FieldStatus, total: nat, log: seq<Call>, now: seq<Call>, first: seq<IoEvent>, script: seq<IoEvent>,
      before: bool, after: bool, mode: Mode, checkStop: bool) {
    var calls := Since(now, log);
    && log <= now && total == Moved(calls) && Played(calls, first, script)
    && FieldOk(status, calls, before, after, mode, checkStop)
  }

  lemma Start(log: seq<Call>, first: seq<IoEvent>, before: bool, mode: Mode, checkStop: bool)
    ensures Begun(0, log, log, first, first, before, before, mode, checkStop)
    ensures !LastInterrupted(Since(log, log))
  {
  }

  /** What one more call means for the loop. */
  lemma Round(c: Call, total: nat, log: seq<Call>, now: seq<Call>, first: seq<IoEvent>, script: seq<IoEvent>,
              later: seq<IoEvent>, before: bool, after: bool, mode: Mode, checkStop: bool)
    requires Begun(total, log, now, first, script, before, after, mode, checkStop) && (checkStop ==> !after)
    requires c.IoCall? && later == if script == [] then [] else script[1..]
    requires if script == [] then c.event.Transfer? && !c.event.stop else c.event == script[0]
    ensures LastInterrupted(Since(now + [c], log)) <==> c.event.Interrupted?
    ensures !Hard(c, mode) && (c.event.Interrupted? ==> !after && !Stops(c)) && (c.event.Transfer? ==> c.moved > 0) ==>
              Begun(total + c.moved, log, now + [c], first, later, before, after || Stops(c), mode, checkStop)
    ensures Hard(c, mode) && c.moved == 0 ==>
              FieldDone(Broken, total, log, now + [c], first, later, before, after || Stops(c), mode, checkStop)
    ensures c.event.Interrupted? && (after || Stops(c)) && c.moved == 0 ==>
              FieldDone(Interrupt, total, log, now + [c], first, later, before, true, mode, checkStop)
    ensures c.event.Transfer? && c.moved == 0 ==>
              FieldDone(EndOfStream, total, log, now + [c], first, later, before, after || Stops(c), mode, checkStop)
  {
    var calls := Since(now, log);
    assert Since(now + [c], log) == calls + [c];
    OneMoreCall(calls, c, before, first, script, later);
    hide Going, FieldOk, Flag, Played, Moved, EndsOnError, Heeds, Since;
    if Hard(c, mode) {
      StopsHere(Broken, calls, c, before, mode, checkStop);
    } else if c.event.Interrupted? && (after || Stops(c)) {
      StopsHere(Interrupt, calls, c, before, mode, checkStop);
    } else if c.event.Transfer? && c.moved == 0 {
      StopsHere(EndOfStream, calls, c, before, mode, checkStop);
    } else {
      GoesOn(calls, c, before, mode, checkStop);
    }
  }

  /** A loop that ends without a further call. */
  lemma NoRound(status: FieldStatus, total: nat, log: seq<Call>, now: seq<Call>, first: seq<IoEvent>,
                script: seq<IoEvent>, before: bool, after: bool, mode: Mode, checkStop: bool)
    requires Begun(total, log, now, first, script, before, after, mode, checkStop)
    requires match status
             case Interrupt => checkStop && after
             case Complete => !LastInterrupted(Since(now, log))
             case _ => false
    ensures FieldDone(status, total, log, now, first, script, before, after, mode, checkStop)
  {
    StopsBetween(status, Since(now, log), before, mode, checkStop);
  }

  // ----- Joining the calls of several loops -----

  /** Calls of which none is an unhandled error or stopped while it was interrupted, and further ones. */
  lemma JoinedCalls(c1: seq<Call>, c2: seq<Call>, before: bool, mode: Mode, failed: bool)
    requires EndsOnError(c1, mode, false) && Heeds(c1, before) && c1 != []
    requires LastInterrupted(c1) ==> !Flag(before, c1)
    requires EndsOnError(c2, mode, failed) && Heeds(c2, Flag(before, c1))
    ensures EndsOnError(c1 + c2, mode, failed) && Heeds(c1 + c2, before)
    ensures c2 != [] ==> Flag(before, (c1 + c2)[..|c1 + c2| - 1]) == Flag(Flag(before, c1), c2[..|c2| - 1])
  {
    var all := c1 + c2;
    forall j | 0 <= j < |all| - 1 && all[j].IoCall? && all[j].event.Interrupted? ensures !Flag(before, all[..j + 1]) {
      if j < |c1| {
        assert all[..j + 1] == c1[..j + 1];
        assert c1[..|c1|] == c1;
      } else {
        assert all[..j + 1] == c1 + c2[..j - |c1| + 1];
        FlagMore(before, c1, c2[..j - |c1| + 1]);
      }
    }
    if c2 == [] {
      assert all == c1;
    } else {
      assert all[..|all| - 1] == c1 + c2[..|c2| - 1];
      FlagMore(before, c1, c2[..|c2| - 1]);
    }
  }

  lemma PrefixFlag(before: bool, c1: seq<Call>, c2: seq<Call>, j: nat)
    requires j <= |c1 + c2|
    ensures j <= |c1| && Flag(before, (c1 + c2)[..j]) ==> Flag(before, c1)
  {
  }

  lemma LastFlag(c1: seq<Call>, c2: seq<Call>, before: bool)
    requires c2 != [] && !Flag(before, c1) && !Flag(false, c2[..|c2| - 1])
    ensures !Flag(before, (c1 + c2)[..|c1 + c2| - 1])
  {
    assert (c1 + c2)[..|c1 + c2| - 1] == c1 + c2[..|c2| - 1];
    FlagMore(before, c1, c2[..|c2| - 1]);
  }

  /** Polls happen only with the stop flag down. */
  ghost predicate PollsCalmly(calls: seq<Call>, before: bool) {
    forall j :: 0 <= j < |calls| && calls[j].PollCall? ==> !Flag(before, calls[..j])
  }

  lemma MorePollsCalmly(c1: seq<Call>, c2: seq<Call>, before: bool)
    requires PollsCalmly(c1, before) && AllIo(c2)
    ensures PollsCalmly(c1 + c2, before)
  {
    forall j | 0 <= j < |c1 + c2| && (c1 + c2)[j].PollCall? ensures !Flag(before, (c1 + c2)[..j]) {
      assert (c1 + c2)[..j] == c1[..j];
    }
  }
}
