/** Frames and whole runs of the writing ends of the FIFO: which calls are made, and when a writer completes. */
module WriteRuns {
  import opened SystemCalls
  import opened IoCalls
  import opened Frames
  import opened Lines

  // ----- Outcomes that complete a frame -----

  /** How many of `count` bytes a write takes that may take up to `limit`: at least one. */
  function Portion(limit: nat, count: nat): (n: nat)
    requires 0 < count
    ensures 1 <= n <= count
    ensures n == count <==> limit >= count || count == 1
  {
    if limit == 0 then 1 else if limit < count then limit else count
  }

  /** The outcomes left over when a resumable loop has written `count` bytes. */
  function AfterField(script: seq<IoEvent>, count: nat): (left: seq<IoEvent>)
    ensures |left| <= |script|
  {
    if count == 0 || script == [] then script
    else if script[0].Transfer? then AfterField(script[1..], count - Portion(script[0].limit, count))
    else AfterField(script[1..], count)
  }

  /** The outcomes after one call. */
  function Later(script: seq<IoEvent>): seq<IoEvent> {
    if script == [] then [] else script[1..]
  }

  /** The next write takes a whole header. */
  predicate HeaderGoes(script: seq<IoEvent>) {
    script == [] || (script[0].Transfer? && script[0].limit >= HEADER)
  }

  /** Every message of the blocking writer finds an outcome that takes its header in one piece; payloads may be
      interrupted and written in pieces. */
  predicate HeadersGo(ms: seq<seq<Byte>>, script: seq<IoEvent>) {
    ms == [] || script == []
    || (HeaderGoes(script) && HeadersGo(ms[1..], AfterField(script[1..], |ms[0]|)))
  }

  // ----- The calls of one frame -----

  /** The header: a resumable loop in the polling writer, a single write in the blocking one. */
  ghost predicate HeaderDone(
      status: FieldStatus, total: nat, log: seq<Call>, now: seq<Call>, first: seq<IoEvent>, script: seq<IoEvent>,
      before: bool, after: bool, mode: Mode) {
    if mode.Polling? then FieldDone(status, total, log, now, first, script, before, after, mode, false)
    else
      var calls := Since(now, log);
      && log <= now && |calls| == 1 && Played(calls, first, script) && after == Flag(before, calls)
      && total == calls[0].moved && (total > 0 ==> calls[0].event.Transfer?)
      && status == if total == HEADER then Complete else Broken
  }

  /** The calls made for one frame. Without a whole header the blocking writer makes no further one; it tests for a stop
      signal before each write of the payload. */
  ghost predicate FrameCalls(status: FieldStatus, calls: seq<Call>, before: bool, after: bool, mode: Mode) {
    && calls != [] && AllIo(calls) && !status.EndOfStream?
    && after == Flag(before, calls) && (status.Interrupt? ==> after)
    && if mode.Blocking? && calls[0].moved < HEADER then |calls| == 1 && status.Broken?
       else
         && EndsOnError(calls, mode, status.Broken?) && (LastInterrupted(calls) ==> status.Interrupt?)
         && (mode.Polling? ==> Heeds(calls, before))
         && (mode.Blocking? ==> forall j :: 1 <= j < |calls| ==> !Flag(before, calls[..j]))
  }

  ghost predicate FrameDone(
      status: FieldStatus, total: nat, log: seq<Call>, now: seq<Call>, first: seq<IoEvent>, script: seq<IoEvent>,
      before: bool, after: bool, mode: Mode) {
    var calls := Since(now, log);
    && log <= now && total == Moved(calls) && Played(calls, first, script)
    && FrameCalls(status, calls, before, after, mode)
  }

  lemma OneCallMoved(calls: seq<Call>)
    requires |calls| == 1 && calls[0].IoCall?
    ensures Moved(calls) == calls[0].moved
  {
    assert calls[..0] == [];
  }

  lemma HeaderStops(status: FieldStatus, total: nat, log: seq<Call>, now: seq<Call>, first: seq<IoEvent>,
                    script: seq<IoEvent>, before: bool, after: bool, mode: Mode)
    requires HeaderDone(status, total, log, now, first, script, before, after, mode)
    requires !status.Complete? && !status.EndOfStream? && total < HEADER
    ensures FrameDone(status, total, log, now, first, script, before, after, mode)
  {
    if mode.Blocking? {
      OneCallMoved(Since(now, log));
    }
  }

  /** Header and payload of the blocking writer. */
  lemma BlockingFrame(c: Call, c2: seq<Call>, status: FieldStatus, before: bool, between: bool, after: bool)
    requires c.IoCall? && c.event.Transfer? && c.moved == HEADER && between == Flag(before, [c])
    requires FieldOk(status, c2, between, after, Blocking, true) && AllIo(c2) && !status.EndOfStream?
    ensures FrameCalls(status, [c] + c2, before, after, Blocking)
  {
    var calls := [c] + c2;
    FlagMore(before, [c], c2);
    if c2 == [] {
      assert calls == [c];
    } else {
      assert calls[|calls| - 1] == c2[|c2| - 1];
    }
    forall j | 1 <= j < |calls| ensures !Flag(before, calls[..j]) {
      assert calls[..j] == [c] + c2[..|c2| - 1][..j - 1];
      FlagMore(before, [c], c2[..|c2| - 1][..j - 1]);
      FlagMore(between, c2[..|c2| - 1], []);
    }
    forall i | 0 <= i < |calls| - 1 ensures !Hard(calls[i], Blocking) {
      assert i > 0 ==> calls[i] == c2[i - 1];
    }
  }

  lemma PollingFrame(c1: seq<Call>, c2: seq<Call>, status: FieldStatus, before: bool, between: bool, after: bool)
    requires FieldOk(Complete, c1, before, between, Polling, false) && c1 != [] && AllIo(c1)
    requires FieldOk(status, c2, between, after, Polling, false) && AllIo(c2) && !status.EndOfStream?
    ensures FrameCalls(status, c1 + c2, before, after, Polling)
  {
    FlagMore(before, c1, c2);
    JoinedCalls(c1, c2, before, Polling, status.Broken?);
    hide Flag, EndsOnError, Heeds;
    if c2 == [] {
      assert c1 + c2 == c1;
    } else {
      assert (c1 + c2)[|c1 + c2| - 1] == c2[|c2| - 1];
    }
  }

  lemma HeaderThenPayload(
      status: FieldStatus, total: nat, log: seq<Call>, mid: seq<Call>, now: seq<Call>, first: seq<IoEvent>,
      second: seq<IoEvent>, script: seq<IoEvent>, before: bool, between: bool, after: bool, mode: Mode)
    requires HeaderDone(Complete, HEADER, log, mid, first, second, before, between, mode)
    requires FieldDone(status, total, mid, now, second, script, between, after, mode, mode.Blocking?)
    requires !status.EndOfStream?
    ensures FrameDone(status, HEADER + total, log, now, first, script, before, after, mode)
  {
    var c1, c2 := Since(mid, log), Since(now, mid);
    Chain(log, mid, now);
    MovedMore(c1, c2);
    PlayedMore(c1, c2, first, second, script);
    if mode.Blocking? {
      OneCallMoved(c1);
      assert c1 == [c1[0]];
      BlockingFrame(c1[0], c2, status, before, between, after);
    } else {
      PollingFrame(c1, c2, status, before, between, after);
    }
    hide Since, Moved, Played, FrameCalls, Flag, EndsOnError, Heeds;
  }

  /** Outcomes without stop signal and hard error: nothing interrupts a frame, and only a header that does not go in one
      piece breaks it. */
  lemma CalmFrame(status: FieldStatus, total: nat, log: seq<Call>, now: seq<Call>, first: seq<IoEvent>,
                  script: seq<IoEvent>, after: bool, mode: Mode)
    requires FrameDone(status, total, log, now, first, script, false, after, mode) && Benign(first, mode)
    ensures Benign(script, mode) && !after && !status.Interrupt? && (mode.Polling? ==> status.Complete?)
    ensures mode.Blocking? && status.Broken? ==> total < HEADER
  {
    var calls := Since(now, log);
    forall i | 0 <= i < |calls| ensures !Stops(calls[i]) && !Hard(calls[i], mode) {
      assert i < |first| ==> calls[i].event == first[i];
    }
    if |calls| == 1 {
      OneCallMoved(calls);
    }
  }

  // ----- The calls of a whole run -----

  /** How a writer ends: fgets found no more input, a stop signal, or a failing call. */
  datatype WriterEnd = InputEnded | Stopped | Failed

  /** An unhandled error is the last call and means failure, for which the only other reason is a header of the blocking
      writer that does not go in one piece. The blocking writer makes no call with the stop flag up; the polling one
      does not poll with it up, and one that a stop signal interrupts ends at once. */
  ghost predicate WriterCalls(end: WriterEnd, calls: seq<Call>, before: bool, after: bool, mode: Mode) {
    && after == Flag(before, calls) && (end.Stopped? ==> after)
    && (forall i :: 0 <= i < |calls| - 1 ==> !Hard(calls[i], mode))
    && (calls != [] && Hard(calls[|calls| - 1], mode) ==> end.Failed?)
    && (end.Failed? ==>
          && calls != []
          && (Hard(calls[|calls| - 1], mode)
              || (mode.Blocking? && calls[|calls| - 1].IoCall? && calls[|calls| - 1].moved < HEADER)))
    && (mode.Polling? ==>
          Heeds(calls, before) && PollsCalmly(calls, before) && (LastInterrupted(calls) ==> end.Stopped?))
    && (mode.Blocking? ==> forall j :: 0 <= j < |calls| ==> !Flag(before, calls[..j]))
  }

  /** The calls made when a writer is between two frames. */
  ghost predicate AtRest(calls: seq<Call>, before: bool, after: bool, mode: Mode) {
    && after == Flag(before, calls)
    && (forall i :: 0 <= i < |calls| ==> !Hard(calls[i], mode))
    && (mode.Polling? ==> Heeds(calls, before) && PollsCalmly(calls, before) && !LastInterrupted(calls))
    && (mode.Blocking? ==> forall j :: 0 <= j < |calls| ==> !Flag(before, calls[..j]))
  }

  lemma RestEnds(end: WriterEnd, calls: seq<Call>, before: bool, after: bool, mode: Mode)
    requires AtRest(calls, before, after, mode) && (if end.Stopped? then after else end.InputEnded?)
    ensures WriterCalls(end, calls, before, after, mode)
  {
  }

  /** One more poll. */
  lemma PollRests(c1: seq<Call>, stop: bool, before: bool)
    requires AtRest(c1, before, false, Polling)
    ensures AtRest(c1 + [PollCall(false, stop)], before, stop, Polling)
    ensures Moved(c1 + [PollCall(false, stop)]) == Moved(c1)
    ensures forall j :: 0 <= j <= |c1| ==> !Flag(before, (c1 + [PollCall(false, stop)])[..j])
  {
    var c := PollCall(false, stop);
    var all := c1 + [c];
    FlagMore(before, c1, [c]);
    assert [c][0] == c && all[..|c1|] == c1;
    forall j | 0 <= j <= |c1| ensures !Flag(before, all[..j]) {
      PrefixFlag(before, c1, [c], j);
    }
  }

  /** What the last call of a frame tells. */
  lemma FrameEnd(status: FieldStatus, calls: seq<Call>, before: bool, after: bool, mode: Mode)
    requires FrameCalls(status, calls, before, after, mode)
    ensures calls != []
    ensures var last := calls[|calls| - 1];
            && (Hard(last, mode) ==> status.Broken?)
            && (status.Broken? ==> Hard(last, mode) || (mode.Blocking? && last.IoCall? && last.moved < HEADER))
            && (mode.Polling? && LastInterrupted(calls) ==> status.Interrupt?)
            && (status.Interrupt? ==> after) && !status.EndOfStream? && after == Flag(before, calls)
  {
  }

  /** One frame more, begun with the stop flag down. */
  lemma FrameAdds(c1: seq<Call>, c2: seq<Call>, status: FieldStatus, before: bool, after: bool, mode: Mode)
    requires AtRest(c1, before, false, mode) && FrameCalls(status, c2, false, after, mode)
    ensures status.Complete? ==> AtRest(c1 + c2, before, after, mode)
    ensures !status.Complete? ==>
              WriterCalls(if status.Interrupt? then Stopped else Failed, c1 + c2, before, after, mode)
    ensures Moved(c1 + c2) == Moved(c1) + Moved(c2)
    ensures forall j :: 0 <= j <= |c1 + c2| && Flag(before, (c1 + c2)[..j]) ==>
              |c1| < j && Moved((c1 + c2)[..j]) >= Moved(c1)
  {
    hide Flag, Moved, FrameCalls, Hard;
    FrameEnd(status, c2, false, after, mode);
    MovedMore(c1, c2);
    FlagLater(c1, c2, before);
    FrameHard(c1, c2, status, after, mode);
    FrameFlag(c1, c2, before, after);
    if mode.Polling? {
      FrameAddsPolling(c1, c2, status, before, after);
    } else {
      FrameAddsBlocking(c1, c2, status, before, after);
    }
    LastOf(c1, c2, mode);
    hide Heeds, PollsCalmly, LastInterrupted;
  }

  lemma FrameFlag(c1: seq<Call>, c2: seq<Call>, before: bool, after: bool)
    requires !Flag(before, c1) && after == Flag(false, c2)
    ensures after == Flag(before, c1 + c2)
  {
    FlagMore(before, c1, c2);
  }

  lemma LastOf(c1: seq<Call>, c2: seq<Call>, mode: Mode)
    requires c2 != []
    ensures |c1 + c2| > 0 && (c1 + c2)[|c1 + c2| - 1] == c2[|c2| - 1]
    ensures LastInterrupted(c1 + c2) <==> LastInterrupted(c2)
  {
  }

  /** Only the last call of a frame can be an unhandled error, and only of one that breaks. */
  lemma FrameHard(c1: seq<Call>, c2: seq<Call>, status: FieldStatus, after: bool, mode: Mode)
    requires (forall k :: 0 <= k < |c1| ==> !Hard(c1[k], mode)) && FrameCalls(status, c2, false, after, mode)
    ensures forall i :: 0 <= i < |c1 + c2| - 1 ==> !Hard((c1 + c2)[i], mode)
    ensures !status.Broken? ==> forall i :: 0 <= i < |c1 + c2| ==> !Hard((c1 + c2)[i], mode)
  {
    var all := c1 + c2;
    forall i | 0 <= i < |all| && (i < |all| - 1 || !status.Broken?) ensures !Hard(all[i], mode) {
      if i >= |c1| {
        assert all[i] == c2[i - |c1|];
      }
    }
  }

  lemma FlagLater(c1: seq<Call>, c2: seq<Call>, before: bool)
    requires !Flag(before, c1)
    ensures forall j :: 0 <= j <= |c1 + c2| && Flag(before, (c1 + c2)[..j]) ==>
              |c1| < j && Moved((c1 + c2)[..j]) >= Moved(c1)
  {
    forall j | 0 <= j <= |c1 + c2| && Flag(before, (c1 + c2)[..j])
      ensures |c1| < j && Moved((c1 + c2)[..j]) >= Moved(c1)
    {
      PrefixFlag(before, c1, c2, j);
      assert (c1 + c2)[..j] == c1 + c2[..j - |c1|];
      MovedMore(c1, c2[..j - |c1|]);
    }
  }

  lemma FrameAddsPolling(c1: seq<Call>, c2: seq<Call>, status: FieldStatus, before: bool, after: bool)
    requires AtRest(c1, before, false, Polling) && FrameCalls(status, c2, false, after, Polling)
    ensures Heeds(c1 + c2, before) && PollsCalmly(c1 + c2, before)
  {
    MorePollsCalmly(c1, c2, before);
    if c1 == [] {
      assert c1 + c2 == c2;
    } else {
      JoinedCalls(c1, c2, before, Polling, status.Broken?);
    }
  }

  lemma FrameAddsBlocking(c1: seq<Call>, c2: seq<Call>, status: FieldStatus, before: bool, after: bool)
    requires AtRest(c1, before, false, Blocking) && FrameCalls(status, c2, false, after, Blocking)
    ensures forall j :: 0 <= j < |c1 + c2| ==> !Flag(before, (c1 + c2)[..j])
  {
    forall j | 0 <= j < |c1 + c2| ensures !Flag(before, (c1 + c2)[..j]) {
      PrefixFlag(before, c1, c2, j);
      if j > |c1| {
        assert (c1 + c2)[..j] == c1 + c2[..j - |c1|];
        FlagMore(before, c1, c2[..j - |c1|]);
      }
    }
  }

  /** At each point at which the stop flag is up, at most the frame that was begun is still to be completed. */
  ghost predicate SentAfterStop(accepted: seq<Byte>, calls: seq<Call>, before: bool, size: nat) {
    forall j :: 0 <= j <= |calls| && Flag(before, calls[..j]) ==>
      var taken := Moved(calls[..j]);
      && taken <= |accepted|
      && |Parse(accepted, size).messages| <= |Parse(accepted[..taken], size).messages| + 1
  }

  lemma NothingAfterPoll(accepted: seq<Byte>, c1: seq<Call>, stop: bool, before: bool, size: nat)
    requires AtRest(c1, before, false, Polling) && Moved(c1) == |accepted|
    ensures SentAfterStop(accepted, c1 + [PollCall(false, stop)], before, size)
  {
    PollRests(c1, stop, before);
    var all := c1 + [PollCall(false, stop)];
    assert all[..|all|] == all && accepted[..|accepted|] == accepted;
  }

  /** The bytes of whole frames and of a part of one more. */
  lemma AtMostOneFrameMore(sent: seq<seq<Byte>>, m: seq<Byte>, accepted: seq<Byte>, taken: nat, size: nat)
    requires size <= MAX_BUFFER && AllValid(sent, size) && Valid(m, size)
    requires Encode(sent) <= accepted <= Encode(sent) + Frame(m) && |Encode(sent)| <= taken <= |accepted|
    ensures |Parse(accepted, size).messages| <= |Parse(accepted[..taken], size).messages| + 1
  {
    var e, part := Encode(sent), accepted[..taken];
    assert part == e + part[|e|..];
    ParseEncode(sent, part[|e|..], size);
    var all := sent + [m];
    EncodeAppend(sent, m);
    RoundTrip(all, size);
    var rest := Encode(all)[|accepted|..];
    assert Encode(all) == accepted + rest;
    ParsePrefix(accepted, rest, size);
  }

  lemma FrameAfterStop(sent: seq<seq<Byte>>, m: seq<Byte>, accepted: seq<Byte>, c1: seq<Call>, c2: seq<Call>,
                       status: FieldStatus, before: bool, after: bool, size: nat, mode: Mode)
    requires AtRest(c1, before, false, mode) && FrameCalls(status, c2, false, after, mode)
    requires size <= MAX_BUFFER && AllValid(sent, size) && Valid(m, size)
    requires Encode(sent) <= accepted <= Encode(sent) + Frame(m)
    requires Moved(c1) == |Encode(sent)| && Moved(c1 + c2) == |accepted|
    ensures SentAfterStop(accepted, c1 + c2, before, size)
  {
    var all := c1 + c2;
    FrameAdds(c1, c2, status, before, after, mode);
    hide Encode, Frame, Parse, Moved, Flag, AtRest, FrameCalls, WriterCalls;
    forall j | 0 <= j <= |all| && Flag(before, all[..j])
      ensures var taken := Moved(all[..j]);
              && taken <= |accepted|
              && |Parse(accepted, size).messages| <= |Parse(accepted[..taken], size).messages| + 1
    {
      MovedPrefix(all, j);
      AtMostOneFrameMore(sent, m, accepted, Moved(all[..j]), size);
    }
  }

  // ----- Where the blocking writer does less -----

  /** Each of `k` messages with its header and payload in one write each. */
  function Smooth(k: nat): seq<IoEvent> {
    seq(2 * k, _ => Transfer(MAX_BUFFER, false))
  }

  /** For any messages and any one of them: a signal during the write of its header, or a write that takes only part
      of the header, ends the blocking writer, although there is no stop signal and no hard error. This is about an
      arbitrary kernel; `HeadersGoInPractice` is about a POSIX FIFO and the program's own handlers. */
  lemma {:induction false} HeaderInterruptionStops(ms: seq<seq<Byte>>, size: nat, k: nat, part: nat)
    requires size <= MAX_BUFFER && AllValid(ms, size) && k < |ms| && part < HEADER
    ensures var signal, short := Smooth(k) + [Interrupted(false)], Smooth(k) + [Transfer(part, false)];
            && Benign(signal, Blocking) && !HeadersGo(ms, signal)
            && Benign(short, Blocking) && !HeadersGo(ms, short)
  {
    if k == 0 {
    } else {
      HeaderInterruptionStops(ms[1..], size, k - 1, part);
      SmoothFirst(ms[0], size, k, [Interrupted(false)]);
      SmoothFirst(ms[0], size, k, [Transfer(part, false)]);
    }
  }

  lemma SmoothFirst(m: seq<Byte>, size: nat, k: nat, end: seq<IoEvent>)
    requires size <= MAX_BUFFER && Valid(m, size) && k > 0
    ensures var script := Smooth(k) + end;
            HeaderGoes(script) && AfterField(script[1..], |m|) == Smooth(k - 1) + end
  {
    var script := Smooth(k) + end;
    assert script[1..][1..] == Smooth(k - 1) + end;
  }

  /** The handlers of the program all set the stop flag, and a POSIX FIFO takes a blocking write of at most PIPE_BUF
      bytes as a whole. With such outcomes nothing but a stop signal or a hard error keeps a header from going. */
  lemma {:induction false} HeadersGoInPractice(ms: seq<seq<Byte>>, script: seq<IoEvent>)
    requires Benign(script, Blocking)
    requires forall i :: 0 <= i < |script| && script[i].Interrupted? ==> script[i].stop
    requires forall i :: 0 <= i < |script| && script[i].Transfer? ==> script[i].limit >= HEADER
    ensures HeadersGo(ms, script)
  {
    if ms == [] || script == [] {
    } else {
      assert script[0].Transfer?;
      LeftOver(script[1..], |ms[0]|);
      HeadersGoInPractice(ms[1..], AfterField(script[1..], |ms[0]|));
    }
  }

  /** A field uses up the first outcomes. */
  lemma {:induction false} LeftOver(script: seq<IoEvent>, count: nat)
    ensures var left := AfterField(script, count); left == script[|script| - |left|..]
  {
    if count == 0 || script == [] {
    } else {
      LeftOver(script[1..], if script[0].Transfer? then count - Portion(script[0].limit, count) else count);
    }
  }
}
