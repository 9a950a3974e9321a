/** Messages and whole runs of the reading ends of the FIFO: what is printed, and which calls are made for it. */
module ReadRuns {
  import opened SystemCalls
  import opened Frames
  import opened IoCalls

  /** What one call of poll does. */
  datatype PollEvent = Timeout(stop: bool) | PollInterrupted(stop: bool) | PollFailure | Ready(pollin: bool)

  predicate PollStops(e: PollEvent) {
    match e
    case Timeout(s) => s
    case PollInterrupted(s) => s
    case _ => false
  }

  /** No stop signal and no failing poll; how often poll reports readable data. */
  predicate Patient(polls: seq<PollEvent>) {
    forall i :: 0 <= i < |polls| ==>
      match polls[i]
      case Timeout(s) => !s
      case PollInterrupted(s) => !s
      case PollFailure => false
      case Ready(_) => true
  }

  function ReadyCount(polls: seq<PollEvent>): nat {
    if polls == [] then 0 else (if polls[0] == Ready(true) then 1 else 0) + ReadyCount(polls[1..])
  }

  /** How a reader ends: on its own, by a stop signal or by a failing call. */
  datatype Ending = Ended(verdict: Verdict) | Stopped | Failed

  /** The outcome of one message: delivered, or the reader ends. */
  datatype Delivery = Delivered(text: seq<Byte>) | Quit(ending: Ending)

  /** What reading the next message of the stream `before` must deliver, unless a signal or an error intervenes; if
      nothing is delivered, what was read holds no message. */
  ghost predicate DeliveryOk(d: Delivery, before: seq<Byte>, after: seq<Byte>, size: nat) {
    && |after| <= |before| && after == before[|before| - |after|..]
    && match d
       case Delivered(text) =>
         && |before| >= HEADER
         && (var len := Length(before[..HEADER]);
             && 0 < len <= size && HEADER + len <= |before|
             && text == Text(before[HEADER..HEADER + len])
             && after == before[HEADER + len..])
       case Quit(e) =>
         && Parse(before[..|before| - |after|], size).messages == []
         && (e.Ended? ==> Parse(before, size) == Parsed([], e.verdict))
  }

  /** The calls made for one message. */
  ghost predicate MessageCalls(d: Delivery, calls: seq<Call>, before: bool, after: bool, mode: Mode) {
    && calls != [] && AllIo(calls)
    && after == Flag(before, calls)
    && EndsOnError(calls, mode, d == Quit(Failed))
    && Heeds(calls, before)
    && (d == Quit(Stopped) ==> after)
    && (LastInterrupted(calls) ==> d == Quit(Stopped))
    && (LastAtEnd(calls) <==> d == Quit(Ended(Clean)) || d == Quit(Ended(Truncated)))
    // the blocking reader tests for a stop signal before each read of a payload
    && (mode.Blocking? && d.Delivered? ==> !Flag(before, calls[..|calls| - 1]))
  }

  ghost predicate MessageDone(
      d: Delivery, total: nat, log: seq<Call>, now: seq<Call>, first: seq<IoEvent>, script: seq<IoEvent>,
      before: bool, after: bool, mode: Mode) {
    var calls := Since(now, log);
    log <= now && total == Moved(calls) && Played(calls, first, script) && MessageCalls(d, calls, before, after, mode)
  }

  /** What the end of a read loop means for the message. */
  predicate Means(status: FieldStatus, d: Delivery, atEnd: Verdict) {
    match status
    case Broken => d == Quit(Failed)
    case Interrupt => d == Quit(Stopped)
    case EndOfStream => d == Quit(Ended(atEnd))
    case Complete => d.Delivered? || (d.ending.Ended? && d.ending.verdict.BadLength?)
  }

  lemma HeaderOnly(status: FieldStatus, d: Delivery, total: nat, log: seq<Call>, now: seq<Call>,
                   first: seq<IoEvent>, script: seq<IoEvent>, before: bool, after: bool, mode: Mode)
    requires FieldDone(status, total, log, now, first, script, before, after, mode, false)
    requires Means(status, d, Clean) && d.Quit? && (total == 0 ==> !status.Complete?)
    ensures MessageDone(d, total, log, now, first, script, before, after, mode)
  {
  }

  /** A payload read by a loop that ended in some way. */
  ghost predicate PayloadDone(
      d: Delivery, total: nat, log: seq<Call>, now: seq<Call>, first: seq<IoEvent>, script: seq<IoEvent>,
      before: bool, after: bool, mode: Mode) {
    exists status ::
      FieldDone(status, total, log, now, first, script, before, after, mode, mode.Blocking?)
      && Means(status, d, Truncated) && (status.Complete? ==> d.Delivered? && total > 0)
  }

  /** The calls of both loops together. */
  lemma TwoFields(c1: seq<Call>, c2: seq<Call>, status: FieldStatus, d: Delivery, before: bool, between: bool,
                  after: bool, mode: Mode)
    requires FieldOk(Complete, c1, before, between, mode, false) && c1 != []
    requires FieldOk(status, c2, between, after, mode, mode.Blocking?)
    requires Means(status, d, Truncated) && (status.Complete? ==> d.Delivered? && c2 != [])
    requires AllIo(c1) && AllIo(c2)
    ensures MessageCalls(d, c1 + c2, before, after, mode)
  {
    FlagMore(before, c1, c2);
    JoinedCalls(c1, c2, before, mode, status.Broken?);
    hide Flag, EndsOnError, Heeds;
    if c2 == [] {
      assert c1 + c2 == c1;
    } else {
      assert (c1 + c2)[|c1 + c2| - 1] == c2[|c2| - 1];
    }
  }

  lemma HeaderAndPayload(
      d: Delivery, len: nat, total: nat, log: seq<Call>, mid: seq<Call>, now: seq<Call>,
      first: seq<IoEvent>, second: seq<IoEvent>, script: seq<IoEvent>, before: bool, between: bool, after: bool,
      mode: Mode)
    requires FieldDone(Complete, len, log, mid, first, second, before, between, mode, false) && len > 0
    requires PayloadDone(d, total, mid, now, second, script, between, after, mode)
    ensures MessageDone(d, len + total, log, now, first, script, before, after, mode)
  {
    var c1, c2 := Since(mid, log), Since(now, mid);
    var status :|
      FieldDone(status, total, mid, now, second, script, between, after, mode, mode.Blocking?)
      && Means(status, d, Truncated) && (status.Complete? ==> d.Delivered? && total > 0);
    Chain(log, mid, now);
    assert c1 != [] && (status.Complete? ==> c2 != []);
    hide Since, Flag, EndsOnError, Heeds, FieldOk, MessageCalls, Means;
    MovedMore(c1, c2);
    PlayedMore(c1, c2, first, second, script);
    TwoFields(c1, c2, status, d, before, between, after, mode);
  }

  /** Outcomes without stop signal and hard error let a message come to its natural end. */
  lemma CalmMessage(d: Delivery, total: nat, log: seq<Call>, now: seq<Call>, first: seq<IoEvent>,
                    script: seq<IoEvent>, after: bool, mode: Mode)
    requires MessageDone(d, total, log, now, first, script, false, after, mode) && Benign(first, mode)
    ensures Benign(script, mode) && !after && (d.Quit? ==> d.ending.Ended?)
  {
    var calls := Since(now, log);
    forall i | 0 <= i < |calls| ensures !Stops(calls[i]) && !Hard(calls[i], mode) {
      assert i < |first| ==> calls[i].event == first[i];
    }
  }

  lemma PartialHoldsNone(stream: seq<Byte>, n: nat, size: nat)
    requires n <= |stream|
    requires n < HEADER || (var len := Length(stream[..HEADER]); len == 0 || len > size || n < HEADER + len)
    ensures Parse(stream[..n], size).messages == []
  {
    if n >= HEADER {
      assert stream[..n][..HEADER] == stream[..HEADER];
    }
  }

  lemma HeaderFails(stream: seq<Byte>, total: nat, status: FieldStatus, size: nat)
    requires total < HEADER && total <= |stream| && !status.Complete?
    requires status.EndOfStream? ==> total == |stream|
    ensures DeliveryOk(Quit(EndingOf(status, Clean)), stream, stream[total..], size)
  {
    PartialHoldsNone(stream, total, size);
  }

  lemma LengthFails(stream: seq<Byte>, len: nat, size: nat)
    requires |stream| >= HEADER && len == Length(stream[..HEADER]) && (len == 0 || len > size)
    ensures DeliveryOk(Quit(Ended(BadLength(len))), stream, stream[HEADER..], size)
  {
    PartialHoldsNone(stream, HEADER, size);
  }

  lemma PayloadFails(stream: seq<Byte>, len: nat, total: nat, status: FieldStatus, size: nat)
    requires HEADER + total <= |stream| && len == Length(stream[..HEADER]) && 0 < len <= size
    requires total < len && !status.Complete? && (status.EndOfStream? ==> HEADER + total == |stream|)
    ensures DeliveryOk(Quit(EndingOf(status, Truncated)), stream, stream[HEADER + total..], size)
  {
    PartialHoldsNone(stream, HEADER + total, size);
  }

  lemma PayloadDelivers(stream: seq<Byte>, len: nat, size: nat)
    requires HEADER + len <= |stream| && len == Length(stream[..HEADER]) && 0 < len <= size
    ensures DeliveryOk(Delivered(Text(stream[HEADER..HEADER + len])), stream, stream[HEADER + len..], size)
  {
  }

  /** How a reader ends when a read loop does not complete. */
  function EndingOf(status: FieldStatus, atEnd: Verdict): Ending {
    if status.Interrupt? then Stopped else if status.Broken? then Failed else Ended(atEnd)
  }

  lemma PayloadRead(stream: seq<Byte>, len: nat, total: nat, got: seq<Byte>, left: seq<Byte>)
    requires HEADER + total <= |stream| && total <= len
    requires got == stream[HEADER..][..total] && left == stream[HEADER..][total..]
    ensures got == stream[HEADER..HEADER + total] && left == stream[HEADER + total..]
    ensures |left| == |stream| - HEADER - total
  {
  }

  // ----- Whole runs -----

  /** What a reader has printed is what was complete in the bytes it has read. */
  ghost predicate Printed(printed: seq<seq<Byte>>, stream: seq<Byte>, read: nat, size: nat) {
    read <= |stream| && printed == Texts(Parse(stream[..read], size).messages)
  }

  /** A reader between two messages. */
  ghost predicate Between(printed: seq<seq<Byte>>, stream: seq<Byte>, unread: seq<Byte>, read: nat, size: nat) {
    && Printed(printed, stream, read, size)
    && unread == stream[read..] && Whole(stream[..read], size)
  }

  /** It then has what the whole stream means if nothing more can be read. */
  lemma BetweenMeans(printed: seq<seq<Byte>>, stream: seq<Byte>, unread: seq<Byte>, read: nat, size: nat)
    requires Between(printed, stream, unread, read, size)
    ensures Parse(stream, size).verdict == Parse(unread, size).verdict
    ensures Texts(Parse(stream, size).messages) == printed + Texts(Parse(unread, size).messages)
  {
    assert stream == stream[..read] + unread;
    WholeThen(stream[..read], unread, size);
    hide Parse, Whole;
    TextsAppend(Parse(stream[..read], size).messages, Parse(unread, size).messages);
  }

  lemma TextsAppend(ms: seq<seq<Byte>>, ns: seq<seq<Byte>>)
    ensures Texts(ms + ns) == Texts(ms) + Texts(ns)
  {
    hide Text;
  }

  lemma TextsOne(ms: seq<seq<Byte>>, m: seq<Byte>)
    ensures Texts(ms + [m]) == Texts(ms) + [Text(m)]
  {
    hide Text;
  }

  lemma TakeMore(stream: seq<Byte>, read: nat, before: seq<Byte>, more: nat)
    requires read <= |stream| && before == stream[read..] && more <= |before|
    ensures stream[..read + more] == stream[..read] + before[..more]
    ensures before[more..] == stream[read + more..]
  {
  }

  lemma OneMoreFrame(s: seq<Byte>, f: seq<Byte>, size: nat)
    requires Whole(s, size) && |f| >= HEADER
    requires var len := Length(f[..HEADER]); 0 < len <= size && |f| == HEADER + len
    ensures Whole(s + f, size) && Parse(s + f, size).messages == Parse(s, size).messages + [f[HEADER..]]
  {
    FrameIsWhole(f, size);
    hide Parse, Whole;
    WholeThen(s, f, size);
    WholeBoth(s, f, size);
  }

  lemma DeliveredBetween(printed: seq<seq<Byte>>, text: seq<Byte>, stream: seq<Byte>, before: seq<Byte>,
                         after: seq<Byte>, read: nat, size: nat)
    requires Between(printed, stream, before, read, size) && DeliveryOk(Delivered(text), before, after, size)
    ensures Between(printed + [text], stream, after, read + |before| - |after|, size)
  {
    var len := Length(before[..HEADER]);
    var f := before[..HEADER + len];
    var now := read + HEADER + len;
    assert f[..HEADER] == before[..HEADER] && f[HEADER..] == before[HEADER..HEADER + len];
    hide Parse, Whole;
    OneMoreFrame(stream[..read], f, size);
    hide Length;
    TextsOne(Parse(stream[..read], size).messages, f[HEADER..]);
    TakeMore(stream, read, before, |f|);
  }

  /** When the reader quits, nothing has been completed since the last message, at any call. */
  lemma QuitPrinted(printed: seq<seq<Byte>>, e: Ending, stream: seq<Byte>, before: seq<Byte>, after: seq<Byte>,
                    read: nat, more: nat, size: nat)
    requires Between(printed, stream, before, read, size) && DeliveryOk(Quit(e), before, after, size)
    requires more <= |before| - |after|
    ensures Printed(printed, stream, read + more, size)
  {
    var part, whole := before[..more], before[..|before| - |after|];
    assert whole == part + whole[more..];
    ParsePrefix(part, whole[more..], size);
    WholeThen(stream[..read], part, size);
    hide Parse, Whole;
    TakeMore(stream, read, before, more);
    assert Parse(part, size).messages == [];
  }

  /** The calls of a whole run: an unhandled error is the last one and means failure; a stop signal is what ends a
      stopped reader, and one that interrupts a read ends the reader at once. */
  ghost predicate RunCalls(ending: Ending, calls: seq<Call>, before: bool, after: bool, mode: Mode) {
    && after == Flag(before, calls)
    && EndsOnError(calls, mode, ending.Failed?)
    && Heeds(calls, before)
    && (ending.Stopped? ==> after)
    && (LastInterrupted(calls) ==> ending.Stopped?)
  }

  /** At each point at which the stop flag is up, at most `extra` messages are still to be printed. */
  ghost predicate AfterStop(printed: seq<seq<Byte>>, stream: seq<Byte>, calls: seq<Call>, before: bool, size: nat,
                            extra: nat) {
    forall j :: 0 <= j <= |calls| && Flag(before, calls[..j]) ==>
      var read := Moved(calls[..j]);
      && read <= |stream|
      && |Parse(stream[..read], size).messages| <= |printed| <= |Parse(stream[..read], size).messages| + extra
  }

  /** A whole run: what is printed, how the reader ends and which calls it made for that. */
  ghost predicate RunResult(printed: seq<seq<Byte>>, ending: Ending, stream: seq<Byte>, calls: seq<Call>, before: bool,
                            after: bool, size: nat, mode: Mode, extra: nat) {
    && printed <= Texts(Parse(stream, size).messages)
    && Printed(printed, stream, Moved(calls), size)
    && (ending.Ended? ==>
          printed == Texts(Parse(stream, size).messages) && ending.verdict == Parse(stream, size).verdict)
    && RunCalls(ending, calls, before, after, mode)
    && AfterStop(printed, stream, calls, before, size, extra)
  }

  /** The calls made when a reader tests for a stop signal between two messages. */
  ghost predicate Resting(calls: seq<Call>, before: bool, after: bool, mode: Mode) {
    && after == Flag(before, calls)
    && EndsOnError(calls, mode, false)
    && Heeds(calls, before)
    && !LastInterrupted(calls)
  }

  /** One message more, begun with the stop flag down. */
  lemma MessageAdds(c1: seq<Call>, c2: seq<Call>, d: Delivery, before: bool, after: bool, mode: Mode)
    requires Resting(c1, before, false, mode) && MessageCalls(d, c2, false, after, mode)
    ensures d.Delivered? ==> Resting(c1 + c2, before, after, mode)
    ensures d.Quit? ==> RunCalls(d.ending, c1 + c2, before, after, mode)
    ensures Moved(c1 + c2) == Moved(c1) + Moved(c2)
    ensures forall j :: 0 <= j <= |c1 + c2| && Flag(before, (c1 + c2)[..j]) ==>
              |c1| < j && Moved((c1 + c2)[..j]) == Moved(c1) + Moved(c2[..j - |c1|])
  {
    MovedMore(c1, c2);
    FlagMore(before, c1, c2);
    if c1 == [] {
      assert c1 + c2 == c2;
    } else {
      JoinedCalls(c1, c2, before, mode, d == Quit(Failed));
    }
    assert (c1 + c2)[|c1 + c2| - 1] == c2[|c2| - 1];
    forall j | 0 <= j <= |c1 + c2| && Flag(before, (c1 + c2)[..j])
      ensures |c1| < j && Moved((c1 + c2)[..j]) == Moved(c1) + Moved(c2[..j - |c1|])
    {
      PrefixFlag(before, c1, c2, j);
      assert (c1 + c2)[..j] == c1 + c2[..j - |c1|];
      MovedMore(c1, c2[..j - |c1|]);
    }
  }

  /** The blocking reader between two messages. */
  ghost predicate BlockingInv(
      printed: seq<seq<Byte>>, stream: seq<Byte>, unread: seq<Byte>, calls: seq<Call>,
      before: bool, after: bool, size: nat) {
    && Resting(calls, before, after, Blocking)
    && Between(printed, stream, unread, Moved(calls), size)
    && (calls != [] ==> !Flag(before, calls[..|calls| - 1]))
  }

  lemma BlockingStops(printed: seq<seq<Byte>>, stream: seq<Byte>, unread: seq<Byte>, calls: seq<Call>,
                      before: bool, size: nat)
    requires BlockingInv(printed, stream, unread, calls, before, true, size)
    ensures RunCalls(Stopped, calls, before, true, Blocking) && AfterStop(printed, stream, calls, before, size, 0)
    ensures before ==> calls == []
  {
    forall j | 0 <= j <= |calls| && Flag(before, calls[..j]) ensures j == |calls| {
      if j < |calls| {
        assert calls[..j] == calls[..|calls| - 1][..j];
        FlagMore(before, calls[..|calls| - 1], []);
      }
    }
    assert calls[..|calls|] == calls;
  }

  lemma BlockingGoesOn(printed: seq<seq<Byte>>, text: seq<Byte>, stream: seq<Byte>, unread: seq<Byte>,
                       left: seq<Byte>, c1: seq<Call>, c2: seq<Call>, before: bool, after: bool, size: nat)
    requires BlockingInv(printed, stream, unread, c1, before, false, size)
    requires DeliveryOk(Delivered(text), unread, left, size) && Moved(c2) == |unread| - |left|
    requires MessageCalls(Delivered(text), c2, false, after, Blocking)
    ensures BlockingInv(printed + [text], stream, left, c1 + c2, before, after, size)
  {
    assert !Flag(before, c1) && c2 != [] && !Flag(false, c2[..|c2| - 1]);
    hide Parse, Moved, Between, DeliveryOk, Resting, Flag, Heeds, EndsOnError;
    MessageAdds(c1, c2, Delivered(text), before, after, Blocking);
    DeliveredBetween(printed, text, stream, unread, left, Moved(c1), size);
    LastFlag(c1, c2, before);
  }

  lemma QuitsRight(printed: seq<seq<Byte>>, e: Ending, stream: seq<Byte>, unread: seq<Byte>, left: seq<Byte>,
                   c1: seq<Call>, c2: seq<Call>, before: bool, after: bool, size: nat, mode: Mode)
    requires Resting(c1, before, false, mode) && Between(printed, stream, unread, Moved(c1), size)
    requires DeliveryOk(Quit(e), unread, left, size) && Moved(c2) == |unread| - |left|
    requires MessageCalls(Quit(e), c2, false, after, mode)
    ensures RunCalls(e, c1 + c2, before, after, mode) && Printed(printed, stream, Moved(c1 + c2), size)
    ensures AfterStop(printed, stream, c1 + c2, before, size, 0)
  {
    hide Parse, Moved, Flag, RunCalls, Resting, MessageCalls, Between, DeliveryOk, AfterStop;
    MessageAdds(c1, c2, Quit(e), before, after, mode);
    QuitPrinted(printed, e, stream, unread, left, Moved(c1), Moved(c2), size);
    NothingAfterQuit(printed, e, stream, unread, left, c1, c2, before, size);
  }

  lemma NothingAfterQuit(printed: seq<seq<Byte>>, e: Ending, stream: seq<Byte>, unread: seq<Byte>, left: seq<Byte>,
                         c1: seq<Call>, c2: seq<Call>, before: bool, size: nat)
    requires Between(printed, stream, unread, Moved(c1), size)
    requires DeliveryOk(Quit(e), unread, left, size) && Moved(c2) == |unread| - |left|
    requires forall j :: 0 <= j <= |c1 + c2| && Flag(before, (c1 + c2)[..j]) ==>
               |c1| < j && Moved((c1 + c2)[..j]) == Moved(c1) + Moved(c2[..j - |c1|])
    ensures AfterStop(printed, stream, c1 + c2, before, size, 0)
  {
    hide Parse, Moved, Flag, Between, DeliveryOk;
    forall j | 0 <= j <= |c1 + c2| && Flag(before, (c1 + c2)[..j])
      ensures Printed(printed, stream, Moved((c1 + c2)[..j]), size)
    {
      MovedPrefix(c2, j - |c1|);
      QuitPrinted(printed, e, stream, unread, left, Moved(c1), Moved(c2[..j - |c1|]), size);
    }
  }

  lemma EndsRight(printed: seq<seq<Byte>>, e: Ending, stream: seq<Byte>, unread: seq<Byte>, left: seq<Byte>,
                  read: nat, size: nat)
    requires Between(printed, stream, unread, read, size) && DeliveryOk(Quit(e), unread, left, size) && e.Ended?
    ensures printed == Texts(Parse(stream, size).messages) && e.verdict == Parse(stream, size).verdict
  {
    BetweenMeans(printed, stream, unread, read, size);
  }

  lemma PrintedPrefix(printed: seq<seq<Byte>>, stream: seq<Byte>, read: nat, size: nat)
    requires Printed(printed, stream, read, size)
    ensures printed <= Texts(Parse(stream, size).messages)
  {
    assert stream == stream[..read] + stream[read..];
    ParsePrefix(stream[..read], stream[read..], size);
  }

  lemma NothingYet(stream: seq<Byte>, before: bool, size: nat)
    ensures BlockingInv([], stream, stream, [], before, before, size)
    ensures PollingInv([], stream, stream, [], before, before, size)
  {
    assert stream[..0] == [] && stream[0..] == stream;
    assert Texts([]) == [];
    assert Parse([], size).messages == [];
  }

  lemma SinceNothing(log: seq<Call>, first: seq<IoEvent>)
    ensures Since(log, log) == [] && Played([], first, first)
  {
  }

  lemma BlockingPrefix(printed: seq<seq<Byte>>, stream: seq<Byte>, unread: seq<Byte>, calls: seq<Call>, before: bool,
                       size: nat)
    requires BlockingInv(printed, stream, unread, calls, before, true, size)
    ensures RunResult(printed, Stopped, stream, calls, before, true, size, Blocking, 0)
  {
    BlockingStops(printed, stream, unread, calls, before, size);
    PrintedPrefix(printed, stream, Moved(calls), size);
  }

  /** One round of the blocking reader. */
  lemma BlockingMessage(d: Delivery, printed: seq<seq<Byte>>, stream: seq<Byte>, unread: seq<Byte>, left: seq<Byte>,
                        log: seq<Call>, mid: seq<Call>, now: seq<Call>, first: seq<IoEvent>, second: seq<IoEvent>,
                        script: seq<IoEvent>, before: bool, after: bool, size: nat)
    requires log <= mid && Played(Since(mid, log), first, second)
    requires BlockingInv(printed, stream, unread, Since(mid, log), before, false, size)
    requires DeliveryOk(d, unread, left, size)
    requires MessageDone(d, |unread| - |left|, mid, now, second, script, false, after, Blocking)
    ensures !before && log <= now && Played(Since(now, log), first, script)
    ensures d.Delivered? ==>
              |left| < |unread| && BlockingInv(printed + [d.text], stream, left, Since(now, log), before, after, size)
    ensures d.Quit? ==> RunResult(printed, d.ending, stream, Since(now, log), before, after, size, Blocking, 0)
  {
    var c1, c2 := Since(mid, log), Since(now, mid);
    Chain(log, mid, now);
    PlayedMore(c1, c2, first, second, script);
    hide Since, Played, Printed, AfterStop, RunCalls, Flag, Moved, Parse, Length, MessageCalls;
    match d
    case Delivered(text) =>
      BlockingGoesOn(printed, text, stream, unread, left, c1, c2, before, after, size);
      Shorter(text, unread, left, size);
    case Quit(e) =>
      QuitsRight(printed, e, stream, unread, left, c1, c2, before, after, size, Blocking);
      PrintedPrefix(printed, stream, Moved(c1), size);
      if e.Ended? {
        EndsRight(printed, e, stream, unread, left, Moved(c1), size);
      }
  }

  lemma Shorter(text: seq<Byte>, unread: seq<Byte>, left: seq<Byte>, size: nat)
    requires DeliveryOk(Delivered(text), unread, left, size)
    ensures |left| < |unread|
  {
  }

  // ----- The polling reader -----

  /** The polling reader when it tests for a stop signal. */
  ghost predicate PollingInv(
      printed: seq<seq<Byte>>, stream: seq<Byte>, unread: seq<Byte>, calls: seq<Call>,
      before: bool, after: bool, size: nat) {
    && Resting(calls, before, after, Polling) && PollsCalmly(calls, before)
    && Between(printed, stream, unread, Moved(calls), size)
    && AfterStop(printed, stream, calls, before, size, 1)
  }

  lemma PollingStops(printed: seq<seq<Byte>>, stream: seq<Byte>, unread: seq<Byte>, calls: seq<Call>,
                     before: bool, after: bool, size: nat)
    requires PollingInv(printed, stream, unread, calls, before, after, size)
    ensures after ==> RunResult(printed, Stopped, stream, calls, before, true, size, Polling, 1)
    ensures PollsCalmly(calls, before)
  {
    PrintedPrefix(printed, stream, Moved(calls), size);
  }

  /** One more poll, with the stop flag down. */
  lemma PollAdds(c1: seq<Call>, c: Call, before: bool)
    requires Resting(c1, before, false, Polling) && PollsCalmly(c1, before) && c.PollCall?
    ensures !Hard(c, Polling) ==> Resting(c1 + [c], before, Stops(c), Polling)
    ensures Hard(c, Polling) ==> RunCalls(Failed, c1 + [c], before, Stops(c), Polling)
    ensures PollsCalmly(c1 + [c], before) && Moved(c1 + [c]) == Moved(c1)
    ensures forall j :: 0 <= j <= |c1 + [c]| && Flag(before, (c1 + [c])[..j]) ==> j == |c1| + 1
  {
    var all := c1 + [c];
    FlagMore(before, c1, [c]);
    assert [c][0] == c && all[..|c1|] == c1;
    forall j | 0 <= j < |all| && all[j].PollCall? ensures !Flag(before, all[..j]) {
      assert all[..j] == c1[..j];
      FlagMore(before, c1, []);
    }
    forall j | 0 <= j < |all| - 1 && all[j].IoCall? && all[j].event.Interrupted? ensures !Flag(before, all[..j + 1]) {
      assert all[..j + 1] == c1[..j + 1];
    }
    forall j | 0 <= j <= |all| && Flag(before, all[..j]) ensures j == |c1| + 1 {
      PrefixFlag(before, c1, [c], j);
    }
  }

  /** One round that only polls. */
  lemma PollRound(printed: seq<seq<Byte>>, stream: seq<Byte>, unread: seq<Byte>, c1: seq<Call>, c: Call,
                  before: bool, size: nat)
    requires PollingInv(printed, stream, unread, c1, before, false, size) && c.PollCall?
    ensures !Hard(c, Polling) ==> PollingInv(printed, stream, unread, c1 + [c], before, Stops(c), size)
    ensures Hard(c, Polling) ==> RunResult(printed, Failed, stream, c1 + [c], before, Stops(c), size, Polling, 1)
    ensures PollsCalmly(c1 + [c], before)
  {
    PollAdds(c1, c, before);
    PrintedPrefix(printed, stream, Moved(c1), size);
    var all := c1 + [c];
    assert all[..|all|] == all;
    hide Moved, Flag, Parse, Resting, PollsCalmly, RunCalls;
    assert AfterStop(printed, stream, all, before, size, 1);
  }

  /** At each point since the message began, the messages before it are complete. */
  lemma AtMostOneMore(printed: seq<seq<Byte>>, text: seq<Byte>, stream: seq<Byte>, read: nat, now: nat, at: nat,
                      size: nat)
    requires Printed(printed, stream, read, size) && Printed(printed + [text], stream, now, size)
    requires read <= at <= now <= |stream|
    ensures var n := |Parse(stream[..at], size).messages|; n <= |printed + [text]| <= n + 1
  {
    assert stream[..at] == stream[..read] + stream[read..at];
    ParsePrefix(stream[..read], stream[read..at], size);
    assert stream[..now] == stream[..at] + stream[at..now];
    ParsePrefix(stream[..at], stream[at..now], size);
  }

  /** One round that delivers a message. */
  lemma PollingGoesOn(printed: seq<seq<Byte>>, text: seq<Byte>, stream: seq<Byte>, unread: seq<Byte>,
                      left: seq<Byte>, c1: seq<Call>, c2: seq<Call>, before: bool, after: bool, size: nat)
    requires PollingInv(printed, stream, unread, c1, before, false, size)
    requires DeliveryOk(Delivered(text), unread, left, size) && Moved(c2) == |unread| - |left|
    requires MessageCalls(Delivered(text), c2, false, after, Polling)
    ensures PollingInv(printed + [text], stream, left, c1 + c2, before, after, size)
  {
    hide Moved, Flag, Parse, Resting, PollsCalmly, DeliveryOk, AfterStop;
    MessageAdds(c1, c2, Delivered(text), before, after, Polling);
    DeliveredBetween(printed, text, stream, unread, left, Moved(c1), size);
    MorePollsCalmly(c1, c2, before);
    hide MessageCalls, Between;
    BetweenPrinted(printed, stream, unread, Moved(c1), size);
    BetweenPrinted(printed + [text], stream, left, Moved(c1 + c2), size);
    OneMoreAfterStop(printed, text, stream, c1, c2, before, size);
  }

  lemma BetweenPrinted(printed: seq<seq<Byte>>, stream: seq<Byte>, unread: seq<Byte>, read: nat, size: nat)
    requires Between(printed, stream, unread, read, size)
    ensures Printed(printed, stream, read, size)
  {
  }

  lemma OneMoreAfterStop(printed: seq<seq<Byte>>, text: seq<Byte>, stream: seq<Byte>, c1: seq<Call>, c2: seq<Call>,
                         before: bool, size: nat)
    requires Printed(printed, stream, Moved(c1), size) && Printed(printed + [text], stream, Moved(c1 + c2), size)
    requires forall j :: 0 <= j <= |c1 + c2| && Flag(before, (c1 + c2)[..j]) ==>
               |c1| < j && Moved((c1 + c2)[..j]) == Moved(c1) + Moved(c2[..j - |c1|])
    ensures AfterStop(printed + [text], stream, c1 + c2, before, size, 1)
  {
    var all := c1 + c2;
    hide Moved, Flag, Parse;
    forall j | 0 <= j <= |all| && Flag(before, all[..j])
      ensures var read := Moved(all[..j]);
              && read <= |stream|
              && |Parse(stream[..read], size).messages| <= |printed + [text]|
                 <= |Parse(stream[..read], size).messages| + 1
    {
      MovedPrefix(all, j);
      AtMostOneMore(printed, text, stream, Moved(c1), Moved(all), Moved(all[..j]), size);
    }
  }

  lemma PollingQuits(printed: seq<seq<Byte>>, e: Ending, stream: seq<Byte>, unread: seq<Byte>, left: seq<Byte>,
                     c1: seq<Call>, c2: seq<Call>, before: bool, after: bool, size: nat)
    requires PollingInv(printed, stream, unread, c1, before, false, size)
    requires DeliveryOk(Quit(e), unread, left, size) && Moved(c2) == |unread| - |left|
    requires MessageCalls(Quit(e), c2, false, after, Polling)
    ensures PollsCalmly(c1 + c2, before)
    ensures RunResult(printed, e, stream, c1 + c2, before, after, size, Polling, 1)
  {
    QuitsRight(printed, e, stream, unread, left, c1, c2, before, after, size, Polling);
    MorePollsCalmly(c1, c2, before);
    PrintedPrefix(printed, stream, Moved(c1), size);
    hide Moved, Flag, Parse, Resting, PollsCalmly, DeliveryOk, MessageCalls;
    if e.Ended? {
      EndsRight(printed, e, stream, unread, left, Moved(c1), size);
    }
  }

  lemma ReadAll(printed: seq<seq<Byte>>, e: Ending, stream: seq<Byte>, calls: seq<Call>, before: bool, after: bool,
                size: nat)
    requires RunResult(printed, e, stream, calls, before, after, size, Polling, 1) && e.Ended?
    ensures printed == Texts(Parse(stream, size).messages)
  {
  }

  lemma ReadPart(printed: seq<seq<Byte>>, stream: seq<Byte>, calls: seq<Call>, before: bool, size: nat)
    requires RunResult(printed, Stopped, stream, calls, before, true, size, Polling, 1)
    ensures printed <= Texts(Parse(stream, size).messages)
  {
  }

  /** Without stop signal and failing call: `n` messages are delivered, and poll will report data until it is `total`
      times. */
  ghost predicate Quiet(script: seq<IoEvent>, polls: seq<PollEvent>, stopFlag: bool, n: nat, total: nat) {
    Benign(script, Polling) && Patient(polls) && (stopFlag ==> polls == []) && n + ReadyCount(polls) == total
  }

  lemma QuietPoll(script: seq<IoEvent>, polls: seq<PollEvent>, n: nat, total: nat)
    requires Quiet(script, polls, false, n, total)
    ensures n <= total && (polls == [] ==> Quiet(script, [], true, n, total))
    ensures polls != [] ==>
              && !polls[0].PollFailure? && !PollStops(polls[0])
              && (if polls[0] == Ready(true) then n < total && Quiet(script, polls[1..], false, n + 1, total)
                  else Quiet(script, polls[1..], false, n, total))
  {
  }

  lemma QuietMessage(
      first: seq<IoEvent>, script: seq<IoEvent>, polls: seq<PollEvent>, n: nat, total: nat, d: Delivery, moved: nat,
      log: seq<Call>, now: seq<Call>, after: bool)
    requires Quiet(first, polls, false, n, total)
    requires MessageDone(d, moved, log, now, first, script, false, after, Polling)
    ensures Quiet(script, polls, after, n, total) && !after && (d.Quit? ==> d.ending.Ended?)
  {
    CalmMessage(d, moved, log, now, first, script, after, Polling);
  }

  lemma QuietEnd(script: seq<IoEvent>, polls: seq<PollEvent>, n: nat, total: nat)
    requires Quiet(script, polls, true, n, total)
    ensures n == total
  {
  }

  lemma LogPoll(printed: seq<seq<Byte>>, stream: seq<Byte>, unread: seq<Byte>, log: seq<Call>, now: seq<Call>,
                mid: seq<Call>, before: bool, size: nat)
    requires log <= now && mid != [] && mid == now + [mid[|mid| - 1]] && mid[|mid| - 1].PollCall?
    requires PollingInv(printed, stream, unread, Since(now, log), before, false, size)
    ensures log <= mid && !before
    ensures var c, calls := mid[|mid| - 1], Since(mid, log);
            && (!Hard(c, Polling) ==> PollingInv(printed, stream, unread, calls, before, Stops(c), size))
            && (Hard(c, Polling) ==> RunResult(printed, Failed, stream, calls, before, Stops(c), size, Polling, 1))
            && PollsCalmly(calls, before)
  {
    var c := mid[|mid| - 1];
    assert Since(mid, log) == Since(now, log) + [c];
    PollRound(printed, stream, unread, Since(now, log), c, before, size);
  }

  /** One message of the polling reader. */
  lemma PollingMessage(d: Delivery, printed: seq<seq<Byte>>, stream: seq<Byte>, unread: seq<Byte>, left: seq<Byte>,
                       log: seq<Call>, mid: seq<Call>, now: seq<Call>, second: seq<IoEvent>, script: seq<IoEvent>,
                       before: bool, after: bool, size: nat)
    requires log <= mid && PollingInv(printed, stream, unread, Since(mid, log), before, false, size)
    requires DeliveryOk(d, unread, left, size)
    requires MessageDone(d, |unread| - |left|, mid, now, second, script, false, after, Polling)
    ensures log <= now
    ensures d.Delivered? ==> PollingInv(printed + [d.text], stream, left, Since(now, log), before, after, size)
    ensures d.Quit? ==>
              && PollsCalmly(Since(now, log), before)
              && RunResult(printed, d.ending, stream, Since(now, log), before, after, size, Polling, 1)
  {
    var c1, c2 := Since(mid, log), Since(now, mid);
    Chain(log, mid, now);
    hide Since, Printed, AfterStop, RunCalls, Flag, Moved, Parse, Length, MessageCalls, PollingInv, PollsCalmly;
    match d
    case Delivered(text) => PollingGoesOn(printed, text, stream, unread, left, c1, c2, before, after, size);
    case Quit(e) => PollingQuits(printed, e, stream, unread, left, c1, c2, before, after, size);
  }
}
