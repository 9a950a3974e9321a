/** The writing ends of the FIFO: 11_4_1 (blocking) and 11_5_1 (polling), against any behaviour of write and poll. */
module FifoWriter {
  import opened SystemCalls
  import opened IoCalls
  import opened Frames
  import opened Lines
  import opened WriteRuns

  /** What one call of poll does: report an event, or nothing, perhaps with a stop signal. */
  datatype WriterPoll = Reports | Nothing(stop: bool)

  /** The standard input: fgets as the C standard describes it. */
  class Input {
    var rest: seq<Byte>

    constructor (rest: seq<Byte>)
      ensures this.rest == rest
    {
      this.rest := rest;
    }

    /** fgets(buf, size, stdin): bytes up to a newline or size - 1, and a terminator; false at the end of the input. */
    method Fgets(buf: array<Byte>, size: nat) returns (ok: bool)
      requires 2 <= size <= buf.Length
      modifies this, buf
      ensures ok <==> old(rest) != []
      ensures !ok ==> rest == []
      ensures ok ==>
                var n := Taken(old(rest), size);
                rest == old(rest)[n..] && buf[..n + 1] == old(rest)[..n] + [NUL]
    {
      if rest == [] {
        return false;
      }
      var n := 0;
      var line := false;
      while n < size - 1 && n < |rest| && !line
        invariant n <= size - 1 && n <= |rest| && rest == old(rest)
        invariant buf[..n] == rest[..n]
        invariant forall j :: 0 <= j < n - 1 ==> rest[j] != NEWLINE
        invariant line <==> n > 0 && rest[n - 1] == NEWLINE
      {
        buf[n] := rest[n];
        line := rest[n] == NEWLINE;
        n := n + 1;
      }
      TakenIs(rest, size, n);
      buf[n] := NUL;
      rest := rest[n..];
      ok := true;
    }
  }

  /** The bytes up to a newline, the buffer's end or the input's end are what one fgets takes. */
  lemma TakenIs(input: seq<Byte>, size: nat, n: nat)
    requires 2 <= size && input != [] && 1 <= n <= |input| && n < size
    requires forall j :: 0 <= j < n - 1 ==> input[j] != NEWLINE
    requires n == size - 1 || n == |input| || input[n - 1] == NEWLINE
    ensures n == Taken(input, size)
  {
    var k := FirstOf(input, {NEWLINE});
    assert k < |input| ==> input[k] == NEWLINE;
  }

  /** The kernel side of the FIFO as the writer sees it: the bytes taken so far, the outcomes of the next calls
      (any that follow take all), the flag set by the signal handler, and the calls made so far. */
  class Sink {
    var accepted: seq<Byte>
    var script: seq<IoEvent>
    var polls: seq<WriterPoll>
    var stopFlag: bool
    var log: seq<Call>

    constructor (script: seq<IoEvent>, polls: seq<WriterPoll>)
      ensures accepted == [] && this.script == script && this.polls == polls && !stopFlag && log == []
    {
      accepted, this.script, this.polls, stopFlag, log := [], script, polls, false, [];
    }

    /** write(fd, buf + offset, count) with a positive count: takes at least one byte or fails. */
    method Write(buf: array<Byte>, offset: nat, count: nat) returns (n: int, errno: Errno)
      requires 0 < count && offset + count <= buf.Length
      modifies this`accepted, this`script, this`stopFlag, this`log
      ensures n == -1 ==> accepted == old(accepted)
      ensures n != -1 ==> 0 < n <= count && accepted == old(accepted) + buf[offset..offset + n]
      ensures script == Later(old(script))
      ensures log != [] && log[|log| - 1].IoCall? && log == old(log) + [log[|log| - 1]]
      ensures var c := log[|log| - 1];
              && stopFlag == (old(stopFlag) || Stops(c))
              && c.moved == (if n == -1 then 0 else n)
              && (if old(script) == [] then c.event == Transfer(count, false) else c.event == old(script)[0])
              && (n == -1 <==> !c.event.Transfer?)
              && (n != -1 ==> n == Portion(c.event.limit, count))
              && (errno == EINTR <==> c.event.Interrupted?) && (errno == EAGAIN <==> c.event.WouldBlock?)
    {
      var e := Transfer(count, false);
      if script != [] {
        e := script[0];
        script := script[1..];
        stopFlag := stopFlag || e.stop;
      }
      if !e.Transfer? {
        log := log + [IoCall(e, 0)];
        return -1, if e.Interrupted? then EINTR else if e.WouldBlock? then EAGAIN
                   else if e.NoReader? then EPIPE else OtherError;
      }
      n, errno := Portion(e.limit, count), NoError;
      accepted := accepted + buf[offset..offset + n];
      log := log + [IoCall(e, n)];
    }

    /** poll for writing; after the recorded outcomes it always reports an event. */
    method Poll() returns (ret: int)
      modifies this`polls, this`stopFlag, this`log
      ensures polls == if old(polls) == [] then [] else old(polls)[1..]
      ensures ret == 1 <==> old(polls) == [] || old(polls)[0].Reports?
      ensures ret == 0 || ret == 1
      ensures var stop := old(polls) != [] && old(polls)[0].Nothing? && old(polls)[0].stop;
              stopFlag == (old(stopFlag) || stop) && log == old(log) + [PollCall(false, stop)]
    {
      ret := 1;
      var stop := false;
      if polls != [] {
        match polls[0] {
          case Reports =>
          case Nothing(s) => ret, stop := 0, s;
        }
        polls := polls[1..];
      }
      stopFlag := stopFlag || stop;
      log := log + [PollCall(false, stop)];
    }
  }

  /** The FIFO has taken the first `total` bytes of the field after what it had before. */
  ghost predicate Taking(accepted: seq<Byte>, base: seq<Byte>, field: seq<Byte>, total: nat) {
    total <= |field| && accepted == base + field[..total]
  }

  lemma TakesOn(accepted: seq<Byte>, base: seq<Byte>, field: seq<Byte>, total: nat, n: nat)
    requires Taking(accepted, base, field, total) && total + n <= |field|
    ensures Taking(accepted + field[total..total + n], base, field, total + n)
  {
    assert field[..total + n] == field[..total] + field[total..total + n];
  }

  /** A write loop over `count` bytes of a field that goes on after `total` of them. */
  ghost predicate InLoop(
      total: nat, count: nat, accepted: seq<Byte>, base: seq<Byte>, field: seq<Byte>, log: seq<Call>, now: seq<Call>,
      first: seq<IoEvent>, script: seq<IoEvent>, before: bool, after: bool, mode: Mode, checkStop: bool) {
    && total <= count && Taking(accepted, base, field, total)
    && Begun(total, log, now, first, script, before, after, mode, checkStop)
    && (LastInterrupted(Since(now, log)) ==> total < count)
    && AfterField(script, count - total) == AfterField(first, count)
  }

  lemma EntersLoop(count: nat, base: seq<Byte>, field: seq<Byte>, log: seq<Call>, first: seq<IoEvent>, before: bool,
                   mode: Mode, checkStop: bool)
    ensures InLoop(0, count, base, base, field, log, log, first, first, before, before, mode, checkStop)
  {
    Start(log, first, before, mode, checkStop);
    assert field[..0] == [];
  }

  lemma LeavesLoop(count: nat, accepted: seq<Byte>, base: seq<Byte>, field: seq<Byte>, log: seq<Call>, now: seq<Call>,
                   first: seq<IoEvent>, script: seq<IoEvent>, before: bool, after: bool, mode: Mode, checkStop: bool)
    requires InLoop(count, count, accepted, base, field, log, now, first, script, before, after, mode, checkStop)
    ensures FieldDone(Complete, count, log, now, first, script, before, after, mode, checkStop)
    ensures count <= |field| && accepted == base + field[..count] && script == AfterField(first, count)
  {
    NoRound(Complete, count, log, now, first, script, before, after, mode, checkStop);
  }

  /** One round of a write loop. */
  method WriteOnce(sink: Sink, buf: array<Byte>, total: nat, count: nat, mode: Mode, checkStop: bool,
                   ghost field: seq<Byte>, ghost base: seq<Byte>, ghost log: seq<Call>, ghost first: seq<IoEvent>,
                   ghost flag: bool)
    returns (r: Step)
    requires total < count <= buf.Length && buf[..] == field
    requires InLoop(total, count, sink.accepted, base, field, log, sink.log, first, sink.script, flag, sink.stopFlag,
                    mode, checkStop)
    modifies sink`accepted, sink`script, sink`stopFlag, sink`log
    ensures r.More? ==> 0 < r.n <= count - total
    ensures !r.End? ==>
              InLoop(if r.More? then total + r.n else total, count, sink.accepted, base, field, log, sink.log, first,
                     sink.script, flag, sink.stopFlag, mode, checkStop)
    ensures r.End? ==>
              && !r.status.Complete? && !r.status.EndOfStream? && sink.accepted == base + field[..total]
              && FieldDone(r.status, total, log, sink.log, first, sink.script, flag, sink.stopFlag, mode, checkStop)
    ensures |sink.script| <= |old(sink.script)| && (r.Again? ==> |sink.script| < |old(sink.script)|)
  {
    hide Begun, FieldDone, Since, LastInterrupted;
    ghost var now, script, up, before := sink.log, sink.script, sink.stopFlag, sink.accepted;
    if checkStop && sink.stopFlag {
      NoRound(Interrupt, total, log, now, first, script, flag, up, mode, checkStop);
      return End(Interrupt);
    }
    var n, errno := sink.Write(buf, total, count - total);
    Round(sink.log[|sink.log| - 1], total, log, now, first, script, sink.script, flag, up, mode, checkStop);
    if n == -1 {
      if errno == EINTR {
        return if sink.stopFlag then End(Interrupt) else Again;
      } else if errno == EAGAIN && mode.Polling? {
        return Again;
      }
      return End(Broken);
    }
    TakesOn(before, base, field, total, n);
    assert field[total..total + n] == buf[total..total + n];
    r := More(n);
  }

  /** One resumable write loop: whatever happens, the FIFO has taken exactly the first `total` bytes of the field. It
      goes on after everything but an unhandled error and a stop signal that it tests for. */
  method WriteField(sink: Sink, buf: array<Byte>, count: nat, mode: Mode, checkStop: bool)
    returns (status: FieldStatus, total: nat)
    requires count <= buf.Length
    modifies sink`accepted, sink`script, sink`stopFlag, sink`log
    ensures total <= count && sink.accepted == old(sink.accepted) + buf[..total]
    ensures !status.EndOfStream? && (status.Complete? <==> total == count)
    ensures status.Complete? ==> sink.script == AfterField(old(sink.script), count)
    ensures FieldDone(status, total, old(sink.log), sink.log, old(sink.script), sink.script,
                      old(sink.stopFlag), sink.stopFlag, mode, checkStop)
  {
    total := 0;
    ghost var field, base, log, first, flag := buf[..], sink.accepted, sink.log, sink.script, sink.stopFlag;
    EntersLoop(count, base, field, log, first, flag, mode, checkStop);
    hide InLoop, FieldDone, AfterField;
    while total < count
      invariant total <= count && buf[..] == field
      invariant InLoop(total, count, sink.accepted, base, field, log, sink.log, first, sink.script, flag,
                       sink.stopFlag, mode, checkStop)
      decreases |sink.script| + count - total
    {
      var r := WriteOnce(sink, buf, total, count, mode, checkStop, field, base, log, first, flag);
      match r
      case More(n) => total := total + n;
      case Again =>
      case End(why) => return why, total;
    }
    LeavesLoop(count, sink.accepted, base, field, log, sink.log, first, sink.script, flag, sink.stopFlag, mode,
               checkStop);
    status := Complete;
  }

  /** The header: one write in 11_4_1, a resumable loop in 11_5_1. */
  method WriteHeader(sink: Sink, len: nat, mode: Mode) returns (status: FieldStatus, total: nat)
    requires len <= MAX_BUFFER
    modifies sink`accepted, sink`script, sink`stopFlag, sink`log
    ensures total <= HEADER && sink.accepted == old(sink.accepted) + Header(len)[..total]
    ensures !status.EndOfStream? && (status.Complete? <==> total == HEADER)
    ensures mode.Blocking? ==> (status.Complete? <==> HeaderGoes(old(sink.script)))
    ensures mode.Blocking? ==> !status.Interrupt? && sink.script == Later(old(sink.script))
    ensures HeaderDone(status, total, old(sink.log), sink.log, old(sink.script), sink.script,
                       old(sink.stopFlag), sink.stopFlag, mode)
  {
    var h := Header(len);
    var header := new Byte[HEADER](i requires 0 <= i < HEADER => h[i]);
    assert header[..] == h;
    if mode.Polling? {
      status, total := WriteField(sink, header, HEADER, mode, false);
      assert header[..total] == h[..total];
      return;
    }
    ghost var log, first, flag := sink.log, sink.script, sink.stopFlag;
    var n, _ := sink.Write(header, 0, HEADER);
    status := if n == HEADER then Complete else Broken;
    total := if n == -1 then 0 else n;
    assert header[0..total] == h[..total];
    SingleCall(status, total, log, sink.log, first, sink.script, flag, sink.stopFlag);
  }

  lemma SingleCall(status: FieldStatus, total: nat, log: seq<Call>, now: seq<Call>, first: seq<IoEvent>,
                   script: seq<IoEvent>, before: bool, after: bool)
    requires now != [] && now == log + [now[|now| - 1]] && now[|now| - 1].IoCall? && script == Later(first)
    requires var c := now[|now| - 1];
             && total == c.moved && (total > 0 ==> c.event.Transfer?) && after == (before || Stops(c))
             && if first == [] then c.event.Transfer? && !c.event.stop else c.event == first[0]
    requires status == if total == HEADER then Complete else Broken
    ensures HeaderDone(status, total, log, now, first, script, before, after, Blocking)
  {
    assert Since(now, log) == [now[|now| - 1]];
  }

  /** Strip the newline and measure: `buf` then starts with the message, terminator included, of `len` bytes. */
  method Prepare(buf: array<Byte>, ghost chunk: seq<Byte>) returns (len: nat)
    requires |chunk| < buf.Length && buf[..|chunk| + 1] == chunk + [NUL]
    modifies buf
    ensures len <= |chunk| + 1 && buf[..len] == Content(chunk) + [NUL]
  {
    assert buf[..] == chunk + [NUL] + buf[|chunk| + 1..];
    StripsAndMeasures(chunk, buf[|chunk| + 1..]);
    var end := FirstOf(buf[..], {NEWLINE, NUL});   // strcspn stops at the newline or at the terminator
    ghost var before := buf[..];
    buf[end] := NUL;
    assert buf[..] == before[end := NUL];
    len := FirstOf(buf[..], {NUL}) + 1;
  }

  lemma HeaderPart(m: seq<Byte>, k: nat)
    requires |m| <= MAX_BUFFER && k <= HEADER
    ensures Header(|m|)[..k] <= Frame(m)
  {
  }

  lemma PayloadPart(base: seq<Byte>, m: seq<Byte>, k: nat)
    requires |m| <= MAX_BUFFER && k <= |m|
    ensures base <= base + Header(|m|) + m[..k] <= base + Frame(m)
    ensures k == |m| ==> base + Header(|m|) + m[..k] == base + Frame(m)
  {
    assert base + Frame(m) == base + Header(|m|) + m;
  }

  /** Header, then payload: the bytes taken are a prefix of the frame, and all of it on completion. Without stop signal
      and hard error the polling writer completes; the blocking one does exactly when its header goes in one piece. */
  method SendFrame(sink: Sink, buf: array<Byte>, len: nat, mode: Mode) returns (status: FieldStatus)
    requires len <= buf.Length && len <= MAX_BUFFER
    modifies sink`accepted, sink`script, sink`stopFlag, sink`log
    ensures old(sink.accepted) <= sink.accepted <= old(sink.accepted) + Frame(buf[..len])
    ensures status.Complete? ==> sink.accepted == old(sink.accepted) + Frame(buf[..len])
    ensures FrameDone(status, |sink.accepted| - |old(sink.accepted)|, old(sink.log), sink.log, old(sink.script),
                      sink.script, old(sink.stopFlag), sink.stopFlag, mode)
    ensures mode.Blocking? && status.Complete? ==>
              HeaderGoes(old(sink.script)) && sink.script == AfterField(Later(old(sink.script)), len)
    ensures mode.Blocking? && |sink.accepted| - |old(sink.accepted)| < HEADER ==> !HeaderGoes(old(sink.script))
  {
    hide FieldDone, HeaderDone, FrameDone;
    ghost var m, base := buf[..len], sink.accepted;
    ghost var log, first, flag := sink.log, sink.script, sink.stopFlag;
    var total;
    status, total := WriteHeader(sink, len, mode);
    HeaderPart(m, total);
    assert |Header(len)| == HEADER;
    if !status.Complete? {
      HeaderStops(status, total, log, sink.log, first, sink.script, flag, sink.stopFlag, mode);
      return;
    }
    ghost var mid, second, between := sink.log, sink.script, sink.stopFlag;
    status, total := WriteField(sink, buf, len, mode, mode.Blocking?);
    assert buf[..total] == m[..total];
    PayloadPart(base, m, total);
    HeaderThenPayload(status, total, log, mid, sink.log, first, second, sink.script, flag, between, sink.stopFlag,
                      mode);
  }

  /** Stripping with strcspn and measuring with strlen leaves the content of the chunk, whatever follows it
      in the buffer. */
  lemma StripsAndMeasures(chunk: seq<Byte>, stale: seq<Byte>)
    ensures var buf := chunk + [NUL] + stale;
            var end := FirstOf(buf, {NEWLINE, NUL});
            && end < |buf| && end == |Content(chunk)|
            && FirstOf(buf[end := NUL], {NUL}) == end
            && buf[end := NUL][..end + 1] == Content(chunk) + [NUL]
  {
    var buf := chunk + [NUL] + stale;
    assert buf == chunk + ([NUL] + stale);
    FirstOfAppend(chunk, [NUL] + stale, {NEWLINE, NUL});
    var end := FirstOf(buf, {NEWLINE, NUL});
    var after := buf[end := NUL];
    assert after[end] == NUL;
    assert forall j :: 0 <= j < end ==> after[j] != NUL;
  }

  /** The FIFO has taken the frames of `sent`, and `rest` is still to be read; all together is `all`. */
  ghost predicate Sending(
      sent: seq<seq<Byte>>, rest: seq<Byte>, accepted: seq<Byte>, all: seq<seq<Byte>>, size: nat)
    requires 2 <= size <= MAX_BUFFER
  {
    AllValid(sent, size) && sent + Messages(rest, size) == all && accepted == Encode(sent)
  }

  function Payload(input: seq<Byte>, size: nat): (m: seq<Byte>)
    requires 2 <= size && input != []
    ensures Valid(m, size)
  {
    Content(input[..Taken(input, size)]) + [NUL]
  }

  /** One more message sent. */
  lemma SentOneMore(sent: seq<seq<Byte>>, rest: seq<Byte>, accepted: seq<Byte>, all: seq<seq<Byte>>, size: nat)
    requires 2 <= size <= MAX_BUFFER && rest != [] && Sending(sent, rest, accepted, all, size)
    ensures var m := Payload(rest, size);
            Sending(sent + [m], rest[Taken(rest, size)..], accepted + Frame(m), all, size)
  {
    var m := Payload(rest, size);
    var later := Messages(rest[Taken(rest, size)..], size);
    assert sent + ([m] + later) == (sent + [m]) + later;
    EncodeAppend(sent, m);
  }

  /** The bytes taken are a prefix of the frames of everything, and all of them at the end of the input. */
  lemma SentPrefix(sent: seq<seq<Byte>>, rest: seq<Byte>, accepted: seq<Byte>, all: seq<seq<Byte>>, size: nat)
    requires 2 <= size <= MAX_BUFFER && Sending(sent, rest, accepted, all, size)
    requires AllValid(all, size)
    ensures accepted <= Encode(all)
    ensures rest == [] ==> accepted == Encode(all)
  {
    EncodeConcat(sent, Messages(rest, size));
    hide Encode;
    if rest == [] {
      assert sent == all;
    }
  }

  /** Also in the middle of the next frame. */
  lemma SentPart(sent: seq<seq<Byte>>, rest: seq<Byte>, accepted: seq<Byte>, all: seq<seq<Byte>>, size: nat,
                 more: seq<Byte>)
    requires 2 <= size <= MAX_BUFFER && rest != [] && Sending(sent, rest, accepted, all, size)
    requires AllValid(all, size)
    requires more <= accepted + Frame(Payload(rest, size))
    ensures more <= Encode(all)
  {
    hide Sending, Encode, Frame;
    var m := Payload(rest, size);
    SentOneMore(sent, rest, accepted, all, size);
    SentPrefix(sent + [m], rest[Taken(rest, size)..], accepted + Frame(m), all, size);
  }

  /** Nothing recorded for the coming calls ends a writer. */
  ghost predicate Calm(sink: Sink, mode: Mode)
    reads sink
  {
    && Benign(sink.script, mode) && !sink.stopFlag
    && (mode.Polling? ==> forall i :: 0 <= i < |sink.polls| && sink.polls[i].Nothing? ==> !sink.polls[i].stop)
  }

  /** One round of either writer: read a line, prepare it, send its frame. */
  datatype Progress = GoOn | Over(end: WriterEnd)

  /** One round takes the first of the headers still to go. */
  lemma RoundHeaders(rest: seq<Byte>, script: seq<IoEvent>, size: nat)
    requires 2 <= size && rest != []
    ensures HeadersGo(Messages(rest, size), script) <==>
            HeaderGoes(script)
            && HeadersGo(Messages(rest[Taken(rest, size)..], size), AfterField(Later(script), |Payload(rest, size)|))
  {
    assert Messages(rest, size)[0] == Payload(rest, size);
    assert Messages(rest, size)[1..] == Messages(rest[Taken(rest, size)..], size);
  }

  /** The blocking writer on this input and these outcomes gets a whole header through each time. */
  ghost predicate WillFinish(rest: seq<Byte>, script: seq<IoEvent>, size: nat, mode: Mode)
    requires 2 <= size
  {
    mode.Polling? || HeadersGo(Messages(rest, size), script)
  }

  /** What a calm round tells about the end of the run. */
  lemma CalmRound(status: FieldStatus, rest: seq<Byte>, left: seq<Byte>, moved: nat, log: seq<Call>, now: seq<Call>,
                  first: seq<IoEvent>, script: seq<IoEvent>, after: bool, size: nat, mode: Mode)
    requires 2 <= size && rest != [] && left == rest[Taken(rest, size)..] && Benign(first, mode)
    requires FrameDone(status, moved, log, now, first, script, false, after, mode)
    requires mode.Blocking? && status.Complete? ==>
               HeaderGoes(first) && script == AfterField(Later(first), |Payload(rest, size)|)
    requires mode.Blocking? && moved < HEADER ==> !HeaderGoes(first)
    ensures Benign(script, mode) && !after && !status.Interrupt? && !status.EndOfStream?
    ensures WillFinish(rest, first, size, mode) == (status.Complete? && WillFinish(left, script, size, mode))
  {
    CalmFrame(status, moved, log, now, first, script, after, mode);
    RoundHeaders(rest, first, size);
    FrameNeverEnds(status, moved, log, now, first, script, after, mode);
    hide FrameDone, Messages, HeadersGo;
  }

  lemma FrameNeverEnds(status: FieldStatus, moved: nat, log: seq<Call>, now: seq<Call>, first: seq<IoEvent>,
                       script: seq<IoEvent>, after: bool, mode: Mode)
    requires FrameDone(status, moved, log, now, first, script, false, after, mode)
    ensures !status.EndOfStream?
  {
  }

  /** A writer between two frames: what it has sent, and the calls made for it. */
  ghost predicate Writing(
      sent: seq<seq<Byte>>, rest: seq<Byte>, accepted: seq<Byte>, all: seq<seq<Byte>>, calls: seq<Call>,
      before: bool, after: bool, size: nat, mode: Mode)
    requires 2 <= size <= MAX_BUFFER
  {
    && Sending(sent, rest, accepted, all, size) && Moved(calls) == |accepted|
    && AtRest(calls, before, after, mode) && SentAfterStop(accepted, calls, before, size)
  }

  /** A whole run: what the FIFO has taken, how the writer ends and which calls it made for that. */
  ghost predicate WriterResult(end: WriterEnd, accepted: seq<Byte>, all: seq<seq<Byte>>, calls: seq<Call>, before: bool,
                               after: bool, size: nat, mode: Mode)
    requires AllValid(all, size) && size <= MAX_BUFFER
  {
    && accepted <= Encode(all) && Moved(calls) == |accepted|
    && (end.InputEnded? ==> accepted == Encode(all))
    && WriterCalls(end, calls, before, after, mode) && SentAfterStop(accepted, calls, before, size)
  }

  lemma WritingEnds(end: WriterEnd, sent: seq<seq<Byte>>, rest: seq<Byte>, accepted: seq<Byte>, all: seq<seq<Byte>>,
                    calls: seq<Call>, before: bool, after: bool, size: nat, mode: Mode)
    requires 2 <= size <= MAX_BUFFER && AllValid(all, size)
    requires Writing(sent, rest, accepted, all, calls, before, after, size, mode)
    requires if end.Stopped? then after else end.InputEnded? && rest == []
    ensures WriterResult(end, accepted, all, calls, before, after, size, mode)
  {
    SentPrefix(sent, rest, accepted, all, size);
    RestEnds(end, calls, before, after, mode);
  }

  /** A frame that goes through, or does not. */
  lemma FrameWritten(
      status: FieldStatus, sent: seq<seq<Byte>>, rest: seq<Byte>, before: seq<Byte>, accepted: seq<Byte>,
      all: seq<seq<Byte>>, c1: seq<Call>, c2: seq<Call>, flag: bool, after: bool, size: nat, mode: Mode)
    requires 2 <= size <= MAX_BUFFER && AllValid(all, size) && rest != []
    requires Writing(sent, rest, before, all, c1, flag, false, size, mode)
    requires before <= accepted <= before + Frame(Payload(rest, size))
    requires status.Complete? ==> accepted == before + Frame(Payload(rest, size))
    requires FrameCalls(status, c2, false, after, mode) && Moved(c2) == |accepted| - |before|
    ensures status.Complete? ==>
              Writing(sent + [Payload(rest, size)], rest[Taken(rest, size)..], accepted, all, c1 + c2, flag, after,
                      size, mode)
    ensures !status.Complete? ==>
              WriterResult(if status.Interrupt? then Stopped else Failed, accepted, all, c1 + c2, flag, after, size,
                           mode)
  {
    hide Encode, Messages, Frame, Moved, Flag, AtRest, FrameCalls, WriterCalls, SentAfterStop;
    FrameAdds(c1, c2, status, flag, after, mode);
    SentPart(sent, rest, before, all, size, accepted);
    SentLength(sent, rest, before, all, size);
    FrameAfterStop(sent, Payload(rest, size), accepted, c1, c2, status, flag, after, size, mode);
    SentOneMore(sent, rest, before, all, size);
  }

  lemma SentLength(sent: seq<seq<Byte>>, rest: seq<Byte>, accepted: seq<Byte>, all: seq<seq<Byte>>, size: nat)
    requires 2 <= size <= MAX_BUFFER && Sending(sent, rest, accepted, all, size)
    ensures AllValid(sent, size) && accepted == Encode(sent)
  {
  }

  method SendNext(stdin: Input, sink: Sink, buf: array<Byte>, size: nat, mode: Mode,
                  ghost sent: seq<seq<Byte>>, ghost all: seq<seq<Byte>>, ghost log: seq<Call>, ghost flag: bool)
    returns (r: Progress, ghost now: seq<seq<Byte>>)
    requires 2 <= size <= MAX_BUFFER && size == buf.Length && AllValid(all, size)
    requires log <= sink.log && !sink.stopFlag
    requires Writing(sent, stdin.rest, sink.accepted, all, Since(sink.log, log), flag, false, size, mode)
    modifies stdin, sink`accepted, sink`script, sink`stopFlag, sink`log, buf
    ensures log <= sink.log
    ensures r.GoOn? ==>
              |stdin.rest| < |old(stdin.rest)|
              && Writing(now, stdin.rest, sink.accepted, all, Since(sink.log, log), flag, sink.stopFlag, size, mode)
    ensures r.Over? ==>
              WriterResult(r.end, sink.accepted, all, Since(sink.log, log), flag, sink.stopFlag, size, mode)
    ensures old(Calm(sink, mode)) ==>
              && Calm(sink, mode) && r != Over(Stopped)
              && WillFinish(old(stdin.rest), old(sink.script), size, mode)
                 == if r.GoOn? then WillFinish(stdin.rest, sink.script, size, mode) else r == Over(InputEnded)
  {
    hide Encode, Messages, Frame, Writing, WriterResult, FrameDone, Since, Benign, Sending;
    ghost var rest, before, script, mid := stdin.rest, sink.accepted, sink.script, sink.log;
    ghost var c1, calm := Since(mid, log), Calm(sink, mode);
    now := sent;
    var ok := stdin.Fgets(buf, size);
    if !ok {
      WritingEnds(InputEnded, sent, rest, before, all, c1, flag, false, size, mode);
      NothingToSend(script, size, mode);
      return Over(InputEnded), sent;
    }
    var len := Prepare(buf, rest[..Taken(rest, size)]);
    assert buf[..len] == Payload(rest, size) && |Payload(rest, size)| == len;
    var status := SendFrame(sink, buf, len, mode);
    FrameSent(status, sent, rest, before, sink.accepted, all, log, mid, sink.log, script, sink.script, flag,
              sink.stopFlag, size, mode);
    if calm {
      CalmRound(status, rest, stdin.rest, |sink.accepted| - |before|, mid, sink.log, script, sink.script, sink.stopFlag,
                size, mode);
    }
    match status {
      case Complete =>
        now := sent + [Payload(rest, size)];
        r := GoOn;
      case Interrupt => r := Over(Stopped);
      case _ => r := Over(Failed);
    }
  }

  lemma NothingToSend(script: seq<IoEvent>, size: nat, mode: Mode)
    requires 2 <= size
    ensures WillFinish([], script, size, mode)
  {
  }

  lemma FrameSent(
      status: FieldStatus, sent: seq<seq<Byte>>, rest: seq<Byte>, before: seq<Byte>, accepted: seq<Byte>,
      all: seq<seq<Byte>>, log: seq<Call>, mid: seq<Call>, now: seq<Call>, first: seq<IoEvent>, script: seq<IoEvent>,
      flag: bool, after: bool, size: nat, mode: Mode)
    requires 2 <= size <= MAX_BUFFER && AllValid(all, size) && rest != [] && log <= mid
    requires Writing(sent, rest, before, all, Since(mid, log), flag, false, size, mode)
    requires before <= accepted <= before + Frame(Payload(rest, size))
    requires status.Complete? ==> accepted == before + Frame(Payload(rest, size))
    requires FrameDone(status, |accepted| - |before|, mid, now, first, script, false, after, mode)
    ensures log <= now
    ensures status.Complete? ==>
              Writing(sent + [Payload(rest, size)], rest[Taken(rest, size)..], accepted, all, Since(now, log), flag,
                      after, size, mode)
    ensures !status.Complete? ==>
              WriterResult(if status.Interrupt? then Stopped else Failed, accepted, all, Since(now, log), flag, after,
                           size, mode)
  {
    Chain(log, mid, now);
    hide Encode, Messages, Frame, Writing, WriterResult;
    FrameWritten(status, sent, rest, before, accepted, all, Since(mid, log), Since(now, mid), flag, after, size, mode);
  }

  /** Both writers on a newly opened FIFO. The FIFO has taken a prefix of the frames of the input, and all of them when
      the input is exhausted. A writer fails exactly if its last call meets an unhandled error or, blocking, does not
      take a whole header; once the stop flag is up the blocking writer makes no further call, and the polling one
      completes at most the frame it has begun. Without stop signal and hard error the polling writer ends with its
      input, and the blocking one exactly if all its headers go in one piece; otherwise it fails. */
  method Send(stdin: Input, sink: Sink, size: nat, mode: Mode) returns (end: WriterEnd)
    requires 2 <= size <= MAX_BUFFER && sink.accepted == []
    modifies stdin, sink
    ensures old(sink.log) <= sink.log
    ensures WriterResult(end, sink.accepted, Messages(old(stdin.rest), size), Since(sink.log, old(sink.log)),
                         old(sink.stopFlag), sink.stopFlag, size, mode)
    ensures old(sink.stopFlag) ==> end.Stopped? && sink.log == old(sink.log) && sink.accepted == []
    ensures old(Calm(sink, mode)) && mode.Polling? ==> end.InputEnded?
    ensures old(Calm(sink, mode)) && mode.Blocking? ==>
              && (end.InputEnded? <==> HeadersGo(Messages(old(stdin.rest), size), old(sink.script)))
              && !end.Stopped?
  {
    var buf := new Byte[size](_ => 0);
    ghost var all, log, flag := Messages(stdin.rest, size), sink.log, sink.stopFlag;
    ghost var sent := [];
    ghost var calm := Calm(sink, mode);
    ghost var finishes := WillFinish(stdin.rest, sink.script, size, mode);
    StartWriting(stdin.rest, log, flag, size, mode);
    hide Encode, Messages, Writing, WriterResult, WillFinish, Since, Benign;
    while true
      invariant log <= sink.log && (flag ==> sink.stopFlag && sink.log == log && sink.accepted == [])
      invariant Writing(sent, stdin.rest, sink.accepted, all, Since(sink.log, log), flag, sink.stopFlag, size, mode)
      invariant calm ==> Calm(sink, mode) && WillFinish(stdin.rest, sink.script, size, mode) == finishes
      decreases |stdin.rest|, |sink.polls|
    {
      if sink.stopFlag {
        WritingEnds(Stopped, sent, stdin.rest, sink.accepted, all, Since(sink.log, log), flag, true, size, mode);
        return Stopped;
      }
      if mode.Polling? {
        var ret := PollFirst(sink, size, sent, stdin.rest, all, log, flag);
        if ret <= 0 {
          continue;
        }
      }
      var r;
      r, sent := SendNext(stdin, sink, buf, size, mode, sent, all, log, flag);
      if r.Over? {
        return r.end;
      }
    }
  }

  /** The poll before a frame. */
  method PollFirst(sink: Sink, ghost size: nat, ghost sent: seq<seq<Byte>>, ghost rest: seq<Byte>,
                   ghost all: seq<seq<Byte>>, ghost log: seq<Call>, ghost flag: bool) returns (ret: int)
    requires 2 <= size <= MAX_BUFFER && log <= sink.log && !sink.stopFlag
    requires Writing(sent, rest, sink.accepted, all, Since(sink.log, log), flag, false, size, Polling)
    modifies sink`polls, sink`stopFlag, sink`log
    ensures log <= sink.log && !flag && (ret > 0 ==> !sink.stopFlag)
    ensures Writing(sent, rest, sink.accepted, all, Since(sink.log, log), flag, sink.stopFlag, size, Polling)
    ensures old(Calm(sink, Polling)) ==> Calm(sink, Polling)
    ensures ret > 0 || |sink.polls| < |old(sink.polls)|
    ensures ret <= 0 <==> old(sink.polls) != [] && old(sink.polls)[0].Nothing?
  {
    hide Writing, Since, Benign;
    ghost var mid := sink.log;
    ret := sink.Poll();
    PollWrites(sent, rest, sink.accepted, all, log, mid, sink.log, flag, sink.stopFlag, size);
  }

  lemma StartWriting(rest: seq<Byte>, log: seq<Call>, flag: bool, size: nat, mode: Mode)
    requires 2 <= size <= MAX_BUFFER
    ensures Writing([], rest, [], Messages(rest, size), Since(log, log), flag, flag, size, mode)
  {
    assert [] + Messages(rest, size) == Messages(rest, size);
  }

  lemma PollWrites(sent: seq<seq<Byte>>, rest: seq<Byte>, accepted: seq<Byte>, all: seq<seq<Byte>>, log: seq<Call>,
                   mid: seq<Call>, now: seq<Call>, flag: bool, stop: bool, size: nat)
    requires 2 <= size <= MAX_BUFFER && log <= mid && now == mid + [PollCall(false, stop)]
    requires Writing(sent, rest, accepted, all, Since(mid, log), flag, false, size, Polling)
    ensures log <= now && !flag
    ensures Writing(sent, rest, accepted, all, Since(now, log), flag, stop, size, Polling)
  {
    var c1 := Since(mid, log);
    assert Since(now, log) == c1 + [PollCall(false, stop)];
    PollRests(c1, stop, flag);
    NothingAfterPoll(accepted, c1, stop, flag, size);
  }
}
