/** The reading ends of the FIFO: 11_4_2 (blocking) and 11_5_2 (polling), against any behaviour of read and poll. */
module FifoReader {
  import opened SystemCalls
  import opened Frames
  import opened IoCalls
  import opened ReadRuns

  /** The kernel side: the bytes still to come, the outcomes of the next calls (any that follow move all they can),
      the flag set by the signal handler, and the calls made so far. */
  class Source {
    var unread: seq<Byte>
    var script: seq<IoEvent>
    var polls: seq<PollEvent>
    var stopFlag: bool
    var log: seq<Call>

    constructor (unread: seq<Byte>, script: seq<IoEvent>, polls: seq<PollEvent>)
      ensures this.unread == unread && this.script == script && this.polls == polls && !stopFlag && log == []
    {
      this.unread, this.script, this.polls, stopFlag, log := unread, script, polls, false, [];
    }

    /** read(fd, buf + offset, count) with a positive count: 0 only at the end of the stream. */
    method Read(buf: array<Byte>, offset: nat, count: nat) returns (n: int, errno: Errno)
      requires 0 < count && offset + count <= buf.Length
      modifies this`unread, this`script, this`stopFlag, this`log, buf
      ensures n == -1 ==>
                unread == old(unread) && buf[..] == old(buf[..]) && old(script) != [] && errno != NoError
      ensures n != -1 ==>
                && 0 <= n <= count && n <= |old(unread)|
                && (n == 0 <==> old(unread) == [])
                && unread == old(unread)[n..]
                && buf[..offset + n] == old(buf[..offset]) + old(unread)[..n]
      ensures script == if old(script) == [] then [] else old(script)[1..]
      ensures old(script) == [] ==> n != -1 && errno == NoError && stopFlag == old(stopFlag)
      ensures old(script) != [] ==>
                && stopFlag == (old(stopFlag) || old(script)[0].stop)
                && (n == -1 <==> !old(script)[0].Transfer?)
                && (errno == EINTR <==> old(script)[0].Interrupted?)
                && (errno == EAGAIN <==> old(script)[0].WouldBlock?)
      ensures log == old(log) + [IoCall(if old(script) == [] then Transfer(count, false) else old(script)[0],
                                          if n == -1 then 0 else n)]
    {
      var limit := count;
      errno := NoError;
      var e := Transfer(count, false);
      if script != [] {
        e := script[0];
        script := script[1..];
        stopFlag := stopFlag || e.stop;
        if !e.Transfer? {
          log := log + [IoCall(e, 0)];
          return -1, if e.Interrupted? then EINTR else if e.WouldBlock? then EAGAIN else OtherError;
        }
        limit := if e.limit == 0 then 1 else e.limit;
      }
      n := if limit < count then limit else count;
      n := if n < |unread| then n else |unread|;
      forall k | 0 <= k < n {
        buf[offset + k] := unread[k];
      }
      assert buf[..offset] == old(buf[..offset]) && buf[offset..offset + n] == unread[..n];
      assert buf[..offset + n] == buf[..offset] + buf[offset..offset + n];
      unread := unread[n..];
      log := log + [IoCall(e, n)];
    }

    /** poll on the descriptor; after the recorded outcomes the stop signal arrives. */
    method Poll() returns (ret: int, errno: Errno, pollin: bool)
      modifies this`polls, this`stopFlag, this`log
      ensures log == old(log) + [if old(polls) == [] then PollCall(false, true)
                                    else PollCall(old(polls)[0].PollFailure?, PollStops(old(polls)[0]))]
      ensures stopFlag == (old(stopFlag) || Stops(log[|log| - 1]))
      ensures old(polls) == [] ==> stopFlag && ret == -1 && errno == EINTR && polls == []
      ensures old(polls) != [] ==>
                && polls == old(polls)[1..]
                && (pollin <==> old(polls)[0] == Ready(true))
                && (ret == 1 <==> old(polls)[0].Ready?)
                && (ret == -1 && errno != EINTR <==> old(polls)[0].PollFailure?)
                && (Patient(old(polls)) ==> stopFlag == old(stopFlag))
      ensures ret == 0 || ret == 1 || (ret == -1 && errno != NoError)
    {
      if polls == [] {
        stopFlag := true;
        log := log + [PollCall(false, true)];
        return -1, EINTR, false;
      }
      var e := polls[0];
      polls := polls[1..];
      log := log + [PollCall(e.PollFailure?, PollStops(e))];
      match e
      case Timeout(s) =>
        stopFlag := stopFlag || s;
        return 0, NoError, false;
      case PollInterrupted(s) =>
        stopFlag := stopFlag || s;
        return -1, EINTR, false;
      case PollFailure => return -1, OtherError, false;
      case Ready(p) => return 1, NoError, p;
    }
  }

  /** The first `total` bytes of the stream are in the buffer, the others are still to come. */
  ghost predicate Filled(got: seq<Byte>, unread: seq<Byte>, stream: seq<Byte>, total: nat) {
    total <= |stream| && got == stream[..total] && unread == stream[total..]
  }

  lemma IsFilled(got: seq<Byte>, unread: seq<Byte>, stream: seq<Byte>, total: nat)
    requires Filled(got, unread, stream, total)
    ensures total <= |stream| && got == stream[..total] && unread == stream[total..]
  {
  }

  /** One read into the rest of the buffer. */
  method Fill(src: Source, buf: array<Byte>, total: nat, count: nat, ghost stream: seq<Byte>)
    returns (n: int, errno: Errno)
    requires total < count <= buf.Length && Filled(buf[..total], src.unread, stream, total)
    modifies src`unread, src`script, src`stopFlag, src`log, buf
    ensures -1 <= n <= count - total
    ensures var now := if n == -1 then total else total + n; Filled(buf[..now], src.unread, stream, now)
    ensures n == 0 ==> total == |stream|
    ensures src.script == if old(src.script) == [] then [] else old(src.script)[1..]
    ensures |src.log| > 0 && src.log[|src.log| - 1].IoCall? && src.log == old(src.log) + [src.log[|src.log| - 1]]
    ensures var c := src.log[|src.log| - 1];
            && src.stopFlag == (old(src.stopFlag) || Stops(c))
            && c.moved == (if n == -1 then 0 else n)
            && (if old(src.script) == [] then c.event.Transfer? && !c.event.stop else c.event == old(src.script)[0])
            && (n == -1 <==> !c.event.Transfer?)
            && (errno == EINTR <==> c.event.Interrupted?) && (errno == EAGAIN <==> c.event.WouldBlock?)
  {
    n, errno := src.Read(buf, total, count - total);
    assert n == -1 ==> buf[..total] == old(buf[..])[..total];
  }

  /** One round of a read loop. */
  method ReadOnce(src: Source, buf: array<Byte>, total: nat, count: nat, mode: Mode, checkStop: bool,
                  ghost stream: seq<Byte>, ghost log: seq<Call>, ghost first: seq<IoEvent>, ghost flag: bool)
    returns (r: Step)
    requires total < count <= buf.Length && Filled(buf[..total], src.unread, stream, total)
    requires Begun(total, log, src.log, first, src.script, flag, src.stopFlag, mode, checkStop)
    modifies src`unread, src`script, src`stopFlag, src`log, buf
    ensures r.More? ==> 0 < r.n <= count - total
    ensures var now := if r.More? then total + r.n else total; Filled(buf[..now], src.unread, stream, now)
    ensures match r
            case More(n) =>
              !LastInterrupted(Since(src.log, log))
              && Begun(total + n, log, src.log, first, src.script, flag, src.stopFlag, mode, checkStop)
            case Again => Begun(total, log, src.log, first, src.script, flag, src.stopFlag, mode, checkStop)
            case End(status) =>
              !status.Complete? && (status.EndOfStream? ==> total == |stream|)
              && FieldDone(status, total, log, src.log, first, src.script, flag, src.stopFlag, mode, checkStop)
    ensures |src.script| <= |old(src.script)| && (r.Again? ==> |src.script| < |old(src.script)|)
  {
    hide Begun, FieldDone, Since, LastInterrupted, Filled;
    ghost var now, script, up := src.log, src.script, src.stopFlag;
    if checkStop && src.stopFlag {
      NoRound(Interrupt, total, log, now, first, script, flag, up, mode, checkStop);
      return End(Interrupt);
    }
    var n, errno := Fill(src, buf, total, count, stream);
    Round(src.log[|src.log| - 1], total, log, now, first, script, src.script, flag, up, mode, checkStop);
    if n == -1 {
      if errno == EINTR {
        return if src.stopFlag then End(Interrupt) else Again;
      } else if errno == EAGAIN && mode.Polling? {
        return Again;
      }
      return End(Broken);
    } else if n == 0 {
      return End(EndOfStream);
    }
    r := More(n);
  }

  /** One resumable read loop: fills `count` bytes of `buf` or says why not. Bytes read so far are exactly the
      first bytes of the stream, and `Complete` means all of them. It goes on after everything but the end of the
      stream, an unhandled error, and a stop signal that it tests for. */
  method ReadField(src: Source, buf: array<Byte>, count: nat, mode: Mode, checkStop: bool)
    returns (status: FieldStatus, total: nat)
    requires count <= buf.Length
    modifies src`unread, src`script, src`stopFlag, src`log, buf
    ensures total <= count && total <= |old(src.unread)|
    ensures buf[..total] == old(src.unread)[..total] && src.unread == old(src.unread)[total..]
    ensures status.Complete? <==> total == count
    ensures status.EndOfStream? ==> total < count && total == |old(src.unread)|
    ensures FieldDone(status, total, old(src.log), src.log, old(src.script), src.script,
                      old(src.stopFlag), src.stopFlag, mode, checkStop)
  {
    total := 0;
    ghost var stream, log, first, flag := src.unread, src.log, src.script, src.stopFlag;
    Start(log, first, flag, mode, checkStop);
    assert Filled(buf[..0], src.unread, stream, 0);
    hide Begun, FieldDone, Since, LastInterrupted, Filled;
    while total < count
      invariant total <= count && Filled(buf[..total], src.unread, stream, total)
      invariant Begun(total, log, src.log, first, src.script, flag, src.stopFlag, mode, checkStop)
      invariant LastInterrupted(Since(src.log, log)) ==> total < count
      decreases |src.script| + count - total
    {
      var r := ReadOnce(src, buf, total, count, mode, checkStop, stream, log, first, flag);
      match r
      case More(n) => total := total + n;
      case Again =>
      case End(why) =>
        IsFilled(buf[..total], src.unread, stream, total);
        return why, total;
    }
    NoRound(Complete, total, log, src.log, first, src.script, flag, src.stopFlag, mode, checkStop);
    IsFilled(buf[..total], src.unread, stream, total);
    status := Complete;
  }

  /** The payload of `len` bytes behind the header of `stream`. */
  method ReadPayload(src: Source, len: nat, mode: Mode, ghost stream: seq<Byte>, ghost size: nat)
    returns (d: Delivery)
    requires |stream| >= HEADER && len == Length(stream[..HEADER]) && 0 < len <= size
    requires src.unread == stream[HEADER..]
    modifies src`unread, src`script, src`stopFlag, src`log
    ensures DeliveryOk(d, stream, src.unread, size) && |src.unread| <= |old(src.unread)|
    ensures PayloadDone(d, |old(src.unread)| - |src.unread|, old(src.log), src.log, old(src.script), src.script,
                        old(src.stopFlag), src.stopFlag, mode)
  {
    hide FieldDone, DeliveryOk;
    var buf := new Byte[len + 1](_ => 0);
    var status, total := ReadField(src, buf, len, mode, mode.Blocking?);
    PayloadRead(stream, len, total, buf[..total], src.unread);
    if status.Complete? {
      buf[len] := NUL;
      assert buf[..] == buf[..len] + [NUL];
      TextOfTerminated(buf[..len]);
      d := Delivered(buf[..FirstOf(buf[..], {NUL})]);
      PayloadDelivers(stream, len, size);
    } else {
      d := Quit(EndingOf(status, Truncated));
      PayloadFails(stream, len, total, status, size);
    }
  }

  /** The body of both reader loops: header, length check, payload, terminator, print. */
  method ReadMessage(src: Source, size: nat, mode: Mode) returns (d: Delivery)
    modifies src`unread, src`script, src`stopFlag, src`log
    ensures |src.unread| <= |old(src.unread)| && DeliveryOk(d, old(src.unread), src.unread, size)
    ensures MessageDone(d, |old(src.unread)| - |src.unread|, old(src.log), src.log, old(src.script), src.script,
                        old(src.stopFlag), src.stopFlag, mode)
  {
    hide FieldDone, MessageDone, DeliveryOk;
    ghost var stream, log, first, flag := src.unread, src.log, src.script, src.stopFlag;
    var header := new Byte[HEADER](_ => 0);
    var status, total := ReadField(src, header, HEADER, mode, false);
    if !status.Complete? {
      d := Quit(EndingOf(status, Clean));
      HeaderOnly(status, d, total, log, src.log, first, src.script, flag, src.stopFlag, mode);
      HeaderFails(stream, total, status, size);
      return;
    }
    assert header[..] == header[..total] == stream[..HEADER];
    var len := Length(header[..]);
    if len == 0 || len > size {
      d := Quit(Ended(BadLength(len)));
      HeaderOnly(status, d, total, log, src.log, first, src.script, flag, src.stopFlag, mode);
      LengthFails(stream, len, size);
      return;
    }
    ghost var mid, second, between := src.log, src.script, src.stopFlag;
    d := ReadPayload(src, len, mode, stream, size);
    HeaderAndPayload(d, HEADER, |stream| - HEADER - |src.unread|, log, mid, src.log, first, second, src.script, flag,
                     between, src.stopFlag, mode);
  }

  /** The blocking reader. It prints exactly the messages that are complete in what it reads, a prefix of those of the
      stream. It fails exactly if its last call meets an unhandled error. Once the stop flag is up it prints
      nothing but what was complete by then. Chunking independence: without a stop signal and a failing call, what it
      prints and how it ends is a function of the byte stream alone. */
  method ReceiveBlocking(src: Source, size: nat) returns (printed: seq<seq<Byte>>, ending: Ending)
    modifies src`unread, src`script, src`stopFlag, src`log
    ensures old(src.log) <= src.log && Played(Since(src.log, old(src.log)), old(src.script), src.script)
    ensures RunResult(printed, ending, old(src.unread), Since(src.log, old(src.log)), old(src.stopFlag), src.stopFlag,
                      size, Blocking, 0)
    ensures old(src.stopFlag) ==> ending.Stopped? && src.log == old(src.log)
    ensures Benign(old(src.script), Blocking) && !old(src.stopFlag) ==> ending.Ended?
  {
    printed := [];
    ghost var stream, log, first, flag := src.unread, src.log, src.script, src.stopFlag;
    ghost var calm := Benign(first, Blocking) && !flag;
    SinceNothing(log, first);
    NothingYet(stream, flag, size);
    hide BlockingInv, Since, Played, Benign, MessageDone, DeliveryOk, RunResult;
    while true
      invariant log <= src.log && Played(Since(src.log, log), first, src.script)
      invariant BlockingInv(printed, stream, src.unread, Since(src.log, log), flag, src.stopFlag, size)
      invariant calm ==> Benign(src.script, Blocking) && !src.stopFlag
      invariant flag ==> src.log == log
      decreases |src.unread|
    {
      ghost var c1, before, now, script := Since(src.log, log), src.unread, src.log, src.script;
      if src.stopFlag {
        BlockingStops(printed, stream, before, c1, flag, size);
        BlockingPrefix(printed, stream, before, c1, flag, size);
        return printed, Stopped;
      }
      var d := ReadMessage(src, size, Blocking);
      BlockingMessage(d, printed, stream, before, src.unread, log, now, src.log, first, script, src.script,
                      flag, src.stopFlag, size);
      if calm {
        CalmMessage(d, |before| - |src.unread|, now, src.log, script, src.script, src.stopFlag, Blocking);
      }
      match d
      case Quit(e) => return printed, e;
      case Delivered(text) => printed := printed + [text];
    }
  }

  /** What one round of the polling reader yields. */
  datatype Received = Nothing | OneText(text: seq<Byte>) | Over(ending: Ending)

  /** One round of the polling reader: poll, and read a message if there is data. */
  method ReceiveNext(src: Source, size: nat, ghost printed: seq<seq<Byte>>, ghost stream: seq<Byte>,
                     ghost log: seq<Call>, ghost flag: bool, ghost total: nat) returns (r: Received)
    requires log <= src.log && !src.stopFlag
    requires PollingInv(printed, stream, src.unread, Since(src.log, log), flag, false, size)
    modifies src`unread, src`script, src`polls, src`stopFlag, src`log
    ensures log <= src.log && !flag
    ensures r.Over? ==>
              && PollsCalmly(Since(src.log, log), flag)
              && RunResult(printed, r.ending, stream, Since(src.log, log), flag, src.stopFlag, size, Polling, 1)
    ensures !r.Over? ==>
              PollingInv(if r.Nothing? then printed else printed + [r.text], stream, src.unread,
                         Since(src.log, log), flag, src.stopFlag, size)
    ensures |src.polls| < |old(src.polls)| || (src.polls == old(src.polls) && src.stopFlag)
    ensures Quiet(old(src.script), old(src.polls), false, |printed|, total) ==>
              match r
              case Nothing => Quiet(src.script, src.polls, src.stopFlag, |printed|, total)
              case OneText(_) => Quiet(src.script, src.polls, src.stopFlag, |printed| + 1, total)
              case Over(e) => e.Ended? && |printed| < total
  {
    hide PollingInv, Since, MessageDone, DeliveryOk, RunResult, PollsCalmly, Quiet;
    ghost var before, now, ahead := src.unread, src.log, src.polls;
    ghost var calm := Quiet(src.script, ahead, false, |printed|, total);
    var ret, errno, pollin := src.Poll();
    ghost var mid := src.log;
    LogPoll(printed, stream, before, log, now, mid, flag, size);
    if calm {
      QuietPoll(src.script, ahead, |printed|, total);
    }
    if ret == -1 {
      if errno == EINTR {
        return Nothing;
      }
      return Over(Failed);
    } else if ret == 0 || !pollin {
      return Nothing;
    }
    ghost var script := src.script;
    var d := ReadMessage(src, size, Polling);
    PollingMessage(d, printed, stream, before, src.unread, log, mid, src.log, script, src.script, flag,
                   src.stopFlag, size);
    if calm {
      QuietMessage(script, src.script, src.polls, |printed| + 1, total, d, |before| - |src.unread|, mid, src.log,
                   src.stopFlag);
    }
    match d
    case Quit(e) => r := Over(e);
    case Delivered(text) => r := OneText(text);
  }

  /** The polling reader, for every sequence of poll and read outcomes up to the stop signal. It prints exactly the
      messages that are complete in what it reads. It fails exactly if its last call meets an unhandled error. It
      polls only with the stop flag down, and once that is up it prints at most the message it has begun. Without a
      failing call and with no stop signal before the recorded polls are over, it delivers one message for each time
      poll reports data: all of them if that is as often as there are messages, and then, once more and it ends by
      itself. */
  method ReceivePolling(src: Source, size: nat) returns (printed: seq<seq<Byte>>, ending: Ending)
    modifies src`unread, src`script, src`polls, src`stopFlag, src`log
    ensures old(src.log) <= src.log && PollsCalmly(Since(src.log, old(src.log)), old(src.stopFlag))
    ensures RunResult(printed, ending, old(src.unread), Since(src.log, old(src.log)), old(src.stopFlag), src.stopFlag,
                      size, Polling, 1)
    ensures old(src.stopFlag) ==> ending.Stopped? && src.log == old(src.log)
    ensures Benign(old(src.script), Polling) && Patient(old(src.polls)) && !old(src.stopFlag) ==>
              var texts, ready := Texts(Parse(old(src.unread), size).messages), ReadyCount(old(src.polls));
              && (ending.Ended? <==> ready > |texts|) && (ending.Stopped? <==> ready <= |texts|)
              && printed == if ready < |texts| then texts[..ready] else texts
  {
    printed := [];
    ghost var stream, log, flag := src.unread, src.log, src.stopFlag;
    ghost var calm, total := Benign(src.script, Polling) && Patient(src.polls) && !flag, ReadyCount(src.polls);
    assert calm ==> Quiet(src.script, src.polls, flag, 0, total);
    SinceNothing(log, src.script);
    NothingYet(stream, flag, size);
    hide PollingInv, Since, Benign, RunResult, PollsCalmly, Quiet, Patient, ReadyCount;
    while !src.stopFlag
      invariant log <= src.log && (flag ==> src.log == log)
      invariant PollingInv(printed, stream, src.unread, Since(src.log, log), flag, src.stopFlag, size)
      invariant calm ==> Quiet(src.script, src.polls, src.stopFlag, |printed|, total)
      decreases |src.polls|, if src.stopFlag then 0 else 1
    {
      var r := ReceiveNext(src, size, printed, stream, log, flag, total);
      match r
      case Nothing =>
      case OneText(text) => printed := printed + [text];
      case Over(e) =>
        if calm {
          ReadAll(printed, e, stream, Since(src.log, log), flag, src.stopFlag, size);
        }
        return printed, e;
    }
    PollingStops(printed, stream, src.unread, Since(src.log, log), flag, src.stopFlag, size);
    if calm {
      QuietEnd(src.script, src.polls, |printed|, total);
      ReadPart(printed, stream, Since(src.log, log), flag, size);
    }
    ending := Stopped;
  }
}
