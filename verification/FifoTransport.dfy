/**
 One writer and one reader on a FIFO of bounded capacity, one system call per step, under any schedule
 and any choice of transfer sizes, retries, aborts and closings (11_4 and 11_5).
 */
module FifoTransport {
  import opened SystemCalls
  import opened Frames
  import opened Lines

  /** The messages to send, the capacity of the FIFO and the reader's buffer size. */
  datatype Setup = Setup(msgs: seq<seq<Byte>>, capacity: nat, size: nat) {
    predicate Ok() {
      1 <= capacity && size <= MAX_BUFFER && AllValid(msgs, size)
    }
  }

  /** The writer between messages, inside the header or payload of message k, or closed after `part` bytes of it. */
  datatype Writer =
    | Idle(k: nat)
    | InHeader(k: nat, done: nat)
    | InPayload(k: nat, done: nat)
    | Closed(k: nat, part: nat)

  /** The reader with the bytes of the current field, or finished with a verdict, or gone by signal or error. */
  datatype Reader =
    | ReadingHeader(got: seq<Byte>)
    | ReadingPayload(len: nat, got: seq<Byte>)
    | Finished(verdict: Verdict)
    | Aborted

  datatype State = State(w: Writer, pipe: seq<Byte>, r: Reader, delivered: seq<seq<Byte>>)

  datatype Move =
    | Begin            // the next message is measured
    | Write(n: nat)    // a write takes n bytes
    | RetryWrite       // EINTR or EAGAIN
    | Close            // the writer ends, at any point
    | Read(n: nat)     // a read delivers n bytes
    | RetryRead        // EINTR or EAGAIN
    | SeeEnd           // a read returns 0
    | Abort            // the reader ends by a signal or an error

  predicate WriterOpen(w: Writer) {
    !w.Closed?
  }

  predicate ReaderOpen(r: Reader) {
    r.ReadingHeader? || r.ReadingPayload?
  }

  /** The bytes of the current field that the writer still has to write. */
  function ToWrite(c: Setup, w: Writer): seq<Byte>
    requires c.Ok()
  {
    match w
    case InHeader(k, done) => if k < |c.msgs| && done <= HEADER then Header(|c.msgs[k]|)[done..] else []
    case InPayload(k, done) => if k < |c.msgs| && done <= |c.msgs[k]| then c.msgs[k][done..] else []
    case _ => []
  }

  /** How many bytes of the current field the reader asks for. */
  function ToRead(r: Reader): int {
    match r
    case ReadingHeader(got) => HEADER - |got|
    case ReadingPayload(len, got) => len - |got|
    case _ => 0
  }

  predicate Enabled(c: Setup, s: State, m: Move)
    requires c.Ok()
  {
    match m
    case Begin => s.w.Idle? && s.w.k < |c.msgs|
    case Write(n) => 1 <= n <= |ToWrite(c, s.w)| && |s.pipe| + n <= c.capacity
    case RetryWrite => s.w.InHeader? || s.w.InPayload?
    case Close => WriterOpen(s.w)
    case Read(n) => ReaderOpen(s.r) && 1 <= n <= ToRead(s.r) && n <= |s.pipe|
    case RetryRead => ReaderOpen(s.r)
    case SeeEnd => ReaderOpen(s.r) && s.pipe == [] && s.w.Closed?
    case Abort => ReaderOpen(s.r)
  }

  function AfterWrite(c: Setup, w: Writer, n: nat): Writer
    requires c.Ok() && 1 <= n <= |ToWrite(c, w)|
  {
    match w
    case InHeader(k, done) => if done + n == HEADER then InPayload(k, 0) else InHeader(k, done + n)
    case InPayload(k, done) => if done + n == |c.msgs[k]| then Idle(k + 1) else InPayload(k, done + n)
  }

  function AfterClose(w: Writer): Writer
    requires WriterOpen(w)
  {
    match w
    case Idle(k) => Closed(k, 0)
    case InHeader(k, done) => Closed(k, done)
    case InPayload(k, done) => Closed(k, HEADER + done)
  }

  /** The reader after `more` bytes: a full header is checked, a full payload is delivered. */
  function AfterRead(c: Setup, s: State, more: seq<Byte>): State
    requires ReaderOpen(s.r) && |more| <= ToRead(s.r)
  {
    match s.r
    case ReadingHeader(got) =>
      var all := got + more;
      if |all| < HEADER then s.(r := ReadingHeader(all))
      else
        var len := Length(all);
        if len == 0 || len > c.size then s.(r := Finished(BadLength(len)))
        else s.(r := ReadingPayload(len, []))
    case ReadingPayload(len, got) =>
      var all := got + more;
      if |all| < len then s.(r := ReadingPayload(len, all))
      else s.(r := ReadingHeader([]), delivered := s.delivered + [all])
  }

  function Next(c: Setup, s: State, m: Move): State
    requires c.Ok() && Enabled(c, s, m)
  {
    match m
    case Begin => s.(w := InHeader(s.w.k, 0))
    case Write(n) => s.(w := AfterWrite(c, s.w, n), pipe := s.pipe + ToWrite(c, s.w)[..n])
    case RetryWrite => s
    case Close => s.(w := AfterClose(s.w))
    case Read(n) => AfterRead(c, s, s.pipe[..n]).(pipe := s.pipe[n..])
    case RetryRead => s
    case SeeEnd => s.(r := Finished(if s.r.ReadingHeader? then Clean else Truncated))
    case Abort => s.(r := Aborted)
  }

  const START := State(Idle(0), [], ReadingHeader([]), [])

  ghost predicate IsRun(c: Setup, moves: seq<Move>, states: seq<State>)
    requires c.Ok()
  {
    && |states| == |moves| + 1
    && states[0] == START
    && forall i :: 0 <= i < |moves| ==>
         Enabled(c, states[i], moves[i]) && states[i + 1] == Next(c, states[i], moves[i])
  }

  // ----- The invariant: what was consumed and what is in the pipe is what was written -----

  predicate WriterOk(c: Setup, w: Writer)
    requires c.Ok()
  {
    match w
    case Idle(k) => k <= |c.msgs|
    case InHeader(k, done) => k < |c.msgs| && done < HEADER
    case InPayload(k, done) => k < |c.msgs| && done < |c.msgs[k]|
    case Closed(k, part) => k <= |c.msgs| && (k == |c.msgs| ==> part == 0)
                            && (k < |c.msgs| ==> part < HEADER + |c.msgs[k]|)
  }

  /** How many bytes of message k's frame were written. */
  function Part(w: Writer): nat {
    match w
    case Idle(_) => 0
    case InHeader(_, done) => done
    case InPayload(_, done) => HEADER + done
    case Closed(_, part) => part
  }

  function PartBytes(c: Setup, w: Writer): seq<Byte>
    requires c.Ok() && WriterOk(c, w)
  {
    if w.k < |c.msgs| then Frame(c.msgs[w.k])[..Part(w)] else []
  }

  function Written(c: Setup, w: Writer): seq<Byte>
    requires c.Ok() && WriterOk(c, w)
  {
    Encode(c.msgs[..w.k]) + PartBytes(c, w)
  }

  predicate ReaderOk(c: Setup, r: Reader)
    requires c.Ok()
  {
    match r
    case ReadingHeader(got) => |got| < HEADER
    case ReadingPayload(len, got) => 0 < len <= c.size && |got| < len
    case Finished(v) => !v.BadLength?
    case Aborted => true
  }

  function Pending(c: Setup, r: Reader): seq<Byte>
    requires c.Ok() && ReaderOk(c, r)
  {
    match r
    case ReadingHeader(got) => got
    case ReadingPayload(len, got) => Header(len) + got
    case _ => []
  }

  ghost predicate Inv(c: Setup, s: State)
    requires c.Ok()
  {
    && WriterOk(c, s.w) && ReaderOk(c, s.r)
    && |s.pipe| <= c.capacity
    && AllValid(s.delivered, c.size)
    && s.delivered <= c.msgs
    && (ReaderOpen(s.r) ==> Encode(s.delivered) + Pending(c, s.r) + s.pipe == Written(c, s.w))
    && (s.r.Finished? ==>
          s.w.Closed? && s.delivered == c.msgs[..s.w.k]
          && s.r.verdict == if s.w.part < HEADER then Clean else Truncated)
  }

  lemma WrittenIsPrefix(c: Setup, w: Writer)
    requires c.Ok() && WriterOk(c, w)
    ensures Written(c, w) <= Encode(c.msgs)
  {
    var k := w.k;
    assert c.msgs == c.msgs[..k] + c.msgs[k..];
    EncodeConcat(c.msgs[..k], c.msgs[k..]);
    if k < |c.msgs| {
      var f, rest := Frame(c.msgs[k]), Encode(c.msgs[k..][1..]);
      assert Encode(c.msgs[k..]) == f + rest;
      assert f[..Part(w)] <= f + rest;
    }
  }

  /** Whatever encoded messages a prefix of the encoding of `all` starts with are the first messages of `all`. */
  lemma DecodedIsPrefix(ms: seq<seq<Byte>>, tail: seq<Byte>, all: seq<seq<Byte>>, size: nat)
    requires size <= MAX_BUFFER && AllValid(ms, size) && AllValid(all, size)
    requires Encode(ms) + tail <= Encode(all)
    ensures ms <= all
    ensures !Parse(tail, size).verdict.BadLength?
  {
    var s := Encode(ms) + tail;
    var rest := Encode(all)[|s|..];
    assert s + rest == Encode(all);
    ParseEncode(ms, tail, size);
    RoundTrip(all, size);
    ParsePrefix(s, rest, size);
    NoBadLength(s, rest, size);
  }

  lemma FrameCompleted(c: Setup, k: nat)
    requires c.Ok() && k < |c.msgs|
    ensures Written(c, Idle(k + 1)) == Encode(c.msgs[..k]) + Frame(c.msgs[k])
  {
    assert c.msgs[..k + 1] == c.msgs[..k] + [c.msgs[k]];
    EncodeAppend(c.msgs[..k], c.msgs[k]);
  }

  lemma WriteExtends(c: Setup, w: Writer, n: nat)
    requires c.Ok() && WriterOk(c, w) && 1 <= n <= |ToWrite(c, w)|
    ensures WriterOk(c, AfterWrite(c, w, n))
    ensures Written(c, AfterWrite(c, w, n)) == Written(c, w) + ToWrite(c, w)[..n]
  {
    var k := w.k;
    var f := Frame(c.msgs[k]);
    var part := Part(w);
    assert f[..part] + ToWrite(c, w)[..n] == f[..part + n];
    hide Encode;
    Reassociate(Encode(c.msgs[..k]), f[..part], ToWrite(c, w)[..n]);
    if w.InPayload? && w.done + n == |c.msgs[k]| {
      assert f[..part + n] == f;
      FrameCompleted(c, k);
    }
  }

  /** A header complete or not: bytes move from the pipe to the reader, and a complete one has a legal length. */
  lemma HeaderReadKeepsInv(c: Setup, s: State, n: nat)
    requires c.Ok() && Inv(c, s) && Enabled(c, s, Read(n)) && s.r.ReadingHeader?
    ensures Inv(c, Next(c, s, Read(n)))
  {
    var e, got, more, left := Encode(s.delivered), s.r.got, s.pipe[..n], s.pipe[n..];
    var all := got + more;
    assert s.pipe == more + left;
    Regroup(e, got, more, left);
    if |all| == HEADER {
      WrittenIsPrefix(c, s.w);
      CutPrefix(e + all, left, Encode(c.msgs));
      DecodedIsPrefix(s.delivered, all, c.msgs, c.size);
      LegalLength(all, c.size);
      assert Header(Length(all)) + [] == all;
    }
  }

  lemma LegalLength(h: seq<Byte>, size: nat)
    requires |h| == HEADER && !Parse(h, size).verdict.BadLength?
    ensures 0 < Length(h) <= size
    ensures Length(h) <= MAX_BUFFER && Header(Length(h)) == h
  {
    assert h[..HEADER] == h;
    HeaderOfLength(h);
  }

  lemma Regroup(e: seq<Byte>, got: seq<Byte>, more: seq<Byte>, left: seq<Byte>)
    ensures e + got + (more + left) == e + (got + more) + left
  {
  }

  lemma CutPrefix(s: seq<Byte>, t: seq<Byte>, u: seq<Byte>)
    requires s + t <= u
    ensures s <= u
  {
  }

  /** A completed payload is the next message. */
  lemma Completes(c: Setup, delivered: seq<seq<Byte>>, m: seq<Byte>, left: seq<Byte>, written: seq<Byte>)
    requires c.Ok() && AllValid(delivered, c.size) && Valid(m, c.size)
    requires Encode(delivered) + (Header(|m|) + m) + left == written <= Encode(c.msgs)
    ensures delivered + [m] <= c.msgs && AllValid(delivered + [m], c.size)
    ensures Encode(delivered + [m]) + [] + left == written
  {
    EncodeAppend(delivered, m);
    var f := Encode(delivered + [m]);
    assert f + [] + left == f + left;
    DecodedIsPrefix(delivered + [m], left, c.msgs, c.size);
  }

  lemma PayloadReadKeepsInv(c: Setup, s: State, n: nat)
    requires c.Ok() && Inv(c, s) && Enabled(c, s, Read(n)) && s.r.ReadingPayload?
    ensures Inv(c, Next(c, s, Read(n)))
  {
    var h, more, left := Header(s.r.len), s.pipe[..n], s.pipe[n..];
    var all := s.r.got + more;
    Regroup(Encode(s.delivered), h + s.r.got, more, left);
    assert s.pipe == more + left && (h + s.r.got) + more == h + all;
    WrittenIsPrefix(c, s.w);
    if |all| == s.r.len {
      Completes(c, s.delivered, all, left, Written(c, s.w));
    }
    hide Written, Encode, Header;
  }

  /** At the end of the stream the reader has exactly the complete messages, and its verdict tells only whether
      fewer than four bytes of the next frame came. */
  lemma EndKeepsInv(c: Setup, s: State)
    requires c.Ok() && Inv(c, s) && Enabled(c, s, SeeEnd)
    ensures Inv(c, Next(c, s, SeeEnd))
  {
    var k, part := s.w.k, PartBytes(c, s.w);
    var done := c.msgs[..k];
    assert Encode(s.delivered) + Pending(c, s.r) + [] == Encode(s.delivered) + Pending(c, s.r);
    ParseEncode(s.delivered, Pending(c, s.r), c.size);
    ParseEncode(done, part, c.size);
    PendingHasNone(c, s.r);
    PartHasNone(c, s.w);
    assert s.delivered + [] == s.delivered && done + [] == done;
  }

  lemma PendingHasNone(c: Setup, r: Reader)
    requires c.Ok() && ReaderOk(c, r) && ReaderOpen(r)
    ensures Parse(Pending(c, r), c.size) == Parsed([], if r.ReadingHeader? then Clean else Truncated)
  {
    if r.ReadingPayload? {
      LengthOfHeader(r.len);
      assert Pending(c, r)[..HEADER] == Header(r.len);
    }
  }

  lemma PartHasNone(c: Setup, w: Writer)
    requires c.Ok() && WriterOk(c, w) && w.Closed?
    ensures Parse(PartBytes(c, w), c.size) == Parsed([], if w.part < HEADER then Clean else Truncated)
  {
    if w.k < |c.msgs| && w.part >= HEADER {
      var m := c.msgs[w.k];
      LengthOfHeader(|m|);
      assert PartBytes(c, w)[..HEADER] == Header(|m|);
    }
  }

  lemma Reassociate(x: seq<Byte>, y: seq<Byte>, z: seq<Byte>)
    ensures x + (y + z) == (x + y) + z
  {
  }

  lemma WriteKeepsInv(c: Setup, s: State, n: nat)
    requires c.Ok() && Inv(c, s) && Enabled(c, s, Write(n))
    ensures Inv(c, Next(c, s, Write(n)))
  {
    WriteExtends(c, s.w, n);
    hide Written, Encode, Pending, AfterWrite, ToWrite;
    if ReaderOpen(s.r) {
      Reassociate(Encode(s.delivered) + Pending(c, s.r), s.pipe, ToWrite(c, s.w)[..n]);
    }
  }

  lemma BeginOrClose(c: Setup, w: Writer)
    requires c.Ok() && WriterOk(c, w)
    ensures w.Idle? && w.k < |c.msgs| ==>
              WriterOk(c, InHeader(w.k, 0)) && Written(c, InHeader(w.k, 0)) == Written(c, w)
    ensures WriterOpen(w) ==> WriterOk(c, AfterClose(w)) && Written(c, AfterClose(w)) == Written(c, w)
  {
  }

  lemma StepKeepsInv(c: Setup, s: State, m: Move)
    requires c.Ok() && Inv(c, s) && Enabled(c, s, m)
    ensures Inv(c, Next(c, s, m))
  {
    match m
    case Write(n) => WriteKeepsInv(c, s, n);
    case Read(n) =>
      if s.r.ReadingHeader? {
        HeaderReadKeepsInv(c, s, n);
      } else {
        PayloadReadKeepsInv(c, s, n);
      }
    case SeeEnd => EndKeepsInv(c, s);
    case _ =>
      BeginOrClose(c, s.w);
      hide Written, Encode, AfterRead, AfterWrite, ToWrite;
  }

  lemma {:induction false} RunInv(c: Setup, moves: seq<Move>, states: seq<State>, i: nat)
    requires c.Ok() && IsRun(c, moves, states) && i <= |moves|
    ensures Inv(c, states[i])
  {
    if i == 0 {
      assert Encode([]) + [] + [] == Written(c, Idle(0));
    } else {
      RunInv(c, moves, states, i - 1);
      assert states[i - 1 + 1] == Next(c, states[i - 1], moves[i - 1]);
      StepKeepsInv(c, states[i - 1], moves[i - 1]);
    }
  }

  /** End-to-end transport: at every point of every run the delivered messages are the first messages sent, the
      length check never fires, and a reader that saw the end has every message whose frame was completely written;
      it says `Clean` if and only if fewer than four bytes of a further frame were written. */
  lemma Transport(c: Setup, moves: seq<Move>, states: seq<State>, i: nat)
    requires c.Ok() && IsRun(c, moves, states) && i <= |moves|
    ensures var s := states[i];
            && s.delivered <= c.msgs
            && |s.pipe| <= c.capacity
            && (s.r.Finished? ==>
                  && !s.r.verdict.BadLength?
                  && s.w.Closed? && s.w.k <= |c.msgs|
                  && s.delivered == c.msgs[..s.w.k]
                  && (s.r.verdict == Clean <==> s.w.part < HEADER))
  {
    RunInv(c, moves, states, i);
  }

  // ----- The reader of a run computes the format's meaning of the bytes it took -----

  /** All bytes that the first `i` moves of a run take out of the FIFO. */
  ghost function TakenBytes(moves: seq<Move>, states: seq<State>, i: nat): seq<Byte>
    requires i <= |moves| < |states|
  {
    if i == 0 then []
    else
      var m, pipe := moves[i - 1], states[i - 1].pipe;
      TakenBytes(moves, states, i - 1) + if m.Read? && m.n <= |pipe| then pipe[..m.n] else []
  }

  /** `got` are the bytes read so far: the reader stands where decoding them leads. */
  ghost predicate Decoded(c: Setup, s: State, got: seq<Byte>)
    requires c.Ok() && Inv(c, s)
  {
    && got <= Encode(c.msgs)
    && (ReaderOpen(s.r) ==> got == Encode(s.delivered) + Pending(c, s.r))
    && Parse(got, c.size).messages == s.delivered
    && (s.r.Finished? ==> Parse(got, c.size).verdict == s.r.verdict)
  }

  /** In an open reader the delivered messages and the pending bytes are all there is to know. */
  lemma OpenDecoded(c: Setup, s: State)
    requires c.Ok() && Inv(c, s) && ReaderOpen(s.r)
    ensures Parse(Encode(s.delivered) + Pending(c, s.r), c.size)
            == Parsed(s.delivered, if s.r.ReadingHeader? then Clean else Truncated)
  {
    ParseEncode(s.delivered, Pending(c, s.r), c.size);
    PendingHasNone(c, s.r);
    assert s.delivered + [] == s.delivered;
  }

  /** Bytes moved from the FIFO to the reader are the same bytes. */
  lemma Moved(got: seq<Byte>, more: seq<Byte>, left: seq<Byte>, after: seq<Byte>, written: seq<Byte>, all: seq<Byte>)
    requires got + (more + left) == written == after + left && written <= all
    ensures got + more == after <= all
  {
    var both := got + more;
    assert both + left == after + left && |both| == |after|;
    assert both == (both + left)[..|both|] && after == (after + left)[..|after|];
  }

  /** Before and after a read the bytes taken and those in the FIFO are what was written. */
  lemma ReadBalance(c: Setup, s: State, n: nat)
    requires c.Ok() && Inv(c, s) && Enabled(c, s, Read(n)) && Inv(c, Next(c, s, Read(n)))
    ensures var t := Next(c, s, Read(n));
            && ReaderOpen(s.r) && ReaderOpen(t.r)
            && Encode(s.delivered) + Pending(c, s.r) + (s.pipe[..n] + s.pipe[n..]) == Written(c, s.w)
            && Encode(t.delivered) + Pending(c, t.r) + s.pipe[n..] == Written(c, s.w)
  {
    assert s.pipe == s.pipe[..n] + s.pipe[n..];
    hide Encode, Pending, Written;
  }

  /** Reading moves bytes from the FIFO into the decoded part. */
  lemma ReadDecodes(c: Setup, s: State, n: nat, got: seq<Byte>)
    requires c.Ok() && Inv(c, s) && Enabled(c, s, Read(n)) && Decoded(c, s, got)
    requires Inv(c, Next(c, s, Read(n)))
    ensures Decoded(c, Next(c, s, Read(n)), got + s.pipe[..n])
  {
    var t := Next(c, s, Read(n));
    ReadBalance(c, s, n);
    WrittenIsPrefix(c, s.w);
    OpenDecoded(c, t);
    hide Encode, Pending, Written, Next, Parse;
    Moved(got, s.pipe[..n], s.pipe[n..], Encode(t.delivered) + Pending(c, t.r), Written(c, s.w), Encode(c.msgs));
  }

  lemma {:induction false} RunDecoded(c: Setup, moves: seq<Move>, states: seq<State>, i: nat)
    requires c.Ok() && IsRun(c, moves, states) && i <= |moves|
    ensures Inv(c, states[i]) && Decoded(c, states[i], TakenBytes(moves, states, i))
  {
    RunInv(c, moves, states, i);
    if i == 0 {
    } else {
      var s, m, got := states[i - 1], moves[i - 1], TakenBytes(moves, states, i - 1);
      RunDecoded(c, moves, states, i - 1);
      assert states[i - 1 + 1] == Next(c, s, m);
      if m.Read? {
        ReadDecodes(c, s, m.n, got);
      } else {
        OtherDecodes(c, s, m, got);
      }
    }
  }

  /** All other moves leave the bytes read and the meaning given to them alone; the end gives them the verdict. */
  lemma OtherDecodes(c: Setup, s: State, m: Move, got: seq<Byte>)
    requires c.Ok() && Inv(c, s) && Enabled(c, s, m) && Decoded(c, s, got) && !m.Read?
    requires Inv(c, Next(c, s, m))
    ensures Decoded(c, Next(c, s, m), got + [])
  {
    assert got + [] == got;
    if ReaderOpen(s.r) {
      OpenDecoded(c, s);
    }
    hide Encode, Written, ToWrite, AfterWrite, AfterRead;
  }

  /** Under every schedule the delivered messages are those the format finds in the bytes the reader took, whatever
      sizes the reads returned, and a reader that saw the end has the format's verdict on them. */
  lemma DeliversMeaning(c: Setup, moves: seq<Move>, states: seq<State>, i: nat)
    requires c.Ok() && IsRun(c, moves, states) && i <= |moves|
    ensures var s, got := states[i], TakenBytes(moves, states, i);
            && s.delivered == Parse(got, c.size).messages
            && (s.r.Finished? ==> Parsed(s.delivered, s.r.verdict) == Parse(got, c.size))
            && got <= Encode(c.msgs)
  {
    RunDecoded(c, moves, states, i);
  }

  // ----- Completion -----

  /** Moves of two parties that go on as long as they can: no retry, no abort, closing only after the last message. */
  predicate Productive(c: Setup, s: State, m: Move)
    requires c.Ok()
  {
    && Enabled(c, s, m)
    && (m.Begin? || m.Write? || m.Read? || m.SeeEnd? || (m.Close? && s.w == Idle(|c.msgs|)))
  }

  /** Nobody is ever stuck: while the reader is open, one of the parties can do something useful. */
  lemma NeverStuck(c: Setup, s: State) returns (m: Move)
    requires c.Ok() && Inv(c, s) && ReaderOpen(s.r)
    ensures Productive(c, s, m)
  {
    if s.pipe != [] {
      m := Read(1);
    } else {
      match s.w
      case Idle(k) => m := if k < |c.msgs| then Begin else Close;
      case InHeader(k, done) => m := Write(1);
      case InPayload(k, done) => m := Write(1);
      case Closed(k, part) => m := SeeEnd;
    }
  }

  /** Bytes still to write count twice, bytes in the pipe once; plus messages to begin and the two closings. */
  function Measure(c: Setup, s: State): int
    requires c.Ok() && WriterOk(c, s.w)
  {
    2 * (|Encode(c.msgs)| - |Written(c, s.w)|) + |s.pipe|
    + (|c.msgs| - s.w.k) + (if s.w.Idle? then 1 else 0)
    + (if WriterOpen(s.w) then 1 else 0) + (if ReaderOpen(s.r) then 1 else 0)
  }

  lemma MeasureNonNegative(c: Setup, s: State)
    requires c.Ok() && WriterOk(c, s.w)
    ensures 0 <= Measure(c, s)
  {
    WrittenIsPrefix(c, s.w);
  }

  lemma WriteLowers(c: Setup, s: State, n: nat)
    requires c.Ok() && WriterOk(c, s.w) && Enabled(c, s, Write(n))
    ensures WriterOk(c, Next(c, s, Write(n)).w)
    ensures Measure(c, Next(c, s, Write(n))) < Measure(c, s)
  {
    WriteExtends(c, s.w, n);
    hide Written, Encode;
  }

  lemma ReadLowers(c: Setup, s: State, n: nat)
    requires c.Ok() && WriterOk(c, s.w) && Enabled(c, s, Read(n))
    ensures Measure(c, Next(c, s, Read(n))) < Measure(c, s)
  {
    hide Written, Encode;
  }

  /** Every move but a retry lowers the measure. */
  lemma StepLowers(c: Setup, s: State, m: Move)
    requires c.Ok() && WriterOk(c, s.w) && Enabled(c, s, m)
    ensures WriterOk(c, Next(c, s, m).w)
    ensures Measure(c, Next(c, s, m)) + (if m.RetryWrite? || m.RetryRead? then 0 else 1) <= Measure(c, s)
  {
    match m
    case Write(n) => WriteLowers(c, s, n);
    case Read(n) => ReadLowers(c, s, n);
    case _ =>
      BeginOrClose(c, s.w);
      hide Written, Encode, AfterRead, AfterWrite, ToWrite;
  }

  /** How many of the first `i` moves are useful. */
  ghost function Useful(c: Setup, moves: seq<Move>, states: seq<State>, i: nat): nat
    requires c.Ok() && i <= |moves| < |states|
  {
    if i == 0 then 0 else Useful(c, moves, states, i - 1) + if Productive(c, states[i - 1], moves[i - 1]) then 1 else 0
  }

  lemma {:induction false} UsefulBound(c: Setup, moves: seq<Move>, states: seq<State>, i: nat)
    requires c.Ok() && IsRun(c, moves, states) && i <= |moves|
    ensures WriterOk(c, states[i].w)
    ensures Useful(c, moves, states, i) + Measure(c, states[i]) <= 2 * |Encode(c.msgs)| + |c.msgs| + 3
  {
    hide Measure, Inv, Productive;
    RunInv(c, moves, states, i);
    assert WriterOk(c, states[i].w) by { InvWriter(c, states[i]); }
    if i == 0 {
      StartMeasure(c);
    } else {
      UsefulBound(c, moves, states, i - 1);
      RunInv(c, moves, states, i - 1);
      assert states[i - 1 + 1] == Next(c, states[i - 1], moves[i - 1]);
      StepLowers(c, states[i - 1], moves[i - 1]);
      NoRetry(c, states[i - 1], moves[i - 1]);
    }
  }

  lemma NoRetry(c: Setup, s: State, m: Move)
    requires c.Ok()
    ensures Productive(c, s, m) ==> !m.RetryWrite? && !m.RetryRead?
  {
  }

  lemma InvWriter(c: Setup, s: State)
    requires c.Ok() && Inv(c, s)
    ensures WriterOk(c, s.w)
  {
  }

  lemma StartMeasure(c: Setup)
    requires c.Ok()
    ensures Measure(c, START) <= 2 * |Encode(c.msgs)| + |c.msgs| + 3
  {
    assert Written(c, Idle(0)) == [];
  }

  /** Every schedule gets everything through: a run has a bounded number of useful moves, and a run in which the
      writer closed after its last message and the reader saw the end delivered exactly the messages. */
  lemma Completion(c: Setup, moves: seq<Move>, states: seq<State>)
    requires c.Ok() && IsRun(c, moves, states)
    ensures Useful(c, moves, states, |moves|) <= 2 * |Encode(c.msgs)| + |c.msgs| + 3
    ensures ReaderOpen(states[|moves|].r) ==> exists m :: Productive(c, states[|moves|], m)
    ensures states[|moves|].r.Finished? && states[|moves|].w.k == |c.msgs| ==>
              states[|moves|].delivered == c.msgs && states[|moves|].r.verdict == Clean
  {
    var s := states[|moves|];
    RunInv(c, moves, states, |moves|);
    UsefulBound(c, moves, states, |moves|);
    MeasureNonNegative(c, s);
    if ReaderOpen(s.r) {
      var m := NeverStuck(c, s);
      assert Productive(c, s, m);
    }
    if s.r.Finished? && s.w.k == |c.msgs| {
      assert c.msgs[..s.w.k] == c.msgs;
    }
  }

  // ----- Every run can be finished -----

  /** The writer has not gone beyond `part` bytes of message `k`, or is closed exactly there. */
  predicate NotPast(w: Writer, k: nat, part: nat) {
    if w.Closed? then w == Closed(k, part) else w.k < k || (w.k == k && Part(w) <= part)
  }

  /** A move of two parties that go on until the writer closes after `part` bytes of message `k`. */
  predicate Toward(c: Setup, s: State, m: Move, k: nat, part: nat)
    requires c.Ok()
  {
    && Enabled(c, s, m)
    && (m.Begin? || m.Write? || m.Read? || m.SeeEnd? || (m.Close? && AfterClose(s.w) == Closed(k, part)))
  }

  /** Going on until the writer closes after its last message is useful throughout. */
  lemma TowardEnd(c: Setup, s: State, m: Move)
    requires c.Ok() && WriterOk(c, s.w) && Toward(c, s, m, |c.msgs|, 0)
    ensures Productive(c, s, m)
  {
  }

  /** One more move in that direction. */
  lemma OneToward(c: Setup, s: State, k: nat, part: nat) returns (m: Move)
    requires c.Ok() && Inv(c, s) && ReaderOpen(s.r) && WriterOk(c, Closed(k, part)) && NotPast(s.w, k, part)
    ensures Toward(c, s, m, k, part) && !m.RetryWrite? && !m.RetryRead?
    ensures var t := Next(c, s, m); NotPast(t.w, k, part) && (ReaderOpen(t.r) || t.r.Finished?)
  {
    if s.pipe != [] {
      m := Read(1);
    } else if s.w.Closed? {
      m := SeeEnd;
    } else if AfterClose(s.w) == Closed(k, part) {
      m := Close;
    } else {
      m := if s.w.Idle? then Begin else Write(1);
    }
    hide Encode, Written;
  }

  lemma FinishedThere(c: Setup, s: State, k: nat, part: nat)
    requires c.Ok() && Inv(c, s) && s.r.Finished? && NotPast(s.w, k, part)
    ensures s.w == Closed(k, part) && k <= |c.msgs| && s.delivered == c.msgs[..k]
    ensures s.r.verdict == if part < HEADER then Clean else Truncated
  {
  }

  /** From every point of every run at which the reader is open and the writer has not gone past `part` bytes of
      message `k`: the writer can close there and the reader finish. It then has the `k` messages before, and says
      `Clean` if fewer than four bytes followed them. */
  lemma {:induction false} CanStopAt(c: Setup, moves: seq<Move>, states: seq<State>, k: nat, part: nat)
    returns (more: seq<Move>, all: seq<State>)
    requires c.Ok() && IsRun(c, moves, states) && WriterOk(c, Closed(k, part))
    requires NotPast(states[|moves|].w, k, part) && !states[|moves|].r.Aborted?
    ensures IsRun(c, moves + more, all) && states <= all && k <= |c.msgs|
    ensures forall j :: 0 <= j < |more| ==> Toward(c, all[|moves| + j], more[j], k, part)
    ensures var t := all[|moves + more|];
            && t.w == Closed(k, part) && t.delivered == c.msgs[..k]
            && t.r == Finished(if part < HEADER then Clean else Truncated)
  {
    RunInv(c, moves, states, |moves|);
    more, all := GoOnTo(c, moves, states, k, part);
    assert AllToward(c, |moves|, more, all, k, part);
  }

  /** One after the other, `more` leads from the last of `states` toward that point. */
  ghost predicate AllToward(c: Setup, from: nat, more: seq<Move>, all: seq<State>, k: nat, part: nat)
    requires c.Ok()
  {
    from + |more| < |all| && forall j :: 0 <= j < |more| ==> Toward(c, all[from + j], more[j], k, part)
  }

  lemma NoneToward(c: Setup, from: nat, all: seq<State>, k: nat, part: nat)
    requires c.Ok() && from < |all|
    ensures AllToward(c, from, [], all, k, part)
  {
  }

  lemma FirstToward(c: Setup, from: nat, m: Move, rest: seq<Move>, all: seq<State>, k: nat, part: nat)
    requires c.Ok() && AllToward(c, from + 1, rest, all, k, part) && Toward(c, all[from], m, k, part)
    ensures AllToward(c, from, [m] + rest, all, k, part)
  {
    var more := [m] + rest;
    forall j | 0 <= j < |more| ensures Toward(c, all[from + j], more[j], k, part) {
      assert j > 0 ==> Toward(c, all[from + 1 + (j - 1)], rest[j - 1], k, part);
    }
  }

  lemma {:induction false} GoOnTo(c: Setup, moves: seq<Move>, states: seq<State>, k: nat, part: nat)
    returns (more: seq<Move>, all: seq<State>)
    requires c.Ok() && IsRun(c, moves, states) && WriterOk(c, Closed(k, part)) && Inv(c, states[|moves|])
    requires NotPast(states[|moves|].w, k, part) && !states[|moves|].r.Aborted?
    ensures IsRun(c, moves + more, all) && states <= all && AllToward(c, |moves|, more, all, k, part)
    ensures var t := all[|moves + more|];
            && t.w == Closed(k, part) && t.delivered == c.msgs[..k]
            && t.r == Finished(if part < HEADER then Clean else Truncated)
    decreases Measure(c, states[|moves|])
  {
    hide Measure, Inv, Toward, NotPast, AllToward;
    var s := states[|moves|];
    if s.r.Finished? {
      more, all := [], states;
      assert moves + more == moves;
      FinishedThere(c, s, k, part);
      NoneToward(c, |moves|, all, k, part);
    } else {
      var m, t := OneMore(c, moves, states, k, part);
      assert |states| == |moves| + 1;
      hide IsRun;
      var rest;
      rest, all := GoOnTo(c, moves + [m], states + [t], k, part);
      more := [m] + rest;
      assert moves + more == moves + [m] + rest;
      FirstToward(c, |moves|, m, rest, all, k, part);
    }
  }

  /** Appending such a move gives a run with a smaller measure. */
  lemma OneMore(c: Setup, moves: seq<Move>, states: seq<State>, k: nat, part: nat) returns (m: Move, t: State)
    requires c.Ok() && IsRun(c, moves, states) && WriterOk(c, Closed(k, part)) && Inv(c, states[|moves|])
    requires NotPast(states[|moves|].w, k, part) && ReaderOpen(states[|moves|].r)
    ensures Toward(c, states[|moves|], m, k, part)
    ensures IsRun(c, moves + [m], states + [t]) && Inv(c, t) && NotPast(t.w, k, part) && !t.r.Aborted?
    ensures WriterOk(c, t.w) && WriterOk(c, states[|moves|].w)
    ensures 0 <= Measure(c, t) < Measure(c, states[|moves|])
  {
    var s := states[|moves|];
    m := OneToward(c, s, k, part);
    t := Next(c, s, m);
    StepKeepsInv(c, s, m);
    StepLowers(c, s, m);
    MeasureNonNegative(c, t);
    hide Next, Enabled, Inv, Measure;
    var ms, ss := moves + [m], states + [t];
    forall i | 0 <= i < |ms| ensures Enabled(c, ss[i], ms[i]) && ss[i + 1] == Next(c, ss[i], ms[i]) {
      assert i < |moves| ==> ss[i] == states[i] && ms[i] == moves[i];
    }
  }

  /** Every run in which the reader is open and the writer has not closed early can be continued by useful moves alone
      until the reader has seen the end, with exactly the messages. */
  lemma CanFinish(c: Setup, moves: seq<Move>, states: seq<State>) returns (more: seq<Move>, all: seq<State>)
    requires c.Ok() && IsRun(c, moves, states) && ReaderOpen(states[|moves|].r)
    requires states[|moves|].w.Closed? ==> states[|moves|].w.k == |c.msgs|
    ensures IsRun(c, moves + more, all) && states <= all
    ensures forall j :: 0 <= j < |more| ==> Productive(c, all[|moves| + j], more[j])
    ensures all[|moves + more|].r == Finished(Clean) && all[|moves + more|].delivered == c.msgs
  {
    RunInv(c, moves, states, |moves|);
    AtMostEnd(c, states[|moves|].w);
    more, all := GoOnTo(c, moves, states, |c.msgs|, 0);
    forall j | 0 <= j < |more| ensures Productive(c, all[|moves| + j], more[j]) {
      RunInv(c, moves + more, all, |moves| + j);
      TowardEnd(c, all[|moves| + j], more[j]);
    }
    assert c.msgs[..|c.msgs|] == c.msgs;
  }

  lemma AtMostEnd(c: Setup, w: Writer)
    requires c.Ok() && WriterOk(c, w) && (w.Closed? ==> w.k == |c.msgs|)
    ensures NotPast(w, |c.msgs|, 0) && WriterOk(c, Closed(|c.msgs|, 0))
  {
  }

  /** `Clean` does not prove that the writer stopped between messages: for any messages and any one of them there is a
      run in which the writer ends inside its header and the reader says `Clean`. */
  lemma CleanInsideHeader(c: Setup, k: nat, part: nat) returns (moves: seq<Move>, states: seq<State>)
    requires c.Ok() && k < |c.msgs| && 0 < part < HEADER
    ensures IsRun(c, moves, states)
    ensures var s := states[|moves|];
            s.w == Closed(k, part) && s.r == Finished(Clean) && s.delivered == c.msgs[..k]
  {
    moves, states := CanStopAt(c, [], [START], k, part);
    assert [] + moves == moves;
  }

  /** From the writer's input to the reader's output: the messages cut from any input fit any FIFO. The printed
      messages are always the first ones; for input without NUL the printed text is the beginning of what was typed,
      newlines aside, and after a complete run it is all of that if and only if the input contained no NUL. */
  lemma EndToEnd(input: seq<Byte>, capacity: nat, size: nat, moves: seq<Move>, states: seq<State>)
    requires 1 <= capacity && 2 <= size <= MAX_BUFFER
    requires IsRun(Setup(Messages(input, size), capacity, size), moves, states)
    ensures var s := states[|moves|];
            var n := |Messages(input, size)|;
            && |s.delivered| <= n && Texts(s.delivered) == Texts(Messages(input, size))[..|s.delivered|]
            && (NUL !in input ==> Joined(Texts(s.delivered)) <= WithoutNewlines(input))
            && (s.r.Finished? && s.w.k == n ==>
                  (Joined(Texts(s.delivered)) == WithoutNewlines(input) <==> NUL !in input))
  {
    var c := Setup(Messages(input, size), capacity, size);
    Transport(c, moves, states, |moves|);
    Completion(c, moves, states);
    InputPreserved(input, size);
    JoinedPrefix(Texts(Messages(input, size)), |states[|moves|].delivered|);
  }

  lemma {:induction false} JoinedPrefix(ts: seq<seq<Byte>>, k: nat)
    requires k <= |ts|
    ensures Joined(ts[..k]) <= Joined(ts)
  {
    if k == 0 {
    } else {
      assert ts[..k][1..] == ts[1..][..k - 1];
      JoinedPrefix(ts[1..], k - 1);
    }
  }
}
