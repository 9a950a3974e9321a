/** The wire format of 11_4 and 11_5: a 4-byte little-endian length, then that many bytes. */
module Frames {
  import opened SystemCalls

  const HEADER := 4

  /** The largest buffer whose lengths fit the 32-bit header. */
  const MAX_BUFFER := 0xFFFF_FFFF

  function Header(len: nat): (h: seq<Byte>)
    requires len <= MAX_BUFFER
  {
    [len % 256, len / 256 % 256, len / 65536 % 256, len / 16777216]
  }

  function Length(h: seq<Byte>): nat
    requires |h| == HEADER
  {
    var a: int, b: int, c: int, d: int := h[0], h[1], h[2], h[3];
    a + 256 * b + 65536 * c + 16777216 * d
  }

  /** The least significant byte comes first. */
  lemma LeastByteFirst(len: nat)
    requires len <= MAX_BUFFER
    ensures |Header(len)| == HEADER && Header(len)[0] == len % 256
    ensures len >= 256 ==> Header(len / 256)[..3] == Header(len)[1..]
    ensures len < 256 ==> Header(len) == [len, 0, 0, 0]
  {
    assert len / 256 / 256 == len / 65536 && len / 256 / 65536 == len / 16777216;
  }

  lemma LengthOfHeader(len: nat)
    requires len <= MAX_BUFFER
    ensures Length(Header(len)) == len
  {
    assert len == 256 * (len / 256) + len % 256;
    assert len / 256 == 256 * (len / 65536) + len / 256 % 256;
    assert len / 65536 == 256 * (len / 16777216) + len / 65536 % 256;
  }

  /** A message a reader with a buffer of `size` bytes accepts. */
  predicate Valid(m: seq<Byte>, size: nat) {
    1 <= |m| <= size
  }

  predicate AllValid(ms: seq<seq<Byte>>, size: nat) {
    forall i :: 0 <= i < |ms| ==> Valid(ms[i], size)
  }

  function Frame(m: seq<Byte>): seq<Byte>
    requires |m| <= MAX_BUFFER
  {
    Header(|m|) + m
  }

  function Encode(ms: seq<seq<Byte>>): seq<Byte>
    requires forall i :: 0 <= i < |ms| ==> |ms[i]| <= MAX_BUFFER
  {
    if ms == [] then [] else Frame(ms[0]) + Encode(ms[1..])
  }

  /** How the blocking reader ends: the writer closed, a length out of range, or the end inside a message. */
  datatype Verdict = Clean | BadLength(len: nat) | Truncated

  datatype Parsed = Parsed(messages: seq<seq<Byte>>, verdict: Verdict)

  /** What a byte stream means: the messages in it and how it ends. An end inside a header counts as clean. */
  function Parse(s: seq<Byte>, size: nat): Parsed
    decreases |s|
  {
    if |s| < HEADER then Parsed([], Clean)
    else
      var len := Length(s[..HEADER]);
      if len == 0 || len > size then Parsed([], BadLength(len))
      else if |s| < HEADER + len then Parsed([], Truncated)
      else
        var rest := Parse(s[HEADER + len..], size);
        Parsed([s[HEADER..HEADER + len]] + rest.messages, rest.verdict)
  }

  /** One frame in front of a stream is one message in front of its meaning. */
  lemma ParseFrame(m: seq<Byte>, tail: seq<Byte>, size: nat)
    requires size <= MAX_BUFFER && Valid(m, size)
    ensures Parse(Frame(m) + tail, size) == Parsed([m] + Parse(tail, size).messages, Parse(tail, size).verdict)
  {
    var s := Frame(m) + tail;
    LengthOfHeader(|m|);
    assert s[..HEADER] == Header(|m|);
    assert s[HEADER..HEADER + |m|] == m;
    assert s[HEADER + |m|..] == tail;
  }

  lemma EncodeFirst(ms: seq<seq<Byte>>, tail: seq<Byte>)
    requires ms != [] && forall i :: 0 <= i < |ms| ==> |ms[i]| <= MAX_BUFFER
    ensures Encode(ms) + tail == Frame(ms[0]) + (Encode(ms[1..]) + tail)
  {
    var f, e := Frame(ms[0]), Encode(ms[1..]);
    assert (f + e) + tail == f + (e + tail);
  }

  /** Encoded messages in front of a stream are these messages in front of its meaning. */
  lemma {:induction false} ParseEncode(ms: seq<seq<Byte>>, tail: seq<Byte>, size: nat)
    requires size <= MAX_BUFFER && AllValid(ms, size)
    ensures Parse(Encode(ms) + tail, size) == Parsed(ms + Parse(tail, size).messages, Parse(tail, size).verdict)
  {
    if ms == [] {
      assert Encode(ms) + tail == tail;
    } else {
      ParseEncode(ms[1..], tail, size);
      EncodeFirst(ms, tail);
      ParseFrame(ms[0], Encode(ms[1..]) + tail, size);
      ConsAppend(ms, Parse(tail, size).messages);
      hide Parse, Encode, Frame;
    }
  }

  lemma ConsAppend(ms: seq<seq<Byte>>, ns: seq<seq<Byte>>)
    requires ms != []
    ensures [ms[0]] + (ms[1..] + ns) == ms + ns
  {
  }

  /** Round trip: messages of accepted length are decoded as they were encoded, with a clean end. */
  lemma RoundTrip(ms: seq<seq<Byte>>, size: nat)
    requires size <= MAX_BUFFER && AllValid(ms, size)
    ensures Parse(Encode(ms), size) == Parsed(ms, Clean)
  {
    ParseEncode(ms, [], size);
    assert Encode(ms) + [] == Encode(ms);
  }

  lemma {:induction false} EncodeAppend(ms: seq<seq<Byte>>, m: seq<Byte>)
    requires forall i :: 0 <= i < |ms| ==> |ms[i]| <= MAX_BUFFER
    requires |m| <= MAX_BUFFER
    ensures Encode(ms + [m]) == Encode(ms) + Frame(m)
  {
    if ms == [] {
      assert Encode([m]) == Frame(m) + Encode([]);
    } else {
      assert (ms + [m])[1..] == ms[1..] + [m];
      EncodeAppend(ms[1..], m);
    }
  }

  lemma {:induction false} EncodeConcat(ms: seq<seq<Byte>>, ns: seq<seq<Byte>>)
    requires forall i :: 0 <= i < |ms| ==> |ms[i]| <= MAX_BUFFER
    requires forall i :: 0 <= i < |ns| ==> |ns[i]| <= MAX_BUFFER
    ensures Encode(ms + ns) == Encode(ms) + Encode(ns)
  {
    if ms == [] {
      assert ms + ns == ns;
    } else {
      assert (ms + ns)[1..] == ms[1..] + ns;
      EncodeConcat(ms[1..], ns);
      var f, a, b := Frame(ms[0]), Encode(ms[1..]), Encode(ns);
      hide Encode;
      assert f + (a + b) == (f + a) + b;
    }
  }

  /** Extending a stream only appends messages. */
  lemma {:induction false} ParsePrefix(s: seq<Byte>, t: seq<Byte>, size: nat)
    ensures Parse(s, size).messages <= Parse(s + t, size).messages
    decreases |s|
  {
    if |s| < HEADER {
    } else {
      var len := Length(s[..HEADER]);
      assert (s + t)[..HEADER] == s[..HEADER];
      if 0 < len <= size && HEADER + len <= |s| {
        ParsePrefix(s[HEADER + len..], t, size);
        assert (s + t)[HEADER + len..] == s[HEADER + len..] + t;
        assert (s + t)[HEADER..HEADER + len] == s[HEADER..HEADER + len];
      }
    }
  }

  /** Nothing but complete frames of accepted length. */
  predicate Whole(s: seq<Byte>, size: nat)
    decreases |s|
  {
    s == []
    || (|s| >= HEADER
        && (var len := Length(s[..HEADER]);
            0 < len <= size && HEADER + len <= |s| && Whole(s[HEADER + len..], size)))
  }

  /** A frame in front of a stream is a message in front of its meaning. */
  lemma FrameFirst(f: seq<Byte>, t: seq<Byte>, size: nat)
    requires |f| >= HEADER
    requires var len := Length(f[..HEADER]); 0 < len <= size && |f| == HEADER + len
    ensures Parse(f + t, size) == Parsed([f[HEADER..]] + Parse(t, size).messages, Parse(t, size).verdict)
  {
    assert (f + t)[..HEADER] == f[..HEADER];
    assert (f + t)[HEADER..|f|] == f[HEADER..];
    assert (f + t)[|f|..] == t;
  }

  /** What follows complete frames is decoded on its own. */
  lemma {:induction false} WholeThen(s: seq<Byte>, t: seq<Byte>, size: nat)
    requires Whole(s, size)
    ensures Parse(s + t, size) == Parsed(Parse(s, size).messages + Parse(t, size).messages, Parse(t, size).verdict)
    decreases |s|
  {
    if s == [] {
      NothingFirst(t, size);
    } else {
      var len := Length(s[..HEADER]);
      var f, rest := s[..HEADER + len], s[HEADER + len..];
      assert f[..HEADER] == s[..HEADER] && s == f + rest;
      WholeThen(rest, t, size);
      FrameFirst(f, rest, size);
      FrameFirst(f, rest + t, size);
      Glue(f, rest, t, size);
    }
  }

  lemma NothingFirst(t: seq<Byte>, size: nat)
    ensures Parse([] + t, size) == Parsed(Parse([], size).messages + Parse(t, size).messages, Parse(t, size).verdict)
  {
    assert [] + t == t;
    assert Parse([], size) == Parsed([], Clean);
    hide Parse;
    assert [] + Parse(t, size).messages == Parse(t, size).messages;
  }

  lemma Associative<T>(a: seq<T>, b: seq<T>, c: seq<T>)
    ensures (a + b) + c == a + (b + c)
  {
  }

  /** From the rest of the frames to one frame more. */
  lemma Glue(f: seq<Byte>, rest: seq<Byte>, t: seq<Byte>, size: nat)
    requires |f| >= HEADER
    requires Parse(rest + t, size)
             == Parsed(Parse(rest, size).messages + Parse(t, size).messages, Parse(t, size).verdict)
    requires Parse(f + rest, size) == Parsed([f[HEADER..]] + Parse(rest, size).messages, Parse(rest, size).verdict)
    requires Parse(f + (rest + t), size)
             == Parsed([f[HEADER..]] + Parse(rest + t, size).messages, Parse(rest + t, size).verdict)
    ensures Parse(f + rest + t, size)
            == Parsed(Parse(f + rest, size).messages + Parse(t, size).messages, Parse(t, size).verdict)
  {
    hide Parse;
    var a, b, c := [f[HEADER..]], Parse(rest, size).messages, Parse(t, size).messages;
    Associative(a, b, c);
    Associative(f, rest, t);
    assert Parse(f + rest + t, size).messages == a + (b + c);
    assert Parse(f + rest, size).messages == a + b;
    assert Parse(f + rest + t, size).verdict == Parse(t, size).verdict;
  }

  lemma {:induction false} WholeBoth(s: seq<Byte>, t: seq<Byte>, size: nat)
    requires Whole(s, size) && Whole(t, size)
    ensures Whole(s + t, size)
    decreases |s|
  {
    if s == [] {
      assert s + t == t;
    } else {
      var len := Length(s[..HEADER]);
      WholeBoth(s[HEADER + len..], t, size);
      assert (s + t)[..HEADER] == s[..HEADER];
      assert (s + t)[HEADER + len..] == s[HEADER + len..] + t;
    }
  }

  lemma FrameIsWhole(f: seq<Byte>, size: nat)
    requires |f| >= HEADER
    requires var len := Length(f[..HEADER]); 0 < len <= size && |f| == HEADER + len
    ensures Whole(f, size) && Parse(f, size) == Parsed([f[HEADER..]], Clean)
  {
    assert f[|f|..] == [];
    assert f[HEADER..|f|] == f[HEADER..];
  }

  /** Whatever was parsed is the encoding of its messages followed by what was left over. */
  lemma {:induction false} EncodeParse(s: seq<Byte>, size: nat) returns (tail: seq<Byte>)
    requires size <= MAX_BUFFER
    ensures AllValid(Parse(s, size).messages, size)
    ensures s == Encode(Parse(s, size).messages) + tail
    ensures Parse(tail, size) == Parsed([], Parse(s, size).verdict)
    decreases |s|
  {
    tail := s;
    if |s| < HEADER {
    } else {
      var len := Length(s[..HEADER]);
      if 0 < len <= size && HEADER + len <= |s| {
        var f, rest := s[..HEADER + len], s[HEADER + len..];
        assert f[..HEADER] == s[..HEADER] && s == f + rest;
        tail := EncodeParse(rest, size);
        FrameFirst(f, rest, size);
        EncodeOneMore(f, Parse(rest, size).messages, tail, size);
      }
    }
  }

  lemma EncodeOneMore(f: seq<Byte>, ms: seq<seq<Byte>>, tail: seq<Byte>, size: nat)
    requires size <= MAX_BUFFER && AllValid(ms, size) && |f| >= HEADER
    requires var len := Length(f[..HEADER]); 0 < len <= size && |f| == HEADER + len
    ensures AllValid([f[HEADER..]] + ms, size)
    ensures f + (Encode(ms) + tail) == Encode([f[HEADER..]] + ms) + tail
  {
    var m := f[HEADER..];
    HeaderOfLength(f[..HEADER]);
    assert f == Frame(m);
    assert ([m] + ms)[1..] == ms;
    assert Encode([m] + ms) == f + Encode(ms);
    hide Encode;
    Associative(f, Encode(ms), tail);
  }

  lemma HeaderOfLength(h: seq<Byte>)
    requires |h| == HEADER
    ensures Length(h) <= MAX_BUFFER && Header(Length(h)) == h
  {
    var n := Length(h);
    var b: int, c: int, d: int := h[1], h[2], h[3];
    assert n / 256 == b + 256 * c + 65536 * d;
    assert n / 65536 == c + 256 * d;
    assert n / 16777216 == d;
  }

  // ----- C strings -----

  const NUL: Byte := 0
  const NEWLINE: Byte := 10

  /** The index of the first byte in `stops`, or the length if there is none. */
  function FirstOf(s: seq<Byte>, stops: set<Byte>): (i: nat)
    ensures i <= |s|
    ensures i < |s| ==> s[i] in stops
    ensures forall j :: 0 <= j < i ==> s[j] !in stops
  {
    if s == [] || s[0] in stops then 0 else 1 + FirstOf(s[1..], stops)
  }

  /** What `%s` prints of a NUL-terminated payload. */
  function Text(m: seq<Byte>): seq<Byte> {
    m[..FirstOf(m, {NUL})]
  }

  /** A terminator appended to a payload does not change what is printed. */
  lemma {:induction false} TextOfTerminated(m: seq<Byte>)
    ensures Text(m + [NUL]) == Text(m)
  {
    if m == [] || m[0] == NUL {
    } else {
      assert (m + [NUL])[1..] == m[1..] + [NUL];
      TextOfTerminated(m[1..]);
      assert Text(m) == [m[0]] + Text(m[1..]);
      assert Text(m + [NUL]) == [m[0]] + Text(m[1..] + [NUL]);
    }
  }

  function Texts(ms: seq<seq<Byte>>): (ts: seq<seq<Byte>>)
    ensures |ts| == |ms|
    ensures forall i :: 0 <= i < |ms| ==> ts[i] == Text(ms[i])
  {
    seq(|ms|, i requires 0 <= i < |ms| => Text(ms[i]))
  }
}
