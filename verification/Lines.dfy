/** How the writers cut their input into messages: fgets, newline stripping and strlen on a buffer of `size` bytes. */
module Lines {
  import opened SystemCalls
  import opened Frames
  import opened Sequences

  /** How many bytes one fgets takes: up to a newline, at most size - 1, or all there is. */
  function Taken(input: seq<Byte>, size: nat): (n: nat)
    requires 2 <= size && input != []
    ensures 1 <= n <= |input| && n < size
  {
    var k := FirstOf(input, {NEWLINE});
    var line := if k < |input| then k + 1 else k;
    if line < size then line else size - 1
  }

  /** What is left of a chunk once the newline is stripped and strlen has looked for a NUL. */
  function Content(chunk: seq<Byte>): seq<Byte> {
    chunk[..FirstOf(chunk, {NEWLINE, NUL})]
  }

  /** The payloads sent for an input: each content with its terminator. */
  function Messages(input: seq<Byte>, size: nat): (ms: seq<seq<Byte>>)
    requires 2 <= size
    ensures AllValid(ms, size)
    decreases |input|
  {
    if input == [] then []
    else
      var n := Taken(input, size);
      [Content(input[..n]) + [NUL]] + Messages(input[n..], size)
  }

  function Joined(ts: seq<seq<Byte>>): seq<Byte> {
    if ts == [] then [] else ts[0] + Joined(ts[1..])
  }

  lemma {:induction false} FirstOfAppend(s: seq<Byte>, t: seq<Byte>, stops: set<Byte>)
    ensures FirstOf(s, stops) < |s| ==> FirstOf(s + t, stops) == FirstOf(s, stops)
    ensures FirstOf(s, stops) == |s| ==> FirstOf(s + t, stops) == |s| + FirstOf(t, stops)
  {
    if s == [] {
      assert s + t == t;
    } else if s[0] !in stops {
      assert (s + t)[1..] == s[1..] + t;
      FirstOfAppend(s[1..], t, stops);
    }
  }

  /** The reader prints exactly the content that the writer sent. */
  lemma TextOfMessage(chunk: seq<Byte>)
    ensures Text(Content(chunk) + [NUL]) == Content(chunk)
  {
    TextOfTerminated(Content(chunk));
  }

  lemma TakesWholeLine(line: seq<Byte>, rest: seq<Byte>, size: nat)
    requires 2 <= size && NEWLINE !in line && |line| < size - 1
    ensures Taken(line + [NEWLINE] + rest, size) == |line| + 1
  {
    var input := line + [NEWLINE] + rest;
    assert input == line + ([NEWLINE] + rest);
    FirstOfAppend(line, [NEWLINE] + rest, {NEWLINE});
  }

  lemma TakesPiece(line: seq<Byte>, rest: seq<Byte>, size: nat)
    requires 2 <= size && NEWLINE !in line && |line| >= size - 1
    ensures Taken(line + rest, size) == size - 1
  {
    FirstOfAppend(line, rest, {NEWLINE});
  }

  lemma ContentOfPiece(piece: seq<Byte>, end: seq<Byte>)
    requires NEWLINE !in piece && (end == [] || end == [NEWLINE])
    ensures Content(piece + end) == Content(piece) == Text(piece)
  {
    FirstOfAppend(piece, end, {NEWLINE, NUL});
    FirstOfSame(piece);
  }

  lemma {:induction false} FirstOfSame(s: seq<Byte>)
    requires NEWLINE !in s
    ensures FirstOf(s, {NEWLINE, NUL}) == FirstOf(s, {NUL})
  {
    if s == [] {
    } else {
      FirstOfSame(s[1..]);
    }
  }

  /** The first message of a line that does not fit, and what remains. */
  lemma FirstPiece(line: seq<Byte>, rest: seq<Byte>, size: nat)
    requires 2 <= size && NEWLINE !in line && |line| >= size - 1
    ensures Messages(line + rest, size)
            == [Text(line[..size - 1]) + [NUL]] + Messages(line[size - 1..] + rest, size)
  {
    var input := line + rest;
    TakesPiece(line, rest, size);
    assert input[..size - 1] == line[..size - 1];
    assert input[size - 1..] == line[size - 1..] + rest;
    ContentOfPiece(line[..size - 1], []);
    assert line[..size - 1] + [] == line[..size - 1];
  }

  /** The last message of a line, with its newline. */
  lemma LastPiece(line: seq<Byte>, rest: seq<Byte>, size: nat)
    requires 2 <= size && NEWLINE !in line && |line| < size - 1
    ensures Messages(line + [NEWLINE] + rest, size) == [Text(line) + [NUL]] + Messages(rest, size)
  {
    var input := line + [NEWLINE] + rest;
    TakesWholeLine(line, rest, size);
    assert input[..|line| + 1] == line + [NEWLINE];
    assert input[|line| + 1..] == rest;
    ContentOfPiece(line, [NEWLINE]);
  }

  lemma EmptyHasNone(size: nat)
    requires 2 <= size
    ensures Messages([], size) == []
  {
  }

  /** A line becomes its own messages, in front of those of the following lines. */
  lemma {:induction false} LineByLine(line: seq<Byte>, rest: seq<Byte>, size: nat)
    requires 2 <= size && NEWLINE !in line
    ensures Messages(line + [NEWLINE] + rest, size) == Messages(line + [NEWLINE], size) + Messages(rest, size)
    decreases |line|
  {
    hide Messages;
    if |line| < size - 1 {
      LastPiece(line, rest, size);
      LastPiece(line, [], size);
      EmptyHasNone(size);
      assert line + [NEWLINE] + [] == line + [NEWLINE];
    } else {
      var tail := line[size - 1..];
      LineByLine(tail, rest, size);
      FirstPiece(line, [NEWLINE] + rest, size);
      FirstPiece(line, [NEWLINE], size);
      assert line + [NEWLINE] + rest == line + ([NEWLINE] + rest);
      assert tail + [NEWLINE] + rest == tail + ([NEWLINE] + rest);
    }
  }

  lemma QuotientUnique(n: nat, w: nat, q: nat)
    requires 0 < w && w * q <= n < w * (q + 1)
    ensures n / w == q
  {
    var p := n / w;
    assert w * p <= n < w * (p + 1);
    if p < q {
      MultiplyMonotone(w, p + 1, q);
    } else if q < p {
      MultiplyMonotone(w, q + 1, p);
    }
  }

  lemma QuotientStep(n: nat, w: nat)
    requires 0 < w <= n
    ensures n / w == (n - w) / w + 1
  {
    var q := (n - w) / w;
    assert w * q <= n - w < w * (q + 1);
    assert w * (q + 1) == w * q + w && w * (q + 2) == w * (q + 1) + w;
    QuotientUnique(n, w, q + 1);
  }

  /** A newline-terminated line of length L becomes L / (size - 1) + 1 messages. */
  lemma {:induction false} LineCount(line: seq<Byte>, size: nat)
    requires 2 <= size && NEWLINE !in line
    ensures |Messages(line + [NEWLINE], size)| == |line| / (size - 1) + 1
    decreases |line|
  {
    hide Messages;
    var w := size - 1;
    if |line| < w {
      LastPiece(line, [], size);
      EmptyHasNone(size);
      assert line + [NEWLINE] + [] == line + [NEWLINE];
      QuotientUnique(|line|, w, 0);
    } else {
      FirstPiece(line, [NEWLINE], size);
      LineCount(line[w..], size);
      assert |line[w..]| == |line| - w;
      QuotientStep(|line|, w);
    }
  }

  lemma {:induction false} JoinedHasNoNul(ts: seq<seq<Byte>>)
    requires forall i :: 0 <= i < |ts| ==> NUL !in ts[i]
    ensures NUL !in Joined(ts)
  {
    if ts == [] {
    } else {
      JoinedHasNoNul(ts[1..]);
    }
  }

  lemma TextHasNoNul(m: seq<Byte>)
    ensures NUL !in Text(m)
    ensures NUL !in m ==> Text(m) == m
  {
  }

  function WithoutNewlines(s: seq<Byte>): seq<Byte> {
    if s == [] then [] else (if s[0] == NEWLINE then [] else [s[0]]) + WithoutNewlines(s[1..])
  }

  lemma {:induction false} WithoutAppend(s: seq<Byte>, t: seq<Byte>)
    ensures WithoutNewlines(s + t) == WithoutNewlines(s) + WithoutNewlines(t)
  {
    if s == [] {
      assert s + t == t;
    } else {
      assert (s + t)[1..] == s[1..] + t;
      WithoutAppend(s[1..], t);
    }
  }

  lemma {:induction false} WithoutNothing(s: seq<Byte>)
    requires NEWLINE !in s
    ensures WithoutNewlines(s) == s
  {
    if s == [] {
    } else {
      WithoutNothing(s[1..]);
    }
  }

  lemma {:induction false} WithoutKeepsNul(s: seq<Byte>)
    ensures NUL in WithoutNewlines(s) <==> NUL in s
  {
    if s == [] {
    } else {
      WithoutKeepsNul(s[1..]);
    }
  }

  /** One fgets takes bytes that hold a newline at their end only. */
  lemma TakenContent(input: seq<Byte>, size: nat)
    requires 2 <= size && input != [] && NUL !in input
    ensures Content(input[..Taken(input, size)]) == WithoutNewlines(input[..Taken(input, size)])
  {
    var n := Taken(input, size);
    var chunk := input[..n];
    if chunk[n - 1] == NEWLINE {
      var piece := chunk[..n - 1];
      assert chunk == piece + [NEWLINE];
      ContentOfPiece(piece, [NEWLINE]);
      TextHasNoNul(piece);
      WithoutAppend(piece, [NEWLINE]);
      WithoutNothing(piece);
    } else {
      assert chunk + [] == chunk;
      ContentOfPiece(chunk, []);
      TextHasNoNul(chunk);
      WithoutNothing(chunk);
    }
  }

  lemma JoinedFirst(m: seq<Byte>, ms: seq<seq<Byte>>)
    ensures Joined(Texts([m] + ms)) == Text(m) + Joined(Texts(ms))
  {
    assert Texts([m] + ms) == [Text(m)] + Texts(ms);
    assert ([Text(m)] + Texts(ms))[1..] == Texts(ms);
  }

  lemma {:induction false} InputJoined(input: seq<Byte>, size: nat)
    requires 2 <= size && NUL !in input
    ensures Joined(Texts(Messages(input, size))) == WithoutNewlines(input)
    decreases |input|
  {
    if input == [] {
      assert Texts(Messages(input, size)) == [];
    } else {
      var n := Taken(input, size);
      LaterHasNoNul(input, n);
      InputJoined(input[n..], size);
      FirstJoined(input, size);
      TakenContent(input, size);
      WithoutSplit(input, n);
    }
  }

  lemma LaterHasNoNul(s: seq<Byte>, n: nat)
    requires n <= |s| && NUL !in s
    ensures NUL !in s[n..]
  {
  }

  lemma WithoutSplit(s: seq<Byte>, n: nat)
    requires n <= |s|
    ensures WithoutNewlines(s) == WithoutNewlines(s[..n]) + WithoutNewlines(s[n..])
  {
    hide WithoutNewlines;
    WithoutAppend(s[..n], s[n..]);
    assert s == s[..n] + s[n..];
  }

  lemma FirstJoined(input: seq<Byte>, size: nat)
    requires 2 <= size && input != []
    ensures var n := Taken(input, size);
            Joined(Texts(Messages(input, size))) == Content(input[..n]) + Joined(Texts(Messages(input[n..], size)))
  {
    var n := Taken(input, size);
    JoinedFirst(Content(input[..n]) + [NUL], Messages(input[n..], size));
    TextOfMessage(input[..n]);
  }

  /** The whole conversation: all that is printed, put together, is the input without its newlines,
      whether or not the last line is terminated, if and only if the input contains no NUL. */
  lemma InputPreserved(input: seq<Byte>, size: nat)
    requires 2 <= size
    ensures Joined(Texts(Messages(input, size))) == WithoutNewlines(input) <==> NUL !in input
  {
    if NUL !in input {
      InputJoined(input, size);
    } else {
      var ts := Texts(Messages(input, size));
      forall i | 0 <= i < |ts| ensures NUL !in ts[i] {
        TextHasNoNul(Messages(input, size)[i]);
      }
      JoinedHasNoNul(ts);
      WithoutKeepsNul(input);
    }
  }

  /** The pieces of a line put together are the line if and only if it contains no NUL. */
  lemma LinePreserved(line: seq<Byte>, size: nat)
    requires 2 <= size && NEWLINE !in line
    ensures Joined(Texts(Messages(line + [NEWLINE], size))) == line <==> NUL !in line
  {
    InputPreserved(line + [NEWLINE], size);
    WithoutAppend(line, [NEWLINE]);
    WithoutNothing(line);
    assert line + WithoutNewlines([NEWLINE]) == line;
    assert NUL in line + [NEWLINE] <==> NUL in line;
  }

  /** The reader's length check accepts every frame of a writer with the same buffer size, and any cut of
      the byte stream delivers the first messages, in order, unaltered. */
  lemma PrefixDelivers(input: seq<Byte>, size: nat, received: seq<Byte>)
    requires 2 <= size <= MAX_BUFFER
    requires received <= Encode(Messages(input, size))
    ensures Parse(received, size).messages <= Messages(input, size)
    ensures !Parse(received, size).verdict.BadLength?
    ensures received == Encode(Messages(input, size)) ==>
              Parse(received, size) == Parsed(Messages(input, size), Clean)
  {
    var ms := Messages(input, size);
    var rest := Encode(ms)[|received|..];
    assert received + rest == Encode(ms);
    RoundTrip(ms, size);
    ParsePrefix(received, rest, size);
    NoBadLength(received, rest, size);
  }

  lemma {:induction false} NoBadLength(s: seq<Byte>, t: seq<Byte>, size: nat)
    requires !Parse(s + t, size).verdict.BadLength?
    ensures !Parse(s, size).verdict.BadLength?
    decreases |s|
  {
    if |s| < HEADER {
    } else {
      var len := Length(s[..HEADER]);
      assert (s + t)[..HEADER] == s[..HEADER];
      if 0 < len <= size && HEADER + len <= |s| {
        assert (s + t)[HEADER + len..] == s[HEADER + len..] + t;
        NoBadLength(s[HEADER + len..], t, size);
      }
    }
  }
}
