/**
 The search of 2_5: a file is read byte by byte until the letters of a target have all been seen in order; then one
 letter is written where the target would have begun. The iterator over the target is never reset.
 */
module SearchOverwrite {

  /** An open file: its bytes and its offset. */
  class TextFile {
    var bytes: string
    var pos: nat

    constructor (bytes: string)
      ensures this.bytes == bytes && pos == 0
    {
      this.bytes, pos := bytes, 0;
    }

    /** read(fd, buf + i, 1): one byte, or 0 at the end. */
    method ReadOne(buf: array<char>, i: nat) returns (n: nat)
      requires i < buf.Length && pos <= |bytes|
      modifies this`pos, buf
      ensures n == if old(pos) < |bytes| then 1 else 0
      ensures pos == old(pos) + n && pos <= |bytes|
      ensures n == 1 ==> buf[i] == bytes[old(pos)]
    {
      if pos == |bytes| {
        return 0;
      }
      buf[i] := bytes[pos];
      pos := pos + 1;
      n := 1;
    }

    /** Whether a further read would deliver a byte. */
    predicate AtEnd()
      reads this
    {
      pos >= |bytes|
    }

    /** lseek(fd, -k, SEEK_CUR) and write of one letter. */
    method OverwriteBack(k: nat, letter: char)
      requires 1 <= k <= pos <= |bytes|
      modifies this
      ensures bytes == old(bytes)[old(pos) - k := letter]
    {
      pos := pos - k;
      bytes := bytes[pos := letter];
      pos := pos + 1;
    }
  }

  /** Ascending positions of `s` at which the letters of `target` stand. */
  ghost predicate Embeds(target: string, s: string, idx: seq<nat>) {
    && |idx| == |target|
    && (forall i :: 0 <= i < |idx| ==> idx[i] < |s| && s[idx[i]] == target[i])
    && (forall i, j :: 0 <= i < j < |idx| ==> idx[i] < idx[j])
  }

  ghost predicate Subsequence(target: string, s: string) {
    exists idx :: Embeds(target, s, idx)
  }

  /** The shortest prefix of the text that contains the target as a subsequence has length `e`. */
  ghost predicate StopsAt(target: string, text: string, e: nat) {
    && e <= |text| && Subsequence(target, text[..e])
    && forall d :: 0 <= d < e ==> !Subsequence(target, text[..d])
  }

  /** The iterator after reading `s`: how many letters of the target were seen, one after the other. */
  function Matched(target: string, s: string): (m: nat)
    ensures m <= |target| && m <= |s|
  {
    if s == "" then 0
    else
      var m := Matched(target, s[..|s| - 1]);
      if m < |target| && s[|s| - 1] == target[m] then m + 1 else m
  }

  /** The letters seen really stand in the text in that order. */
  lemma {:induction false} MatchedEmbeds(target: string, s: string) returns (idx: seq<nat>)
    ensures Embeds(target[..Matched(target, s)], s, idx)
  {
    if s == "" {
      idx := [];
    } else {
      idx := MatchedEmbeds(target, s[..|s| - 1]);
      if Matched(target, s) > |idx| {
        idx := idx + [|s| - 1];
      }
    }
  }

  /** Greedy is optimal: no other choice of positions matches more letters. */
  lemma {:induction false} MatchedIsMost(target: string, s: string, k: nat, idx: seq<nat>)
    requires k <= |target| && Embeds(target[..k], s, idx)
    ensures k <= Matched(target, s)
  {
    if k == 0 {
    } else {
      var last := idx[k - 1];
      var before := s[..|s| - 1];
      assert s[last] == target[k - 1];
      if last < |s| - 1 {
        assert forall i :: 0 <= i < k ==> idx[i] <= last;
        MatchedIsMost(target, before, k, idx);
      } else {
        var shorter := idx[..k - 1];
        assert forall i :: 0 <= i < k - 1 ==> idx[i] < last;
        assert Embeds(target[..k - 1], before, shorter);
        MatchedIsMost(target, before, k - 1, shorter);
      }
    }
  }

  /** The iterator is at the end exactly when the target is a subsequence of what was read. */
  lemma MatchedIff(target: string, s: string)
    ensures Matched(target, s) == |target| <==> Subsequence(target, s)
  {
    if Matched(target, s) == |target| {
      var idx := MatchedEmbeds(target, s);
      assert target[..|target|] == target;
    }
    if Subsequence(target, s) {
      var idx :| Embeds(target, s, idx);
      assert target[..|target|] == target;
      MatchedIsMost(target, s, |target|, idx);
    }
  }

  lemma ShorterPrefix(target: string, text: string, d: nat, e: nat)
    requires d <= e <= |text| && Subsequence(target, text[..d])
    ensures Subsequence(target, text[..e])
  {
    var idx :| Embeds(target, text[..d], idx);
    assert Embeds(target, text[..e], idx);
  }

  datatype Outcome = Replaced(end: nat) | NotFound | BufferOverrun

  /** How the loop ended on `text`, and the text it leaves. */
  ghost predicate Result(o: Outcome, target: string, letter: char, text: string, after: string, size: nat)
    requires target != ""
  {
    match o
    case Replaced(e) =>
      |target| <= e <= size && StopsAt(target, text, e) && after == text[e - |target| := letter]
    case NotFound => |text| <= size && !Subsequence(target, text) && after == text
    case BufferOverrun => |text| > size && !Subsequence(target, text[..size]) && after == text
  }

  /** What the loop can see of a text: the part that fits the buffer. */
  function Visible(text: string, size: nat): string {
    if |text| <= size then text else text[..size]
  }

  /** No byte changes, because nothing is found or the letter already stands where it is written. */
  ghost predicate NothingToChange(target: string, letter: char, text: string, size: nat)
    requires target != ""
  {
    forall e :: |target| <= e <= size && StopsAt(target, text, e) ==> text[e - |target|] == letter
  }

  lemma Consequences(o: Outcome, target: string, letter: char, text: string, after: string, size: nat)
    requires target != "" && Result(o, target, letter, text, after, size)
    ensures o.BufferOverrun? <==> |text| > size && !Subsequence(target, text[..size])
    ensures o.Replaced? <==> Subsequence(target, Visible(text, size))
    ensures after == text <==> NothingToChange(target, letter, text, size)
    ensures letter !in text ==> (after == text <==> !Subsequence(target, Visible(text, size)))
  {
    assert text[..|text|] == text;
    var seen := if |text| <= size then |text| else size;
    if o.Replaced? {
      ShorterPrefix(target, text, o.end, seen);
      var at := o.end - |target|;
      assert text[at := letter][at] == letter;
    } else {
      forall e | |target| <= e <= size && StopsAt(target, text, e) ensures false {
        ShorterPrefix(target, text, e, seen);
      }
    }
  }

  /** The loop of main. It stops at the shortest prefix that contains the target as a subsequence and replaces the
      byte |target| before its end; nothing else changes. It reads past the end of the buffer exactly for a text longer
      than the buffer whose beginning does not contain the target as a subsequence. In all other cases the file is
      left alone exactly if its visible part does not contain the target as a subsequence, or the byte that is
      replaced is the letter already. */
  method SearchAndReplace(f: TextFile, target: string, letter: char, size: nat) returns (o: Outcome)
    requires f.pos == 0 && target != "" && 1 <= size <= 255
    modifies f
    ensures Result(o, target, letter, old(f.bytes), f.bytes, size)
    ensures o.BufferOverrun? <==> |old(f.bytes)| > size && !Subsequence(target, old(f.bytes)[..size])
    ensures o.Replaced? <==> Subsequence(target, Visible(old(f.bytes), size))
    ensures !o.BufferOverrun? ==>
              (f.bytes == old(f.bytes) <==> NothingToChange(target, letter, old(f.bytes), size))
    ensures !o.BufferOverrun? && letter !in old(f.bytes) ==>
              (f.bytes == old(f.bytes) <==> !Subsequence(target, Visible(old(f.bytes), size)))
  {
    var buf := new char[size](_ => '\0');
    var seen := 0;
    var total := 0;
    ghost var text := f.bytes;
    MatchedIff(target, "");
    assert text[..0] == "";
    o := NotFound;
    while true
      invariant f.bytes == text && f.pos == total <= |text| && total <= size
      invariant seen == Matched(target, text[..total]) < |target|
      invariant o == NotFound && forall d :: 0 <= d <= total ==> !Subsequence(target, text[..d])
      decreases |text| - total
    {
      if total == size {
        assert text[..|text|] == text;
        if !f.AtEnd() {
          o := BufferOverrun;   // read would store past the buffer
        }
        break;
      }
      var n := f.ReadOne(buf, total);
      if n == 0 {
        assert text[..|text|] == text;
        break;
      }
      assert text[..total + 1][..total] == text[..total];
      if buf[total] == target[seen] {
        seen := seen + 1;
        if seen == |target| {
          MatchedIff(target, text[..total + 1]);
          f.OverwriteBack(|target|, letter);
          o := Replaced(total + 1);
          break;
        }
      }
      MatchedIff(target, text[..total + 1]);
      total := total + n;
    }
    Consequences(o, target, letter, text, f.bytes, size);
  }

  // ----- When this does what it is meant for -----

  ghost predicate Occurs(target: string, text: string, q: nat) {
    q + |target| <= |text| && forall i :: 0 <= i < |target| ==> text[q + i] == target[i]
  }

  ghost predicate FirstOccurrence(target: string, text: string, q: nat) {
    Occurs(target, text, q) && forall p :: 0 <= p < q ==> !Occurs(target, text, p)
  }

  lemma OccurrenceEmbeds(target: string, text: string, q: nat)
    requires Occurs(target, text, q)
    ensures Subsequence(target, text[..q + |target|])
  {
    var idx := seq(|target|, i requires 0 <= i < |target| => q + i);
    assert Embeds(target, text[..q + |target|], idx);
  }

  /** The letter replaces the first letter of the first occurrence exactly when the text up to, but without, the last
      byte of that occurrence does not already contain the target as a scattered subsequence. */
  lemma ReplacesFirstIff(target: string, text: string, letter: char, e: nat, q: nat)
    requires target != "" && letter != target[0] && |target| <= e
    requires StopsAt(target, text, e) && FirstOccurrence(target, text, q)
    ensures text[e - |target| := letter] == text[q := letter] <==> !Subsequence(target, text[..q + |target| - 1])
  {
    OccurrenceEmbeds(target, text, q);
    assert text[q] == text[q + 0] == target[0];
    var d := q + |target| - 1;
    if e <= d {
      ShorterPrefix(target, text, e, d);
      assert text[e - |target| := letter][q] == target[0];
    }
  }

  /** If the first occurrence begins with the first letter of its kind in the text, it is the one replaced. */
  lemma FirstLetterOpens(target: string, text: string, letter: char, e: nat, q: nat)
    requires target != "" && letter != target[0] && |target| <= e
    requires StopsAt(target, text, e) && Occurs(target, text, q)
    requires forall j :: 0 <= j < q ==> text[j] != target[0]
    ensures text[e - |target| := letter] == text[q := letter]
  {
    forall p | 0 <= p < q ensures !Occurs(target, text, p) {
      assert text[p + 0] != target[0];
    }
    var d := q + |target| - 1;
    if Subsequence(target, text[..d]) {
      var idx :| Embeds(target, text[..d], idx);
      assert text[idx[0]] == target[0];
      Spread(idx, q, |target| - 1);
    }
    ReplacesFirstIff(target, text, letter, e, q);
  }

  /** Ascending positions from `q` on are at least one apart each. */
  lemma {:induction false} Spread(idx: seq<nat>, q: nat, k: nat)
    requires k < |idx| && idx[0] >= q
    requires forall i, j :: 0 <= i < j < |idx| ==> idx[i] < idx[j]
    ensures idx[k] >= q + k
  {
    if k == 0 {
    } else {
      Spread(idx, q, k - 1);
    }
  }

  lemma LetterPresent(target: string, s: string, k: nat)
    requires Subsequence(target, s) && k < |target|
    ensures target[k] in s
  {
    var idx :| Embeds(target, s, idx);
    assert s[idx[k]] == target[k];
  }

  /** A text that contains the target, but only behind what the buffer holds, makes the loop read past the buffer. */
  lemma LateTargetOverruns(target: string, size: nat) returns (text: string)
    requires target != ""
    ensures Occurs(target, text, size) && |text| > size && !Subsequence(target, text[..size])
  {
    var other := if target[0] == 'x' then 'y' else 'x';
    var filler := seq(size, _ => other);
    text := filler + target;
    assert text[..size] == filler;
    assert forall i :: 0 <= i < |target| ==> text[size + i] == target[i];
    if Subsequence(target, filler) {
      LetterPresent(target, filler, 0);
    }
  }

  /** A text that contains the target and in which another byte is replaced, because letters before it match too. */
  lemma EarlyLettersMislead()
    ensures StopsAt("Rohan", "RxohanRohan", 6) && FirstOccurrence("Rohan", "RxohanRohan", 6)
    ensures "RxohanRohan"[6 - 5 := 'M'] == "RMohanRohan" && "RxohanRohan"[6 := 'M'] == "RxohanMohan"
  {
    var t, s := "Rohan", "RxohanRohan";
    ScatteredMatchIsOverwritten();
    forall d | 0 <= d <= 6 ensures s[..d] == "Rxohan"[..d] {
      assert s[..6] == "Rxohan";
      assert s[..d] == s[..6][..d];
    }
    forall p | 0 <= p < 6 ensures !Occurs(t, s, p) {
      assert p == 0 ==> s[p + 1] != t[1];
      assert p != 0 ==> s[p + 0] != t[0];
    }
  }

  /** Without such a condition the program does harm: a text without an occurrence is changed. */
  lemma ScatteredMatchIsOverwritten()
    ensures StopsAt("Rohan", "Rxohan", 6)
    ensures forall q: nat :: !Occurs("Rohan", "Rxohan", q)
    ensures "Rxohan"[6 - 5 := 'M'] == "RMohan"
  {
    var t, s := "Rohan", "Rxohan";
    assert Embeds(t, s[..6], [0, 2, 3, 4, 5]);
    forall d | 0 <= d < 6 ensures !Subsequence(t, s[..d]) {
      if Subsequence(t, s[..d]) {
        LetterPresent(t, s[..d], 4);
      }
    }
    assert s[0 + 1] != t[1] && s[1 + 0] != t[0];
  }
}
