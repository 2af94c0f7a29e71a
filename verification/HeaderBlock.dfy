/** Header blocks: lines ended by CRLF and closed by a blank line, as both requests and responses
    carry them, and what searching such a block finds. */
module HeaderBlocks {
  import opened Bytes
  import opened Framing

  function Block(lines: seq<Text>): Text {
    if lines == [] then CRLF else lines[0] + CRLF + Block(lines[1..])
  }

  ghost predicate NoCrlf(s: Text) {
    forall i :: !At(s, CRLF, i)
  }

  ghost predicate Lines(lines: seq<Text>) {
    forall l :: l in lines ==> l != [] && NoCrlf(l)
  }

  lemma NoCrIsNoCrlf(s: Text)
    requires '\r' !in s
    ensures NoCrlf(s)
  {
    forall i ensures !At(s, CRLF, i) {
      AtCrlf(s, i);
    }
  }

  // ---------- line ends and the blank line ----------

  lemma CrlfNotInLine(line: Text, rest: Text, i: int)
    requires NoCrlf(line) && i < |line|
    ensures !At(line + CRLF + rest, CRLF, i)
  {
    AtCrlf(line + CRLF + rest, i);
    AtCrlf(line, i);
    assert CRLF[0] == '\r';
  }

  lemma CrlfAtLineEnd(line: Text, rest: Text)
    ensures At(line + CRLF + rest, CRLF, |line|)
    ensures !At(line + CRLF + rest, CRLF, |line| + 1)
  {
    AtCrlf(line + CRLF + rest, |line|);
    AtCrlf(line + CRLF + rest, |line| + 1);
    assert CRLF[0] == '\r' && CRLF[1] == '\n';
  }

  /** The first line end after a line is its own. */
  lemma FindLineEnd(line: Text, rest: Text)
    requires NoCrlf(line)
    ensures Find(line + CRLF + rest, CRLF, 0) == |line|
  {
    var s := line + CRLF + rest;
    forall i | 0 <= i < |line| ensures !At(s, CRLF, i) {
      CrlfNotInLine(line, rest, i);
    }
    CrlfAtLineEnd(line, rest);
    FindIs(s, CRLF, 0, |line|);
  }

  lemma AtShift(a: Text, b: Text, pat: Text, i: nat)
    ensures At(a + b, pat, |a| + i) <==> At(b, pat, i)
  {
    if i + |pat| <= |b| {
      assert a + b == a + b + [];
      AtWithin(a, b, [], pat, i);
    }
  }

  lemma BlockStart(lines: seq<Text>, rest: Text)
    requires Lines(lines)
    ensures At(Block(lines) + rest, CRLF, 0) <==> lines == []
  {
    if lines == [] {
      AtCrlf(CRLF + rest, 0);
    } else {
      assert lines[0] in lines;
      assert Block(lines) + rest == lines[0] + CRLF + (Block(lines[1..]) + rest);
      CrlfNotInLine(lines[0], Block(lines[1..]) + rest, 0);
    }
  }

  /** No blank line ends within the first line of a longer block. */
  lemma NoBlankInLine(line: Text, lines: seq<Text>, rest: Text, i: nat)
    requires NoCrlf(line) && Lines(lines) && i <= |line| + 1
    ensures At(line + CRLF + (Block(lines) + rest), BLANK, i) <==> i == |line| && lines == []
  {
    var t := Block(lines) + rest;
    AtBlank(line + CRLF + t, i);
    if i < |line| {
      CrlfNotInLine(line, t, i);
    } else {
      CrlfAtLineEnd(line, t);
      AtShift(line + CRLF, t, CRLF, 0);
      BlockStart(lines, rest);
    }
  }

  /** A header block ends where its blank line is, whatever follows it. */
  lemma {:induction false} HeaderEndOfBlock(lines: seq<Text>, rest: Text)
    requires Lines(lines) && lines != []
    ensures HeaderEnd(Block(lines) + rest) == |Block(lines)|
    decreases |lines|
  {
    var l, ls := lines[0], lines[1..];
    var t := Block(ls) + rest;
    var s := l + CRLF + t;
    assert Block(lines) + rest == s;
    assert l in lines && Lines(ls) by {
      assert forall x :: x in ls ==> x in lines;
    }
    var r := if ls == [] then |l| else |l| + |Block(ls)| - 2;
    if ls != [] {
      HeaderEndOfBlock(ls, rest);
    }
    forall i | 0 <= i <= r ensures At(s, BLANK, i) <==> i == r {
      if i <= |l| + 1 {
        NoBlankInLine(l, ls, rest, i);
      } else {
        AtShift(l + CRLF, t, BLANK, i - |l| - 2);
      }
    }
    FindIs(s, BLANK, 0, r);
  }

  // ---------- searching for a key ----------

  ghost predicate IsKey(key: Text) {
    key != [] && '\r' !in key && '\n' !in key
  }

  /** A key has no line end in it, so it occurs inside the first line or after it. */
  lemma KeyStaysInLine(line: Text, rest: Text, key: Text, i: int)
    requires IsKey(key)
    ensures At(line + CRLF + rest, key, i) ==> At(line, key, i) || i >= |line| + 2
  {
    var s := line + CRLF + rest;
    if 0 <= i && i + |key| <= |line| {
      assert At(s, key, i) ==> forall k :: 0 <= k < |key| ==> s[i + k] == key[k] && line[i + k] == key[k];
    } else if 0 <= i < |line| + 2 && i + |key| <= |s| {
      var k := if i <= |line| then |line| - i else 0;
      assert CRLF[0] == '\r' && CRLF[1] == '\n';
      assert key[k] in key;
      assert s[i + k] != key[k];
    }
  }

  function Offset(lines: seq<Text>, k: nat): nat
    requires k <= |lines|
  {
    if k == 0 then 0 else |lines[0]| + 2 + Offset(lines[1..], k - 1)
  }

  ghost predicate KeyFree(lines: seq<Text>, key: Text) {
    forall l :: l in lines ==> !Occurs(l, key)
  }

  lemma {:induction false} KeyNotInBlock(lines: seq<Text>, key: Text, i: int)
    requires IsKey(key) && KeyFree(lines, key)
    ensures !At(Block(lines), key, i)
    decreases |lines|
  {
    if lines == [] {
      assert CRLF[0] == '\r' && CRLF[1] == '\n';
      assert key[0] in key;
      if 0 <= i && i + |key| <= 2 {
        assert CRLF[i + 0] != key[0];
      }
    } else {
      assert lines[0] in lines;
      var t := Block(lines[1..]);
      KeyStaysInLine(lines[0], t, key, i);
      if i >= |lines[0]| + 2 {
        AtShift(lines[0] + CRLF, t, key, i - |lines[0]| - 2);
        KeyNotInBlock(lines[1..], key, i - |lines[0]| - 2);
      }
    }
  }

  /** If line `k` starts with the key and no line before it contains it, the search finds line `k`. */
  lemma {:induction false} FindKeyInBlock(lines: seq<Text>, key: Text, k: nat)
    requires IsKey(key) && k < |lines| && KeyFree(lines[..k], key) && At(lines[k], key, 0)
    ensures Find(Block(lines), key, 0) == Offset(lines, k)
    decreases k
  {
    var l, t := lines[0], Block(lines[1..]);
    var s := Block(lines);
    if k == 0 {
      assert s == [] + l + (CRLF + t);
      AtWithin([], l, CRLF + t, key, 0);
      FindIs(s, key, 0, 0);
    } else {
      assert lines[..k][0] == l && lines[..k][1..] == lines[1..][..k - 1];
      FindKeyInBlock(lines[1..], key, k - 1);
      var r := Offset(lines[1..], k - 1);
      forall i | 0 <= i < |l| + 2 + r ensures !At(s, key, i) {
        KeyStaysInLine(l, t, key, i);
        assert l in lines[..k];
        if i >= |l| + 2 {
          AtShift(l + CRLF, t, key, i - |l| - 2);
        }
      }
      AtShift(l + CRLF, t, key, r);
      FindIs(s, key, 0, |l| + 2 + r);
    }
  }

  /** The block from line `k` on. */
  lemma {:induction false} BlockFrom(lines: seq<Text>, k: nat)
    requires k <= |lines|
    ensures Offset(lines, k) <= |Block(lines)|
    ensures Block(lines)[Offset(lines, k)..] == Block(lines[k..])
  {
    if k > 0 {
      BlockFrom(lines[1..], k - 1);
      assert lines[1..][k - 1..] == lines[k..];
      var head := lines[0] + CRLF;
      assert (head + Block(lines[1..]))[Offset(lines, k)..] == Block(lines[1..])[Offset(lines[1..], k - 1)..];
    }
  }

  function LowerAll(lines: seq<Text>): (r: seq<Text>)
    ensures |r| == |lines|
    ensures forall i :: 0 <= i < |lines| ==> r[i] == Lower(lines[i])
  {
    if lines == [] then [] else [Lower(lines[0])] + LowerAll(lines[1..])
  }

  lemma {:induction false} LowerBlock(lines: seq<Text>)
    ensures Lower(Block(lines)) == Block(LowerAll(lines))
  {
    assert Lower(CRLF) == CRLF;
    if lines != [] {
      LowerBlock(lines[1..]);
      assert LowerAll(lines)[1..] == LowerAll(lines[1..]);
      LowerConcat(lines[0] + CRLF, Block(lines[1..]));
      LowerConcat(lines[0], CRLF);
    }
  }

  // ---------- the announced length ----------

  /** The key in any letter case, blanks, digits, and whatever else stands on the line. */
  predicate KeyLine(line: Text, blanks: Text, digits: Text, rest: Text) {
    && Lower(line) == LENGTH_KEY + blanks + digits + rest
    && AllOf(blanks, IsBlank) && AllOf(digits, IsDigit)
    && (rest != [] ==> !IsDigit(rest[0]) && (digits == [] ==> !IsBlank(rest[0])))
  }

  /** What digits announce: their value, or 0 if there are none or it does not fit 64 bits. */
  function Announced(digits: Text): nat
    requires AllOf(digits, IsDigit)
  {
    if digits == [] || Value(digits) >= SIZE_MODULUS then 0 else Value(digits)
  }

  /** A line that announces `n` body bytes. */
  ghost predicate AnnouncingLine(line: Text, n: nat) {
    exists blanks, digits, rest :: KeyLine(line, blanks, digits, rest) && n == Announced(digits)
  }

  ghost predicate SilentLine(line: Text) {
    !Occurs(Lower(line), LENGTH_KEY)
  }

  ghost predicate SilentLines(lines: seq<Text>) {
    forall l :: l in lines ==> SilentLine(l)
  }

  lemma SilentIsKeyFree(lines: seq<Text>)
    requires SilentLines(lines)
    ensures KeyFree(LowerAll(lines), LENGTH_KEY)
  {
    forall l | l in LowerAll(lines) ensures !Occurs(l, LENGTH_KEY) {
      var i :| 0 <= i < |lines| && LowerAll(lines)[i] == l;
      assert lines[i] in lines;
    }
  }

  lemma SilentBlock(lines: seq<Text>)
    requires SilentLines(lines)
    ensures AnnouncedLength(Block(lines)) == 0
  {
    var low := Block(LowerAll(lines));
    KeyIsKey();
    SilentIsKeyFree(lines);
    assert Find(low, LENGTH_KEY, 0) == -1 by {
      KeyNotInBlock(LowerAll(lines), LENGTH_KEY, Find(low, LENGTH_KEY, 0));
    }
    LowerBlock(lines);
  }

  /** Reading the digits out of a text that has them at `at`, after the key and the blanks. */
  lemma ReadDigits(low: Text, at: nat, blanks: Text, digits: Text, rest: Text)
    requires at <= |low| && low[at..] == LENGTH_KEY + blanks + digits + rest
    requires AllOf(blanks, IsBlank) && AllOf(digits, IsDigit)
    requires rest != [] && !IsDigit(rest[0]) && (digits == [] ==> !IsBlank(rest[0]))
    ensures var from := SpanEnd(low, at + |LENGTH_KEY|, IsBlank);
            var end := SpanEnd(low, from, IsDigit);
            low[from..end] == digits
  {
    var start := at + |LENGTH_KEY|;
    var from := start + |blanks|;
    var end := from + |digits|;
    var tail := LENGTH_KEY + blanks + digits + rest;
    assert forall i :: 0 <= i < |tail| ==> low[at + i] == low[at..][i] == tail[i];
    forall i | start <= i < from ensures IsBlank(low[i]) {
      assert low[i] == tail[i - at] == blanks[i - start];
    }
    forall i | from <= i < end ensures IsDigit(low[i]) {
      assert low[i] == tail[i - at] == digits[i - from];
    }
    assert low[end] == tail[end - at] == rest[0];
    SpanEndIs(low, start, IsBlank, from);
    SpanEndIs(low, from, IsDigit, end);
    assert low[from..end] == digits;
  }

  lemma ReadsLength(headers: Text, at: nat, blanks: Text, digits: Text, rest: Text)
    requires Find(Lower(headers), LENGTH_KEY, 0) == at
    requires at <= |headers| && Lower(headers)[at..] == LENGTH_KEY + blanks + digits + rest
    requires AllOf(blanks, IsBlank) && AllOf(digits, IsDigit)
    requires rest != [] && !IsDigit(rest[0]) && (digits == [] ==> !IsBlank(rest[0]))
    ensures AnnouncedLength(headers) == Announced(digits)
  {
    hide Find, Lower, Value;
    ReadDigits(Lower(headers), at, blanks, digits, rest);
  }

  lemma KeyAtFront(line: Text)
    requires LENGTH_KEY <= Lower(line)
    ensures At(Lower(line), LENGTH_KEY, 0)
  {
    assert Lower(line)[0..0 + |LENGTH_KEY|] == LENGTH_KEY;
    AtSlice(Lower(line), LENGTH_KEY, 0);
  }

  /** The framer reads the announced number if no earlier line contains the key: whatever blanks stand
      before it and whatever follows it, and 0 if it is missing or does not fit 64 bits. */
  lemma AnnouncingBlock(lines: seq<Text>, k: nat, n: nat)
    requires k < |lines| && SilentLines(lines[..k]) && AnnouncingLine(lines[k], n)
    ensures AnnouncedLength(Block(lines)) == n
  {
    var blanks, digits, rest :| KeyLine(lines[k], blanks, digits, rest) && n == Announced(digits);
    KeyLineReads(lines, k, blanks, digits, rest);
  }

  /** Where the key is found, and what follows from there. */
  lemma KeyPlace(lines: seq<Text>, k: nat) returns (at: nat, more: Text)
    requires k < |lines| && SilentLines(lines[..k]) && LENGTH_KEY <= Lower(lines[k])
    ensures at <= |Block(lines)| && Find(Lower(Block(lines)), LENGTH_KEY, 0) == at
    ensures Lower(Block(lines))[at..] == Lower(lines[k]) + (CRLF + more)
  {
    hide Find, SilentLines, KeyFree;
    var low := LowerAll(lines);
    LowerBlock(lines);
    SilentIsKeyFree(lines[..k]);
    assert low[..k] == LowerAll(lines[..k]);
    KeyAtFront(lines[k]);
    KeyIsKey();
    FindKeyInBlock(low, LENGTH_KEY, k);
    BlockFrom(low, k);
    at, more := Offset(low, k), Block(low[k..][1..]);
  }

  lemma KeyLineReads(lines: seq<Text>, k: nat, blanks: Text, digits: Text, rest: Text)
    requires k < |lines| && SilentLines(lines[..k]) && KeyLine(lines[k], blanks, digits, rest)
    ensures AnnouncedLength(Block(lines)) == Announced(digits)
  {
    hide Find, Value, Announced, AnnouncedLength, SilentLines, Lower, Block;
    assert LENGTH_KEY + blanks + digits + rest == LENGTH_KEY + (blanks + digits + rest);
    var at, more := KeyPlace(lines, k);
    var after := rest + (CRLF + more);
    assert LENGTH_KEY + blanks + digits + rest + (CRLF + more) == LENGTH_KEY + blanks + digits + after;
    assert after[0] == if rest == [] then '\r' else rest[0];
    ReadsLength(Block(lines), at, blanks, digits, after);
  }

  lemma KeyIsKey()
    ensures IsKey(LENGTH_KEY)
  {
  }
}
