/** Byte strings and the few library operations the server leans on: `std::string::find`,
    `std::tolower`, the decimal printer and the decimal reader. A byte is a `char`. */
module Bytes {

  datatype Option<+T> = None | Some(value: T)

  type Text = string

  const CRLF: Text := "\r\n"
  const BLANK: Text := "\r\n\r\n"

  // ---------- searching ----------

  predicate At(s: Text, pat: Text, i: int) {
    0 <= i && i + |pat| <= |s| && forall k :: 0 <= k < |pat| ==> s[i + k] == pat[k]
  }

  ghost predicate Occurs(s: Text, pat: Text) {
    exists i :: At(s, pat, i)
  }

  /** `s.find(pat, from)`, with -1 for `npos`. */
  function Find(s: Text, pat: Text, from: nat): (r: int)
    ensures r == -1 || (from <= r && At(s, pat, r))
    ensures r == -1 ==> forall i :: from <= i ==> !At(s, pat, i)
    ensures forall i :: from <= i < r ==> !At(s, pat, i)
    decreases |s| - from
  {
    if from + |pat| > |s| then -1
    else if At(s, pat, from) then from
    else Find(s, pat, from + 1)
  }

  /** A position that is an occurrence with none before it is what `find` returns. */
  lemma FindIs(s: Text, pat: Text, from: nat, r: int)
    requires from <= r && At(s, pat, r)
    requires forall i :: from <= i < r ==> !At(s, pat, i)
    ensures Find(s, pat, from) == r
  {
  }

  lemma AtCrlf(s: Text, i: int)
    ensures At(s, CRLF, i) <==> 0 <= i && i + 2 <= |s| && s[i] == '\r' && s[i + 1] == '\n'
  {
    assert CRLF[0] == '\r' && CRLF[1] == '\n';
  }

  lemma AtBlank(s: Text, i: int)
    ensures At(s, BLANK, i) <==> At(s, CRLF, i) && At(s, CRLF, i + 2)
  {
    AtCrlf(s, i);
    AtCrlf(s, i + 2);
    assert BLANK[0] == '\r' && BLANK[1] == '\n' && BLANK[2] == '\r' && BLANK[3] == '\n';
  }

  /** Occurrences only depend on the bytes they cover. */
  lemma AtSlice(s: Text, pat: Text, i: int)
    ensures At(s, pat, i) <==> 0 <= i && i + |pat| <= |s| && s[i..i + |pat|] == pat
  {
    if 0 <= i && i + |pat| <= |s| && s[i..i + |pat|] == pat {
      assert forall k :: 0 <= k < |pat| ==> s[i..i + |pat|][k] == pat[k];
    }
  }

  lemma AtChar(s: Text, c: char, i: int)
    ensures At(s, [c], i) <==> 0 <= i < |s| && s[i] == c
  {
    assert [c][0] == c;
  }

  /** An occurrence inside a part is an occurrence in the whole, at the shifted place. */
  lemma AtWithin(a: Text, b: Text, c: Text, pat: Text, i: int)
    requires 0 <= i && i + |pat| <= |b|
    ensures At(a + b + c, pat, |a| + i) <==> At(b, pat, i)
  {
    assert (a + b + c)[|a|..|a| + |b|] == b;
  }

  /** Appending bytes cannot change what `find` has already found. */
  lemma FindStable(s: Text, more: Text, pat: Text, from: nat)
    requires Find(s, pat, from) >= 0
    ensures Find(s + more, pat, from) == Find(s, pat, from)
  {
    var r := Find(s, pat, from);
    assert [] + s + more == s + more;
    forall i | from <= i <= r
      ensures At(s + more, pat, i) <==> At(s, pat, i)
    {
      AtWithin([], s, more, pat, i);
    }
    FindIs(s + more, pat, from, r);
  }

  /** The first index from `from` on at which `p` fails; the loops that skip a class of characters. */
  function SpanEnd(s: Text, from: nat, p: char -> bool): (e: nat)
    requires from <= |s|
    ensures from <= e <= |s|
    ensures forall i :: from <= i < e ==> p(s[i])
    ensures e < |s| ==> !p(s[e])
    decreases |s| - from
  {
    if from < |s| && p(s[from]) then SpanEnd(s, from + 1, p) else from
  }

  lemma SpanEndIs(s: Text, from: nat, p: char -> bool, e: nat)
    requires from <= e <= |s|
    requires forall i :: from <= i < e ==> p(s[i])
    requires e < |s| ==> !p(s[e])
    ensures SpanEnd(s, from, p) == e
  {
  }

  // ---------- splitting ----------

  /** `s.split(sep)`. */
  function Split(s: Text, sep: Text): seq<Text>
    requires sep != []
    decreases |s|
  {
    var i := Find(s, sep, 0);
    if i == -1 then [s] else [s[..i]] + Split(s[i + |sep|..], sep)
  }

  lemma SplitUnfolds(s: Text, sep: Text)
    requires sep != []
    ensures var i := Find(s, sep, 0);
            Split(s, sep) == if i == -1 then [s] else [s[..i]] + Split(s[i + |sep|..], sep)
  {
  }

  /** Splitting undoes joining at the first separator. */
  lemma SplitFirst(part: Text, sep: Text, rest: Text)
    requires sep != [] && Find(part + sep + rest, sep, 0) == |part|
    ensures Split(part + sep + rest, sep) == [part] + Split(rest, sep)
  {
    var s := part + sep + rest;
    assert s[..|part|] == part;
    assert s[|part| + |sep|..] == rest;
  }

  // ---------- characters ----------

  predicate IsSpace(c: char) {
    c == ' ' || c == '\t' || c == '\n' || c == '\U{0B}' || c == '\U{0C}' || c == '\r'
  }

  predicate IsBlank(c: char) { c == ' ' || c == '\t' }

  predicate IsDigit(c: char) { '0' <= c <= '9' }

  function LowerChar(c: char): char {
    if 'A' <= c <= 'Z' then (c as int + 32) as char else c
  }

  function Lower(s: Text): (r: Text)
    ensures |r| == |s|
    ensures forall i :: 0 <= i < |s| ==> r[i] == LowerChar(s[i])
  {
    seq(|s|, i requires 0 <= i < |s| => LowerChar(s[i]))
  }

  lemma LowerConcat(a: Text, b: Text)
    ensures Lower(a + b) == Lower(a) + Lower(b)
  {
  }

  const CAPITALS: Text := "ABCDEFGHIJKLMNOPQRSTUVWXYZ"
  const SMALLS: Text := "abcdefghijklmnopqrstuvwxyz"

  /** The small letter of a capital one, by its place in the alphabet; any other byte stays. */
  lemma LowersLetters(c: char)
    ensures forall k :: 0 <= k < 26 && c == CAPITALS[k] ==> LowerChar(c) == SMALLS[k]
    ensures c !in CAPITALS ==> LowerChar(c) == c
  {
    assert forall k :: 0 <= k < 26 ==> CAPITALS[k] as int == 'A' as int + k && SMALLS[k] as int == 'a' as int + k;
    assert 'A' <= c <= 'Z' ==> CAPITALS[c as int - 'A' as int] == c;
  }

  // ---------- trimming ----------

  predicate AllOf(s: Text, p: char -> bool) {
    forall i :: 0 <= i < |s| ==> p(s[i])
  }

  /** Where `s[from..end]` ends once its trailing white space is dropped. */
  function TrimEnd(s: Text, from: nat, end: nat): (e: nat)
    requires from <= end <= |s|
    ensures from <= e <= end
    ensures forall i :: e <= i < end ==> IsSpace(s[i])
    ensures e > from ==> !IsSpace(s[e - 1])
  {
    if end > from && IsSpace(s[end - 1]) then TrimEnd(s, from, end - 1) else end
  }

  function Trim(s: Text): Text {
    var begin := SpanEnd(s, 0, IsSpace);
    s[begin..TrimEnd(s, begin, |s|)]
  }

  predicate Trimmed(s: Text) {
    s == [] || (!IsSpace(s[0]) && !IsSpace(s[|s| - 1]))
  }

  /** Trimming removes exactly the white space around a string. */
  lemma TrimIs(left: Text, s: Text, right: Text)
    requires Trimmed(s) && AllOf(left, IsSpace) && AllOf(right, IsSpace)
    ensures Trim(left + s + right) == s
  {
    var all := left + s + right;
    if s == [] {
      forall i | 0 <= i < |all| ensures IsSpace(all[i]) {
        assert all[i] == if i < |left| then left[i] else right[i - |left|];
      }
      SpanEndIs(all, 0, IsSpace, |all|);
    } else {
      assert all[|left|] == s[0];
      SpanEndIs(all, 0, IsSpace, |left|);
      forall i | |left| + |s| <= i < |all| ensures IsSpace(all[i]) {
        assert all[i] == right[i - |left| - |s|];
      }
      assert all[|left| + |s| - 1] == s[|s| - 1];
      assert all[|left|..|left| + |s|] == s;
    }
  }

  // ---------- decimal numbers ----------

  function Digit(d: nat): (c: char)
    requires d < 10
    ensures IsDigit(c)
  {
    ('0' as int + d) as char
  }

  /** `std::to_string` of a non-negative number. */
  function Decimal(n: nat): (s: Text)
    ensures |s| > 0 && forall i :: 0 <= i < |s| ==> IsDigit(s[i])
  {
    if n < 10 then [Digit(n)] else Decimal(n / 10) + [Digit(n % 10)]
  }

  /** The value a string of digits denotes. */
  function Value(s: Text): nat
    requires forall i :: 0 <= i < |s| ==> IsDigit(s[i])
  {
    if s == [] then 0
    else
      assert IsDigit(s[|s| - 1]);
      Value(s[..|s| - 1]) * 10 + (s[|s| - 1] as int - '0' as int)
  }

  lemma {:induction false} DecimalValue(n: nat)
    ensures Value(Decimal(n)) == n
  {
    if n < 10 {
      assert Decimal(n)[..0] == [];
    } else {
      var s := Decimal(n);
      assert s[..|s| - 1] == Decimal(n / 10);
      DecimalValue(n / 10);
    }
  }

  // ---------- concatenation ----------

  lemma CutStable(a: Text, more: Text, n: nat)
    requires n <= |a|
    ensures (a + more)[..n] == a[..n]
    ensures (a + more)[n..] == a[n..] + more
  {
  }

  function Flat(parts: seq<Text>): Text {
    if parts == [] then [] else parts[0] + Flat(parts[1..])
  }

  lemma {:induction false} FlatConcat(a: seq<Text>, b: seq<Text>)
    ensures Flat(a + b) == Flat(a) + Flat(b)
  {
    if a == [] {
      assert a + b == b;
    } else {
      assert (a + b)[0] == a[0] && (a + b)[1..] == a[1..] + b;
      FlatConcat(a[1..], b);
    }
  }

  lemma FlatSnoc(a: seq<Text>, x: Text)
    ensures Flat(a + [x]) == Flat(a) + x
  {
    FlatConcat(a, [x]);
    assert Flat([x]) == x + Flat([x][1..]) == x;
  }
}
