/** Python's text operations the formula parser uses: `splitlines`, `strip`, `split`, and `\s`.

    The two notions of a line differ, and the formula code uses both. `splitlines` breaks at every
    character of `IsBreak`, and at a carriage return together with the line feed after it; splitting
    for the whole text's regular expressions goes by line feeds only. Every break is white space, but
    not the other way round.

    A text is built line by line with a line feed after each (`Unlines`). Split again, it falls into
    the pieces of its lines, one after the other (`SplitUnlines`): the line itself when it has no break
    in it (`Unbroken`), several pieces otherwise. The last piece of a line is never lost, because the
    line feed ends it.

    Text that is printable ASCII (`Plain`) is unbroken and contains no white space but the blank. */
module PyText {
  import opened Options

  /** `\s`, `str.isspace()`. */
  predicate IsSpace(c: char) {
    || '\t' <= c <= '\r' || '\U{1c}' <= c <= ' ' || c == '\U{85}' || c == '\U{a0}' || c == '\U{1680}'
    || '\U{2000}' <= c <= '\U{200a}' || c == '\U{2028}' || c == '\U{2029}' || c == '\U{202f}' || c == '\U{205f}'
    || c == '\U{3000}'
  }

  /** A character `splitlines` breaks at. */
  predicate IsBreak(c: char)
    ensures IsBreak(c) ==> IsSpace(c)
  {
    || '\n' <= c <= '\r' || '\U{1c}' <= c <= '\U{1e}' || c == '\U{85}' || c == '\U{2028}' || c == '\U{2029}'
  }

  /** Ten characters break lines, and nineteen more are white space besides. */
  lemma SpacesAre(c: char)
    ensures IsBreak(c) <==>
      c in {'\n', '\U{b}', '\U{c}', '\r', '\U{1c}', '\U{1d}', '\U{1e}', '\U{85}', '\U{2028}', '\U{2029}'}
    ensures IsSpace(c) <==>
      IsBreak(c) || c in {'\t', '\U{1f}', ' ', '\U{a0}', '\U{1680}', '\U{2000}', '\U{2001}', '\U{2002}', '\U{2003}',
        '\U{2004}', '\U{2005}', '\U{2006}', '\U{2007}', '\U{2008}', '\U{2009}', '\U{200a}', '\U{202f}', '\U{205f}',
        '\U{3000}'}
  {
  }

  predicate IsQuote(c: char) { c == '\'' || c == '"' }

  predicate Unbroken(s: string) { forall i :: 0 <= i < |s| ==> !IsBreak(s[i]) }

  predicate AllSpace(s: string) { forall i :: 0 <= i < |s| ==> IsSpace(s[i]) }

  /** Printable ASCII. */
  predicate Plain(s: string) { forall i :: 0 <= i < |s| ==> ' ' <= s[i] <= '~' }

  predicate StartsWith(s: string, w: string) { |w| <= |s| && s[..|w|] == w }

  predicate EndsWith(s: string, w: string) { |w| <= |s| && s[|s| - |w|..] == w }

  /** `w in s`. */
  predicate Contains(s: string, w: string) {
    StartsWith(s, w) || (s != "" && Contains(s[1..], w))
  }

  /** `s.lstrip()`. */
  function SkipWs(s: string): (r: string)
    ensures |r| <= |s|
  {
    if s == "" || !IsSpace(s[0]) then s else SkipWs(s[1..])
  }

  lemma {:induction false} SkipWsTail(s: string)
    ensures s[|s| - |SkipWs(s)|..] == SkipWs(s)
    ensures SkipWs(s) != "" ==> !IsSpace(SkipWs(s)[0])
  {
    if s != "" && IsSpace(s[0]) { SkipWsTail(s[1..]); }
  }

  /** `s.rstrip()`. */
  function DropWs(s: string): (r: string)
    ensures |r| <= |s|
  {
    if s == "" || !IsSpace(s[|s| - 1]) then s else DropWs(s[..|s| - 1])
  }

  lemma {:induction false} DropWsHead(s: string)
    ensures s[..|DropWs(s)|] == DropWs(s)
  {
    if s != "" && IsSpace(s[|s| - 1]) { DropWsHead(s[..|s| - 1]); }
  }

  /** `s.strip()`. */
  function Strip(s: string): (r: string) { DropWs(SkipWs(s)) }

  lemma SkipWsOver(w: string, t: string)
    requires AllSpace(w) && (t == "" || !IsSpace(t[0]))
    ensures SkipWs(w + t) == t
  {
    SkipWsThrough(w, t);
  }

  lemma SkipOne(c: char, t: string)
    requires IsSpace(c)
    ensures SkipWs([c] + t) == SkipWs(t)
  {
    assert ([c] + t)[1..] == t;
  }

  lemma {:induction false} SkipWsThrough(w: string, t: string)
    requires AllSpace(w)
    ensures SkipWs(w + t) == SkipWs(t)
    decreases w
  {
    if w == "" {
      assert w + t == t;
    } else {
      hide IsSpace, SkipWs;
      assert w + t == [w[0]] + (w[1..] + t);
      SkipOne(w[0], w[1..] + t);
      SkipWsThrough(w[1..], t);
    }
  }

  /** `strip` takes exactly the indent away. */
  lemma StripIndent(w: string, t: string)
    requires AllSpace(w) && t != "" && !IsSpace(t[0]) && !IsSpace(t[|t| - 1])
    ensures Strip(w + t) == t
  {
    SkipWsOver(w, t);
  }

  /** What follows `w`, leading whitespace skipped. */
  function After(t: string, w: string): (rest: Option<string>) {
    var s := SkipWs(t);
    if StartsWith(s, w) then Some(s[|w|..]) else None
  }

  lemma AfterOver(w: string, word: string, rest: string)
    requires AllSpace(w) && word != "" && !IsSpace(word[0])
    ensures After(w + (word + rest), word) == Some(rest)
  {
    var t := word + rest;
    assert t[0] == word[0];
    assert t[..|word|] == word && t[|word|..] == rest;
    SkipWsOver(w, t);
  }

  /** A different first character is no match. */
  lemma AfterOther(w: string, b: string, word: string)
    requires AllSpace(w) && b != "" && !IsSpace(b[0]) && word != "" && b[0] != word[0]
    ensures After(w + b, word) == None
  {
    SkipWsOver(w, b);
    if StartsWith(b, word) { HeadOfPrefix(b, word); }
  }

  lemma HeadOfPrefix(b: string, word: string)
    requires StartsWith(b, word) && word != ""
    ensures b[0] == word[0]
  {
    assert b[..|word|][0] == b[0];
  }

  lemma UnbrokenConcat(a: string, b: string)
    ensures Unbroken(a + b) <==> Unbroken(a) && Unbroken(b)
  {
    if Unbroken(a + b) {
      assert forall i :: 0 <= i < |a| ==> (a + b)[i] == a[i];
      assert forall i :: 0 <= i < |b| ==> (a + b)[|a| + i] == b[i];
    }
  }

  lemma PlainConcat(a: string, b: string)
    requires Plain(a) && Plain(b)
    ensures Plain(a + b)
  {
  }

  lemma PlainUnbroken(s: string)
    requires Plain(s)
    ensures Unbroken(s)
  {
  }

  // ----- splitlines -----

  function FirstBreak(t: string): (k: nat)
    ensures k <= |t|
  {
    if t == "" || IsBreak(t[0]) then 0 else 1 + FirstBreak(t[1..])
  }

  lemma {:induction false} FirstBreakFacts(t: string)
    ensures Unbroken(t[..FirstBreak(t)])
    ensures FirstBreak(t) < |t| ==> IsBreak(t[FirstBreak(t)])
  {
    hide IsBreak;
    if t != "" && !IsBreak(t[0]) {
      FirstBreakFacts(t[1..]);
      var k := FirstBreak(t);
      assert forall i :: 1 <= i < k ==> t[..k][i] == t[1..][..k - 1][i - 1];
    }
  }

  // "\r\n" is one break.
  function BreakLength(t: string, k: nat): (n: nat)
    requires k < |t|
    ensures 1 <= n <= 2 && k + n <= |t|
  {
    if t[k] == '\r' && k + 1 < |t| && t[k + 1] == '\n' then 2 else 1
  }

  function SplitLines(t: string): (lines: seq<string>)
    decreases |t|
  {
    if t == "" then []
    else
      var k := FirstBreak(t);
      if k == |t| then [t] else [t[..k]] + SplitLines(t[k + BreakLength(t, k)..])
  }

  lemma {:induction false} FirstBreakUnique(t: string, k: nat)
    requires k <= |t| && Unbroken(t[..k]) && (k < |t| ==> IsBreak(t[k]))
    ensures FirstBreak(t) == k
    decreases k
  {
    if k > 0 {
      assert t[..k][0] == t[0] && t[1..][..k - 1] == t[..k][1..];
      FirstBreakUnique(t[1..], k - 1);
    }
  }

  /** A line without breaks, then "\n", is split off as it is. */
  lemma SplitPlainLine(a: string, b: string)
    requires Unbroken(a)
    ensures SplitLines(a + "\n" + b) == [a] + SplitLines(b)
  {
    var t := a + "\n" + b;
    assert t[..|a|] == a && t[|a|] == '\n' && t[|a| + 1..] == b;
    FirstBreakUnique(t, |a|);
    assert BreakLength(t, |a|) == 1;
  }

  /** The lines `splitlines` makes of one "\n"-terminated line. */
  function Pieces(a: string): (lines: seq<string>) { SplitLines(a + "\n" + "") }

  lemma SplitAt(t: string, k: nat)
    requires k < |t| && Unbroken(t[..k]) && IsBreak(t[k]) && t[k] != '\r'
    ensures SplitLines(t) == [t[..k]] + SplitLines(t[k + 1..])
  {
    hide IsBreak, IsSpace, Unbroken, FirstBreak;
    FirstBreakUnique(t, k);
  }

  /** Any break ends a line; a carriage return and the line feed after it are one; and what has no break is one line,
      unless it is empty. */
  lemma LinesEnd(a: string, c: char, b: string)
    requires Unbroken(a)
    ensures IsBreak(c) && !(c == '\r' && b != "" && b[0] == '\n') ==> SplitLines(a + [c] + b) == [a] + SplitLines(b)
    ensures SplitLines(a + "\r\n" + b) == [a] + SplitLines(b)
    ensures SplitLines(a) == if a == "" then [] else [a]
  {
    var t, u, k := a + [c] + b, a + "\r\n" + b, |a|;
    assert t[..k] == a && t[k] == c && t[k + 1..] == b && (b != "" ==> t[k + 1] == b[0]);
    assert u[..k] == a && u[k] == '\r' && u[k + 1] == '\n' && u[k + 2..] == b;
    hide IsSpace;
    if IsBreak(c) { FirstBreakUnique(t, k); }
    FirstBreakUnique(u, k);
    assert a[..k] == a;
    FirstBreakUnique(a, k);
  }

  lemma MiddleSlices(a: string, b: string, k: nat)
    requires k < |a|
    ensures var t := a + "\n" + b;
      t[..k] == a[..k] && t[k] == a[k] && t[k + 1..] == a[k + 1..] + "\n" + b
    ensures '\r' !in a ==> a[k] != '\r' && '\r' !in a[k + 1..]
  {
    assert forall c :: c in a[k + 1..] ==> c in a;
  }

  // The first break inside a line splits off what is before it.
  lemma SplitInside(a: string, b: string)
    requires '\r' !in a && FirstBreak(a) < |a|
    ensures var k := FirstBreak(a);
      SplitLines(a + "\n" + b) == [a[..k]] + SplitLines(a[k + 1..] + "\n" + b)
  {
    hide *;
    var k := FirstBreak(a);
    FirstBreakFacts(a);
    MiddleSlices(a, b, k);
    SplitAt(a + "\n" + b, k);
  }

  lemma PiecesOf(line: string)
    ensures Pieces(line) == SplitLines(line + "\n" + "") && SplitLines("") == []
  {
  }

  lemma NoMoreLines(a: string)
    requires FirstBreak(a) == |a|
    ensures a[..FirstBreak(a)] == a && SplitLines("") == []
  {
  }

  lemma FirstPiece(a: string)
    requires '\r' !in a
    ensures FirstBreak(a) == |a| ==> a[..FirstBreak(a)] == a && Unbroken(a) && Pieces(a) == [a]
    ensures FirstBreak(a) < |a| ==> Pieces(a) == [a[..FirstBreak(a)]] + Pieces(a[FirstBreak(a) + 1..])
    ensures FirstBreak(a) < |a| ==> '\r' !in a[FirstBreak(a) + 1..]
  {
    hide *;
    PiecesOf(a);
    FirstBreakFacts(a);
    if FirstBreak(a) == |a| {
      NoMoreLines(a);
      SplitPlainLine(a, "");
      assert [a] + [] == [a];
    } else {
      PiecesOf(a[FirstBreak(a) + 1..]);
      SplitInside(a, "");
      MiddleSlices(a, "", FirstBreak(a));
    }
  }

  lemma {:induction false} SplitAnyLine(a: string, b: string)
    requires '\r' !in a
    ensures SplitLines(a + "\n" + b) == Pieces(a) + SplitLines(b)
    decreases |a|
  {
    hide *;
    var k := FirstBreak(a);
    FirstPiece(a);
    if k == |a| {
      SplitPlainLine(a, b);
    } else {
      var head, rest := [a[..k]], a[k + 1..];
      SplitInside(a, b);
      SplitAnyLine(rest, b);
      ConcatAssociative(head, Pieces(rest), SplitLines(b));
    }
  }

  lemma ConcatAssociative(a: seq<string>, b: seq<string>, c: seq<string>)
    ensures a + b + c == a + (b + c)
  {
  }

  lemma SliceOfTail(a: string, k: nat, x: nat, y: nat)
    requires k <= |a| && x <= y <= |a| - k
    ensures a[k..][x..y] == a[x + k..y + k]
    ensures y + k < |a| ==> a[k..][y] == a[y + k]
  {
  }

  /** Each piece is a stretch of the line without breaks that ends at a break or at the line's end. */
  lemma {:induction false} PieceIsStretch(a: string, p: string) returns (i: nat, j: nat)
    requires '\r' !in a && p in Pieces(a)
    ensures i <= j <= |a| && p == a[i..j] && Unbroken(p) && (j < |a| ==> IsBreak(a[j]))
    decreases |a|
  {
    hide *;
    var k := FirstBreak(a);
    FirstBreakFacts(a);
    assert a[0..k] == a[..k];
    FirstPiece(a);
    if p == a[..k] {
      i, j := 0, k;
    } else {
      var rest := a[k + 1..];
      var x, y := PieceIsStretch(rest, p);
      SliceOfTail(a, k + 1, x, y);
      i, j := x + k + 1, y + k + 1;
    }
  }

  /** `"\n".join(lines + [""])`. */
  function Unlines(lines: seq<string>): (t: string) {
    if lines == [] then "" else lines[0] + "\n" + Unlines(lines[1..])
  }

  function AllPieces(lines: seq<string>): (r: seq<string>) {
    if lines == [] then [] else Pieces(lines[0]) + AllPieces(lines[1..])
  }

  lemma {:induction false} SplitUnlines(lines: seq<string>)
    requires forall x :: x in lines ==> '\r' !in x
    ensures SplitLines(Unlines(lines)) == AllPieces(lines)
  {
    if lines != [] {
      SplitAnyLine(lines[0], Unlines(lines[1..]));
      SplitUnlines(lines[1..]);
    }
  }

  lemma {:induction false} PlainPieces(lines: seq<string>)
    requires forall x :: x in lines ==> Unbroken(x)
    ensures AllPieces(lines) == lines
  {
    if lines != [] {
      SplitPlainLine(lines[0], "");
      PlainPieces(lines[1..]);
      assert lines == [lines[0]] + lines[1..];
    }
  }

  lemma {:induction false} AllPiecesConcat(a: seq<string>, b: seq<string>)
    ensures AllPieces(a + b) == AllPieces(a) + AllPieces(b)
  {
    if a == [] {
      assert a + b == b;
    } else {
      assert (a + b)[1..] == a[1..] + b;
      AllPiecesConcat(a[1..], b);
    }
  }

  /** `"\n".join(lines)`. */
  function JoinLines(lines: seq<string>): (t: string) {
    if lines == [] then "" else if |lines| == 1 then lines[0] else lines[0] + "\n" + JoinLines(lines[1..])
  }

  // ----- split() -----

  function WordLength(s: string): (n: nat)
    ensures n <= |s| && (n < |s| ==> IsSpace(s[n])) && forall i :: 0 <= i < n ==> !IsSpace(s[i])
  {
    if s == "" || IsSpace(s[0]) then 0 else 1 + WordLength(s[1..])
  }

  function Words(s: string): (r: seq<string>)
    decreases |s|
  {
    var t := SkipWs(s);
    if t == "" then [] else [t[..WordLength(t)]] + Words(t[WordLength(t)..])
  }

  predicate IsWord(w: string) { w != "" && forall i :: 0 <= i < |w| ==> !IsSpace(w[i]) }

  lemma WordThen(w: string, rest: string)
    requires IsWord(w) && (rest == "" || IsSpace(rest[0]))
    ensures Words(w + rest) == [w] + Words(rest)
  {
    var t := w + rest;
    assert t[0] == w[0];
    var n := WordLength(t);
    assert rest != "" ==> t[|w|] == rest[0];
    assert t[..n] == w && t[n..] == rest;
  }
}
