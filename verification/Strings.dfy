/** The text operations the operator uses. Case mapping covers the ASCII letters. */
module Strings {

  predicate IsSpace(c: char) {
    var n := c as int;
    9 <= n <= 13 || n == 32 || n == 0x85 || n == 0xA0 || n == 0x1680 || 0x2000 <= n <= 0x200A
    || n == 0x2028 || n == 0x2029 || n == 0x202F || n == 0x205F || n == 0x3000
  }

  function TrimRight(s: string): (r: string)
    ensures r <= s
    ensures r == "" || !IsSpace(r[|r| - 1])
  {
    if s != "" && IsSpace(s[|s| - 1]) then TrimRight(s[..|s| - 1]) else s
  }

  function TrimLeft(s: string): (r: string)
    ensures |r| <= |s|
    ensures r == "" || !IsSpace(r[0])
    ensures r == "" || r[|r| - 1] == s[|s| - 1]
  {
    if s != "" && IsSpace(s[0]) then TrimLeft(s[1..]) else s
  }

  function Trim(s: string): (r: string)
    ensures Trimmed(r)
    ensures Trimmed(s) ==> r == s
  {
    TrimLeft(TrimRight(s))
  }

  predicate Trimmed(s: string) {
    s == "" || (!IsSpace(s[0]) && !IsSpace(s[|s| - 1]))
  }

  /** Trimming on the right stops at a character that is not a space. */
  lemma {:induction false} TrimRightKeepsHead(a: string, w: string)
    requires a != "" && !IsSpace(a[|a| - 1])
    ensures TrimRight(a + w) == a + TrimRight(w)
  {
    if w == "" {
      assert a + w == a;
    } else if IsSpace(w[|w| - 1]) {
      assert (a + w)[..|a + w| - 1] == a + w[..|w| - 1];
      TrimRightKeepsHead(a, w[..|w| - 1]);
    }
  }

  function LowerChar(c: char): char {
    if 'A' <= c <= 'Z' then c - 'A' + 'a' else c
  }

  function UpperChar(c: char): char {
    if 'a' <= c <= 'z' then c - 'a' + 'A' else c
  }

  function Lower(s: string): (r: string)
    ensures |r| == |s| && forall i :: 0 <= i < |s| ==> r[i] == LowerChar(s[i])
  {
    seq(|s|, i requires 0 <= i < |s| => LowerChar(s[i]))
  }

  function Upper(s: string): (r: string)
    ensures |r| == |s| && forall i :: 0 <= i < |s| ==> r[i] == UpperChar(s[i])
  {
    seq(|s|, i requires 0 <= i < |s| => UpperChar(s[i]))
  }

  function Normalize(s: string): string {
    Lower(Trim(s))
  }

  function TrimPrefix(s: string, prefix: string): string {
    if prefix <= s then s[|prefix|..] else s
  }

  /** The position of the first `c`, or the length. */
  function IndexOf(s: string, c: char): (k: nat)
    ensures k <= |s| && c !in s[..k] && (k < |s| ==> s[k] == c)
  {
    if s == "" || s[0] == c then 0
    else
      assert s[..1 + IndexOf(s[1..], c)] == [s[0]] + s[1..][..IndexOf(s[1..], c)];
      1 + IndexOf(s[1..], c)
  }

  lemma IndexOfFirst(a: string, c: char, w: string)
    requires c !in a
    ensures IndexOf(a + [c] + w, c) == |a|
  {
    var s := a + [c] + w;
    var k := IndexOf(s, c);
    assert s[|a|] == c;
  }

  /** The pieces between separators; never empty. */
  function Split(s: string, sep: char): (r: seq<string>)
    ensures |r| > 0
    decreases |s|
  {
    var k := IndexOf(s, sep);
    if k == |s| then [s] else [s[..k]] + Split(s[k + 1..], sep)
  }

  /** Pieces, each ended by a separator. */
  function Ended(pieces: seq<string>, sep: char): string {
    if pieces == [] then "" else pieces[0] + [sep] + Ended(pieces[1..], sep)
  }

  lemma {:induction false} EndedConcat(a: seq<string>, b: seq<string>, sep: char)
    ensures Ended(a + b, sep) == Ended(a, sep) + Ended(b, sep)
  {
    if a == [] {
      assert a + b == b;
    } else {
      assert (a + b)[1..] == a[1..] + b;
      EndedConcat(a[1..], b, sep);
      Associative(a[0] + [sep], Ended(a[1..], sep), Ended(b, sep));
    }
  }

  lemma Associative(a: string, b: string, c: string)
    ensures a + (b + c) == a + b + c
  {
  }

  lemma EndedAppend(pieces: seq<string>, piece: string, sep: char)
    ensures Ended(pieces + [piece], sep) == Ended(pieces, sep) + piece + [sep]
  {
    EndedConcat(pieces, [piece], sep);
    assert [piece][1..] == [];
    assert Ended([piece], sep) == piece + [sep] + "";
    Associative(Ended(pieces, sep), piece, [sep]);
  }

  lemma SplitFirst(piece: string, rest: string, sep: char)
    requires sep !in piece
    ensures Split(piece + [sep] + rest, sep) == [piece] + Split(rest, sep)
  {
    var text := piece + [sep] + rest;
    IndexOfFirst(piece, sep, rest);
    assert text[..|piece|] == piece && text[|piece| + 1..] == rest;
  }

  /** Splitting ended pieces gives the pieces back, and one empty piece after the last. */
  lemma {:induction false} SplitEnded(pieces: seq<string>, sep: char)
    requires forall i :: 0 <= i < |pieces| ==> sep !in pieces[i]
    ensures Split(Ended(pieces, sep), sep) == pieces + [""]
  {
    if pieces != [] {
      SplitEnded(pieces[1..], sep);
      SplitOneMore(pieces[0], pieces[1..], sep);
      assert pieces == [pieces[0]] + pieces[1..];
    }
  }

  lemma SplitOneMore(piece: string, pieces: seq<string>, sep: char)
    requires sep !in piece && Split(Ended(pieces, sep), sep) == pieces + [""]
    ensures Split(Ended([piece] + pieces, sep), sep) == [piece] + pieces + [""]
  {
    assert ([piece] + pieces)[1..] == pieces;
    assert Ended([piece] + pieces, sep) == piece + [sep] + Ended(pieces, sep);
    SplitFirst(piece, Ended(pieces, sep), sep);
    assert [piece] + (pieces + [""]) == [piece] + pieces + [""];
  }
}
