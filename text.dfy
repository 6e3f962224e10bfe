/**
 * The parts of Go's strings package the ledger code relies on. A Go string,
 * a byte sequence, is modelled as a sequence of characters: every character
 * the code compares or cuts at is ASCII, one byte in UTF-8.
 */
module Text {

  /** unicode.IsSpace, the predicate strings.TrimSpace trims by. */
  predicate IsSpace(c: char) {
    || c == ' ' || c == '\t' || c == '\n' || c == '\r' || c == '\U{000B}' || c == '\U{000C}'
    || c == '\U{0085}' || c == '\U{00A0}' || c == '\U{1680}'
    || ('\U{2000}' <= c <= '\U{200A}')
    || c == '\U{2028}' || c == '\U{2029}' || c == '\U{202F}' || c == '\U{205F}' || c == '\U{3000}'
  }

  function TrimLeft(s: string): (r: string)
    ensures |r| <= |s| && r == s[|s| - |r|..]
    ensures r == [] || !IsSpace(r[0])
    ensures forall i :: 0 <= i < |s| - |r| ==> IsSpace(s[i])
  {
    if s != [] && IsSpace(s[0]) then TrimLeft(s[1..]) else s
  }

  function TrimRight(s: string): (r: string)
    ensures |r| <= |s| && r == s[..|r|]
    ensures r == [] || !IsSpace(r[|r| - 1])
    ensures forall i :: |r| <= i < |s| ==> IsSpace(s[i])
  {
    if s != [] && IsSpace(s[|s| - 1]) then TrimRight(s[..|s| - 1]) else s
  }

  /** strings.TrimSpace: drop leading and trailing white space. */
  function TrimSpace(s: string): string {
    TrimRight(TrimLeft(s))
  }

  /** A string TrimSpace leaves alone. */
  predicate Trimmed(s: string) {
    s == [] || (!IsSpace(s[0]) && !IsSpace(s[|s| - 1]))
  }

  lemma TrimSpaceOfTrimmed(s: string)
    requires Trimmed(s)
    ensures TrimSpace(s) == s
  {
  }

  /** TrimSpace's result is trimmed, and it is the identity exactly on trimmed strings. */
  lemma TrimSpaceIdentity(s: string)
    ensures Trimmed(TrimSpace(s))
    ensures TrimSpace(s) == s <==> Trimmed(s)
  {
    var l := TrimLeft(s);
    var r := TrimRight(l);
    if r != [] {
      assert r[0] == l[0];
    }
  }

  /** Indenting a trimmed line by two spaces does not survive TrimSpace. */
  lemma TrimSpaceIndented(s: string)
    requires Trimmed(s)
    ensures TrimSpace("  " + s) == s
  {
    var one := [' '] + s;
    assert "  " + s == [' '] + one;
    TrimLeftDropsSpace(' ', one);
    TrimLeftDropsSpace(' ', s);
    TrimSpaceOfTrimmed(s);
  }

  /** TrimLeft drops a leading white-space character. */
  lemma TrimLeftDropsSpace(c: char, s: string)
    requires IsSpace(c)
    ensures TrimLeft([c] + s) == TrimLeft(s)
  {
    assert ([c] + s)[1..] == s;
  }

  /**
   * strings.Split with a one-character separator: the pieces between the
   * separators, so there is always at least one piece.
   */
  function Split(s: string, sep: char): (parts: seq<string>)
    ensures |parts| >= 1
    ensures forall i :: 0 <= i < |parts| ==> sep !in parts[i]
  {
    if s == [] then [""]
    else
      var rest := Split(s[1..], sep);
      if s[0] == sep then [""] + rest else [[s[0]] + rest[0]] + rest[1..]
  }

  /** strings.Join. */
  function Join(parts: seq<string>, sep: string): string {
    if |parts| == 0 then ""
    else if |parts| == 1 then parts[0]
    else parts[0] + sep + Join(parts[1..], sep)
  }

  /** A join ends with the last character of its last piece, when that piece is not empty. */
  lemma {:induction false} JoinLast(parts: seq<string>, sep: string)
    requires |parts| >= 1 && parts[|parts| - 1] != []
    ensures var j := Join(parts, sep); |j| > 0 && j[|j| - 1] == parts[|parts| - 1][|parts[|parts| - 1]| - 1]
    decreases |parts|
  {
    if |parts| > 1 {
      JoinLast(parts[1..], sep);
    }
  }

  /** A string ends with the last character of the last piece of its split, when that piece is not empty. */
  lemma SplitLastChar(s: string, sep: char)
    requires var parts := Split(s, sep); parts[|parts| - 1] != []
    ensures var parts := Split(s, sep); var last := parts[|parts| - 1];
      |s| > 0 && s[|s| - 1] == last[|last| - 1]
  {
    JoinSplit(s, sep);
    JoinLast(Split(s, sep), [sep]);
  }

  /**
   * A string that starts with a character other than white space, and whose
   * last piece is a prefix and a trimmed non-empty value, is trimmed.
   */
  lemma TrimmedByLastLine(s: string, sep: char, prefix: string, last: string)
    requires |s| > 0 && !IsSpace(s[0])
    requires var parts := Split(s, sep); parts[|parts| - 1] == prefix + last
    requires last != [] && Trimmed(last)
    ensures Trimmed(s)
  {
    SplitLastChar(s, sep);
    var parts := Split(s, sep);
    assert (prefix + last)[|prefix + last| - 1] == last[|last| - 1];
  }

  /** Joining the pieces of a split with the separator gives the string back. */
  lemma {:induction false} JoinSplit(s: string, sep: char)
    ensures Join(Split(s, sep), [sep]) == s
  {
    if s != [] {
      var rest := Split(s[1..], sep);
      JoinSplit(s[1..], sep);
      if s[0] == sep {
        assert Split(s, sep)[1..] == rest;
      } else {
        var parts := Split(s, sep);
        assert parts[1..] == rest[1..];
        if |rest| == 1 {
          assert s == [s[0]] + rest[0];
        } else {
          assert Join(rest, [sep]) == rest[0] + [sep] + Join(rest[1..], [sep]);
          assert s == [s[0]] + s[1..];
        }
      }
    }
  }

  /** Splitting a join of separator-free pieces gives the pieces back. */
  lemma {:induction false} SplitJoin(parts: seq<string>, sep: char)
    requires |parts| >= 1
    requires forall i :: 0 <= i < |parts| ==> sep !in parts[i]
    ensures Split(Join(parts, [sep]), sep) == parts
  {
    if |parts| == 1 {
      SplitNoSep(parts[0], sep);
    } else {
      SplitJoin(parts[1..], sep);
      SplitAround(parts[0], Join(parts[1..], [sep]), sep);
    }
  }

  /** A string without the separator splits into itself. */
  lemma {:induction false} SplitNoSep(s: string, sep: char)
    requires sep !in s
    ensures Split(s, sep) == [s]
  {
    if s != [] {
      SplitNoSep(s[1..], sep);
      assert [s[0]] + s[1..] == s;
    }
  }

  /** Splitting a + sep + b when a holds no separator. */
  lemma {:induction false} SplitAround(a: string, b: string, sep: char)
    requires sep !in a
    ensures Split(a + [sep] + b, sep) == [a] + Split(b, sep)
  {
    if a == [] {
      assert [sep] + b == a + [sep] + b;
      assert ([sep] + b)[1..] == b;
    } else {
      var s := a + [sep] + b;
      assert s[1..] == a[1..] + [sep] + b;
      SplitAround(a[1..], b, sep);
      assert [a[0]] + a[1..] == a;
    }
  }

  /** The pieces of Split(a + sep + b) are those of a followed by those of b. */
  lemma {:induction false} JoinAppend(xs: seq<string>, ys: seq<string>, sep: string)
    requires |xs| >= 1 && |ys| >= 1
    ensures Join(xs + ys, sep) == Join(xs, sep) + sep + Join(ys, sep)
  {
    if |xs| == 1 {
      assert (xs + ys)[1..] == ys;
    } else {
      assert (xs + ys)[1..] == xs[1..] + ys;
      JoinAppend(xs[1..], ys, sep);
    }
  }

  /** Every piece prefixed with the same text. */
  function Prefixed(prefix: string, xs: seq<string>): (r: seq<string>)
    ensures |r| == |xs| && forall i :: 0 <= i < |xs| ==> r[i] == prefix + xs[i]
  {
    seq(|xs|, i requires 0 <= i < |xs| => prefix + xs[i])
  }

  /** "  " + Join(xs, "\n  ") is the join, one per line, of the indented pieces. */
  lemma {:induction false} JoinIndented(xs: seq<string>, indent: string, nl: char)
    requires |xs| >= 1
    ensures indent + Join(xs, [nl] + indent) == Join(Prefixed(indent, xs), [nl])
  {
    if |xs| > 1 {
      JoinIndented(xs[1..], indent, nl);
      assert Prefixed(indent, xs)[1..] == Prefixed(indent, xs[1..]);
    }
  }

  /** s holds t at position i. */
  predicate OccursAt(s: string, t: string, i: int) {
    0 <= i && i + |t| <= |s| && s[i..i + |t|] == t
  }

  /** strings.Index: the first position holding t, or -1 when there is none. */
  function IndexOf(s: string, t: string): (r: int)
    ensures r == -1 || OccursAt(s, t, r)
    ensures forall i :: 0 <= i < (if r == -1 then |s| + 1 else r) ==> !OccursAt(s, t, i)
  {
    if |t| > |s| then -1
    else if s[..|t|] == t then 0
    else
      var k := IndexOf(s[1..], t);
      assert forall i :: 1 <= i <= |s| ==> (OccursAt(s, t, i) <==> OccursAt(s[1..], t, i - 1));
      if k == -1 then -1 else k + 1
  }

  /** strings.Replace(s, target, replacement, 1): replace the first occurrence only. */
  function ReplaceFirst(s: string, target: string, replacement: string): string {
    var i := IndexOf(s, target);
    if i == -1 then s else s[..i] + replacement + s[i + |target|..]
  }

  /** A string that does not contain target is returned unchanged. */
  lemma ReplaceFirstAbsent(s: string, target: string, replacement: string)
    requires forall i :: !OccursAt(s, target, i)
    ensures ReplaceFirst(s, target, replacement) == s
  {
  }

  /** A string that starts with target gets replacement in its place, and the rest is kept. */
  lemma ReplaceFirstPrefix(target: string, rest: string, replacement: string)
    ensures ReplaceFirst(target + rest, target, replacement) == replacement + rest
  {
    var s := target + rest;
    assert OccursAt(s, target, 0);
    assert s[|target|..] == rest;
  }

  /** The replacement happens at the first occurrence: nothing before it is touched. */
  lemma ReplaceFirstAt(s: string, target: string, replacement: string, i: int)
    requires OccursAt(s, target, i)
    requires forall j :: 0 <= j < i ==> !OccursAt(s, target, j)
    ensures ReplaceFirst(s, target, replacement) == s[..i] + replacement + s[i + |target|..]
  {
  }
}
