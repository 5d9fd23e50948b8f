/** The string operations both converters use: removing every occurrence of a
    character (Python `str.replace(c, '')`, Go `strings.ReplaceAll`), trimming
    whitespace (Python `str.strip()`) and joining with a separator (Python
    `sep.join(parts)`). */
module Text {

  /** The ASCII characters `str.strip()` removes: space, tab, line feed,
      vertical tab, form feed, carriage return, and the four separators
      U+001C to U+001F. */
  predicate IsSpace(ch: char) {
    ch == ' ' || ch == '\t' || ch == '\n' || ch == '\r' || ch == '\U{000B}' || ch == '\U{000C}'
    || ('\U{001C}' <= ch <= '\U{001F}')
  }

  /** `s` with every `ch` deleted. */
  function RemoveAll(s: string, ch: char): string {
    if s == [] then []
    else if s[0] == ch then RemoveAll(s[1..], ch)
    else [s[0]] + RemoveAll(s[1..], ch)
  }

  /** Removal deletes every `ch`, keeps every other character as often as it
      occurs, and changes nothing in text without `ch`. */
  lemma {:induction false} RemoveAllSpec(s: string, ch: char)
    ensures multiset(RemoveAll(s, ch))[ch] == 0
    ensures forall x :: x != ch ==> multiset(RemoveAll(s, ch))[x] == multiset(s)[x]
    ensures ch !in s ==> RemoveAll(s, ch) == s
  {
    if s != [] {
      RemoveAllSpec(s[1..], ch);
      assert s == [s[0]] + s[1..];
    }
  }

  /** Removal works on each side of a concatenation separately. */
  lemma {:induction false} RemoveAllAppend(a: string, b: string, ch: char)
    ensures RemoveAll(a + b, ch) == RemoveAll(a, ch) + RemoveAll(b, ch)
  {
    if a == [] {
      assert a + b == b;
    } else {
      assert (a + b)[0] == a[0] && (a + b)[1..] == a[1..] + b;
      RemoveAllAppend(a[1..], b, ch);
    }
  }

  /** Removing one character keeps every other character that occurs. */
  lemma RemoveAllKeeps(s: string, ch: char, x: char)
    requires x != ch && x in s
    ensures x in RemoveAll(s, ch)
  {
    RemoveAllSpec(s, ch);
    assert multiset(s)[x] > 0;
  }

  /** The empty text on either side of a concatenation changes nothing. */
  lemma EmptyAppend(s: string)
    ensures "" + s == s && s + "" == s
  {
  }

  /** Concatenation regroups freely. */
  lemma AppendAssoc(a: string, b: string, c: string, d: string)
    ensures a + b + c == a + (b + c)
    ensures a + b + c + d == a + (b + (c + d))
  {
  }

  /** Drops leading whitespace. */
  function TrimLeft(s: string): string {
    if |s| > 0 && IsSpace(s[0]) then TrimLeft(s[1..]) else s
  }

  /** Drops trailing whitespace. */
  function TrimRight(s: string): string {
    if |s| > 0 && IsSpace(s[|s| - 1]) then TrimRight(s[..|s| - 1]) else s
  }

  /** The result of `TrimLeft` is a suffix of `s` that does not start with
      whitespace, and only whitespace was dropped. */
  lemma {:induction false} TrimLeftSpec(s: string)
    ensures |TrimLeft(s)| <= |s| && TrimLeft(s) == s[|s| - |TrimLeft(s)|..]
    ensures TrimLeft(s) == [] || !IsSpace(TrimLeft(s)[0])
    ensures forall k :: 0 <= k < |s| - |TrimLeft(s)| ==> IsSpace(s[k])
  {
    if |s| > 0 && IsSpace(s[0]) {
      TrimLeftSpec(s[1..]);
    }
  }

  /** The result of `TrimRight` is a prefix of `s` that does not end with
      whitespace, and only whitespace was dropped. */
  lemma {:induction false} TrimRightSpec(s: string)
    ensures |TrimRight(s)| <= |s| && TrimRight(s) == s[..|TrimRight(s)|]
    ensures TrimRight(s) == [] || !IsSpace(TrimRight(s)[|TrimRight(s)| - 1])
    ensures forall k :: |TrimRight(s)| <= k < |s| ==> IsSpace(s[k])
  {
    if |s| > 0 && IsSpace(s[|s| - 1]) {
      TrimRightSpec(s[..|s| - 1]);
    }
  }

  /** Python's `str.strip()`. */
  function Strip(s: string): string {
    TrimRight(TrimLeft(s))
  }

  /** Text that neither starts nor ends with whitespace. */
  predicate Trimmed(s: string) {
    s == [] || (!IsSpace(s[0]) && !IsSpace(s[|s| - 1]))
  }

  /** `strip()` keeps a contiguous part of the text that neither starts nor
      ends with whitespace, and drops only whitespace around it. */
  lemma StripSpec(s: string)
    ensures Trimmed(Strip(s))
    ensures var i := |s| - |TrimLeft(s)|;
              0 <= i <= i + |Strip(s)| <= |s| && Strip(s) == s[i..i + |Strip(s)|]
              && (forall k :: 0 <= k < i ==> IsSpace(s[k]))
              && (forall k :: i + |Strip(s)| <= k < |s| ==> IsSpace(s[k]))
  {
    var l := TrimLeft(s);
    TrimLeftSpec(s);
    TrimRightSpec(l);
    var r := TrimRight(l);
    var i := |s| - |l|;
    assert l == s[i..];
    assert r == l[..|r|];
    assert r == s[i..i + |r|];
    if r != [] {
      assert r[0] == l[0];
    }
    forall k | i + |r| <= k < |s|
      ensures IsSpace(s[k])
    {
      assert 0 <= k - i < |l| && s[i..][k - i] == s[k];
    }
  }

  /** `strip()` keeps every character that is not whitespace. */
  lemma StripKeeps(s: string, x: char)
    requires x in s && !IsSpace(x)
    ensures x in Strip(s)
  {
    StripSpec(s);
    var i := |s| - |TrimLeft(s)|;
    var j :| 0 <= j < |s| && s[j] == x;
    assert Strip(s)[j - i] == x;
  }

  /** `strip()` keeps every character that is not whitespace as often as it
      occurs. */
  lemma StripCounts(s: string)
    ensures forall x :: !IsSpace(x) ==> multiset(Strip(s))[x] == multiset(s)[x]
  {
    StripSpec(s);
    var i := |s| - |TrimLeft(s)|;
    var j := i + |Strip(s)|;
    assert s == s[..i] + Strip(s) + s[j..];
    forall x | !IsSpace(x)
      ensures multiset(s[..i])[x] == 0 && multiset(s[j..])[x] == 0
    {
      assert x !in s[..i];
      assert forall k :: 0 <= k < |s[j..]| ==> s[j..][k] == s[j + k];
      assert x !in s[j..];
    }
  }

  /** Stripping trimmed text, with or without one space in front, gives the
      text back. */
  lemma {:induction false} StripTrimmed(w: string)
    requires Trimmed(w)
    ensures Strip(w) == w
    ensures Strip(" " + w) == w
  {
    var s := " " + w;
    assert s[1..] == w;
    assert TrimLeft(s) == TrimLeft(w);
  }

  /** Python's `sep.join(parts)`: the parts in order, `sep` between
      neighbours. */
  function Join(sep: string, parts: seq<string>): string {
    if parts == [] then ""
    else if |parts| == 1 then parts[0]
    else Join(sep, parts[..|parts| - 1]) + sep + parts[|parts| - 1]
  }

  lemma JoinPair(sep: string, a: string, b: string)
    ensures Join(sep, [a, b]) == a + sep + b
  {
    assert [a, b][..1] == [a];
  }

  lemma JoinTriple(sep: string, a: string, b: string, c: string)
    ensures Join(sep, [a, b, c]) == a + sep + b + sep + c
  {
    assert [a, b, c][..2] == [a, b];
    JoinPair(sep, a, b);
  }

  /** Joining one more part appends the separator and the part. */
  lemma JoinSnoc(sep: string, parts: seq<string>, last: string)
    requires parts != []
    ensures Join(sep, parts + [last]) == Join(sep, parts) + sep + last
  {
    assert (parts + [last])[..|parts|] == parts;
  }

  /** Non-empty text that neither starts nor ends with whitespace. */
  predicate Solid(s: string) {
    |s| > 0 && Trimmed(s)
  }

  /** Joining solid parts with spaces gives solid text, and nothing for no
      parts. */
  lemma {:induction false} JoinSolid(parts: seq<string>)
    requires forall i :: 0 <= i < |parts| ==> Solid(parts[i])
    ensures parts != [] ==> Solid(Join(" ", parts))
    ensures parts == [] ==> Join(" ", parts) == ""
  {
    var n := |parts|;
    if n > 1 {
      var front, last := parts[..n - 1], parts[n - 1];
      JoinSolid(front);
      var j := Join(" ", front);
      var w := j + " " + last;
      assert w[0] == j[0];
      assert w[|w| - 1] == last[|last| - 1];
    }
  }

  /** Joining two non-empty lists of parts is joining each and putting the
      separator between them. */
  lemma {:induction false} JoinConcat(sep: string, xs: seq<string>, ys: seq<string>)
    requires xs != [] && ys != []
    ensures Join(sep, xs + ys) == Join(sep, xs) + sep + Join(sep, ys)
  {
    var n := |ys|;
    if n == 1 {
      JoinSnoc(sep, xs, ys[0]);
      assert xs + ys == xs + [ys[0]];
    } else {
      var front, last := ys[..n - 1], ys[n - 1];
      assert xs + ys == (xs + front) + [last];
      JoinSnoc(sep, xs + front, last);
      JoinConcat(sep, xs, front);
      assert Join(sep, ys) == Join(sep, front) + sep + last;
    }
  }
}
