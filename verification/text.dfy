/** The few Python `str` operations the modelled code relies on, over
    `seq<char>`: `sep.join`, `split`, `replace`, `lower`/`upper`, `strip`,
    `rstrip(ch)`, `in` (substring test), `find`/`rfind` of one character and
    `str(int)`. Case mapping and whitespace are ASCII-only. */
module Text {
  import opened Wrappers

  // ---------------------------------------------------------------------------
  // Substrings
  // ---------------------------------------------------------------------------

  predicate IsPrefix(p: string, s: string) {
    |p| <= |s| && s[..|p|] == p
  }

  predicate IsSuffix(p: string, s: string) {
    |p| <= |s| && s[|s| - |p|..] == p
  }

  /** `sub` occurs in `s` starting at index `i`. */
  predicate OccursAt(s: string, sub: string, i: int) {
    0 <= i && i + |sub| <= |s| && s[i..i + |sub|] == sub
  }

  /** Python's `sub in s`. */
  predicate Contains(s: string, sub: string) {
    exists i :: 0 <= i <= |s| - |sub| && OccursAt(s, sub, i)
  }

  lemma ContainsEmpty(s: string)
    ensures Contains(s, "")
  {
    assert OccursAt(s, "", 0);
  }

  /** A string holds its own tail. */
  lemma ContainsTail(a: string, b: string)
    ensures Contains(a + b, b)
  {
    assert (a + b)[|a|..|a| + |b|] == b;
    assert OccursAt(a + b, b, |a|);
  }

  /** Appending text keeps every substring. */
  lemma ContainsExtend(a: string, b: string, sub: string)
    requires Contains(a, sub)
    ensures Contains(a + b, sub)
  {
    var i :| 0 <= i <= |a| - |sub| && OccursAt(a, sub, i);
    assert (a + b)[i..i + |sub|] == a[i..i + |sub|];
    assert OccursAt(a + b, sub, i);
  }

  lemma ContainsSelf(s: string)
    ensures Contains(s, s)
  {
    assert s[0..|s|] == s;
    assert OccursAt(s, s, 0);
  }

  /** Prepending text keeps every substring. */
  lemma ContainsPrepend(a: string, b: string, sub: string)
    requires Contains(b, sub)
    ensures Contains(a + b, sub)
  {
    var i :| 0 <= i <= |b| - |sub| && OccursAt(b, sub, i);
    assert (a + b)[|a| + i..|a| + i + |sub|] == b[i..i + |sub|];
    assert OccursAt(a + b, sub, |a| + i);
  }

  /** A string that does not hold a character cannot hold a substring that
      starts with it. */
  lemma NotContainsByFirstChar(s: string, sub: string)
    requires |sub| > 0 && sub[0] !in s
    ensures !Contains(s, sub)
  {
  }

  // ---------------------------------------------------------------------------
  // join and split
  // ---------------------------------------------------------------------------

  /** Python's `sep.join(parts)`. */
  function Join(sep: string, parts: seq<string>): string
    decreases |parts|
  {
    if |parts| == 0 then ""
    else if |parts| == 1 then parts[0]
    else parts[0] + sep + Join(sep, parts[1..])
  }

  lemma JoinCons(sep: string, a: string, parts: seq<string>)
    requires |parts| > 0
    ensures Join(sep, [a] + parts) == a + sep + Join(sep, parts)
  {
    assert ([a] + parts)[1..] == parts;
  }

  lemma JoinSnoc(sep: string, parts: seq<string>, a: string)
    requires |parts| > 0
    ensures Join(sep, parts + [a]) == Join(sep, parts) + sep + a
    decreases |parts|
  {
    if |parts| == 1 {
      assert parts + [a] == [parts[0], a];
    } else {
      calc {
        Join(sep, parts + [a]);
        { assert parts + [a] == [parts[0]] + (parts[1..] + [a]); JoinCons(sep, parts[0], parts[1..] + [a]); }
        parts[0] + sep + Join(sep, parts[1..] + [a]);
        { JoinSnoc(sep, parts[1..], a); }
        parts[0] + sep + (Join(sep, parts[1..]) + sep + a);
        { JoinCons(sep, parts[0], parts[1..]); assert [parts[0]] + parts[1..] == parts; }
        Join(sep, parts) + sep + a;
      }
    }
  }

  /** Every part of a join occurs in it. */
  lemma {:induction false} JoinContainsPart(sep: string, parts: seq<string>, i: nat)
    requires i < |parts|
    ensures Contains(Join(sep, parts), parts[i])
    decreases |parts|
  {
    ContainsSelf(parts[i]);
    if |parts| > 1 {
      var rest := Join(sep, parts[1..]);
      if i == 0 {
        ContainsExtend(parts[0], sep, parts[0]);
        ContainsExtend(parts[0] + sep, rest, parts[0]);
      } else {
        assert parts[1..][i - 1] == parts[i];
        JoinContainsPart(sep, parts[1..], i - 1);
        ContainsPrepend(parts[0] + sep, rest, parts[i]);
      }
    }
  }

  /** A join of non-empty pieces is non-empty. */
  lemma JoinNonEmpty(sep: string, parts: seq<string>)
    requires |parts| > 0 && |parts[0]| > 0
    ensures |Join(sep, parts)| > 0
  {
  }

  /** A join begins with its first piece. */
  lemma JoinStartsWithFirst(sep: string, parts: seq<string>)
    requires |parts| > 0
    ensures IsPrefix(parts[0], Join(sep, parts))
  {
    if |parts| > 1 {
      assert (parts[0] + sep + Join(sep, parts[1..]))[..|parts[0]|] == parts[0];
    }
  }

  /** Python's `s.split(c)` for a one-character separator. */
  function Split(s: string, c: char): (r: seq<string>)
    ensures |r| >= 1
    decreases |s|
  {
    if |s| == 0 then [""]
    else
      var rest := Split(s[1..], c);
      if s[0] == c then [""] + rest
      else [[s[0]] + rest[0]] + rest[1..]
  }

  lemma {:induction false} SplitWithoutSeparator(p: string, t: string, c: char)
    requires c !in p
    ensures Split(p + t, c) == [p + Split(t, c)[0]] + Split(t, c)[1..]
    decreases |p|
  {
    if |p| > 0 {
      assert (p + t)[0] == p[0] && p[0] != c;
      assert (p + t)[1..] == p[1..] + t;
      SplitWithoutSeparator(p[1..], t, c);
      assert [p[0]] + (p[1..] + Split(t, c)[0]) == p + Split(t, c)[0];
    } else {
      var sp := Split(t, c);
      assert p + t == t;
      assert p + sp[0] == sp[0];
      assert [sp[0]] + sp[1..] == sp;
    }
  }

  /** Splitting a join on a separator that no piece contains gives the pieces
      back: the text holds exactly one line per piece. */
  lemma {:induction false} SplitJoin(parts: seq<string>, c: char)
    requires |parts| > 0
    requires forall i :: 0 <= i < |parts| ==> c !in parts[i]
    ensures Split(Join([c], parts), c) == parts
    decreases |parts|
  {
    if |parts| == 1 {
      SplitWithoutSeparator(parts[0], "", c);
      assert Split("", c) == [""];
      assert parts[0] + "" == parts[0];
      assert Join([c], parts) == parts[0];
      assert Split(parts[0], c) == [parts[0]];
      assert parts == [parts[0]];
    } else {
      var rest := Join([c], parts[1..]);
      SplitJoin(parts[1..], c);
      assert Join([c], parts) == parts[0] + ([c] + rest);
      SplitWithoutSeparator(parts[0], [c] + rest, c);
      assert ([c] + rest)[1..] == rest;
      var sp := Split([c] + rest, c);
      assert sp == [""] + parts[1..];
      assert sp[0] == "" && sp[1..] == parts[1..];
      assert parts[0] + sp[0] == parts[0];
      assert parts == [parts[0]] + parts[1..];
    }
  }

  // ---------------------------------------------------------------------------
  // replace
  // ---------------------------------------------------------------------------

  /** Python's `s.replace(p, x)` for a non-empty pattern: occurrences are
      found left to right and do not overlap. */
  function Replace(s: string, p: string, x: string): string
    requires |p| > 0
    decreases |s|
  {
    if |s| < |p| then s
    else if s[..|p|] == p then x + Replace(s[|p|..], p, x)
    else [s[0]] + Replace(s[1..], p, x)
  }

  /** Python's `s.split(p)` for a non-empty separator. */
  function SplitOn(s: string, p: string): (r: seq<string>)
    requires |p| > 0
    ensures |r| >= 1
    decreases |s|
  {
    if |s| < |p| then [s]
    else if s[..|p|] == p then [""] + SplitOn(s[|p|..], p)
    else
      var rest := SplitOn(s[1..], p);
      [[s[0]] + rest[0]] + rest[1..]
  }

  lemma JoinGlueFirst(x: string, a: string, parts: seq<string>)
    requires |parts| > 0
    ensures Join(x, [a + parts[0]] + parts[1..]) == a + Join(x, parts)
  {
    if |parts| > 1 {
      JoinCons(x, a + parts[0], parts[1..]);
      JoinCons(x, parts[0], parts[1..]);
      assert [parts[0]] + parts[1..] == parts;
    }
  }

  /** `s.replace(p, x) == x.join(s.split(p))`: every occurrence of `p` is
      replaced and nothing else changes. */
  lemma {:induction false} ReplaceIsJoinOfSplit(s: string, p: string, x: string)
    requires |p| > 0
    ensures Replace(s, p, x) == Join(x, SplitOn(s, p))
    decreases |s|
  {
    if |s| < |p| {
    } else if s[..|p|] == p {
      var rest := SplitOn(s[|p|..], p);
      calc {
        Replace(s, p, x);
        x + Replace(s[|p|..], p, x);
        { ReplaceIsJoinOfSplit(s[|p|..], p, x); }
        x + Join(x, rest);
        { JoinCons(x, "", rest); assert "" + x == x; }
        Join(x, [""] + rest);
        Join(x, SplitOn(s, p));
      }
    } else {
      var rest := SplitOn(s[1..], p);
      calc {
        Replace(s, p, x);
        [s[0]] + Replace(s[1..], p, x);
        { ReplaceIsJoinOfSplit(s[1..], p, x); }
        [s[0]] + Join(x, rest);
        { JoinGlueFirst(x, [s[0]], rest); }
        Join(x, [[s[0]] + rest[0]] + rest[1..]);
        Join(x, SplitOn(s, p));
      }
    }
  }

  /** Replacing a pattern by itself changes nothing. */
  lemma {:induction false} ReplaceBySelf(s: string, p: string)
    requires |p| > 0
    ensures Replace(s, p, p) == s
    decreases |s|
  {
    if |s| < |p| {
    } else if s[..|p|] == p {
      ReplaceBySelf(s[|p|..], p);
      assert s == s[..|p|] + s[|p|..];
    } else {
      ReplaceBySelf(s[1..], p);
      assert s == [s[0]] + s[1..];
    }
  }

  /** Joining the pieces of a split with the separator gives the original
      text back. */
  lemma SplitOnJoin(s: string, p: string)
    requires |p| > 0
    ensures Join(p, SplitOn(s, p)) == s
  {
    ReplaceBySelf(s, p);
    ReplaceIsJoinOfSplit(s, p, p);
  }

  /** A pattern that does not occur is not replaced. */
  lemma {:induction false} ReplaceAbsent(s: string, p: string, x: string)
    requires |p| > 0 && !Contains(s, p)
    ensures Replace(s, p, x) == s
    decreases |s|
  {
    if |s| >= |p| {
      assert !OccursAt(s, p, 0);
      assert s[..|p|] != p;
      if Contains(s[1..], p) {
        var i :| 0 <= i <= |s[1..]| - |p| && OccursAt(s[1..], p, i);
        assert s[1..][i..i + |p|] == s[i + 1..i + 1 + |p|];
        assert OccursAt(s, p, i + 1);
      }
      ReplaceAbsent(s[1..], p, x);
      assert s == [s[0]] + s[1..];
    }
  }

  /** `f"{{{name}}}"`: a name in braces, the placeholder syntax of format
      strings. */
  function Placeholder(name: string): (p: string)
    ensures |p| == |name| + 2 && p[0] == '{' && p[|p| - 1] == '}'
  {
    "{" + name + "}"
  }

  // ---------------------------------------------------------------------------
  // Case mapping and stripping (ASCII)
  // ---------------------------------------------------------------------------

  function LowerChar(c: char): char {
    if 'A' <= c <= 'Z' then (c as int + 32) as char else c
  }

  function UpperChar(c: char): char {
    if 'a' <= c <= 'z' then (c as int - 32) as char else c
  }

  /** Python's `s.lower()` on ASCII letters. */
  function Lower(s: string): (r: string)
    ensures |r| == |s|
    ensures forall i :: 0 <= i < |s| ==> r[i] == LowerChar(s[i])
  {
    seq(|s|, i requires 0 <= i < |s| => LowerChar(s[i]))
  }

  /** Upper-casing ignores a previous lower-casing. */
  lemma UpperLower(s: string)
    ensures Upper(Lower(s)) == Upper(s)
  {
  }

  /** Python's `s.upper()` on ASCII letters. */
  function Upper(s: string): (r: string)
    ensures |r| == |s|
    ensures forall i :: 0 <= i < |s| ==> r[i] == UpperChar(s[i])
  {
    seq(|s|, i requires 0 <= i < |s| => UpperChar(s[i]))
  }

  /** The characters Python's `str.strip()` removes, restricted to ASCII. */
  predicate IsSpace(c: char) {
    c == ' ' || (9 <= c as int <= 13) || (28 <= c as int <= 31)
  }

  function TrimStart(s: string): (r: string)
    ensures |r| <= |s| && r == s[|s| - |r|..]
    ensures |r| == 0 || !IsSpace(r[0])
    ensures forall i :: 0 <= i < |s| - |r| ==> IsSpace(s[i])
    decreases |s|
  {
    if |s| > 0 && IsSpace(s[0]) then
      var r := TrimStart(s[1..]);
      assert s[1..][|s| - 1 - |r|..] == s[|s| - |r|..];
      assert forall i :: 1 <= i < |s| - |r| ==> s[i] == s[1..][i - 1];
      r
    else s
  }

  function TrimEnd(s: string): (r: string)
    ensures |r| <= |s| && r == s[..|r|]
    ensures |r| == 0 || !IsSpace(r[|r| - 1])
    ensures forall i :: |r| <= i < |s| ==> IsSpace(s[i])
    decreases |s|
  {
    if |s| > 0 && IsSpace(s[|s| - 1]) then
      var r := TrimEnd(s[..|s| - 1]);
      assert s[..|s| - 1][..|r|] == s[..|r|];
      assert forall i :: |r| <= i < |s| - 1 ==> s[i] == s[..|s| - 1][i];
      r
    else s
  }

  /** Python's `s.strip()`. */
  function Strip(s: string): string {
    TrimEnd(TrimStart(s))
  }

  /** Python's `s.rstrip(c)` for one character: the longest prefix that does
      not end in `c`, everything cut off being `c`. */
  function RStrip(s: string, c: char): (r: string)
    ensures |r| <= |s| && r == s[..|r|]
    ensures |r| == 0 || r[|r| - 1] != c
    ensures forall i :: |r| <= i < |s| ==> s[i] == c
    decreases |s|
  {
    if |s| > 0 && s[|s| - 1] == c then RStrip(s[..|s| - 1], c) else s
  }

  // ---------------------------------------------------------------------------
  // Finding characters, printing numbers
  // ---------------------------------------------------------------------------

  /** Python's `s.find(c)`, `None` for -1. */
  function FirstIndexOf(s: string, c: char): (r: Option<nat>)
    ensures r.Some? ==> r.value < |s| && s[r.value] == c && c !in s[..r.value]
    ensures r.None? ==> c !in s
    decreases |s|
  {
    if |s| == 0 then None
    else if s[0] == c then Some(0)
    else
      match FirstIndexOf(s[1..], c)
      case None => None
      case Some(i) => Some(i + 1)
  }

  /** Python's `s.rfind(c)`, `None` for -1. */
  function LastIndexOf(s: string, c: char): (r: Option<nat>)
    ensures r.Some? ==> r.value < |s| && s[r.value] == c && c !in s[r.value + 1..]
    ensures r.None? ==> c !in s
    decreases |s|
  {
    if |s| == 0 then None
    else if s[|s| - 1] == c then Some(|s| - 1)
    else LastIndexOf(s[..|s| - 1], c)
  }

  function DigitChar(d: nat): char
    requires d < 10
  {
    "0123456789"[d]
  }

  /** Python's `str(n)` for a natural number. */
  function NatToString(n: nat): (r: string)
    ensures |r| >= 1
    decreases n
  {
    if n < 10 then [DigitChar(n)] else NatToString(n / 10) + [DigitChar(n % 10)]
  }

  /** Python's `str(i)` for an integer. */
  function IntToString(i: int): string {
    if i < 0 then "-" + NatToString(-i) else NatToString(i)
  }
}
