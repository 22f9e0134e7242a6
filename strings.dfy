/**
  The Python `str` operations the core relies on, on `seq<char>`:
  `strip`, `lstrip`, `find`/`index`, `in`, `split(sep)`, `re.split` on a
  set of literal alternatives, `join`, `count`, `endswith`, `lower`, and
  `os.path.basename` / `os.path.join` for POSIX paths.
*/
module Strings {
  import opened Wrappers

  // ---------------------------------------------------------------------
  // Whitespace and stripping
  // ---------------------------------------------------------------------

  /** The characters for which Python's `str.isspace()` holds; `strip()`
      and `lstrip()` without an argument remove exactly these. */
  predicate IsSpace(c: char) {
    || ('\t' <= c <= '\r')                 // \t \n \v \f \r
    || ('\U{1C}' <= c <= ' ')              // \x1c..\x1f and the space
    || c == '\U{85}' || c == '\U{A0}' || c == '\U{1680}'
    || ('\U{2000}' <= c <= '\U{200A}')
    || c == '\U{2028}' || c == '\U{2029}' || c == '\U{202F}'
    || c == '\U{205F}' || c == '\U{3000}'
  }

  predicate AllSpace(s: string) {
    forall i :: 0 <= i < |s| ==> IsSpace(s[i])
  }

  /** `s.lstrip()` */
  function LStrip(s: string): string {
    if s != [] && IsSpace(s[0]) then LStrip(s[1..]) else s
  }

  /** `lstrip` removes the longest all-space prefix: what is left is a
      suffix of the text that does not start with a space. */
  lemma {:induction false} LStripSpec(s: string)
    ensures var r := LStrip(s);
      && |r| <= |s| && r == s[|s| - |r|..]
      && (r == [] || !IsSpace(r[0]))
      && AllSpace(s[..|s| - |r|])
  {
    if s != [] && IsSpace(s[0]) {
      LStripSpec(s[1..]);
      var r := LStrip(s[1..]);
      assert s[..|s| - |r|] == [s[0]] + s[1..][..|s| - 1 - |r|];
    }
  }

  /** `s.rstrip()` */
  function RStrip(s: string): string {
    if s != [] && IsSpace(s[|s| - 1]) then RStrip(s[..|s| - 1]) else s
  }

  /** `rstrip` removes the longest all-space suffix. */
  lemma {:induction false} RStripSpec(s: string)
    ensures var r := RStrip(s);
      && |r| <= |s| && r == s[..|r|]
      && (r == [] || !IsSpace(r[|r| - 1]))
      && AllSpace(s[|r|..])
  {
    if s != [] && IsSpace(s[|s| - 1]) {
      RStripSpec(s[..|s| - 1]);
      var r := RStrip(s[..|s| - 1]);
      assert s[|r|..] == s[..|s| - 1][|r|..] + [s[|s| - 1]];
    }
  }

  /** `s.strip()` */
  function Strip(s: string): string {
    RStrip(LStrip(s))
  }

  /** Python's `not s.strip()`: the text is empty or whitespace only. */
  predicate IsBlank(s: string) {
    Strip(s) == []
  }

  lemma {:induction false} BlankIffAllSpace(s: string)
    ensures IsBlank(s) <==> AllSpace(s)
    ensures IsBlank(s) <==> LStrip(s) == []
  {
    var l := LStrip(s);
    LStripSpec(s);
    RStripSpec(l);
    assert l != [] ==> l[0] == s[|s| - |l|];
    assert RStrip(l) == [] ==> l[0..] == l;
    assert s == s[..|s| - |l|] + l;
  }

  // ---------------------------------------------------------------------
  // Searching
  // ---------------------------------------------------------------------

  predicate StartsWith(s: string, p: string) {
    |p| <= |s| && s[..|p|] == p
  }

  /** `s.endswith(p)` */
  predicate EndsWith(s: string, p: string) {
    |p| <= |s| && s[|s| - |p|..] == p
  }

  lemma {:induction false} PrefixOfAppend(a: string, b: string)
    ensures StartsWith(a + b, a)
  {
    assert (a + b)[..|a|] == a;
  }

  lemma {:induction false} EndsWithAppend(a: string, b: string, p: string)
    requires EndsWith(b, p)
    ensures EndsWith(a + b, p)
  {
    assert (a + b)[|a + b| - |p|..] == b[|b| - |p|..];
  }

  /** `p` occurs in `s` starting at index `i`. */
  predicate OccursAt(p: string, s: string, i: int) {
    0 <= i && i + |p| <= |s| && s[i..i + |p|] == p
  }

  function FindFrom(s: string, p: string, from: nat): (r: Option<nat>)
    requires from <= |s|
    ensures r.Some? ==> from <= r.value && OccursAt(p, s, r.value)
    ensures r.Some? ==> forall j :: from <= j < r.value ==> !OccursAt(p, s, j)
    ensures r.None? ==> forall j :: from <= j ==> !OccursAt(p, s, j)
    decreases |s| - from
  {
    if OccursAt(p, s, from) then Some(from)
    else if from == |s| then None
    else FindFrom(s, p, from + 1)
  }

  /** `s.find(p)` (None for -1); `s.index(p)` raises ValueError exactly when
      this is None. The index is that of the FIRST occurrence. */
  function Find(s: string, p: string): (r: Option<nat>)
    ensures r.Some? ==> OccursAt(p, s, r.value)
    ensures r.Some? ==> forall j :: 0 <= j < r.value ==> !OccursAt(p, s, j)
    ensures r.None? <==> forall j :: !OccursAt(p, s, j)
  {
    FindFrom(s, p, 0)
  }

  /** The first occurrence is at `i` when no earlier character could begin one. */
  lemma {:induction false} FindAt(s: string, p: string, i: nat)
    requires p != [] && OccursAt(p, s, i)
    requires forall j :: 0 <= j < i ==> s[j] != p[0]
    ensures Find(s, p) == Some(i)
  {
    var r := Find(s, p);
    assert s[r.value] == s[r.value..r.value + |p|][0];
  }

  /** No occurrence when the first character of `p` never appears. */
  lemma {:induction false} FindAbsent(s: string, p: string)
    requires p != [] && forall j :: 0 <= j < |s| ==> s[j] != p[0]
    ensures Find(s, p).None?
  {
    forall j
      ensures !OccursAt(p, s, j)
    {
      if 0 <= j && j + |p| <= |s| {
        assert s[j..j + |p|][0] == s[j];
      }
    }
  }

  /** Python's `p in s` */
  predicate Contains(s: string, p: string) {
    Find(s, p).Some?
  }

  // ---------------------------------------------------------------------
  // Splitting and joining
  // ---------------------------------------------------------------------

  predicate NonEmptyAll(seps: seq<string>) {
    forall k :: 0 <= k < |seps| ==> seps[k] != []
  }

  /** Index of the first alternative in `seps` that starts `s`, as a regular
      expression alternation `a|b|c` tries them at one position. */
  function MatchAt(s: string, seps: seq<string>): (r: Option<nat>)
    ensures r.Some? ==> r.value < |seps| && StartsWith(s, seps[r.value])
    ensures r.None? <==> forall k :: 0 <= k < |seps| ==> !StartsWith(s, seps[k])
  {
    if seps == [] then None
    else if StartsWith(s, seps[0]) then Some(0)
    else match MatchAt(s, seps[1..])
      case None => None
      case Some(k) => Some(k + 1)
  }

  /** Scans `s` left to right; `cur` is the piece built so far. */
  function SplitAcc(s: string, seps: seq<string>, cur: string): (r: seq<string>)
    requires NonEmptyAll(seps)
    ensures |r| >= 1
    decreases |s|
  {
    if s == [] then [cur]
    else match MatchAt(s, seps)
      case Some(k) => [cur] + SplitAcc(s[|seps[k]|..], seps, [])
      case None => SplitAcc(s[1..], seps, cur + [s[0]])
  }

  /** `re.split('a|b|c', s)` for literal, non-empty alternatives: cut at every
      leftmost, non-overlapping occurrence of any alternative. */
  function SplitAny(s: string, seps: seq<string>): (r: seq<string>)
    requires NonEmptyAll(seps)
    ensures |r| >= 1
  {
    SplitAcc(s, seps, [])
  }

  /** `s.split(sep)` for a non-empty separator. */
  function Split(s: string, sep: string): (r: seq<string>)
    requires sep != []
    ensures |r| >= 1
  {
    SplitAny(s, [sep])
  }

  /** `sep.join(parts)` */
  function Join(parts: seq<string>, sep: string): string {
    if |parts| == 0 then []
    else if |parts| == 1 then parts[0]
    else parts[0] + sep + Join(parts[1..], sep)
  }

  lemma {:induction false} JoinCons(x: string, rest: seq<string>, sep: string)
    requires rest != []
    ensures Join([x] + rest, sep) == x + sep + Join(rest, sep)
  {
    assert ([x] + rest)[1..] == rest;
  }

  lemma {:induction false} JoinSnoc(xs: seq<string>, x: string, sep: string)
    requires xs != []
    ensures Join(xs + [x], sep) == Join(xs, sep) + sep + x
    decreases |xs|
  {
    if |xs| == 1 {
      assert xs + [x] == [xs[0]] + [x];
      JoinCons(xs[0], [x], sep);
    } else {
      assert xs + [x] == [xs[0]] + (xs[1..] + [x]);
      JoinCons(xs[0], xs[1..] + [x], sep);
      JoinSnoc(xs[1..], x, sep);
      JoinCons(xs[0], xs[1..], sep);
    }
  }

  lemma {:induction false} JoinSplitAcc(s: string, sep: string, cur: string)
    requires sep != []
    ensures Join(SplitAcc(s, [sep], cur), sep) == cur + s
    decreases |s|
  {
    if s == [] {
    } else {
      match MatchAt(s, [sep])
      case Some(k) =>
        var rest := s[|sep|..];
        JoinSplitAcc(rest, sep, []);
        JoinCons(cur, SplitAcc(rest, [sep], []), sep);
        assert s == sep + rest;
      case None =>
        JoinSplitAcc(s[1..], sep, cur + [s[0]]);
        assert cur + [s[0]] + s[1..] == cur + s;
    }
  }

  /** Splitting and joining again with the same separator restores the text. */
  lemma {:induction false} JoinSplit(s: string, sep: string)
    requires sep != []
    ensures Join(Split(s, sep), sep) == s
  {
    JoinSplitAcc(s, sep, []);
  }

  /** No alternative starts at any position before `i`. */
  predicate NoMatchBefore(s: string, seps: seq<string>, i: int) {
    forall j :: 0 <= j < i && j <= |s| ==> MatchAt(s[j..], seps).None?
  }

  /** Walking over a stretch with no separator only extends the current piece. */
  lemma {:induction false} SplitAccSkip(s: string, seps: seq<string>, cur: string, i: nat)
    requires NonEmptyAll(seps) && i <= |s|
    requires NoMatchBefore(s, seps, i)
    ensures SplitAcc(s, seps, cur) == SplitAcc(s[i..], seps, cur + s[..i])
    decreases i
  {
    if i > 0 {
      assert s != [];
      assert MatchAt(s[0..], seps).None?;
      assert s[0..] == s;
      var t := s[1..];
      forall j | 0 <= j < i - 1 && j <= |t|
        ensures MatchAt(t[j..], seps).None?
      {
        assert t[j..] == s[j + 1..];
      }
      assert SplitAcc(s, seps, cur) == SplitAcc(t, seps, cur + [s[0]]);
      SplitAccSkip(t, seps, cur + [s[0]], i - 1);
      assert t[i - 1..] == s[i..];
      assert cur + [s[0]] + t[..i - 1] == cur + s[..i];
    } else {
      assert s[0..] == s && cur + s[..0] == cur;
    }
  }

  /** With no separator anywhere, the split is the whole text. */
  lemma {:induction false} SplitAccNone(s: string, seps: seq<string>, cur: string)
    requires NonEmptyAll(seps) && NoMatchBefore(s, seps, |s|)
    ensures SplitAcc(s, seps, cur) == [cur + s]
  {
    SplitAccSkip(s, seps, cur, |s|);
    assert s[..|s|] == s && s[|s|..] == [];
  }

  /** The pieces of a split, in terms of the first separator occurrence. */
  lemma {:induction false} SplitAccFirst(s: string, seps: seq<string>, cur: string, i: nat)
    requires NonEmptyAll(seps) && i < |s|
    requires NoMatchBefore(s, seps, i) && MatchAt(s[i..], seps).Some?
    ensures SplitAcc(s, seps, cur) ==
      [cur + s[..i]] + SplitAcc(s[i + |seps[MatchAt(s[i..], seps).value]|..], seps, [])
  {
    SplitAccSkip(s, seps, cur, i);
    var t, k := s[i..], MatchAt(s[i..], seps).value;
    assert SplitAcc(t, seps, cur + s[..i]) == [cur + s[..i]] + SplitAcc(t[|seps[k]|..], seps, []);
    assert t[|seps[k]|..] == s[i + |seps[k]|..];
  }

  lemma {:induction false} MatchAtSingle(s: string, sep: string, j: nat)
    requires j <= |s|
    ensures MatchAt(s[j..], [sep]).Some? <==> OccursAt(sep, s, j)
  {
    if j + |sep| <= |s| {
      assert s[j..][..|sep|] == s[j..j + |sep|];
    }
  }

  /** `s.split(sep)` cuts at the first occurrence that `find` reports, and
      keeps the whole text when there is none. */
  lemma {:induction false} SplitAtFind(s: string, sep: string)
    requires sep != []
    ensures Find(s, sep).None? ==> Split(s, sep) == [s]
    ensures Find(s, sep).Some? ==>
      Split(s, sep) == [s[..Find(s, sep).value]] + Split(s[Find(s, sep).value + |sep|..], sep)
  {
    var e: string := [];
    match Find(s, sep)
    case Some(n) =>
      NoSplitBefore(s, sep, n);
      MatchAtSingle(s, sep, n);
      assert MatchAt(s[n..], [sep]) == Some(0);
      SplitAccFirst(s, [sep], e, n);
      assert e + s[..n] == s[..n];
    case None =>
      NoSplitBefore(s, sep, |s|);
      SplitAccNone(s, [sep], e);
      assert e + s == s;
  }

  /** No cut before the first occurrence that `find` reports. */
  lemma {:induction false} NoSplitBefore(s: string, sep: string, n: nat)
    requires sep != [] && n <= |s|
    requires forall j :: 0 <= j < n ==> !OccursAt(sep, s, j)
    ensures NoMatchBefore(s, [sep], n)
  {
    forall j | 0 <= j < n
      ensures MatchAt(s[j..], [sep]).None?
    {
      MatchAtSingle(s, sep, j);
    }
  }

  /** `s.split(sep, 1)[-1]`: the text after the first occurrence, or all of
      `s` when `sep` does not occur. */
  function AfterFirst(s: string, sep: string): (r: string)
    ensures Find(s, sep).None? ==> r == s
    ensures Find(s, sep).Some? ==> s == s[..Find(s, sep).value] + sep + r
  {
    match Find(s, sep)
    case None => s
    case Some(i) => s[i + |sep|..]
  }

  // ---------------------------------------------------------------------
  // Counting, case, paths
  // ---------------------------------------------------------------------

  /** `s.count(c)` for a one-character argument. */
  function Count(s: string, c: char): nat {
    if s == [] then 0 else (if s[0] == c then 1 else 0) + Count(s[1..], c)
  }

  /** `s.count(c, 0, end)` */
  function CountPrefix(s: string, c: char, end: nat): nat
    requires end <= |s|
  {
    Count(s[..end], c)
  }

  lemma {:induction false} CountAppend(a: string, b: string, c: char)
    ensures Count(a + b, c) == Count(a, c) + Count(b, c)
  {
    if a != [] {
      assert (a + b)[1..] == a[1..] + b;
      CountAppend(a[1..], b, c);
    } else {
      assert a + b == b;
    }
  }

  lemma {:induction false} CountNone(s: string, c: char)
    requires forall i :: 0 <= i < |s| ==> s[i] != c
    ensures Count(s, c) == 0
  {
    if s != [] {
      CountNone(s[1..], c);
    }
  }

  /** Python's `str.lower()`, one character at a time. Three mappings are
      spelled out: A-Z, the Kelvin sign (to "k") and the capital I with dot
      above (to "i" and a combining dot above). Every other character is
      kept. */
  function LowerChar(c: char): string {
    if 'A' <= c <= 'Z' then [(c as int + 32) as char]
    else if c == '\U{212A}' then "k"
    else if c == '\U{130}' then "i\U{307}"
    else [c]
  }

  function Lower(s: string): string {
    if s == [] then [] else LowerChar(s[0]) + Lower(s[1..])
  }

  lemma {:induction false} LowerAppend(a: string, b: string)
    ensures Lower(a + b) == Lower(a) + Lower(b)
  {
    if a == [] {
      assert a + b == b;
    } else {
      assert (a + b)[1..] == a[1..] + b;
      LowerAppend(a[1..], b);
    }
  }

  predicate IsAsciiLower(c: char) { 'a' <= c <= 'z' }
  predicate IsAsciiUpper(c: char) { 'A' <= c <= 'Z' }

  /** `os.path.basename(p)`: the text after the last `/`. */
  function Basename(p: string): string {
    if p == [] then []
    else if p[|p| - 1] == '/' then []
    else Basename(p[..|p| - 1]) + [p[|p| - 1]]
  }

  /** The base name is the longest suffix without `/`. */
  lemma {:induction false} BasenameIsLastComponent(p: string)
    ensures var r := Basename(p);
      && |r| <= |p| && r == p[|p| - |r|..]
      && (forall i :: 0 <= i < |r| ==> r[i] != '/')
      && (|r| < |p| ==> p[|p| - |r| - 1] == '/')
  {
    if p != [] && p[|p| - 1] != '/' {
      var q := p[..|p| - 1];
      BasenameIsLastComponent(q);
      var r := Basename(q);
      assert Basename(p) == r + [p[|p| - 1]];
      assert p[|p| - |r| - 1..] == q[|q| - |r|..] + [p[|p| - 1]];
    }
  }

  /** `os.path.join(a, b)` for a name `b` that does not start with `/`. */
  function PathJoin(a: string, b: string): string {
    if a == [] || a[|a| - 1] == '/' then a + b else a + "/" + b
  }
}
