/**
  Text as lines: Python's `str.splitlines(keepends=True)`, `writelines`
  (concatenation), text-mode reading with universal newlines, and list
  slicing with Python's clamping.
*/
module TextLines {
  import opened Strings

  /** The characters `str.splitlines` breaks at; `\r\n` counts as one break. */
  predicate IsLineBreak(c: char) {
    || c == '\n' || c == '\r' || c == '\U{0B}' || c == '\U{0C}'
    || c == '\U{1C}' || c == '\U{1D}' || c == '\U{1E}'
    || c == '\U{85}' || c == '\U{2028}' || c == '\U{2029}'
  }

  /** The text uses `\n` as its only line break. */
  predicate OnlyNewlineBreaks(s: string) {
    s == [] || ((s[0] == '\n' || !IsLineBreak(s[0])) && OnlyNewlineBreaks(s[1..]))
  }

  /** The same, one index at a time. */
  lemma {:induction false} OnlyNewlineBreaksAt(s: string)
    ensures OnlyNewlineBreaks(s) <==> forall i :: 0 <= i < |s| ==> (IsLineBreak(s[i]) ==> s[i] == '\n')
  {
    if s != [] {
      OnlyNewlineBreaksAt(s[1..]);
      assert forall i :: 1 <= i < |s| ==> s[i] == s[1..][i - 1];
    }
  }

  /** `cur` is the line read so far. */
  function LinesAcc(s: string, cur: string): seq<string>
    decreases |s|
  {
    if s == [] then (if cur == [] then [] else [cur])
    else if s[0] == '\r' && |s| >= 2 && s[1] == '\n' then [cur + "\r\n"] + LinesAcc(s[2..], [])
    else if IsLineBreak(s[0]) then [cur + [s[0]]] + LinesAcc(s[1..], [])
    else LinesAcc(s[1..], cur + [s[0]])
  }

  /** `s.splitlines(keepends=True)` */
  function Lines(s: string): seq<string> {
    LinesAcc(s, [])
  }

  /** `"".join(lines)`, which is also what `f.writelines(lines)` writes. */
  function Concat(lines: seq<string>): string {
    if lines == [] then [] else lines[0] + Concat(lines[1..])
  }

  lemma {:induction false} ConcatAppend(a: seq<string>, b: seq<string>)
    ensures Concat(a + b) == Concat(a) + Concat(b)
  {
    if a == [] {
      assert a + b == b;
    } else {
      assert (a + b)[1..] == a[1..] + b;
      ConcatAppend(a[1..], b);
    }
  }

  lemma {:induction false} ConcatCons(x: string, rest: seq<string>)
    ensures Concat([x] + rest) == x + Concat(rest)
  {
    assert ([x] + rest)[1..] == rest;
  }

  /** One line ended by a break of length `k`, and the rest written back. */
  lemma {:induction false} ConcatBreak(s: string, cur: string, k: nat)
    requires 0 < k <= |s| && Concat(LinesAcc(s[k..], [])) == s[k..]
    ensures Concat([cur + s[..k]] + LinesAcc(s[k..], [])) == cur + s
  {
    ConcatCons(cur + s[..k], LinesAcc(s[k..], []));
    assert cur + s[..k] + s[k..] == cur + s;
  }

  lemma {:induction false} ConcatLinesAcc(s: string, cur: string)
    ensures Concat(LinesAcc(s, cur)) == cur + s
    decreases |s|
  {
    if s == [] {
    } else if s[0] == '\r' && |s| >= 2 && s[1] == '\n' {
      assert s[..2] == "\r\n";
      ConcatLinesAcc(s[2..], []);
      ConcatBreak(s, cur, 2);
    } else if IsLineBreak(s[0]) {
      assert s[..1] == [s[0]];
      ConcatLinesAcc(s[1..], []);
      ConcatBreak(s, cur, 1);
    } else {
      ConcatLinesAcc(s[1..], cur + [s[0]]);
      assert cur + [s[0]] + s[1..] == cur + s;
    }
  }

  /** Splitting into lines loses nothing: writing the lines back gives the text. */
  lemma {:induction false} ConcatLines(s: string)
    ensures Concat(Lines(s)) == s
  {
    ConcatLinesAcc(s, []);
  }

  /** The lines of a text that ends with `\n` do not run into what follows. */
  lemma {:induction false} LinesAccAppend(a: string, b: string, cur: string)
    requires a != [] && a[|a| - 1] == '\n'
    ensures LinesAcc(a + b, cur) == LinesAcc(a, cur) + Lines(b)
    decreases |a|
  {
    var ab := a + b;
    assert ab[0] == a[0];
    if a[0] == '\r' && |a| >= 2 && a[1] == '\n' {
      assert ab[1] == '\n';
      assert ab[2..] == a[2..] + b;
      if |a| == 2 {
        assert a[2..] == [] && ab[2..] == b;
      } else {
        LinesAccAppend(a[2..], b, []);
      }
    } else if IsLineBreak(a[0]) {
      if a[0] == '\r' {
        assert |a| >= 2 && a[1] != '\n';
        assert ab[1] == a[1];
      }
      assert ab[1..] == a[1..] + b;
      if |a| == 1 {
        assert a[1..] == [] && ab[1..] == b;
      } else {
        LinesAccAppend(a[1..], b, []);
      }
    } else {
      assert |a| >= 2;
      assert ab[1..] == a[1..] + b;
      LinesAccAppend(a[1..], b, cur + [a[0]]);
    }
  }

  lemma {:induction false} LinesAppend(a: string, b: string)
    requires a == [] || a[|a| - 1] == '\n'
    ensures Lines(a + b) == Lines(a) + Lines(b)
  {
    if a == [] {
      assert a + b == b;
    } else {
      LinesAccAppend(a, b, []);
    }
  }

  lemma {:induction false} LinesAccCount(s: string, cur: string)
    requires OnlyNewlineBreaks(s)
    requires s != [] && s[|s| - 1] == '\n'
    ensures |LinesAcc(s, cur)| == Count(s, '\n')
    decreases |s|
  {
    if s[0] == '\n' {
      if |s| > 1 {
        LinesAccCount(s[1..], []);
      }
    } else {
      assert !IsLineBreak(s[0]);
      LinesAccCount(s[1..], cur + [s[0]]);
    }
  }

  /** With `\n` as the only break, a text that ends with `\n` has one line per `\n`. */
  lemma {:induction false} LinesCount(s: string)
    requires OnlyNewlineBreaks(s)
    requires s == [] || s[|s| - 1] == '\n'
    ensures |Lines(s)| == Count(s, '\n')
  {
    if s != [] {
      LinesAccCount(s, []);
    }
  }

  lemma {:induction false} LinesAccSingle(s: string, cur: string)
    requires s != [] && s[|s| - 1] == '\n'
    requires forall j :: 0 <= j < |s| - 1 ==> !IsLineBreak(s[j])
    ensures LinesAcc(s, cur) == [cur + s]
    decreases |s|
  {
    if |s| == 1 {
      assert s == "\n";
    } else {
      LinesAccSingle(s[1..], cur + [s[0]]);
      assert cur + [s[0]] + s[1..] == cur + s;
    }
  }

  /** A text with one break, at its end, is one line. */
  lemma {:induction false} LinesSingle(s: string)
    requires s != [] && s[|s| - 1] == '\n'
    requires forall j :: 0 <= j < |s| - 1 ==> !IsLineBreak(s[j])
    ensures Lines(s) == [s]
  {
    LinesAccSingle(s, []);
    assert [] + s == s;
  }

  /** The start of the line that holds index `i`: just after the last `\n`
      before it, or 0. */
  function LineStart(s: string, i: nat): (r: nat)
    requires i <= |s|
    ensures r <= i
    ensures r == 0 || s[r - 1] == '\n'
    ensures forall j :: r <= j < i ==> s[j] != '\n'
  {
    if i == 0 then 0 else if s[i - 1] == '\n' then i else LineStart(s, i - 1)
  }

  /** Python's `xs[:n]` for `n >= 0`. */
  function Take<T>(xs: seq<T>, n: nat): (r: seq<T>)
    ensures r == xs[..if n <= |xs| then n else |xs|]
  {
    if n <= |xs| then xs[..n] else xs
  }

  /** Python's `xs[n:]` for `n >= 0`. */
  function Drop<T>(xs: seq<T>, n: nat): (r: seq<T>)
    ensures r == xs[if n <= |xs| then n else |xs|..]
  {
    if n <= |xs| then xs[n..] else []
  }

  predicate NoCarriageReturn(s: string) {
    forall i :: 0 <= i < |s| ==> s[i] != '\r'
  }

  /** What reading a file in text mode returns (`open(path, 'r')`,
      universal newlines): `\r\n` and a lone `\r` both become `\n`. */
  function ReadText(raw: string): (r: string)
    ensures NoCarriageReturn(r)
    decreases |raw|
  {
    if raw == [] then []
    else if raw[0] == '\r' && |raw| >= 2 && raw[1] == '\n' then "\n" + ReadText(raw[2..])
    else if raw[0] == '\r' then "\n" + ReadText(raw[1..])
    else [raw[0]] + ReadText(raw[1..])
  }

  /** A file without carriage returns reads back exactly as stored. */
  lemma {:induction false} ReadTextPlain(raw: string)
    requires NoCarriageReturn(raw)
    ensures ReadText(raw) == raw
    decreases |raw|
  {
    if raw != [] {
      ReadTextPlain(raw[1..]);
    }
  }
}
