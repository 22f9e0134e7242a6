/**
  Properties of the patch engine: what a splice does to the text, which
  files a run may touch, that text before the first step is ignored, and
  that the order of steps matters.
*/
module PatchProperties {
  import opened Wrappers
  import opened Strings
  import opened TextLines
  import opened PatchEngine

  // ---------------------------------------------------------------------
  // The splice, at the level of characters
  // ---------------------------------------------------------------------

  lemma {:induction false} OnlyNewlineBreaksSlice(s: string, a: nat, b: nat)
    requires OnlyNewlineBreaks(s) && a <= b <= |s|
    ensures OnlyNewlineBreaks(s[a..b])
  {
    OnlyNewlineBreaksAt(s);
    OnlyNewlineBreaksAt(s[a..b]);
    forall k | 0 <= k < b - a
      ensures IsLineBreak(s[a..b][k]) ==> s[a..b][k] == '\n'
    {
      assert s[a..b][k] == s[a + k];
    }
  }

  /** Lines of a text split at a line boundary. */
  lemma {:induction false} LinesSplitAt(s: string, m: nat)
    requires m <= |s| && (m == 0 || s[m - 1] == '\n')
    ensures Lines(s) == Lines(s[..m]) + Lines(s[m..])
  {
    assert s == s[..m] + s[m..];
    LinesAppend(s[..m], s[m..]);
  }

  /** With `\n` as the only line break, the number of lines before index
      `m`, a line boundary, is the number of `\n` before it. */
  lemma {:induction false} LineCountAt(s: string, m: nat)
    requires OnlyNewlineBreaks(s)
    requires m <= |s| && (m == 0 || s[m - 1] == '\n')
    ensures |Lines(s[..m])| == Count(s[..m], '\n')
  {
    OnlyNewlineBreaksSlice(s, 0, m);
    assert s[..m] == s[0..m];
    LinesCount(s[..m]);
  }

  /** The number of `\n` before index `i` is the number before the start of
      its line. */
  lemma {:induction false} CountToLineStart(s: string, i: nat)
    requires i <= |s|
    ensures Count(s[..i], '\n') == Count(s[..LineStart(s, i)], '\n')
  {
    var ls := LineStart(s, i);
    assert s[..i] == s[..ls] + s[ls..i];
    CountAppend(s[..ls], s[ls..i], '\n');
    CountNone(s[ls..i], '\n');
  }

  /** Lines of a text cut at two line boundaries. */
  lemma {:induction false} LinesThree(s: string, a: nat, b: nat)
    requires a <= b <= |s|
    requires a == 0 || s[a - 1] == '\n'
    requires b == 0 || s[b - 1] == '\n'
    ensures Lines(s) == Lines(s[..a]) + Lines(s[a..b]) + Lines(s[b..])
  {
    LinesSplitAt(s, a);
    var rest := s[a..];
    assert rest[..b - a] == s[a..b];
    assert rest[b - a..] == s[b..];
    if b > a {
      assert rest[b - a - 1] == s[b - 1];
    }
    LinesSplitAt(rest, b - a);
  }

  /** The stretch from the start of the match's line to its end holds as
      many `\n` as the matched text. */
  lemma {:induction false} CountCovered(content: string, S: string, i: nat)
    requires OccursAt(S, content, i)
    ensures Count(content[LineStart(content, i)..i + |S|], '\n') == Count(S, '\n')
  {
    var ls := LineStart(content, i);
    assert content[ls..i + |S|] == content[ls..i] + S;
    CountAppend(content[ls..i], S, '\n');
    CountNone(content[ls..i], '\n');
  }

  /** `S` occurs at `i` in a text whose only line break is `\n`, and ends a line. */
  predicate LineBlockAt(content: string, S: string, i: nat) {
    OnlyNewlineBreaks(content) && OccursAt(S, content, i) && S != [] && S[|S| - 1] == '\n'
  }

  /** The text a match at `i` covers, with the start of its first line,
      splits the lines in three. */
  lemma {:induction false} LinesAroundMatch(content: string, S: string, i: nat)
    requires LineBlockAt(content, S, i)
    ensures var ls, e := LineStart(content, i), i + |S|;
      && Lines(content) == Lines(content[..ls]) + Lines(content[ls..e]) + Lines(content[e..])
      && |Lines(content[..ls])| == CountPrefix(content, '\n', i)
      && |Lines(content[ls..e])| == Count(S, '\n')
  {
    var ls, e := LineStart(content, i), i + |S|;
    assert content[e - 1] == content[i..e][|S| - 1];
    LinesThree(content, ls, e);
    CountToLineStart(content, i);
    LineCountAt(content, ls);
    CountCovered(content, S, i);
    OnlyNewlineBreaksSlice(content, ls, e);
    LinesCount(content[ls..e]);
  }

  /** Splicing out the middle of three runs of lines. */
  lemma {:induction false} SpliceMiddle(L: seq<string>, A: seq<string>, B: seq<string>, R: seq<string>, U: seq<string>,
                     start: nat, count: nat, before: string, after: string)
    requires L == A + B + R && |A| == start && |B| == count
    requires Concat(A) == before && Concat(R) == after
    ensures Concat(Splice(L, start, count, U)) == before + Concat(U) + after
  {
    assert Take(L, |A|) == A;
    assert Drop(L, |A| + |B|) == R;
    ConcatAppend(A + U, R);
    ConcatAppend(A, U);
  }

  /** Splicing the lines a match covers, in terms of characters. */
  lemma {:induction false} SpliceText(content: string, S: string, i: nat, n: nat, U: seq<string>)
    requires LineBlockAt(content, S, i)
    requires n == Count(S, '\n')
    ensures Concat(Splice(Lines(content), CountPrefix(content, '\n', i), n, U))
        == content[..LineStart(content, i)] + Concat(U) + content[i + |S|..]
  {
    var ls, e := LineStart(content, i), i + |S|;
    var before, after := content[..ls], content[e..];
    var start, count := CountPrefix(content, '\n', i), Count(S, '\n');
    var A, B, R := Lines(before), Lines(content[ls..e]), Lines(after);
    LinesAroundMatch(content, S, i);
    assert Lines(content) == A + B + R && |A| == start && |B| == count;
    ConcatLines(before);
    ConcatLines(after);
    SpliceMiddle(Lines(content), A, B, R, U, start, count, before, after);
  }

  /** The branch `ApplyEdit` takes when the stripped original occurs. */
  lemma {:induction false} ApplyEditExact(content: string, original: string, updated: string, i: nat)
    requires content != [] && !IsBlank(original)
    requires Find(content, LStrip(original)) == Some(i)
    ensures i <= |content|
    ensures ApplyEdit(content, original, updated) == EditResult(SpliceMatch(content, original, updated, i), Exact)
  {
  }

  /** The exact branch in terms of text: whatever the spliced lines of the
      match at `i` join to is what the edited file joins to. */
  lemma {:induction false} ExactEditText(content: string, original: string, updated: string, i: nat, m: nat, t: string)
    requires content != [] && !IsBlank(original) && Find(content, LStrip(original)) == Some(i)
    requires |FragmentLines(original)| == m
    requires Concat(Splice(Lines(content), CountPrefix(content, '\n', i), m, FragmentLines(updated))) == t
    ensures ApplyEdit(content, original, updated).mode == Exact
    ensures Concat(ApplyEdit(content, original, updated).lines) == t
  {
    ApplyEditExact(content, original, updated, i);
    SpliceMatchConcat(content, original, updated, i, m, t);
  }

  lemma {:induction false} SpliceMatchConcat(content: string, original: string, updated: string, i: nat, m: nat, t: string)
    requires i <= |content| && |FragmentLines(original)| == m
    requires Concat(Splice(Lines(content), CountPrefix(content, '\n', i), m, FragmentLines(updated))) == t
    ensures Concat(SpliceMatch(content, original, updated, i)) == t
  {
  }

  /** The exact branch: when the stripped original first occurs at `i`,
      the lines from the one holding `i`, as many as the trimmed original
      has, give way to the trimmed updated fragment, and the text around
      them is kept. */
  lemma {:induction false} SpliceReplacesMatchedLines(content: string, original: string, updated: string, i: nat)
    requires OnlyNewlineBreaks(content)
    requires !IsBlank(original) && Find(content, LStrip(original)) == Some(i)
    requires EndsWith(LStrip(original), "\n")
    requires |FragmentLines(original)| == Count(LStrip(original), '\n')
    ensures ApplyEdit(content, original, updated).mode == Exact
    ensures Concat(ApplyEdit(content, original, updated).lines)
      == content[..LineStart(content, i)] + Concat(FragmentLines(updated)) + content[i + |LStrip(original)|..]
  {
    var n := |FragmentLines(original)|;
    MatchIsLineBlock(content, LStrip(original), i);
    SpliceText(content, LStrip(original), i, n, FragmentLines(updated));
    ExactEditText(content, original, updated, i, n,
      content[..LineStart(content, i)] + Concat(FragmentLines(updated)) + content[i + |LStrip(original)|..]);
  }

  lemma {:induction false} MatchIsLineBlock(content: string, S: string, i: nat)
    requires OnlyNewlineBreaks(content) && Find(content, S) == Some(i) && EndsWith(S, "\n")
    ensures LineBlockAt(content, S, i)
  {
    assert S[|S| - 1] == S[|S| - 1..][0];
  }


  // ---------------------------------------------------------------------
  // Text before the first step
  // ---------------------------------------------------------------------

  /** Whatever precedes the first `Step ` is not a step; without any
      `Step ` there are no steps at all. */
  lemma {:induction false} PreambleIgnored(generated: string)
    ensures Find(generated, StepToken).None? ==> StepChunks(generated) == []
    ensures Find(generated, StepToken).Some? ==>
      StepChunks(generated) == Split(generated[Find(generated, StepToken).value + |StepToken|..], StepToken)
  {
    SplitAtFind(generated, StepToken);
  }

  /** Changing the text before the first `Step ` changes no step. */
  lemma {:induction false} PreambleIrrelevant(preamble: string, rest: string)
    requires Find(preamble, StepToken).None? && StartsWith(rest, StepToken)
    ensures StepChunks(preamble + rest) == StepChunks(rest)
  {
    PreambleIgnored(preamble + rest);
    PreambleIgnored(rest);
    FindPastPreamble(preamble, rest);
    assert (preamble + rest)[|preamble| + |StepToken|..] == rest[|StepToken|..];
  }

  /** The first `Step ` of `preamble + rest` is the one `rest` starts with:
      none lies in `preamble`, and none straddles the two, because `Step `
      has its only `S` at its start. */
  lemma {:induction false} FindPastPreamble(preamble: string, rest: string)
    requires Find(preamble, StepToken).None? && StartsWith(rest, StepToken)
    ensures Find(preamble + rest, StepToken) == Some(|preamble|)
    ensures Find(rest, StepToken) == Some(0)
  {
    var s, n := preamble + rest, |preamble|;
    assert s[n..n + |StepToken|] == rest[..|StepToken|];
    forall j | 0 <= j < n
      ensures !OccursAt(StepToken, s, j)
    {
      if j + |StepToken| <= n {
        assert s[j..j + |StepToken|] == preamble[j..j + |StepToken|];
        assert !OccursAt(StepToken, preamble, j);
      } else if j + |StepToken| <= |s| {
        assert s[j..j + |StepToken|][n - j] == s[n] == rest[0] == 'S';
      }
    }
    assert OccursAt(StepToken, s, n);
    assert OccursAt(StepToken, rest, 0);
  }

  // ---------------------------------------------------------------------
  // Which files a run may touch
  // ---------------------------------------------------------------------

  /** The paths named by the chunks that have one. */
  function Targets(chunks: seq<string>): set<string>
    decreases |chunks|
  {
    if chunks == [] then {}
    else
      var last := TargetPath(chunks[|chunks| - 1]);
      Targets(chunks[..|chunks| - 1]) + (if last.Some? then {last.value} else {})
  }

  /** A run leaves every file that no step names as it was, and creates no
      file that no step names. */
  lemma {:induction false} PatchFrame(files: map<string, string>, chunks: seq<string>, path: string)
    requires path !in Targets(chunks)
    ensures path in Patch(files, chunks).files <==> path in files
    ensures path in files ==> Patch(files, chunks).files[path] == files[path]
    decreases |chunks|
  {
    if chunks != [] {
      var init, chunk := chunks[..|chunks| - 1], chunks[|chunks| - 1];
      PatchFrame(files, init, path);
      var run := Patch(files, init);
      if !run.aborted {
        var target := TargetPath(chunk);
        if target.Some? {
          ApplyChunkEffect(run.files, chunk, |chunks|, target.value);
        }
      }
    }
  }

  /** Every file after a run was there before or is named by a step. */
  lemma {:induction false} PatchKeys(files: map<string, string>, chunks: seq<string>)
    ensures Patch(files, chunks).files.Keys <= files.Keys + Targets(chunks)
  {
    forall path | path in Patch(files, chunks).files
      ensures path in files.Keys + Targets(chunks)
    {
      if path !in Targets(chunks) {
        PatchFrame(files, chunks, path);
      }
    }
  }

  /** A step whose edit block lacks its markers reports it and leaves its
      existing target as it was; the run goes on. */
  lemma {:induction false} InvalidStepSkipped(files: map<string, string>, chunk: string, step: nat, path: string)
    requires TargetPath(chunk) == Some(path) && path in files && ParseEditBlock(chunk).None?
    ensures ApplyChunk(files, chunk, step) == PatchRun(files, [InvalidFormat(step)], false)
  {
    ApplyChunkExisting(files, chunk, step, path);
    UpdateBoth(files, path, files[path], files[path]);
  }
}
