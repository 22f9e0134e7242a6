/**
  Worked cases of the patch engine on one-line edits: a fragment that is
  one line of code, possibly after the blank line the generated text
  usually puts right after a marker. They show that the steps of a run do
  not commute, and what the fixed one-line trim does to a fragment that
  starts with two blank lines.
*/
module PatchScenarios {
  import opened Wrappers
  import opened Strings
  import opened TextLines
  import opened PatchEngine
  import opened PatchProperties

  /** One line of code: it starts with a non-space character, and its only
      line break is the final `\n`. */
  predicate CodeLine(x: string) {
    && x != [] && x[|x| - 1] == '\n' && !IsSpace(x[0])
    && forall j :: 0 <= j < |x| - 1 ==> !IsLineBreak(x[j])
  }

  /** A fragment holding the one line `x`, directly after the marker or
      after one blank line. */
  predicate OneLineFragment(fragment: string, x: string) {
    CodeLine(x) && (fragment == x || fragment == "\n" + x)
  }

  lemma {:induction false} CodeLineCount(x: string)
    requires CodeLine(x)
    ensures Count(x, '\n') == 1 && OnlyNewlineBreaks(x)
  {
    var body := x[..|x| - 1];
    assert x == body + "\n";
    CountAppend(body, "\n", '\n');
    assert forall j :: 0 <= j < |body| ==> body[j] == x[j];
    CountNone(body, '\n');
    OnlyNewlineBreaksAt(x);
  }

  /** What the engine sees of a one-line fragment: the search text is the
      line, and so are the trimmed lines. */
  lemma {:induction false} OneLineFragmentFacts(fragment: string, x: string)
    requires OneLineFragment(fragment, x)
    ensures LStrip(fragment) == x && FragmentLines(fragment) == [x]
    ensures !IsBlank(fragment) && EndsWith(x, "\n") && Count(x, '\n') == 1
  {
    LinesSingle(x);
    BlankIffAllSpace(x);
    if fragment != x {
      assert fragment[1..] == x;
      LinesSingle("\n");
      LinesAppend("\n", x);
      assert Strip("\n") == [];
    }
    BlankIffAllSpace(fragment);
    CodeLineCount(x);
  }

  /** A one-line edit whose line starts the file replaces that first line. */
  lemma {:induction false} FirstLineReplaced(content: string, original: string, x: string, updated: string, y: string)
    requires OnlyNewlineBreaks(content) && StartsWith(content, x)
    requires OneLineFragment(original, x) && OneLineFragment(updated, y)
    ensures var r := ApplyEdit(content, original, updated);
      r.mode == Exact && Concat(r.lines) == y + content[|x|..]
  {
    OneLineFragmentFacts(original, x);
    OneLineFragmentFacts(updated, y);
    assert content[0..|x|] == content[..|x|];
    FindAt(content, x, 0);
    SpliceReplacesMatchedLines(content, original, updated, 0);
    ConcatCons(y, []);
    assert content[..LineStart(content, 0)] + Concat([y]) == y;
  }

  /** A one-line edit whose line is absent appends the updated line. */
  lemma {:induction false} MissingLineAppended(content: string, original: string, x: string, updated: string, y: string)
    requires OneLineFragment(original, x) && OneLineFragment(updated, y)
    requires content != [] && forall j :: 0 <= j < |content| ==> content[j] != x[0]
    ensures var r := ApplyEdit(content, original, updated);
      r.mode == NotFound && Concat(r.lines) == content + y
  {
    OneLineFragmentFacts(original, x);
    OneLineFragmentFacts(updated, y);
    FindAbsent(content, x);
    ApplyEditModes(content, original, updated);
    ConcatCons(y, []);
  }

  /** A step that edits a file that exists, with a well-formed edit block. */
  lemma {:induction false} EditStep(files: map<string, string>, chunk: string, step: nat, path: string, block: EditBlock)
    requires TargetPath(chunk) == Some(path) && path in files
    requires ParseEditBlock(chunk) == Some(block)
    ensures ApplyChunk(files, chunk, step) == PatchRun(
      files[path := Concat(ApplyEdit(ReadText(files[path]), block.original, block.updated).lines)],
      if ApplyEdit(ReadText(files[path]), block.original, block.updated).mode == NotFound
      then [OriginalNotFound(step)] else [],
      false)
  {
    ApplyChunkExisting(files, chunk, step, path);
  }

  /** The run of two steps is the second applied to what the first left. */
  lemma {:induction false} TwoSteps(files: map<string, string>, c1: string, c2: string)
    ensures Patch(files, [c1, c2]) == StepOn(StepOn(PatchRun(files, [], false), c1, 1), c2, 2)
  {
    var cs := [c1, c2];
    assert cs[..1] == [c1] && cs[..1][..0] == [];
    assert Patch(files, cs[..1][..0]) == PatchRun(files, [], false);
    assert Patch(files, cs[..1]) == StepOn(PatchRun(files, [], false), c1, 1);
  }

  /** A file holding the one line `ch`, and the fragments of an edit of it. */
  lemma {:induction false} LetterLine(ch: char)
    requires 'a' <= ch <= 'z'
    ensures OneLineFragment(['\n', ch, '\n'], [ch, '\n'])
  {
    assert ['\n', ch, '\n'] == "\n" + [ch, '\n'];
  }

  /** Lines of code have no carriage return and no other line break. */
  lemma {:induction false} CodeLinesPlain(x: string, z: string)
    requires CodeLine(x) && CodeLine(z)
    ensures NoCarriageReturn(x) && OnlyNewlineBreaks(x)
    ensures NoCarriageReturn(x + z) && OnlyNewlineBreaks(x + z)
  {
    OnlyNewlineBreaksAt(x);
    OnlyNewlineBreaksAt(x + z);
    forall j | 0 <= j < |x + z|
      ensures (x + z)[j] != '\r' && (IsLineBreak((x + z)[j]) ==> (x + z)[j] == '\n')
    {
      if j >= |x| {
        assert (x + z)[j] == z[j - |x|];
      }
    }
  }

  /** Two steps that both complete: the files after them. */
  lemma {:induction false} TwoStepFiles(files: map<string, string>, c1: string, c2: string)
    requires !ApplyChunk(files, c1, 1).aborted
    ensures Patch(files, [c1, c2]).files == ApplyChunk(ApplyChunk(files, c1, 1).files, c2, 2).files
  {
    TwoSteps(files, c1, c2);
  }

  /** x -> y, then y -> z, on a file holding the line x. */
  lemma {:induction false} ForwardOrder(files: map<string, string>, path: string, c1: string, c2: string,
                     ox: string, x: string, oy: string, y: string, oz: string, z: string)
    requires OneLineFragment(ox, x) && OneLineFragment(oy, y) && OneLineFragment(oz, z)
    requires path in files && files[path] == x
    requires TargetPath(c1) == Some(path) && ParseEditBlock(c1) == Some(EditBlock(ox, oy))
    requires TargetPath(c2) == Some(path) && ParseEditBlock(c2) == Some(EditBlock(oy, oz))
    ensures Patch(files, [c1, c2]).files == files[path := z]
  {
    CodeLinesPlain(x, z);
    CodeLinesPlain(y, z);
    assert x[..|x|] == x && x[|x|..] == [] && y + [] == y;
    FirstEdit(files, path, c1, 1, ox, x, oy, y);
    var f1 := files[path := y];
    assert y[..|y|] == y && y[|y|..] == [] && z + [] == z;
    FirstEdit(f1, path, c2, 2, oy, y, oz, z);
    TwoStepFiles(files, c1, c2);
    UpdateBoth(files, path, y, z);
  }

  /** y -> z, then x -> y, on a file holding the line x, where y does not
      occur. */
  lemma {:induction false} ReverseOrder(files: map<string, string>, path: string, c1: string, c2: string,
                     ox: string, x: string, oy: string, y: string, oz: string, z: string)
    requires OneLineFragment(ox, x) && OneLineFragment(oy, y) && OneLineFragment(oz, z)
    requires forall j :: 0 <= j < |x| ==> x[j] != y[0]
    requires path in files && files[path] == x
    requires TargetPath(c1) == Some(path) && ParseEditBlock(c1) == Some(EditBlock(ox, oy))
    requires TargetPath(c2) == Some(path) && ParseEditBlock(c2) == Some(EditBlock(oy, oz))
    ensures Patch(files, [c2, c1]).files == files[path := y + z]
  {
    CodeLinesPlain(x, z);
    MissingEdit(files, path, c2, 1, oy, y, oz, z);
    var f2 := files[path := x + z];
    assert (x + z)[..|x|] == x && (x + z)[|x|..] == z;
    FirstEdit(f2, path, c1, 2, ox, x, oy, y);
    TwoStepFiles(files, c2, c1);
    UpdateBoth(files, path, x + z, y + z);
  }

  /** A step whose one-line edit matches the first line of its file. */
  lemma {:induction false} FirstEdit(files: map<string, string>, path: string, chunk: string, step: nat,
                  original: string, x: string, updated: string, y: string)
    requires path in files && OneLineFragment(original, x) && OneLineFragment(updated, y)
    requires TargetPath(chunk) == Some(path) && ParseEditBlock(chunk) == Some(EditBlock(original, updated))
    requires StartsWith(files[path], x) && NoCarriageReturn(files[path]) && OnlyNewlineBreaks(files[path])
    ensures !ApplyChunk(files, chunk, step).aborted
    ensures ApplyChunk(files, chunk, step).files == files[path := y + files[path][|x|..]]
  {
    ReadTextPlain(files[path]);
    FirstLineReplaced(files[path], original, x, updated, y);
    EditStep(files, chunk, step, path, EditBlock(original, updated));
  }

  /** A step whose one-line edit finds nothing in its file. */
  lemma {:induction false} MissingEdit(files: map<string, string>, path: string, chunk: string, step: nat,
                    original: string, x: string, updated: string, y: string)
    requires path in files && OneLineFragment(original, x) && OneLineFragment(updated, y)
    requires TargetPath(chunk) == Some(path) && ParseEditBlock(chunk) == Some(EditBlock(original, updated))
    requires files[path] != [] && NoCarriageReturn(files[path])
    requires forall j :: 0 <= j < |files[path]| ==> files[path][j] != x[0]
    ensures !ApplyChunk(files, chunk, step).aborted
    ensures ApplyChunk(files, chunk, step).files == files[path := files[path] + y]
  {
    ReadTextPlain(files[path]);
    MissingLineAppended(files[path], original, x, updated, y);
    EditStep(files, chunk, step, path, EditBlock(original, updated));
  }

  lemma {:induction false} LetterFacts()
    ensures OneLineFragment("\na\n", "a\n") && OneLineFragment("\nb\n", "b\n") && OneLineFragment("\nc\n", "c\n")
    ensures forall j :: 0 <= j < |"a\n"| ==> "a\n"[j] != "b\n"[0]
    ensures "b\n" + "c\n" == "b\nc\n"
  {
    LetterLine('a');
    LetterLine('b');
    LetterLine('c');
  }

  /**
    The same two steps in the two orders do not give the same file. On a
    file holding `a`, the edit a -> b followed by b -> c leaves `c`; in the
    other order b -> c finds nothing and appends `c`, and then a -> b gives
    `b` and `c`.
  */
  lemma {:induction false} StepOrderMatters(files: map<string, string>, path: string, c1: string, c2: string)
    requires path in files && files[path] == "a\n"
    requires TargetPath(c1) == Some(path) && ParseEditBlock(c1) == Some(EditBlock("\na\n", "\nb\n"))
    requires TargetPath(c2) == Some(path) && ParseEditBlock(c2) == Some(EditBlock("\nb\n", "\nc\n"))
    ensures Patch(files, [c1, c2]).files == files[path := "c\n"]
    ensures Patch(files, [c2, c1]).files == files[path := "b\nc\n"]
  {
    LetterFacts();
    ForwardOrder(files, path, c1, c2, "\na\n", "a\n", "\nb\n", "b\n", "\nc\n", "c\n");
    ReverseOrder(files, path, c1, c2, "\na\n", "a\n", "\nb\n", "b\n", "\nc\n", "c\n");
  }

  // ---------------------------------------------------------------------
  // A fragment that starts with two blank lines
  // ---------------------------------------------------------------------

  /** Only the first of two leading blank lines is trimmed, but the search
      text drops both: the trimmed original is one line longer than the
      text it matches. */
  lemma {:induction false} TwoBlankFragment(x: string)
    requires CodeLine(x)
    ensures LStrip("\n\n" + x) == x
    ensures FragmentLines("\n\n" + x) == ["\n", x]
    ensures !IsBlank("\n\n" + x)
  {
    var o := "\n\n" + x;
    assert o[1..] == "\n" + x && o[1..][1..] == x;
    LinesSingle("\n");
    LinesSingle(x);
    LinesAppend("\n", x);
    assert o == "\n" + ("\n" + x);
    LinesAppend("\n", "\n" + x);
    assert Strip("\n") == [];
    BlankIffAllSpace(x);
    BlankIffAllSpace(o);
  }

  /**
    The consequence: when the original fragment is a line `x` after two
    blank lines, the edit replaces the line `x` AND the line after it, so
    that line is lost from the file.
  */
  lemma {:induction false} TwoBlankLinesDropNextLine(p: string, x: string, q: string, updated: string)
    requires OnlyNewlineBreaks(p) && (p == [] || p[|p| - 1] == '\n') && CodeLine(x)
    requires Find(p + x + q, x) == Some(|p|)
    ensures ApplyEdit(p + x + q, "\n\n" + x, updated).mode == Exact
    ensures Concat(ApplyEdit(p + x + q, "\n\n" + x, updated).lines)
      == p + Concat(FragmentLines(updated)) + Concat(Drop(Lines(q), 1))
  {
    TwoBlankFragment(x);
    OneLineLongerMatch(p, x, q, "\n\n" + x, updated);
  }

  /** The same for any original fragment that trims to a blank line and
      `x` and strips to `x`. */
  lemma {:induction false} OneLineLongerMatch(p: string, x: string, q: string, original: string, updated: string)
    requires OnlyNewlineBreaks(p) && (p == [] || p[|p| - 1] == '\n') && CodeLine(x)
    requires Find(p + x + q, x) == Some(|p|)
    requires LStrip(original) == x && !IsBlank(original) && |FragmentLines(original)| == 2
    ensures ApplyEdit(p + x + q, original, updated).mode == Exact
    ensures Concat(ApplyEdit(p + x + q, original, updated).lines)
      == p + Concat(FragmentLines(updated)) + Concat(Drop(Lines(q), 1))
  {
    var content := p + x + q;
    assert content != [] by {
      assert |content| >= |x|;
    }
    var n := CountPrefix(content, '\n', |p|);
    var L, U := Lines(content), FragmentLines(updated);
    LinesAroundLine(p, x, q);
    ConcatLines(p);
    SpliceTwo(L, Lines(p), x, Lines(q), U, n, p);
    ExactEditText(content, original, updated, |p|, 2, p + Concat(U) + Concat(Drop(Lines(q), 1)));
  }

  /** The lines of a text with the line `x` after whole lines `p`. */
  lemma {:induction false} LinesAroundLine(p: string, x: string, q: string)
    requires OnlyNewlineBreaks(p) && (p == [] || p[|p| - 1] == '\n') && CodeLine(x)
    ensures Lines(p + x + q) == Lines(p) + [x] + Lines(q)
    ensures CountPrefix(p + x + q, '\n', |p|) == |Lines(p)|
  {
    LinesAfterLine(x, q);
    LinesAfterWhole(p, x + q, [x] + Lines(q));
    CountBeforeLine(p, x + q);
    assert p + x + q == p + (x + q);
  }

  lemma {:induction false} LinesAfterLine(x: string, q: string)
    requires CodeLine(x)
    ensures Lines(x + q) == [x] + Lines(q)
  {
    LinesSingle(x);
    LinesAppend(x, q);
  }

  lemma {:induction false} LinesAfterWhole(p: string, t: string, L: seq<string>)
    requires (p == [] || p[|p| - 1] == '\n') && Lines(t) == L
    ensures Lines(p + t) == Lines(p) + L
  {
    LinesAppend(p, t);
  }

  lemma {:induction false} CountBeforeLine(p: string, t: string)
    requires OnlyNewlineBreaks(p) && (p == [] || p[|p| - 1] == '\n')
    ensures CountPrefix(p + t, '\n', |p|) == |Lines(p)|
  {
    assert (p + t)[..|p|] == p;
    LinesCount(p);
  }

  /** Splicing two lines out from a given line on. */
  lemma {:induction false} SpliceTwo(L: seq<string>, A: seq<string>, x: string, R: seq<string>, U: seq<string>,
                  start: nat, before: string)
    requires L == A + [x] + R && |A| == start && Concat(A) == before
    ensures Concat(Splice(L, start, 2, U)) == before + Concat(U) + Concat(Drop(R, 1))
  {
    assert Take(L, |A|) == A;
    assert Drop(L, |A| + 2) == Drop(R, 1);
    ConcatAppend(A + U, Drop(R, 1));
    ConcatAppend(A, U);
  }

  /** On a file of three lines `p x q`, replacing `x` given after two blank
      lines by the line `y` leaves `p y`: the line `q` is gone. */
  lemma {:induction false} TwoBlankLinesThreeLines(p: string, x: string, q: string, y: string)
    requires CodeLine(p) && CodeLine(x) && CodeLine(q) && CodeLine(y)
    requires forall j :: 0 <= j < |p| ==> p[j] != x[0]
    ensures Concat(ApplyEdit(p + x + q, "\n\n" + x, y).lines) == p + y
  {
    CodeLineCount(p);
    FindAt(p + x + q, x, |p|);
    TwoBlankLinesDropNextLine(p, x, q, y);
    LinesSingle(q);
    OneLineFragmentFacts(y, y);
    ConcatCons(y, []);
  }

  lemma {:induction false} ExampleFacts()
    ensures CodeLine("a\n") && CodeLine("b\n") && CodeLine("c\n") && CodeLine("X\n")
    ensures forall j :: 0 <= j < |"a\n"| ==> "a\n"[j] != "b\n"[0]
    ensures "a\nb\nc\n" == "a\n" + "b\n" + "c\n" && "\n\nb\n" == "\n\n" + "b\n"
    ensures "a\n" + "X\n" == "a\nX\n"
  {
  }

  /** On the file `a b c`, replacing `b` given after two blank lines by `X`
      leaves `a X`: the line `c` is gone. */
  lemma {:induction false} TwoBlankLinesExample()
    ensures Concat(ApplyEdit("a\nb\nc\n", "\n\nb\n", "X\n").lines) == "a\nX\n"
  {
    ExampleFacts();
    TwoBlankLinesThreeLines("a\n", "b\n", "c\n", "X\n");
  }
}
