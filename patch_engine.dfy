/**
  The edit-block patch engine of `flask_app/utils/code_change_handler.py`.

  Generated code is a sequence of steps, each of the form

      Step <n>:
      <file path>
      <<<<<<< ORIGINAL
      <lines to find>
      =======
      <lines to put in their place>
      >>>>>>> UPDATED

  The text is cut at every `Step `; everything before the first cut is
  ignored, and the k-th chunk after it is step k. Steps run in order, each
  against the files as the earlier steps left them. The file system is a
  map from path to stored text.
*/
module PatchEngine {
  import opened Wrappers
  import opened Strings
  import opened TextLines

  const StepToken := "Step "
  const OriginalMarker := "<<<<<<< ORIGINAL"
  const Divider := "======="
  const UpdatedMarker := ">>>>>>> UPDATED"
  /** The alternatives of the regular expression the chunk is split on. */
  const Markers := [OriginalMarker, Divider, UpdatedMarker]

  /** How a step's edit was applied. `NewFile` covers every file that was
      empty when read, whether the step created it or not. */
  datatype MatchMode = NewFile | Appended | Exact | NotFound

  datatype EditResult = EditResult(lines: seq<string>, mode: MatchMode)

  datatype EditBlock = EditBlock(original: string, updated: string)

  /** What the engine reports on the notification channel. */
  datatype Diagnostic =
    | Created(step: nat, baseName: string)   // the target did not exist
    | InvalidFormat(step: nat)               // fewer than three marker parts
    | OriginalNotFound(step: nat)            // fell back to appending

  /** The files, the diagnostics emitted, and whether an exception ended the run. */
  datatype PatchRun = PatchRun(files: map<string, string>, log: seq<Diagnostic>, aborted: bool)

  // ---------------------------------------------------------------------
  // Parsing one step
  // ---------------------------------------------------------------------

  /** The step chunks: the pieces after the first `Step `. */
  function StepChunks(generated: string): seq<string> {
    Split(generated, StepToken)[1..]
  }

  /** The file path: the chunk's second line, stripped. `None` where the
      source's `split('\n')[1]` raises IndexError. */
  function TargetPath(chunk: string): (r: Option<string>)
    ensures r.None? <==> |Split(chunk, "\n")| < 2
  {
    var lines := Split(chunk, "\n");
    if |lines| < 2 then None else Some(Strip(lines[1]))
  }

  /** A missing file can be created only when its path names a directory
      (`os.makedirs('')` raises) and a file name (`open('dir/', 'w')` raises). */
  predicate CanCreate(path: string) {
    '/' in path && Basename(path) != []
  }

  /** The original and updated fragments: the second and third parts of the
      split on the three markers; `None` when there are fewer than three. */
  function ParseEditBlock(chunk: string): (r: Option<EditBlock>)
    ensures r.None? <==> |SplitAny(chunk, Markers)| < 3
  {
    var parts := SplitAny(chunk, Markers);
    if |parts| < 3 then None else Some(EditBlock(parts[1], parts[2]))
  }

  /** Drops the first line when it is blank; never more than that one line. */
  function TrimLeadingBlank(lines: seq<string>): (r: seq<string>)
    ensures r == lines || (lines != [] && r == lines[1..])
    ensures r != lines <==> lines != [] && IsBlank(lines[0])
  {
    if lines != [] && IsBlank(lines[0]) then lines[1..] else lines
  }

  function FragmentLines(fragment: string): seq<string> {
    TrimLeadingBlank(Lines(fragment))
  }

  // ---------------------------------------------------------------------
  // Applying one edit to the text of one file
  // ---------------------------------------------------------------------

  /** `lines[start:start + count] = replacement`, on a copy. */
  function Splice(lines: seq<string>, start: nat, count: nat, replacement: seq<string>): seq<string> {
    Take(lines, start) + replacement + Drop(lines, start + count)
  }

  /** The new lines when `LStrip(original)` first occurs at `startIndex`:
      the line holding that index is line `CountPrefix(content, '\n',
      startIndex)`, and as many lines as the trimmed original fragment has,
      from that one on, give way to the trimmed updated fragment. */
  function SpliceMatch(content: string, original: string, updated: string, startIndex: nat): seq<string>
    requires startIndex <= |content|
  {
    var startLine := CountPrefix(content, '\n', startIndex);
    Splice(Lines(content), startLine, |FragmentLines(original)|, FragmentLines(updated))
  }

  /** The file's new lines, given its text when read and the two fragments. */
  function ApplyEdit(content: string, original: string, updated: string): EditResult {
    if content == [] then
      EditResult(FragmentLines(updated), NewFile)
    else if IsBlank(original) then
      EditResult(Lines(content) + FragmentLines(updated), Appended)
    else match Find(content, LStrip(original))
      case Some(startIndex) => EditResult(SpliceMatch(content, original, updated, startIndex), Exact)
      case None => EditResult(Lines(content) + FragmentLines(updated), NotFound)
  }

  /** Which branch an edit takes, and that both fall-back branches append
      the updated fragment to the text as it was. */
  lemma {:induction false} ApplyEditModes(content: string, original: string, updated: string)
    ensures var r := ApplyEdit(content, original, updated);
      && (content == [] ==> r.mode == NewFile && r.lines == FragmentLines(updated))
      && (r.mode == Appended <==> content != [] && IsBlank(original))
      && (r.mode == NotFound <==>
            content != [] && !IsBlank(original) && !Contains(content, LStrip(original)))
      && (r.mode == Exact <==>
            content != [] && !IsBlank(original) && Contains(content, LStrip(original)))
      && (r.mode == Appended || r.mode == NotFound ==>
            Concat(r.lines) == content + Concat(FragmentLines(updated)))
  {
    ConcatLines(content);
    ConcatAppend(Lines(content), FragmentLines(updated));
  }

  // ---------------------------------------------------------------------
  // One step against the file system, and the whole run
  // ---------------------------------------------------------------------

  /** The effect of step number `step`, whose text is `chunk`, on `files`. */
  function ApplyChunk(files: map<string, string>, chunk: string, step: nat): (r: PatchRun)
    ensures TargetPath(chunk).None? ==> r == PatchRun(files, [], true)
  {
    match TargetPath(chunk)
    case None => PatchRun(files, [], true)
    case Some(path) =>
      var notice := if path in files then [] else [Created(step, Basename(path))];
      if path !in files && !CanCreate(path) then PatchRun(files, notice, true)
      else
        var stored := if path in files then files[path] else [];
        var w := WriteChunk(stored, chunk, step);
        PatchRun(files[path := w.0], notice + w.1, false)
  }

  /** What a step writes to its existing target, whose stored text is
      `stored`, and the diagnostics it emits on the way. */
  function WriteChunk(stored: string, chunk: string, step: nat): (r: (string, seq<Diagnostic>))
    ensures ParseEditBlock(chunk).None? ==> r == (stored, [InvalidFormat(step)])
    ensures forall i :: 0 <= i < |r.1| ==> !r.1[i].Created?
  {
    match ParseEditBlock(chunk)
    case None => (stored, [InvalidFormat(step)])
    case Some(block) =>
      var edit := ApplyEdit(ReadText(stored), block.original, block.updated);
      (Concat(edit.lines), if edit.mode == NotFound then [OriginalNotFound(step)] else [])
  }

  /** What one step may change: only its target file, which it creates when
      missing; the run stops exactly when a missing target cannot be created. */
  lemma {:induction false} ApplyChunkEffect(files: map<string, string>, chunk: string, step: nat, path: string)
    requires TargetPath(chunk) == Some(path)
    ensures var r := ApplyChunk(files, chunk, step);
      && (r.aborted <==> path !in files && !CanCreate(path))
      && (r.aborted ==> r.files == files)
      && (!r.aborted ==> path in r.files && r.files == files[path := r.files[path]])
      && (path !in files ==> |r.log| > 0 && r.log[0] == Created(step, Basename(path)))
      && (path in files ==> forall i :: 0 <= i < |r.log| ==> !r.log[i].Created?)
      && (!r.aborted && ParseEditBlock(chunk).None? ==>
            r.files[path] == (if path in files then files[path] else [])
            && InvalidFormat(step) in r.log)
  {
    if !(path !in files && !CanCreate(path)) {
      var stored := if path in files then files[path] else [];
      var w := WriteChunk(stored, chunk, step);
      assert ApplyChunk(files, chunk, step).files == files[path := w.0];
    }
  }

  /** Runs step `step` after the earlier ones, unless an exception ended the run. */
  function StepOn(run: PatchRun, chunk: string, step: nat): PatchRun {
    if run.aborted then run
    else
      var r := ApplyChunk(run.files, chunk, step);
      PatchRun(r.files, run.log + r.log, r.aborted)
  }

  /** The run over `chunks`, the last of which is step `|chunks|`. */
  function Patch(files: map<string, string>, chunks: seq<string>): PatchRun
    decreases |chunks|
  {
    if chunks == [] then PatchRun(files, [], false)
    else StepOn(Patch(files, chunks[..|chunks| - 1]), chunks[|chunks| - 1], |chunks|)
  }

  /** The run of `implement_code_changes` over the generated code. */
  function ImplementCodeChangesSpec(files: map<string, string>, generatedCode: string): PatchRun {
    Patch(files, StepChunks(generatedCode))
  }

  // ---------------------------------------------------------------------
  // The file system object
  // ---------------------------------------------------------------------

  class Workspace {
    var files: map<string, string>
    var log: seq<Diagnostic>

    constructor (initial: map<string, string>)
      ensures files == initial && log == []
    {
      files := initial;
      log := [];
    }

    /** Applies every step of `generatedCode` in order. `completed` is false
        when an exception ended the run early; the steps before it stay applied. */
    method ImplementCodeChanges(generatedCode: string) returns (completed: bool)
      modifies this
      ensures var run := ImplementCodeChangesSpec(old(files), generatedCode);
        files == run.files && log == old(log) + run.log && completed == !run.aborted
    {
      var steps := Split(generatedCode, StepToken);
      var chunks := steps[1..];
      ghost var files0, log0 := files, log;
      var step := 1;
      while step <= |chunks|
        invariant 1 <= step <= |chunks| + 1
        invariant |log0| <= |log| && log[..|log0|] == log0
        invariant Patch(files0, chunks[..step - 1]) == PatchRun(files, log[|log0|..], false)
      {
        ghost var logBefore := log;
        PatchPrefix(files0, chunks, step);
        var ok := ApplyStep(chunks[step - 1], step);
        StepLog(log0, logBefore, log[|logBefore|..]);
        if !ok {
          PatchStopsAfterAbort(files0, chunks, step);
          completed := false;
          return;
        }
        step := step + 1;
      }
      assert chunks[..|chunks|] == chunks;
      completed := true;
    }

    /** One pass of the loop over the steps: `ok` is false where the step raises. */
    method ApplyStep(chunk: string, step: nat) returns (ok: bool)
      modifies this
      ensures var r := ApplyChunk(old(files), chunk, step);
        files == r.files && log == old(log) + r.log && ok == !r.aborted
    {
      var target := TargetPath(chunk);
      if target.None? {
        return false;
      }
      var path := target.value;
      if path in files {
        ApplyChunkExisting(files, chunk, step, path);
        WriteTarget(path, chunk, step);
        ok := true;
      } else {
        ApplyChunkMissing(files, chunk, step, path);
        ok := CreateTarget(path, chunk, step);
      }
    }

    /** A step whose target is missing: report it, create the file when the
        path allows (the run stops otherwise), then write it. */
    method CreateTarget(path: string, chunk: string, step: nat) returns (ok: bool)
      requires path !in files
      modifies this
      ensures var w := WriteChunk([], chunk, step);
        && ok == CanCreate(path)
        && files == (if ok then old(files)[path := w.0] else old(files))
        && log == old(log) + [Created(step, Basename(path))] + (if ok then w.1 else [])
    {
      log := log + [Created(step, Basename(path))];
      if !CanCreate(path) {
        return false;
      }
      ghost var files0 := files;
      files := files[path := []];
      WriteTarget(path, chunk, step);
      UpdateBoth(files0, path, [], WriteChunk([], chunk, step).0);
      return true;
    }

    /** The rest of a step once its target exists: read it, apply the edit
        block, write the new lines back. */
    method WriteTarget(path: string, chunk: string, step: nat)
      requires path in files
      modifies this
      ensures var w := WriteChunk(old(files)[path], chunk, step);
        files == old(files)[path := w.0] && log == old(log) + w.1
    {
      var stored := files[path];
      match ParseEditBlock(chunk) {
        case None =>
          log := log + [InvalidFormat(step)];
          UpdateBoth(files, path, [], stored);
        case Some(block) =>
          var edit := ApplyEdit(ReadText(stored), block.original, block.updated);
          if edit.mode == NotFound {
            log := log + [OriginalNotFound(step)];
          }
          files := files[path := Concat(edit.lines)];
      }
    }
  }

  /** The run over the first `n` chunks is the run over the first `n - 1`
      followed by step `n`. */
  lemma {:induction false} PatchPrefix(files: map<string, string>, chunks: seq<string>, n: nat)
    requires 1 <= n <= |chunks|
    ensures Patch(files, chunks[..n]) == StepOn(Patch(files, chunks[..n - 1]), chunks[n - 1], n)
  {
    assert chunks[..n][..n - 1] == chunks[..n - 1];
  }

  /** `ApplyChunk` on a target that exists. */
  lemma {:induction false} ApplyChunkExisting(files: map<string, string>, chunk: string, step: nat, path: string)
    requires TargetPath(chunk) == Some(path) && path in files
    ensures var w := WriteChunk(files[path], chunk, step);
      ApplyChunk(files, chunk, step) == PatchRun(files[path := w.0], w.1, false)
  {
  }

  /** `ApplyChunk` on a target that is missing. */
  lemma {:induction false} ApplyChunkMissing(files: map<string, string>, chunk: string, step: nat, path: string)
    requires TargetPath(chunk) == Some(path) && path !in files
    ensures var notice := [Created(step, Basename(path))];
      var w := WriteChunk([], chunk, step);
      ApplyChunk(files, chunk, step) ==
        if CanCreate(path) then PatchRun(files[path := w.0], notice + w.1, false)
        else PatchRun(files, notice, true)
  {
  }

  /** A key written twice holds the second value, and a key rewritten with
      its own value leaves the map as it was. */
  lemma {:induction false} UpdateBoth(m: map<string, string>, k: string, a: string, b: string)
    ensures m[k := a][k := b] == m[k := b]
    ensures k in m ==> m[k := m[k]] == m
  {
  }

  /** Bookkeeping for the log suffix written since the run began. */
  lemma {:induction false} StepLog(log0: seq<Diagnostic>, before: seq<Diagnostic>, added: seq<Diagnostic>)
    requires |log0| <= |before| && before[..|log0|] == log0
    ensures var after := before + added;
      |log0| <= |after| && after[..|log0|] == log0
      && after[|log0|..] == before[|log0|..] + added
      && after[|before|..] == added
  {
  }

  /** Once an exception ends the run, later chunks change nothing. */
  lemma {:induction false} PatchStopsAfterAbort(files: map<string, string>, chunks: seq<string>, n: nat)
    requires 1 <= n <= |chunks|
    requires Patch(files, chunks[..n]).aborted
    ensures Patch(files, chunks) == Patch(files, chunks[..n])
    decreases |chunks|
  {
    if n < |chunks| {
      var init := chunks[..|chunks| - 1];
      assert init[..n] == chunks[..n];
      PatchStopsAfterAbort(files, init, n);
    } else {
      assert chunks[..n] == chunks;
    }
  }
}
