/**
  `generate_code` and `generate_instructions` of `flask_app/llm/llm_calls.py`.

  The instructions are stripped and cut at every blank line into steps.
  For each step the second line names a file and the third line is a
  search query; further lines, when present, are a second query. The code
  found for the step is handed to the coding model with the step number,
  the outputs are collected in `track_list`, each followed by a blank
  line, and one review call over the whole list gives the result. The
  language model calls are the function parameters `coder`, `reviewer`
  and `instructor`; the similarity search is `search`, as in `VectorDb`.
*/
module CodeGeneration {
  import opened Wrappers
  import opened Strings
  import opened VectorDb

  /** `chain.invoke(updated_story, instructions, step, code_str)` */
  type Coder = (string, string, nat, string) -> string
  /** `refine_chain.invoke(updated_story, track_list)` */
  type Reviewer = (string, string) -> string
  /** The instructions prompt over the story and the retrieved code. */
  type Instructor = (string, string) -> string

  /** `re.split('\n\n', instructions.strip())` */
  function Steps(instructions: string): (r: seq<string>)
    ensures |r| >= 1
  {
    Split(Strip(instructions), "\n\n")
  }

  /** `step.strip().split('\n')` */
  function StepLines(step: string): (r: seq<string>)
    ensures |r| >= 1
  {
    Split(Strip(step), "\n")
  }

  /** Every step has the file line and the query line that are read from it
      unguarded (`lines[1]`, `lines[2]`). */
  predicate WellFormedSteps(instructions: string) {
    StepsWellFormed(Steps(instructions))
  }

  predicate StepsWellFormed(steps: seq<string>) {
    forall i :: 0 <= i < |steps| ==> WellFormedStep(steps[i])
  }

  predicate WellFormedStep(step: string) {
    |StepLines(step)| >= 3
  }

  /** The file filter of a step: the base name of what follows the first
      `File: ` on its second line, when that base name is not empty. */
  function StepFile(step: string): Option<string>
    requires |StepLines(step)| >= 3
  {
    var name := Basename(AfterFirst(StepLines(step)[1], "File: "));
    if name != [] then Some(name) else None
  }

  /** A file filter is a non-empty name without `/` that ends the second line. */
  lemma {:induction false} StepFileShape(step: string)
    requires |StepLines(step)| >= 3
    ensures StepFile(step).Some? ==>
      var f := StepFile(step).value;
      && f != []
      && (forall i :: 0 <= i < |f| ==> f[i] != '/')
      && EndsWith(StepLines(step)[1], f)
  {
    var line := StepLines(step)[1];
    var path := AfterFirst(line, "File: ");
    BasenameIsLastComponent(path);
    if StepFile(step).Some? {
      var f := Basename(path);
      assert EndsWith(path, f);
      match Find(line, "File: ")
      case None =>
      case Some(i) =>
        assert line == line[..i] + "File: " + path;
        EndsWithAppend(line[..i] + "File: ", path, f);
    }
  }

  /** The second query: every line after the third, when there are any. */
  function SecondQuery(step: string): (r: Option<string>)
    requires |StepLines(step)| >= 3
    ensures r.Some? <==> |StepLines(step)| > 3
  {
    var lines := StepLines(step);
    if |lines| > 3 then Some(Join(lines[3..], "\n")) else None
  }

  /** One trailing separator removed, if there is one. */
  function TrimSeparator(s: string): (r: string)
    ensures EndsWith(s, ChunkSeparator) ==> r + ChunkSeparator == s
    ensures !EndsWith(s, ChunkSeparator) ==> r == s
  {
    if EndsWith(s, ChunkSeparator) then s[..|s| - |ChunkSeparator|] else s
  }

  /** The code handed to the model: the first chunk, the second one after it
      when it is not empty and not the same as the first, and then one
      trailing separator dropped. */
  function CombineChunks(first: string, second: Option<string>): string {
    var combined := if second.Some? && second.value != [] && second.value != first then first + second.value else first;
    TrimSeparator(combined)
  }

  /** Only the separator at the very end goes: the one between the two
      chunks stays. */
  lemma {:induction false} CombineKeepsInnerSeparator(first: string, second: string)
    requires second != [] && second != first && EndsWith(second, ChunkSeparator)
    ensures CombineChunks(first, Some(second)) + ChunkSeparator == first + second
  {
    assert CombineChunks(first, Some(second)) == TrimSeparator(first + second);
    EndsWithAppend(first, second, ChunkSeparator);
  }

  /** A second chunk that repeats the first, or is empty, is ignored. */
  lemma {:induction false} CombineIgnoresRepeat(first: string, second: Option<string>)
    requires second.None? || second.value == [] || second.value == first
    ensures CombineChunks(first, second) == TrimSeparator(first)
  {
  }

  /** The code found for a step. */
  function StepContext(index: string, step: string, search: Search): string
    requires |StepLines(step)| >= 3
  {
    var first := Retrieved(index, StepLines(step)[2], 1, StepFile(step), search);
    var second := match SecondQuery(step)
      case None => None
      case Some(q) => Some(Retrieved(index, q, 1, None, search));
    CombineChunks(first, second)
  }

  /** The outputs of the first `n` steps; step `i` gets the number `i + 1`. */
  function Outputs(index: string, steps: seq<string>, instructions: string, story: string, n: nat, coder: Coder, search: Search): (r: seq<string>)
    requires StepsWellFormed(steps) && n <= |steps|
    ensures |r| == n
  {
    if n == 0 then []
    else
      Outputs(index, steps, instructions, story, n - 1, coder, search)
      + [coder(story, instructions, n, StepContext(index, steps[n - 1], search))]
  }

  /** Step `i` gets the number `i + 1` and the code found for it. */
  lemma {:induction false} OutputsAt(index: string, steps: seq<string>, instructions: string, story: string,
                                     n: nat, coder: Coder, search: Search, i: nat)
    requires StepsWellFormed(steps) && i < n <= |steps|
    ensures Outputs(index, steps, instructions, story, n, coder, search)[i]
      == coder(story, instructions, i + 1, StepContext(index, steps[i], search))
  {
    var prev := Outputs(index, steps, instructions, story, n - 1, coder, search);
    var last := coder(story, instructions, n, StepContext(index, steps[n - 1], search));
    var all := Outputs(index, steps, instructions, story, n, coder, search);
    assert all == prev + [last];
    if i < n - 1 {
      OutputsAt(index, steps, instructions, story, n - 1, coder, search, i);
      assert all[i] == prev[i];
    } else {
      assert all[i] == last;
    }
  }

  /** `track_list` after the first `n` steps. */
  function TrackList(index: string, steps: seq<string>, instructions: string, story: string, n: nat, coder: Coder, search: Search): string
    requires StepsWellFormed(steps) && n <= |steps|
  {
    if n == 0 then []
    else
      TrackList(index, steps, instructions, story, n - 1, coder, search)
      + coder(story, instructions, n, StepContext(index, steps[n - 1], search)) + "\n\n"
  }

  /** `track_list` is the step outputs in step order, each followed by a
      blank line. */
  lemma {:induction false} TrackListJoins(index: string, steps: seq<string>, instructions: string, story: string,
                                          n: nat, coder: Coder, search: Search)
    requires StepsWellFormed(steps) && 0 < n <= |steps|
    ensures TrackList(index, steps, instructions, story, n, coder, search)
      == Join(Outputs(index, steps, instructions, story, n, coder, search), "\n\n") + "\n\n"
  {
    var outs := Outputs(index, steps, instructions, story, n, coder, search);
    if n == 1 {
      assert outs == [outs[0]];
    } else {
      TrackListJoins(index, steps, instructions, story, n - 1, coder, search);
      var init := Outputs(index, steps, instructions, story, n - 1, coder, search);
      OutputsAt(index, steps, instructions, story, n, coder, search, n - 1);
      assert outs == init + [outs[n - 1]];
      JoinSnoc(init, outs[n - 1], "\n\n");
    }
  }

  /** `generate_code(vectordb, instructions, updated_story)` */
  method GenerateCode(vectordb: VectorDbIntegration, instructions: string, updatedStory: string,
                      coder: Coder, reviewer: Reviewer, search: Search) returns (result: string)
    requires WellFormedSteps(instructions)
    ensures result == reviewer(updatedStory,
      TrackList(vectordb.indexName, Steps(instructions), instructions, updatedStory, |Steps(instructions)|, coder, search))
  {
    var steps := Split(Strip(instructions), "\n\n");
    assert steps == Steps(instructions);
    var trackList := TrackSteps(vectordb, steps, instructions, updatedStory, coder, search);
    result := reviewer(updatedStory, trackList);
  }

  /** The step loop of `generate_code`. */
  method TrackSteps(vectordb: VectorDbIntegration, steps: seq<string>, instructions: string, updatedStory: string,
                    coder: Coder, search: Search) returns (trackList: string)
    requires StepsWellFormed(steps)
    ensures trackList == TrackList(vectordb.indexName, steps, instructions, updatedStory, |steps|, coder, search)
  {
    trackList := "";
    var i := 0;
    while i < |steps|
      invariant 0 <= i <= |steps|
      invariant trackList == TrackList(vectordb.indexName, steps, instructions, updatedStory, i, coder, search)
    {
      var codeStr := StepCode(vectordb, steps[i], search);
      var output := coder(updatedStory, instructions, i + 1, codeStr);
      trackList := trackList + output + "\n\n";
      i := i + 1;
    }
  }

  /** The retrievals of one step. */
  method StepCode(vectordb: VectorDbIntegration, step: string, search: Search) returns (codeStr: string)
    requires |StepLines(step)| >= 3
    ensures codeStr == StepContext(vectordb.indexName, step, search)
  {
    var lines := Split(Strip(step), "\n");
    var fileLine := lines[1];
    var searchQuery := lines[2];
    var filePath := AfterFirst(fileLine, "File: ");
    var fileName := Basename(filePath);
    if fileName != [] {
      codeStr := vectordb.RetrieveEmbeddings(searchQuery, 1, Some(fileName), search);
    } else {
      codeStr := vectordb.RetrieveEmbeddings(searchQuery, 1, None, search);
    }
    ghost var first := codeStr;
    ghost var second: Option<string> := None;
    if |lines| > 3 {
      var secondQuery := Join(lines[3..], "\n");
      var vdbTwo := vectordb.RetrieveEmbeddings(secondQuery, 1, None, search);
      second := Some(vdbTwo);
      if vdbTwo != [] && vdbTwo != codeStr {
        codeStr := codeStr + vdbTwo;
      }
    }
    ghost var combined := codeStr;
    assert combined == if second.Some? && second.value != [] && second.value != first then first + second.value else first;
    if EndsWith(codeStr, ChunkSeparator) {
      codeStr := codeStr[..|codeStr| - |ChunkSeparator|];
    }
    assert codeStr == TrimSeparator(combined);
  }

  /** `generate_instructions(vectordb, updated_story, code_needed)`: the search
      over the relevant files, then the instructions prompt. */
  method GenerateInstructions(vectordb: VectorDbIntegration, updatedStory: string, codeNeeded: string,
                              instructor: Instructor, search: Search) returns (instructions: string)
    ensures instructions == instructor(updatedStory, SearchResult(vectordb.indexName, codeNeeded, search))
  {
    var codeStr := vectordb.SearchVectordb(codeNeeded, search);
    instructions := instructor(updatedStory, codeStr);
  }
}
