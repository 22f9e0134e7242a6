/**
  The handlers of `flask_app/open_project.py` that decide what happens next:
  the feedback handler of the refinement dialogue with its affirmative
  vocabulary and iteration cap, the run of a story that skips the phases
  whose artifact is already stored, the final disposition the user
  reports, the list of open stories and the import of Jira issues. The
  global `user_story_done` and its event are the fields of
  `RunCoordinator`; the language model stages, the Jira search and the
  file system are parameters.
*/
module OpenProject {
  import opened Wrappers
  import opened Strings
  import opened FileTree
  import opened Refinement
  import opened UserStories
  import opened Codebase
  import opened PatchEngine

  // ---------------------------------------------------------------------
  // The feedback handler
  // ---------------------------------------------------------------------

  /** The replies that accept the draft, after lower-casing. */
  const Affirmatives: seq<string> := ["yes", "y", "yeah", "yep"]

  /** The count the incremented iteration number must stay below for
      another regeneration. */
  const MaxRefinements: nat := 3

  /** Lower-cased, the reply is exactly one of the affirmatives; nothing is trimmed. */
  predicate IsAffirmative(feedback: string) {
    Lower(feedback) in Affirmatives
  }

  /** What the handler does with one reply. */
  datatype Decision = Accept | Regenerate | Cap

  /** Accept an affirmative reply; otherwise regenerate while the stored
      count plus one is below the cap, and finalize once it is not. */
  function Classify(feedback: string, iterations: nat): (d: Decision)
    ensures d == Accept <==> IsAffirmative(feedback)
    ensures d == Regenerate <==> !IsAffirmative(feedback) && iterations + 1 < MaxRefinements
    ensures d == Cap <==> !IsAffirmative(feedback) && iterations + 1 >= MaxRefinements
  {
    if IsAffirmative(feedback) then Accept
    else if iterations + 1 < MaxRefinements then Regenerate
    else Cap
  }

  /** The reviser of `refine_user_story_iteration`: story, current draft, reply. */
  type Reviser = (string, Option<string>, string) -> string

  /** The session after one reply: revised on `Regenerate`, as it was otherwise. */
  function Respond(s: Session, feedback: string, revise: Reviser): (Decision, Session) {
    var d := Classify(feedback, s.iterations);
    if d == Regenerate then (d, Revised(s, revise(s.userStory, s.current, feedback)))
    else (d, s)
  }

  /** `on_user_story_feedback`. A missing session raises `KeyError` before
      anything changes (`None`). The handler reads the stored count and
      never writes it; only the iteration raises it. */
  method OnUserStoryFeedback(store: RefinementStore, userId: string, feedback: string, revise: Reviser)
    returns (d: Option<Decision>)
    modifies store
    ensures userId !in old(store.sessions) ==>
      d.None? && store.sessions == old(store.sessions) && store.feedbackReceived == old(store.feedbackReceived)
    ensures userId in old(store.sessions) ==>
      var r := Respond(old(store.sessions)[userId], feedback, revise);
      && d == Some(r.0)
      && store.feedbackReceived == (r.0 != Regenerate)
      && (r.0 == Regenerate ==> store.sessions == old(store.sessions)[userId := r.1])
      && (r.0 != Regenerate ==> store.sessions == old(store.sessions))
  {
    if userId !in store.sessions {
      return None;
    }
    var state := store.sessions[userId];
    var feedbackIterations := state.iterations;
    if Lower(feedback) in Affirmatives {
      store.Finalize();
      return Some(Accept);
    }
    feedbackIterations := feedbackIterations + 1;
    if feedbackIterations < MaxRefinements {
      var _ := store.Iterate(state.userStory, userId, feedback, revise);
      d := Some(Regenerate);
    } else {
      store.Finalize();
      d := Some(Cap);
    }
  }

  /** No reply with a space around it is affirmative: nothing is trimmed. */
  lemma {:induction false} NoTrimming(feedback: string)
    ensures !IsAffirmative(" " + feedback) && !IsAffirmative(feedback + " ")
  {
    LowerAppend(" ", feedback);
    LowerAppend(feedback, " ");
    assert Lower(" ") == " ";
    var a := Lower(" " + feedback);
    var b := Lower(feedback + " ");
    assert a[0] == ' ';
    assert b[|b| - 1] == ' ';
  }

  /** Case does not matter. */
  lemma {:induction false} CaseIgnored()
    ensures IsAffirmative("YES") && IsAffirmative("Yep") && IsAffirmative("Y") && !IsAffirmative("ok")
  {
    assert Lower("YES") == "yes";
    assert Lower("Yep") == "yep";
    assert Lower("Y") == "y";
    assert Lower("ok") == "ok";
  }

  // The dialogue as a sequence of replies to one session.

  /** The session once the dialogue over `replies` is finalized (or the
      replies run out). */
  function AfterDialogue(s: Session, replies: seq<string>, revise: Reviser): Session
    decreases |replies|
  {
    if replies == [] then s
    else
      var r := Respond(s, replies[0], revise);
      if r.0 == Regenerate then AfterDialogue(r.1, replies[1..], revise) else s
  }

  /** How many replies lead to a regeneration before the dialogue ends. */
  function Regenerations(replies: seq<string>, iterations: nat): nat
    decreases |replies|
  {
    if replies == [] then 0
    else if Classify(replies[0], iterations) == Regenerate then 1 + Regenerations(replies[1..], iterations + 1)
    else 0
  }

  /** The index of the reply that finalizes the dialogue, if one does. */
  function Finalizer(replies: seq<string>, iterations: nat): Option<nat>
    decreases |replies|
  {
    if replies == [] then None
    else if Classify(replies[0], iterations) == Regenerate then
      match Finalizer(replies[1..], iterations + 1)
      case None => None
      case Some(k) => Some(k + 1)
    else Some(0)
  }

  /** The stored count grows by exactly the regenerations; the story and the
      models never change. */
  lemma {:induction false} DialogueCount(s: Session, replies: seq<string>, revise: Reviser)
    ensures AfterDialogue(s, replies, revise).iterations == s.iterations + Regenerations(replies, s.iterations)
    ensures AfterDialogue(s, replies, revise).userStory == s.userStory
    ensures AfterDialogue(s, replies, revise).models == s.models
    decreases |replies|
  {
    if replies != [] && Classify(replies[0], s.iterations) == Regenerate {
      DialogueCount(Respond(s, replies[0], revise).1, replies[1..], revise);
    }
  }

  /** At most two regenerations from a fresh session, fewer from a later count. */
  lemma {:induction false} RegenerationsBound(replies: seq<string>, iterations: nat)
    ensures Regenerations(replies, iterations) <= if iterations < 2 then 2 - iterations else 0
    decreases |replies|
  {
    if replies != [] && Classify(replies[0], iterations) == Regenerate {
      RegenerationsBound(replies[1..], iterations + 1);
    }
  }

  /** The finalizing reply comes right after the regenerations. */
  lemma {:induction false} FinalizerAfterRegenerations(replies: seq<string>, iterations: nat)
    ensures Finalizer(replies, iterations).Some? ==> Finalizer(replies, iterations).value == Regenerations(replies, iterations)
    ensures Finalizer(replies, iterations).Some? ==> Finalizer(replies, iterations).value < |replies|
    ensures Finalizer(replies, iterations).Some? ==>
      Classify(replies[Finalizer(replies, iterations).value], iterations + Regenerations(replies, iterations)) != Regenerate
    decreases |replies|
  {
    if replies != [] && Classify(replies[0], iterations) == Regenerate {
      FinalizerAfterRegenerations(replies[1..], iterations + 1);
    }
  }

  /** Three corrective replies to a fresh session: the first two regenerate,
      the third finalizes. */
  lemma {:induction false} ThirdCorrectionFinalizes(replies: seq<string>)
    requires |replies| >= 3 && !IsAffirmative(replies[0]) && !IsAffirmative(replies[1]) && !IsAffirmative(replies[2])
    ensures Finalizer(replies, 0) == Some(2) && Regenerations(replies, 0) == 2
  {
    var r1 := replies[1..];
    var r2 := r1[1..];
    assert r1[0] == replies[1] && r2[0] == replies[2];
    assert Classify(replies[0], 0) == Regenerate;
    assert Classify(r1[0], 1) == Regenerate;
    assert Classify(r2[0], 2) == Cap;
    assert Finalizer(r2, 2) == Some(0) && Regenerations(r2, 2) == 0;
    assert Finalizer(r1, 1) == Some(1) && Regenerations(r1, 1) == 1;
  }

  /** Any three replies to a fresh session finalize it. */
  lemma {:induction false} FinalizedWithinThree(replies: seq<string>, iterations: nat)
    requires iterations <= 2
    requires |replies| >= 3 - iterations
    ensures Finalizer(replies, iterations).Some? && Finalizer(replies, iterations).value <= 2 - iterations
    decreases |replies|
  {
    if Classify(replies[0], iterations) == Regenerate {
      FinalizedWithinThree(replies[1..], iterations + 1);
    }
  }

  // ---------------------------------------------------------------------
  // Running a story
  // ---------------------------------------------------------------------

  /** The generators of the four phases. */
  datatype Stages = Stages(relevant: RelevantCodeStage, instruct: InstructionsStage, code: CodeStage)

  /** The phases of `handle_run_story`: each one runs only when its
      artifact is still `None`. `refined` is what the refinement dialogue
      returns when it runs. */
  function Resume(r: StoryRecord, refined: string, folderStructure: string, summary: string, stages: Stages): StoryRecord {
    var r1 := if r.refinedStory.None? then RefinePhase(r, refined) else r;
    var r2 := if r1.relevantFiles.None? then RelevantCodePhase(r1, folderStructure, summary, stages.relevant) else r1;
    var r3 := if r2.instructions.None? then InstructionsPhase(r2, stages.instruct) else r2;
    if r3.generatedCode.None? then CodePhase(r3, stages.code) else r3
  }

  predicate Complete(r: StoryRecord) {
    r.refinedStory.Some? && r.relevantFiles.Some? && r.instructions.Some? && r.generatedCode.Some?
  }

  /** After a run every artifact is there, the ones stored before are
      unchanged, and the story and the Jira id are kept. */
  lemma {:induction false} ResumeCompletes(r: StoryRecord, refined: string, folderStructure: string, summary: string, stages: Stages)
    ensures var r' := Resume(r, refined, folderStructure, summary, stages);
      && Complete(r')
      && r'.originalStory == r.originalStory && r'.jiraId == r.jiraId
      && (r.refinedStory.Some? ==> r'.refinedStory == r.refinedStory)
      && (r.relevantFiles.Some? ==> r'.relevantFiles == r.relevantFiles)
      && (r.instructions.Some? ==> r'.instructions == r.instructions)
      && (r.generatedCode.Some? ==> r'.generatedCode == r.generatedCode)
      && (r.generatedCode.None? ==> r'.status == CodeGenerated)
  {
  }

  /** A complete story is left exactly as it is, whatever the generators. */
  lemma {:induction false} CompleteUnchanged(r: StoryRecord, refined: string, folderStructure: string, summary: string, stages: Stages)
    requires Complete(r)
    ensures Resume(r, refined, folderStructure, summary, stages) == r
  {
  }

  /** Running again after a run changes nothing. */
  lemma {:induction false} ResumeIdempotent(r: StoryRecord, refined: string, folderStructure: string, summary: string, stages: Stages,
                         refined': string, folderStructure': string, summary': string, stages': Stages)
    ensures var once := Resume(r, refined, folderStructure, summary, stages);
      Resume(once, refined', folderStructure', summary', stages') == once
  {
    ResumeCompletes(r, refined, folderStructure, summary, stages);
    CompleteUnchanged(Resume(r, refined, folderStructure, summary, stages), refined', folderStructure', summary', stages');
  }

  /** A resumed run does not call the generator of a phase whose artifact
      is already stored: its result does not depend on that generator. */
  lemma {:induction false} CompletedPhasesSkipped(r: StoryRecord, refined: string, folderStructure: string, summary: string,
                               stages: Stages, refined': string, other: Stages)
    requires r.refinedStory.Some? && r.relevantFiles.Some?
    ensures Resume(r, refined, folderStructure, summary, stages) ==
            Resume(r, refined', folderStructure, summary, stages.(relevant := other.relevant))
    ensures r.instructions.Some? ==>
      Resume(r, refined, folderStructure, summary, stages) ==
      Resume(r, refined', folderStructure, summary, stages.(relevant := other.relevant, instruct := other.instruct))
  {
  }

  /** The phase part of `handle_run_story` on the stored story. */
  method RunPhases(story: UserStory, refined: string, folderStructure: string, summary: string, stages: Stages)
    modifies story
    ensures story.Record() == Resume(old(story.Record()), refined, folderStructure, summary, stages)
  {
    if story.refinedStory.None? {
      story.RefineUserStory(refined);
    }
    if story.relevantFiles.None? {
      story.RelevantCode(folderStructure, summary, stages.relevant);
    }
    if story.instructions.None? {
      story.GenerateInstructions(stages.instruct);
    }
    if story.generatedCode.None? {
      story.GenerateCode(stages.code);
    }
  }

  /** The phases, then the generated code applied to the working tree.
      `folderStructure` and `summary` are the codebase's `folderStructure`
      and its summary text as they stand after `PrepareSummary`, which the
      relevant-code phase reads. */
  method RunStory(story: UserStory, ws: Workspace, refined: string, folderStructure: string, summary: string,
                  stages: Stages) returns (completed: bool)
    modifies story, ws
    ensures story.Record() == Resume(old(story.Record()), refined, folderStructure, summary, stages)
    ensures var run := ImplementCodeChangesSpec(old(ws.files), story.generatedCode.value);
      ws.files == run.files && ws.log == old(ws.log) + run.log && completed == !run.aborted
  {
    RunPhases(story, refined, folderStructure, summary, stages);
    ResumeCompletes(old(story.Record()), refined, folderStructure, summary, stages);
    completed := ws.ImplementCodeChanges(story.generatedCode.value);
  }

  /** The summary is generated before the run when none is stored, or the
      stored one is empty. */
  method PrepareSummary(codebase: Codebase, root: Entry, cfg: IgnoreConfig, summarize: Summarizer)
    modifies codebase
    ensures old(codebase.summary) !in {None, Some("")} ==> codebase.summary == old(codebase.summary)
    ensures old(codebase.summary) in {None, Some("")} ==>
      codebase.summary == Some(Join(SummaryEntries(Walk(codebase.directory, RootChildren(root), cfg.directories), cfg, summarize), "\n"))
    ensures codebase.directory == old(codebase.directory) && codebase.folderStructure == old(codebase.folderStructure)
  {
    if codebase.summary.None? || codebase.summary.value == "" {
      var _ := codebase.GenerateSummary(root, cfg, summarize);
    }
  }

  // ---------------------------------------------------------------------
  // The disposition
  // ---------------------------------------------------------------------

  /** `user_story_done` and the event the run waits on. The event is set by
      the handler and never cleared. */
  class RunCoordinator {
    var userStoryDone: Option<string>
    var doneFeedback: bool

    constructor ()
      ensures userStoryDone.None? && !doneFeedback
    {
      userStoryDone := None;
      doneFeedback := false;
    }

    /** `handle_user_story_done` */
    method HandleUserStoryDone(feedback: string)
      modifies this
      ensures userStoryDone == Some(feedback) && doneFeedback
    {
      userStoryDone := Some(feedback);
      doneFeedback := true;
    }
  }

  /** Whether the index and the summary are refreshed. */
  predicate Refreshes(done: Option<string>) {
    done != Some("implementation_failed")
  }

  /** The status the disposition maps to. */
  function FinalStatus(done: Option<string>): Status {
    if done == Some("implementation_failed") then ImplementationFailed
    else if done == Some("implemented_successfully") then ImplementedSuccessfully
    else ImplementedManualChanges
  }

  /** A refresh happens exactly when the story is not marked failed, and
      the statuses a user can report come back as themselves; anything
      else counts as manual changes. */
  lemma {:induction false} DispositionTable(done: Option<string>)
    ensures Refreshes(done) <==> FinalStatus(done) != ImplementationFailed
    ensures FinalStatus(Some(StatusName(ImplementationFailed))) == ImplementationFailed
    ensures FinalStatus(Some(StatusName(ImplementedSuccessfully))) == ImplementedSuccessfully
    ensures done != Some(StatusName(ImplementationFailed)) && done != Some(StatusName(ImplementedSuccessfully)) ==>
      FinalStatus(done) == ImplementedManualChanges
  {
  }

  /** The end of `handle_run_story`, once the user has answered: on a
      failure only the status is set; otherwise the summary is updated
      first, and when that raises the run ends without a status. */
  method FinishRun(story: UserStory, coordinator: RunCoordinator, codebase: Codebase, root: Entry,
                   cfg: IgnoreConfig, modified: set<string>, summarize: Summarizer) returns (completed: bool)
    requires coordinator.doneFeedback
    modifies story, codebase
    ensures var done := coordinator.userStoryDone;
      var updated := UpdatedSummary(old(codebase.summary),
                                    Walk(old(codebase.directory), RootChildren(root), cfg.directories),
                                    cfg, modified, summarize);
      && completed == (!Refreshes(done) || updated.Some?)
      && codebase.summary == (if Refreshes(done) && updated.Some? then updated else old(codebase.summary))
      && story.Record() == (if completed then old(story.Record()).(status := FinalStatus(done)) else old(story.Record()))
  {
    if coordinator.userStoryDone != Some("implementation_failed") {
      var ok := codebase.UpdateSummary(root, cfg, modified, summarize);
      if !ok {
        return false;
      }
      if coordinator.userStoryDone == Some("implemented_successfully") {
        story.SetStatus(ImplementedSuccessfully);
      } else {
        story.SetStatus(ImplementedManualChanges);
      }
    } else {
      story.SetStatus(ImplementationFailed);
    }
    completed := true;
  }

  // ---------------------------------------------------------------------
  // The project page and the Jira import
  // ---------------------------------------------------------------------

  /** A story still to be processed: not implemented, failed ones included. */
  predicate IsOpen(r: StoryRecord) {
    r.status != ImplementedSuccessfully && r.status != ImplementedManualChanges
  }

  /** The stories the project page lists, as (text, Jira id), in order. */
  function OpenStories(stories: seq<StoryRecord>): seq<(string, string)>
    decreases |stories|
  {
    if stories == [] then []
    else
      var r := stories[|stories| - 1];
      OpenStories(stories[..|stories| - 1]) + (if IsOpen(r) then [(r.originalStory, r.jiraId)] else [])
  }

  /** A story is listed exactly when it is open. */
  lemma {:induction false} OpenStoriesSpec(stories: seq<StoryRecord>)
    ensures forall i :: 0 <= i < |stories| && IsOpen(stories[i]) ==>
      (stories[i].originalStory, stories[i].jiraId) in OpenStories(stories)
    ensures forall x :: x in OpenStories(stories) ==>
      exists i :: 0 <= i < |stories| && IsOpen(stories[i]) && x == (stories[i].originalStory, stories[i].jiraId)
    decreases |stories|
  {
    if stories != [] {
      var init := stories[..|stories| - 1];
      OpenStoriesSpec(init);
      forall x | x in OpenStories(stories)
        ensures exists i :: 0 <= i < |stories| && IsOpen(stories[i]) && x == (stories[i].originalStory, stories[i].jiraId)
      {
        if x in OpenStories(init) {
          var i :| 0 <= i < |init| && IsOpen(init[i]) && x == (init[i].originalStory, init[i].jiraId);
          assert stories[i] == init[i];
        } else {
          assert x == (stories[|stories| - 1].originalStory, stories[|stories| - 1].jiraId);
        }
      }
      forall i | 0 <= i < |stories| && IsOpen(stories[i])
        ensures (stories[i].originalStory, stories[i].jiraId) in OpenStories(stories)
      {
        if i < |stories| - 1 {
          assert stories[i] == init[i];
        }
      }
    }
  }

  /** A Jira issue: its id and its summary line. */
  datatype Issue = Issue(id: string, summary: string)

  /** The non-empty Jira ids of the stored stories. */
  function ExistingIds(stories: seq<StoryRecord>): (r: set<string>)
    ensures "" !in r
    ensures forall i :: 0 <= i < |stories| && stories[i].jiraId != "" ==> stories[i].jiraId in r
    ensures forall x :: x in r ==> exists i :: 0 <= i < |stories| && stories[i].jiraId == x
  {
    set i | 0 <= i < |stories| && stories[i].jiraId != "" :: stories[i].jiraId
  }

  /** The new stories for the issues whose id is not in `existing`, in issue order. */
  function Imported(issues: seq<Issue>, existing: set<string>): seq<StoryRecord>
    decreases |issues|
  {
    if issues == [] then []
    else
      var d := issues[|issues| - 1];
      Imported(issues[..|issues| - 1], existing) + (if d.id in existing then [] else [NewStory(d.id, d.summary)])
  }

  /** `import_jira_issues`: the id set is taken once, before the loop, so
      it does not grow as stories are added. */
  method ImportJiraIssues(stories: seq<StoryRecord>, issues: seq<Issue>) returns (stored: seq<StoryRecord>)
    ensures stored == stories + Imported(issues, ExistingIds(stories))
  {
    var existingJiraIds := set i | 0 <= i < |stories| && stories[i].jiraId != "" :: stories[i].jiraId;
    stored := stories;
    var k := 0;
    while k < |issues|
      invariant 0 <= k <= |issues|
      invariant stored == stories + Imported(issues[..k], existingJiraIds)
    {
      var data := issues[k];
      assert issues[..k + 1][..k] == issues[..k];
      if data.id !in existingJiraIds {
        stored := stored + [NewStory(data.id, data.summary)];
      }
      k := k + 1;
    }
    assert issues[..k] == issues;
  }

  /** An issue is imported exactly when its id is new, as a fresh story. */
  lemma {:induction false} ImportedSpec(issues: seq<Issue>, existing: set<string>)
    ensures forall r :: r in Imported(issues, existing) ==>
      r.jiraId !in existing && r.status == ToPickUp && exists k :: 0 <= k < |issues| && r == NewStory(issues[k].id, issues[k].summary)
    ensures forall k :: 0 <= k < |issues| && issues[k].id !in existing ==>
      NewStory(issues[k].id, issues[k].summary) in Imported(issues, existing)
    decreases |issues|
  {
    if issues != [] {
      var init := issues[..|issues| - 1];
      ImportedSpec(init, existing);
      forall r | r in Imported(issues, existing)
        ensures r.jiraId !in existing && r.status == ToPickUp &&
          exists k :: 0 <= k < |issues| && r == NewStory(issues[k].id, issues[k].summary)
      {
        if r in Imported(init, existing) {
          var k :| 0 <= k < |init| && r == NewStory(init[k].id, init[k].summary);
          assert issues[k] == init[k];
        } else {
          assert r == NewStory(issues[|issues| - 1].id, issues[|issues| - 1].summary);
        }
      }
      forall k | 0 <= k < |issues| && issues[k].id !in existing
        ensures NewStory(issues[k].id, issues[k].summary) in Imported(issues, existing)
      {
        if k < |issues| - 1 {
          assert issues[k] == init[k];
        }
      }
    }
  }

  /** Because the id set is a snapshot, two new issues with the same id are
      both imported. */
  lemma {:induction false} RepeatedIdImportedTwice(a: Issue, b: Issue, existing: set<string>)
    requires a.id == b.id && a.id !in existing
    ensures Imported([a, b], existing) == [NewStory(a.id, a.summary), NewStory(b.id, b.summary)]
  {
    assert [a, b][..1] == [a] && [a, b][1] == b;
    assert [a][..0] == [];
    assert Imported([a], existing) == [NewStory(a.id, a.summary)];
  }
}
