/**
  The `UserStory` record of `flask_app/userstory/userstory_class.py`: a
  story, the four artifacts the run produces from it (refined story,
  relevant files, instructions, generated code) and its status. Each phase
  method stores one artifact and moves the status on. The language model
  stages are function parameters: each is a function of exactly the
  values the source passes to it.
*/
module UserStories {
  import opened Wrappers

  datatype Status =
    | ToPickUp
    | UserStoryRefined
    | RelevantFilesIdentified
    | InstructionsGenerated
    | CodeGenerated
    | ImplementationFailed
    | ImplementedSuccessfully
    | ImplementedManualChanges

  /** The text stored in the `status` column. */
  function StatusName(s: Status): string {
    match s
    case ToPickUp => "to_pick_up"
    case UserStoryRefined => "user_story_refined"
    case RelevantFilesIdentified => "relevant_files_identified"
    case InstructionsGenerated => "instructions_generated"
    case CodeGenerated => "code_generated"
    case ImplementationFailed => "implementation_failed"
    case ImplementedSuccessfully => "implemented_successfully"
    case ImplementedManualChanges => "implemented_manual_changes"
  }

  /** The status a stored text stands for. */
  function ParseStatus(name: string): (r: Option<Status>)
    ensures r.Some? ==> StatusName(r.value) == name
  {
    if name == "to_pick_up" then Some(ToPickUp)
    else if name == "user_story_refined" then Some(UserStoryRefined)
    else if name == "relevant_files_identified" then Some(RelevantFilesIdentified)
    else if name == "instructions_generated" then Some(InstructionsGenerated)
    else if name == "code_generated" then Some(CodeGenerated)
    else if name == "implementation_failed" then Some(ImplementationFailed)
    else if name == "implemented_successfully" then Some(ImplementedSuccessfully)
    else if name == "implemented_manual_changes" then Some(ImplementedManualChanges)
    else None
  }

  /** Every status survives being stored and read back, so no two share a name. */
  lemma {:induction false} StatusNameRoundTrip(s: Status)
    ensures ParseStatus(StatusName(s)) == Some(s)
  {
  }

  /** The stored state of a story. */
  datatype StoryRecord = StoryRecord(
    jiraId: string,
    originalStory: string,
    refinedStory: Option<string>,
    relevantFiles: Option<string>,
    instructions: Option<string>,
    generatedCode: Option<string>,
    status: Status)

  /** `relevant_code(original_story, updated_story, folder_structure, summary)` */
  type RelevantCodeStage = (string, Option<string>, string, string) -> string
  /** `generate_instructions(vectordb, updated_story, code_needed)` */
  type InstructionsStage = (Option<string>, Option<string>) -> string
  /** `generate_code(vectordb, instructions, updated_story)` */
  type CodeStage = (Option<string>, Option<string>) -> string

  /** A story as the constructor makes it. The Jira id arrives as text from
      the form and from Jira, so `str(jira_id)` keeps it as it is. */
  function NewStory(jiraId: string, originalStory: string): (r: StoryRecord)
    ensures r.status == ToPickUp && r.originalStory == originalStory && r.jiraId == jiraId
    ensures r.refinedStory.None? && r.relevantFiles.None? && r.instructions.None? && r.generatedCode.None?
  {
    StoryRecord(jiraId, originalStory, None, None, None, None, ToPickUp)
  }

  // The four phases on the record; the class methods below are these.

  function RefinePhase(r: StoryRecord, refined: string): StoryRecord {
    r.(refinedStory := Some(refined), status := UserStoryRefined)
  }

  function RelevantCodePhase(r: StoryRecord, folderStructure: string, summary: string,
                             stage: RelevantCodeStage): StoryRecord {
    r.(relevantFiles := Some(stage(r.originalStory, r.refinedStory, folderStructure, summary)),
       status := RelevantFilesIdentified)
  }

  function InstructionsPhase(r: StoryRecord, stage: InstructionsStage): StoryRecord {
    r.(instructions := Some(stage(r.refinedStory, r.relevantFiles)), status := InstructionsGenerated)
  }

  function CodePhase(r: StoryRecord, stage: CodeStage): StoryRecord {
    r.(generatedCode := Some(stage(r.instructions, r.refinedStory)), status := CodeGenerated)
  }

  /** Each phase sets its own artifact and the status, and leaves the story,
      the Jira id and the other three artifacts as they were. */
  lemma {:induction false} PhasesTouchOneArtifact(r: StoryRecord, refined: string, folderStructure: string, summary: string,
                               relevant: RelevantCodeStage, instruct: InstructionsStage, code: CodeStage)
    ensures RefinePhase(r, refined) ==
      StoryRecord(r.jiraId, r.originalStory, Some(refined), r.relevantFiles, r.instructions, r.generatedCode, UserStoryRefined)
    ensures RelevantCodePhase(r, folderStructure, summary, relevant) ==
      StoryRecord(r.jiraId, r.originalStory, r.refinedStory,
                  Some(relevant(r.originalStory, r.refinedStory, folderStructure, summary)),
                  r.instructions, r.generatedCode, RelevantFilesIdentified)
    ensures InstructionsPhase(r, instruct) ==
      StoryRecord(r.jiraId, r.originalStory, r.refinedStory, r.relevantFiles,
                  Some(instruct(r.refinedStory, r.relevantFiles)), r.generatedCode, InstructionsGenerated)
    ensures CodePhase(r, code) ==
      StoryRecord(r.jiraId, r.originalStory, r.refinedStory, r.relevantFiles, r.instructions,
                  Some(code(r.instructions, r.refinedStory)), CodeGenerated)
  {
  }

  class UserStory {
    var jiraId: string
    var originalStory: string
    var refinedStory: Option<string>
    var relevantFiles: Option<string>
    var instructions: Option<string>
    var generatedCode: Option<string>
    var status: Status

    function Record(): StoryRecord
      reads this
    {
      StoryRecord(jiraId, originalStory, refinedStory, relevantFiles, instructions, generatedCode, status)
    }

    constructor (jira: string, story: string)
      ensures Record() == NewStory(jira, story)
    {
      jiraId := jira;
      originalStory := story;
      refinedStory := None;
      relevantFiles := None;
      instructions := None;
      generatedCode := None;
      status := ToPickUp;
    }

    /** `refine_user_story`: `refined` is what the refinement dialogue returned. */
    method RefineUserStory(refined: string)
      modifies this
      ensures Record() == RefinePhase(old(Record()), refined)
    {
      refinedStory := Some(refined);
      status := UserStoryRefined;
    }

    method RelevantCode(folderStructure: string, summary: string, stage: RelevantCodeStage)
      modifies this
      ensures Record() == RelevantCodePhase(old(Record()), folderStructure, summary, stage)
    {
      relevantFiles := Some(stage(originalStory, refinedStory, folderStructure, summary));
      status := RelevantFilesIdentified;
    }

    method GenerateInstructions(stage: InstructionsStage)
      modifies this
      ensures Record() == InstructionsPhase(old(Record()), stage)
    {
      instructions := Some(stage(refinedStory, relevantFiles));
      status := InstructionsGenerated;
    }

    method GenerateCode(stage: CodeStage)
      modifies this
      ensures Record() == CodePhase(old(Record()), stage)
    {
      generatedCode := Some(stage(instructions, refinedStory));
      status := CodeGenerated;
    }

    /** A status assignment of the run coordinator. */
    method SetStatus(s: Status)
      modifies this
      ensures Record() == old(Record()).(status := s)
    {
      status := s;
    }
  }
}
