/**
  The user-story refinement dialogue of `flask_app/llm/llm_calls.py`.

  The module-level dictionary `refinement_state` holds one session per user:
  the story, the number of feedback iterations, the models and the current
  draft of the acceptance criteria. Starting a refinement (re)creates the
  session and stores the first draft; each iteration replaces the draft
  and counts one more iteration; when the dialogue is over the draft is
  cleaned up and the session removed. The `threading.Event` the starting
  call waits on is the flag `feedbackReceived`; the language model calls
  are the function parameters `draft` and `revise`.
*/
module Refinement {
  import opened Wrappers
  import opened Strings

  /** The model names of the configuration. */
  datatype Models = Models(simpleTask: string, hardTask: string)

  /** One entry of `refinement_state`. `current` is `None` between the
      creation of the session and the arrival of the first draft. */
  datatype Session = Session(userStory: string, iterations: nat, models: Models, current: Option<string>)

  /** The marker the clean-up cuts at: the tail of `Acceptance criteria:`. */
  const CriteriaMarker := "riteria:\n"

  /** The session after one more iteration with the new draft `draft`. */
  function Revised(s: Session, draft: string): (r: Session)
    ensures r.userStory == s.userStory && r.models == s.models
    ensures r.iterations == s.iterations + 1 && r.current == Some(draft)
  {
    s.(current := Some(draft), iterations := s.iterations + 1)
  }

  /** What the refinement returns for the final draft: the second piece of
      the split on the marker when there is one, else the whole draft. */
  function CleanUp(text: string): string {
    var parts := Split(text, CriteriaMarker);
    if |parts| > 1 then parts[1] else parts[0]
  }

  /** The clean-up keeps the text between the first and the second marker
      (or the end); without a marker it keeps everything. */
  lemma {:induction false} CleanUpSpec(text: string)
    ensures Find(text, CriteriaMarker).None? ==> CleanUp(text) == text
    ensures Find(text, CriteriaMarker).Some? ==>
      var rest := text[Find(text, CriteriaMarker).value + |CriteriaMarker|..];
      CleanUp(text) == (match Find(rest, CriteriaMarker)
                        case None => rest
                        case Some(j) => rest[..j])
  {
    SplitAtFind(text, CriteriaMarker);
    if Find(text, CriteriaMarker).Some? {
      var rest := text[Find(text, CriteriaMarker).value + |CriteriaMarker|..];
      SplitAtFind(rest, CriteriaMarker);
    }
  }

  /** A draft that names the criteria comes back without the marker. */
  lemma {:induction false} CleanUpDropsMarker(text: string)
    requires Contains(text, CriteriaMarker)
    ensures !Contains(CleanUp(text), CriteriaMarker)
  {
    CleanUpSpec(text);
    var rest := text[Find(text, CriteriaMarker).value + |CriteriaMarker|..];
    var r := CleanUp(text);
    match Find(rest, CriteriaMarker)
    case None =>
    case Some(j) =>
      forall k | OccursAt(CriteriaMarker, r, k)
        ensures false
      {
        assert rest[k..k + |CriteriaMarker|] == r[k..k + |CriteriaMarker|];
        assert OccursAt(CriteriaMarker, rest, k);
      }
  }

  /** The sessions of all users, and the event the refinement waits on. */
  class RefinementStore {
    var sessions: map<string, Session>
    var feedbackReceived: bool

    constructor ()
      ensures sessions == map[] && !feedbackReceived
    {
      sessions := map[];
      feedbackReceived := false;
    }

    /** The start of `refine_user_story`: a fresh session for `userId`,
        whatever was stored before, holding the first draft. The event is
        not cleared. */
    method Begin(userId: string, originalStory: string, description: string, models: Models,
                 draft: (string, string) -> string)
      modifies this
      ensures sessions == old(sessions)[userId := Session(originalStory, 0, models, Some(draft(description, originalStory)))]
      ensures feedbackReceived == old(feedbackReceived)
    {
      sessions := sessions[userId := Session(originalStory, 0, models, None)];
      var first := draft(description, originalStory);
      sessions := sessions[userId := sessions[userId].(current := Some(first))];
    }

    /** `refine_user_story_iteration`: clears the event, then revises the
        current draft with the user's response. Without a session for
        `userId` the lookup raises `KeyError` after the event was cleared. */
    method Iterate(originalStory: string, userId: string, response: string,
                   revise: (string, Option<string>, string) -> string) returns (ok: bool)
      modifies this
      ensures !feedbackReceived
      ensures ok == (userId in old(sessions))
      ensures ok ==> sessions == old(sessions)[userId :=
        Revised(old(sessions)[userId], revise(originalStory, old(sessions)[userId].current, response))]
      ensures !ok ==> sessions == old(sessions)
    {
      feedbackReceived := false;
      if userId !in sessions {
        return false;
      }
      var s := sessions[userId];
      var next := revise(originalStory, s.current, response);
      sessions := sessions[userId := Revised(s, next)];
      ok := true;
    }

    /** `finalize_feedback`: sets the event. */
    method Finalize()
      modifies this
      ensures feedbackReceived && sessions == old(sessions)
    {
      feedbackReceived := true;
    }

    /** The rest of `refine_user_story`, once the event is set: the cleaned
        final draft, after which the session is gone. A missing session
        (`KeyError`) or a missing draft (`None.split`) raises, and nothing
        is removed. */
    method Conclude(userId: string) returns (result: Option<string>)
      requires feedbackReceived
      modifies this
      ensures var ready := userId in old(sessions) && old(sessions)[userId].current.Some?;
        && result == (if ready then Some(CleanUp(old(sessions)[userId].current.value)) else None)
        && sessions == (if ready then old(sessions) - {userId} else old(sessions))
      ensures feedbackReceived
    {
      if userId !in sessions || sessions[userId].current.None? {
        return None;
      }
      var text := sessions[userId].current.value;
      result := Some(CleanUp(text));
      sessions := sessions - {userId};
    }
  }
}
