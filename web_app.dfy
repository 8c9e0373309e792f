/** The chat side: the bounded conversation buffer, the rule that decides
    when a project-assistant exchange is logged, and one `DevAssistant` turn. */
module WebApp {
  import opened Wrappers
  import opened Strings
  import opened Json
  import opened ProjectRecords
  import opened ProjectSummary
  import opened ProjectContext
  import opened ProjectManagement

  /** One chat turn. */
  datatype Message = Message(role: string, content: string)

  const DefaultMaxHistoryLength: int := 20

  /** A history the buffer can hold: never more turns than the capacity (an
      empty history always qualifies). */
  predicate WithinCapacity(history: seq<Message>, maxLength: int)
  {
    history == [] || |history| <= maxLength
  }

  /** The history after `add_message`: when it is at or over capacity its
      oldest turn goes first (FIFO), then the new turn is appended. Popping
      from an empty history, which a capacity below one leads to, raises. */
  function Pushed(history: seq<Message>, maxLength: int, m: Message): (r: Result<seq<Message>, Failure>)
    ensures r.Err? <==> |history| >= maxLength && history == []
    ensures r.Ok? ==> 1 <= |r.value| <= |history| + 1
    ensures r.Ok? && WithinCapacity(history, maxLength) ==>
      |r.value| == Min(|history| + 1, maxLength) && WithinCapacity(r.value, maxLength)
  {
    if |history| >= maxLength then
      if history == [] then Err(EmptyPop) else Ok(history[1..] + [m])
    else Ok(history + [m])
  }

  /** What survives an addition is the newest part of the old history
      followed by the new turn: nothing is reordered or invented. */
  lemma PushedKeepsNewest(history: seq<Message>, maxLength: int, m: Message)
    requires Pushed(history, maxLength, m).Ok?
    ensures var h := Pushed(history, maxLength, m).value;
      h == (history + [m])[|history| + 1 - |h|..]
  {
    if |history| >= maxLength {
      assert history[1..] + [m] == (history + [m])[1..];
    } else {
      assert (history + [m])[0..] == history + [m];
    }
  }

  /** The history after adding each of `ms` in turn; the first raise stops. */
  function AddAll(history: seq<Message>, maxLength: int, ms: seq<Message>): Result<seq<Message>, Failure>
  {
    if ms == [] then Ok(history)
    else match AddAll(history, maxLength, ms[..|ms| - 1])
      case Err(f) => Err(f)
      case Ok(h) => Pushed(h, maxLength, ms[|ms| - 1])
  }

  function Min(a: int, b: int): int
  {
    if a <= b then a else b
  }

  /** A buffer of capacity at least one that starts empty always holds exactly
      the most recent `min(n, capacity)` of the n turns added, oldest first. */
  lemma {:induction false} AddAllKeepsNewest(maxLength: int, ms: seq<Message>)
    requires maxLength >= 1
    ensures AddAll([], maxLength, ms) == Ok(ms[|ms| - Min(|ms|, maxLength)..])
  {
    if ms != [] {
      AddAllKeepsNewest(maxLength, ms[..|ms| - 1]);
      NewestStep(maxLength, ms);
    }
  }

  /** Adding the last turn to the newest turns of the others gives the newest turns of all. */
  lemma NewestStep(maxLength: int, ms: seq<Message>)
    requires maxLength >= 1 && ms != []
    requires AddAll([], maxLength, ms[..|ms| - 1]) == Ok(ms[..|ms| - 1][|ms| - 1 - Min(|ms| - 1, maxLength)..])
    ensures AddAll([], maxLength, ms) == Ok(ms[|ms| - Min(|ms|, maxLength)..])
  {
    NewestWindow(maxLength, ms);
  }

  /** The window of the newest turns moves by one when a turn is added. */
  lemma NewestWindow(maxLength: int, ms: seq<Message>)
    requires maxLength >= 1 && ms != []
    ensures
      var init := ms[..|ms| - 1];
      var h := init[|init| - Min(|init|, maxLength)..];
      var w := ms[|ms| - Min(|ms|, maxLength)..];
      if |h| >= maxLength then |h| == maxLength && h[1..] + [ms[|ms| - 1]] == w
      else h + [ms[|ms| - 1]] == w
  {
    var init := ms[..|ms| - 1];
    if |init| >= maxLength {
      assert init[|init| - maxLength..][1..] + [ms[|ms| - 1]] == ms[|ms| - maxLength..];
    } else {
      assert init[0..] + [ms[|ms| - 1]] == ms;
    }
  }

  /** Adding one turn more than the capacity leaves exactly `capacity` turns:
      the very first turn is the one evicted. */
  lemma OverflowEvictsOldest(maxLength: int, ms: seq<Message>)
    requires maxLength >= 1 && |ms| == maxLength + 1
    ensures AddAll([], maxLength, ms) == Ok(ms[1..])
  {
    AddAllKeepsNewest(maxLength, ms);
  }

  /** The process-wide conversation history. */
  class ConversationManager {
    var history: seq<Message>
    var maxHistoryLength: int

    /** The history never exceeds the capacity. */
    ghost predicate Valid()
      reads this
    {
      WithinCapacity(history, maxHistoryLength)
    }

    constructor (maxHistoryLength: int := DefaultMaxHistoryLength)
      ensures Valid()
      ensures history == [] && this.maxHistoryLength == maxHistoryLength
    {
      history := [];
      this.maxHistoryLength := maxHistoryLength;
    }

    method AddMessage(role: string, content: string) returns (outcome: Outcome<Failure>)
      modifies this
      ensures maxHistoryLength == old(maxHistoryLength)
      ensures match Pushed(old(history), maxHistoryLength, Message(role, content))
              case Ok(h) => history == h && outcome == Done
              case Err(f) => history == old(history) && outcome == Raised(f)
      ensures old(Valid()) ==> Valid()
    {
      if |history| >= maxHistoryLength {
        if history == [] {
          return Raised(EmptyPop);
        }
        history := history[1..];
      }
      history := history + [Message(role, content)];
      outcome := Done;
    }

    /** A copy of the history: the same roles and contents in the same order. */
    function GetContextMessages(): (msgs: seq<Message>)
      reads this
      ensures msgs == history
    {
      seq(|history|, i reads this requires 0 <= i < |history| => Message(history[i].role, history[i].content))
    }

    method Reset()
      modifies this
      ensures history == [] && maxHistoryLength == old(maxHistoryLength)
      ensures Valid()
    {
      history := [];
    }
  }

  const ProjectKeywords: seq<string> :=
    ["meeting", "milestone", "requirement", "progress", "task", "action item", "decision", "strategy"]

  /** `any(keyword in query for keyword in keywords)` */
  function AnyKeyword(query: string, keywords: seq<string>): (r: bool)
    ensures r <==> exists k :: k in keywords && Contains(query, k)
  {
    if keywords == [] then false
    else Contains(query, keywords[0]) || AnyKeyword(query, keywords[1..])
  }

  /** An exchange counts as project management when the lower-cased query
      contains one of the eight keywords. */
  predicate IsProjectInteraction(query: string)
  {
    AnyKeyword(Lower(query), ProjectKeywords)
  }

  /** The rule ignores the case of the query. */
  lemma ProjectInteractionIgnoresCase(query: string)
    ensures IsProjectInteraction(Lower(query)) == IsProjectInteraction(query)
  {
    LowerIdempotent(query);
  }

  /** The meeting `ProjectAssistant` logs for a project-management exchange. */
  function InteractionMeeting(query: string, response: string): Dict
  {
    map[
      "participants" := Strs(["AI Assistant", "User"]),
      "key_discussions" := Strs([query]),
      "action_items" := Strs([response]),
      "decisions" := Strs(["Recorded AI-assisted project management interaction"])]
  }

  /** `ProjectAssistant._log_project_interaction`: logs a meeting exactly when
      the query is a project-management one; a failed log is swallowed. */
  method LogProjectInteraction(pm: ProjectManager, query: string, response: string, s: Stamp)
    modifies pm
    ensures !IsProjectInteraction(query) ==>
      && pm.meetings == old(pm.meetings) && pm.requirements == old(pm.requirements)
      && pm.logs == old(pm.logs) && pm.metadataFile == old(pm.metadataFile)
    ensures IsProjectInteraction(query) ==>
      && pm.meetings == old(pm.meetings)[FileName(RecordId(MeetingPrefix, s)) :=
                          Parsed(JObj(MeetingRecord(InteractionMeeting(query, response), s)))]
      && pm.requirements == old(pm.requirements) && pm.logs == old(pm.logs)
      && (exists outcome :: Logged(old(pm.metadataFile), "meetings", RecordId(MeetingPrefix, s), s.touched,
                                   pm.metadataFile, outcome))
  {
    if AnyKeyword(Lower(query), ProjectKeywords) {
      var outcome := pm.LogMeeting(InteractionMeeting(query, response), s);
    }
  }

  /** `reply[:200] + '...'`: at most the first 200 characters, then an ellipsis. */
  function ActionItem(reply: string): (r: string)
    ensures |r| == Min(|reply|, 200) + 3
    ensures StartsWith(reply, r[..|r| - 3])
    ensures r[|r| - 3..] == "..."
    ensures |reply| <= 200 ==> r == reply + "..."
  {
    (if |reply| <= 200 then reply else reply[..200]) + "..."
  }

  /** The meeting `DevAssistant.run` logs after a reply. */
  function ExchangeMeeting(query: string, reply: string): Dict
  {
    map[
      "participants" := Strs(["User", "AI Assistant"]),
      "key_discussions" := Strs([query]),
      "action_items" := Strs([ActionItem(reply)])]
  }

  /** The fixed text before the project context in the system prompt. */
  const PromptOpening :=
    "You are an expert AI assistant helping with the Confidant project.\n\nProject Context:\n"

  /** The fixed text after the project context: the assistant's responsibilities. */
  const PromptDuties :=
    "\n\nYour responsibilities:\n"
    + "- Provide clear, concise, and actionable advice\n"
    + "- Use markdown for code formatting\n"
    + "- Help with project development, design, and strategy\n"
    + "- Break down complex topics into easy-to-understand explanations\n"
    + "- Maintain and build upon the project's context and progress\n"
    + "- Offer strategic insights based on the project's current state"

  /** The system prompt: a fixed role description around the project context. */
  function SystemPrompt(projectContext: string): string
  {
    PromptOpening + projectContext + PromptDuties
  }

  /** The fixed opening of the text the user sees when the turn fails. */
  const RunErrorLead := "An error occurred while processing your request. Please try again. Error details: "

  /** What the user sees when the turn fails before a reply exists. */
  function RunErrorText(detail: string): string
  {
    RunErrorLead + detail
  }

  /** What one `DevAssistant.run` turn shows the user and leaves in the history. */
  datatype TurnResult = TurnResult(reply: string, history: seq<Message>, answered: bool)

  /** The conversation half of a `DevAssistant.run` turn: the user turn is
      added, the model is asked with the whole history, and its reply is
      added. Whatever raises on the way is reported as the error text. */
  function Turn(history: seq<Message>, maxLength: int, query: string, prompt: string,
                complete: (string, seq<Message>) -> Result<string, string>): (t: TurnResult)
    ensures Pushed(history, maxLength, Message("user", query)).Err? ==>
      && !t.answered && t.history == history
      && t.reply == RunErrorText(Describe(Pushed(history, maxLength, Message("user", query)).error))
    ensures Pushed(history, maxLength, Message("user", query)).Ok? ==>
      var asked := Pushed(history, maxLength, Message("user", query)).value;
      && asked[|asked| - 1] == Message("user", query)
      && (t.answered <==> complete(prompt, asked).Ok?)
      && (!t.answered ==> t.history == asked && t.reply == RunErrorText(complete(prompt, asked).error))
      && (t.answered ==> t.reply == complete(prompt, asked).value)
    ensures t.answered ==>
      t.history == Pushed(Pushed(history, maxLength, Message("user", query)).value, maxLength, Message("assistant", t.reply)).value
    ensures t.answered ==> t.history != [] && t.history[|t.history| - 1] == Message("assistant", t.reply)
    ensures t.answered && 2 <= maxLength && WithinCapacity(history, maxLength) ==>
      |t.history| >= 2 && t.history[|t.history| - 2] == Message("user", query)
  {
    match Pushed(history, maxLength, Message("user", query))
    case Err(f) => TurnResult(RunErrorText(Describe(f)), history, false)
    case Ok(asked) =>
      match complete(prompt, asked)
      case Err(e) => TurnResult(RunErrorText(e), asked, false)
      case Ok(answer) =>
        match Pushed(asked, maxLength, Message("assistant", answer))
        case Err(f) => TurnResult(RunErrorText(Describe(f)), asked, false)
        case Ok(h) => TurnResult(answer, h, true)
  }

  /** The conversation half of `DevAssistant.run`, on the shared history. */
  method Converse(conversation: ConversationManager, query: string, systemPrompt: string,
                  complete: (string, seq<Message>) -> Result<string, string>)
    returns (reply: string, answered: bool)
    modifies conversation
    ensures conversation.maxHistoryLength == old(conversation.maxHistoryLength)
    ensures TurnResult(reply, conversation.history, answered)
         == Turn(old(conversation.history), conversation.maxHistoryLength, query, systemPrompt, complete)
  {
    var added := conversation.AddMessage("user", query);
    if added.Raised? {
      return RunErrorText(Describe(added.error)), false;
    }
    var messages := conversation.GetContextMessages();
    var response := complete(systemPrompt, messages);
    if response.Err? {
      return RunErrorText(response.error), false;
    }
    // The history now holds the user turn, so this addition cannot raise.
    var _ := conversation.AddMessage("assistant", response.value);
    reply, answered := response.value, true;
  }

  /** One `DevAssistant.run` turn. The model call is `complete`, from the
      system prompt and the message list to a reply or an error description.
      The project context is read first; after a reply a meeting summarising
      the exchange is logged, best effort. */
  method DevAssistantRun(conversation: ConversationManager, pm: ProjectManager, query: string,
                         complete: (string, seq<Message>) -> Result<string, string>,
                         listing: Listing, now: int, repr: Json -> string, s: Stamp)
    returns (reply: string)
    requires IsListing(listing.meetings, pm.meetings)
    requires IsListing(listing.requirements, pm.requirements)
    requires IsListing(listing.logs, pm.logs)
    modifies conversation, pm
    ensures conversation.maxHistoryLength == old(conversation.maxHistoryLength)
    ensures pm.requirements == old(pm.requirements) && pm.logs == old(pm.logs)
    ensures
      var context := old(ContextText(SummaryOf(pm.projectName, pm.meetings, pm.requirements, pm.logs, listing, 30, now), 30, repr));
      var t := Turn(old(conversation.history), conversation.maxHistoryLength, query, SystemPrompt(context), complete);
      && reply == t.reply && conversation.history == t.history
      && (!t.answered ==> pm.meetings == old(pm.meetings) && pm.metadataFile == old(pm.metadataFile))
      && (t.answered ==>
           && pm.meetings == old(pm.meetings)[FileName(RecordId(MeetingPrefix, s)) :=
                               Parsed(JObj(MeetingRecord(ExchangeMeeting(query, t.reply), s)))]
           && (exists outcome :: Logged(old(pm.metadataFile), "meetings", RecordId(MeetingPrefix, s), s.touched,
                                        pm.metadataFile, outcome)))
  {
    var projectContext := pm.GetRecentContext(None, listing, 30, now, repr);
    var answered;
    reply, answered := Converse(conversation, query, SystemPrompt(projectContext), complete);
    if answered {
      var _ := pm.LogMeeting(ExchangeMeeting(query, reply), s);
    }
  }
}
