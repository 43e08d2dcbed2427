/**
 * The entities of the diary client (app/types/index.ts).
 *
 * Optional string fields whose every use in the client is a truthiness test
 * (`x || fallback`, `if (x)`) are plain `string`s, with "" standing for both
 * "absent" and "empty".
 */
module DiaryTypes {
  import opened Optional

  datatype User = User(id: int, username: string, email: string)

  /** The server-side conversation phase of a diary entry (ConversationPhase). */
  datatype Phase = CollectingInfo | AskingQuestion | Complete

  /** The wire name of a phase. */
  function PhaseName(p: Phase): string
  {
    match p
    case CollectingInfo => "collecting_info"
    case AskingQuestion => "asking_question"
    case Complete => "complete"
  }

  /** The phase a wire string names, if any. */
  function ParsePhase(s: string): (r: Option<Phase>)
    ensures forall p :: r == Some(p) <==> s == PhaseName(p)
  {
    if s == "collecting_info" then Some(CollectingInfo)
    else if s == "asking_question" then Some(AskingQuestion)
    else if s == "complete" then Some(Complete)
    else None
  }

  /** What a voice recording is tagged with when it supplements an entry. */
  datatype SupplementType = Morning | Afternoon | Evening | General | QuestionResponse {
    predicate IsPeriod()
    {
      Morning? || Afternoon? || Evening?
    }
  }

  /** The wire name of a supplement type (also the period names of `missingInformation`). */
  function TypeName(t: SupplementType): string
  {
    match t
    case Morning => "morning"
    case Afternoon => "afternoon"
    case Evening => "evening"
    case General => "general"
    case QuestionResponse => "question_response"
  }

  /** The three periods of a day, in display order. */
  const Periods: seq<SupplementType> := [Morning, Afternoon, Evening]

  datatype Role = UserTurn | AssistantTurn

  /** One turn of the conversation log; the timestamp is an abstract instant. */
  datatype Message = Message(role: Role, content: string, timestamp: Option<int>)

  /** The sentiment analysis attached to an entry (DiaryAnalysis). */
  datatype Analysis = Analysis(emotion: string, reason: string, keywords: seq<string>,
                               summary: map<string, string>, question: string)

  /**
   * A diary entry as the server returns it. `structuredContent` maps period
   * names to their text; `date` is the server's date string.
   */
  datatype Diary = Diary(id: int, title: string, content: string, date: string,
                         structuredContent: Option<map<string, string>>,
                         analysis: Option<Analysis>, isAnalyzed: bool, isComplete: bool)

  /** The login/register reply (JwtToken); `success` may be missing from it. */
  datatype JwtToken = JwtToken(success: Option<bool>, message: string, accessToken: string)

  datatype Credentials = Credentials(username: string, password: string)

  /** What `new Date(s)` reads from a valid date string: an instant and its calendar fields. */
  datatype DateInfo = DateInfo(time: int, year: int, month: int, day: int)
}
