/**
 * The diary service client (app/lib/api.ts): the bearer-header rule, token
 * storage on login/register/logout, the error policy of each remote call and
 * the normalisation of completion-status replies. Each remote call is an
 * input `Remote<T>`: the body the server answered, or a failure (the HTTP
 * transport is not modelled).
 */
module Api {
  import opened Optional
  import opened DiaryTypes
  import opened BrowserStorage

  /** What a remote call produced: the response body, or a rejected request. */
  datatype Remote<T> = Answered(body: T) | Failed

  /** What an api.ts function gives its caller: a value, or a thrown Error with its message. */
  datatype Outcome<T> = Returned(value: T) | Threw(message: string)

  /** A JavaScript number as the client receives it: an integer, NaN or undefined. */
  datatype JsNumber = Num(n: int) | NaN | Undefined

  // ---------------------------------------------------------------------------
  // Request interceptor

  const AuthorizationHeader := "Authorization"

  /**
   * The headers the interceptor leaves on a request: `Authorization: Bearer
   * <token>` is added exactly when the code runs in a browser and a non-empty
   * token is stored; otherwise the headers are untouched.
   */
  function WithBearer(headers: map<string, string>, isClient: bool, stored: Option<string>)
    : (h: map<string, string>)
    ensures var attach := isClient && stored.Some? && stored.value != "";
            && (attach ==> AuthorizationHeader in h && h[AuthorizationHeader] == "Bearer " + stored.value)
            && (!attach ==> h == headers)
            && h.Keys == headers.Keys + (if attach then {AuthorizationHeader} else {})
            && forall k :: k in headers && k != AuthorizationHeader ==> h[k] == headers[k]
  {
    if isClient && stored.Some? && stored.value != "" then
      headers[AuthorizationHeader := "Bearer " + stored.value]
    else headers
  }

  /** The per-request config object the interceptor mutates. */
  class RequestConfig {
    var headers: map<string, string>

    constructor(headers: map<string, string>)
      ensures this.headers == headers
    {
      this.headers := headers;
    }
  }

  /** The request interceptor: reads the stored token and sets the header in place. */
  method Intercept(config: RequestConfig, b: Browser)
    modifies config
    ensures config.headers == WithBearer(old(config.headers), b.isClient, b.GetItem(TokenKey))
  {
    if b.isClient {
      var token := b.GetItem(TokenKey);
      if token.Some? && token.value != "" {
        config.headers := config.headers[AuthorizationHeader := "Bearer " + token.value];
      }
    }
  }

  // ---------------------------------------------------------------------------
  // Authentication calls

  const LoginFailed := "Authentication failed. Please check your credentials."
  const RegisterFailed := "Registration failed. Please try again."

  /** Whether a login/register reply makes the client store its token. */
  predicate CarriesToken(t: JwtToken)
  {
    t.accessToken != ""
  }

  /** Stores the reply's token in localStorage and the cookie, when it has one. */
  method StoreToken(b: Browser, t: JwtToken)
    modifies b
    ensures CarriesToken(t) ==> b.local == old(b.local)[TokenKey := t.accessToken] && b.cookie == Some(t.accessToken)
    ensures !CarriesToken(t) ==> b.local == old(b.local) && b.cookie == old(b.cookie)
  {
    if t.accessToken != "" {
      b.SetItem(TokenKey, t.accessToken);
      b.SetTokenCookie(t.accessToken);
    }
  }

  /** `login`: a failed request throws a fixed message and stores nothing. */
  method Login(b: Browser, reply: Remote<JwtToken>) returns (r: Outcome<JwtToken>)
    modifies b
    ensures reply.Failed? ==> r == Threw(LoginFailed) && b.local == old(b.local) && b.cookie == old(b.cookie)
    ensures reply.Answered? ==> r == Returned(reply.body)
    ensures reply.Answered? && CarriesToken(reply.body) ==>
              b.local == old(b.local)[TokenKey := reply.body.accessToken] && b.cookie == Some(reply.body.accessToken)
    ensures reply.Answered? && !CarriesToken(reply.body) ==> b.local == old(b.local) && b.cookie == old(b.cookie)
  {
    if reply.Failed? {
      return Threw(LoginFailed);
    }
    StoreToken(b, reply.body);
    r := Returned(reply.body);
  }

  /** `register`: the same token rule as `login`, with its own failure message. */
  method Register(b: Browser, reply: Remote<JwtToken>) returns (r: Outcome<JwtToken>)
    modifies b
    ensures reply.Failed? ==> r == Threw(RegisterFailed) && b.local == old(b.local) && b.cookie == old(b.cookie)
    ensures reply.Answered? ==> r == Returned(reply.body)
    ensures reply.Answered? && CarriesToken(reply.body) ==>
              b.local == old(b.local)[TokenKey := reply.body.accessToken] && b.cookie == Some(reply.body.accessToken)
    ensures reply.Answered? && !CarriesToken(reply.body) ==> b.local == old(b.local) && b.cookie == old(b.cookie)
  {
    if reply.Failed? {
      return Threw(RegisterFailed);
    }
    StoreToken(b, reply.body);
    r := Returned(reply.body);
  }

  /** `logout`: forgets the stored token and expires the cookie. */
  method Logout(b: Browser)
    modifies b
    ensures b.local == old(b.local) - {TokenKey} && b.cookie == None
  {
    b.RemoveItem(TokenKey);
    b.ExpireTokenCookie();
  }

  // ---------------------------------------------------------------------------
  // Error policy of the diary calls

  const LoadDiaryFailed := "Error loading diary. Please try again."
  const CreateDiaryFailed := "Error creating diary. Please try again."
  const UpdateDiaryFailed := "Error updating diary. Please try again."
  const DeleteDiaryFailed := "Error deleting diary. Please try again."
  const AnalysisFailed := "Error retrieving AI analysis. Please try again."
  const SubmitVoiceFailed := "Error submitting voice diary. Please try again."
  const SupplementVoiceFailed := "Error adding supplementary information. Please try again."
  const CompletionStatusFailed := "Error checking diary completion status. Please try again."

  /** `getDiaries` swallows a failure: the caller sees an empty list. */
  function GetDiaries(reply: Remote<seq<Diary>>): (r: seq<Diary>)
    ensures reply.Failed? ==> r == []
    ensures reply.Answered? ==> r == reply.body
  {
    if reply.Failed? then [] else reply.body
  }

  /** The rethrow policy: the body is returned, a failure becomes `message`. */
  function Rethrow<T>(reply: Remote<T>, message: string): (r: Outcome<T>)
    ensures r.Threw? <==> reply.Failed?
    ensures r.Threw? ==> r.message == message
    ensures r.Returned? ==> r.value == reply.body
  {
    match reply
    case Answered(body) => Returned(body)
    case Failed => Threw(message)
  }

  function GetDiary(reply: Remote<Diary>): Outcome<Diary>
  {
    Rethrow(reply, LoadDiaryFailed)
  }

  function CreateDiary(reply: Remote<Diary>): Outcome<Diary>
  {
    Rethrow(reply, CreateDiaryFailed)
  }

  function UpdateDiary(reply: Remote<Diary>): Outcome<Diary>
  {
    Rethrow(reply, UpdateDiaryFailed)
  }

  /** `deleteDiary` ignores the body: success is `true`, failure throws. */
  function DeleteDiary(reply: Remote<()>): (r: Outcome<bool>)
    ensures reply.Answered? <==> r == Returned(true)
    ensures reply.Failed? <==> r == Threw(DeleteDiaryFailed)
  {
    if reply.Answered? then Returned(true) else Threw(DeleteDiaryFailed)
  }

  function GetAiAnalysis(reply: Remote<Analysis>): Outcome<Analysis>
  {
    Rethrow(reply, AnalysisFailed)
  }

  /** The reply to a voice submission, new or supplementary ("" = field absent). */
  datatype VoiceReply = VoiceReply(message: string, diaryId: JsNumber, success: bool,
                                   conversationPhase: string, nextQuestion: string,
                                   meaningfulQuestion: string)

  function SubmitVoiceDiary(reply: Remote<VoiceReply>): Outcome<VoiceReply>
  {
    Rethrow(reply, SubmitVoiceFailed)
  }

  function SupplementVoiceDiary(reply: Remote<VoiceReply>): Outcome<VoiceReply>
  {
    Rethrow(reply, SupplementVoiceFailed)
  }

  /** Every failing call names its own operation. */
  lemma FailureMessagesDistinct()
    ensures var ms := [LoadDiaryFailed, CreateDiaryFailed, UpdateDiaryFailed, DeleteDiaryFailed,
                       AnalysisFailed, SubmitVoiceFailed, SupplementVoiceFailed, CompletionStatusFailed,
                       LoginFailed, RegisterFailed];
            forall i, j :: 0 <= i < j < |ms| ==> ms[i] != ms[j]
  {
  }

  // ---------------------------------------------------------------------------
  // Completion status

  /**
   * The completion status the client works from ("" = string field absent,
   * [] = log absent).
   */
  datatype CompletionStatus = CompletionStatus(complete: bool, missingInformation: seq<string>,
                                               conversationPhase: string, nextQuestion: string,
                                               meaningfulQuestion: string, conversationLog: seq<Message>)

  /**
   * A completion-status body as the server sends it: either with an
   * `isComplete` field (the backend's shape, whose other fields may be
   * missing) or already in the client's shape.
   */
  datatype CompletionBody =
    | BackendShape(isComplete: bool, missing: Option<seq<string>>, phase: string,
                   next: string, question: string, log: seq<Message>)
    | ClientShape(status: CompletionStatus)

  /**
   * Normalisation of a completion-status body: a body with `isComplete`
   * becomes `{complete, missingInformation}` (phase, questions and log are
   * dropped); any other body is taken as it is.
   */
  function NormalizeCompletion(body: CompletionBody): (r: CompletionStatus)
    ensures body.BackendShape? ==>
              && r.complete == body.isComplete
              && r.missingInformation == body.missing.GetOr([])
              && r.conversationPhase == "" && r.nextQuestion == "" && r.meaningfulQuestion == ""
              && r.conversationLog == []
    ensures body.ClientShape? ==> r == body.status
  {
    match body
    case BackendShape(isComplete, missing, _, _, _, _) =>
      CompletionStatus(isComplete, missing.GetOr([]), "", "", "", [])
    case ClientShape(status) => status
  }

  /** Normalising twice changes nothing. */
  lemma NormalizeIdempotent(body: CompletionBody)
    ensures NormalizeCompletion(ClientShape(NormalizeCompletion(body))) == NormalizeCompletion(body)
  {
  }

  function GetDiaryCompletionStatus(reply: Remote<CompletionBody>): (r: Outcome<CompletionStatus>)
    ensures reply.Failed? ==> r == Threw(CompletionStatusFailed)
    ensures reply.Answered? ==> r == Returned(NormalizeCompletion(reply.body))
  {
    match reply
    case Answered(body) => Returned(NormalizeCompletion(body))
    case Failed => Threw(CompletionStatusFailed)
  }
}
