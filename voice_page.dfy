/**
 * The voice diary page (pages/diary/voice.tsx): loading the entry named by the
 * `id` query parameter with its completion status, the affordances offered
 * for a partly recorded entry (the AI's question, or tabs for the missing
 * parts of the day), the completion panels, the recorder it embeds and where
 * it navigates after a recording.
 *
 * `idParam` is the `id` query parameter ("" when absent); the server's
 * replies are parameters; navigation (`window.location.href = …`) is the
 * returned target.
 */
module VoicePage {
  import opened Optional
  import opened DiaryTypes
  import Api
  import Text
  import Recorder

  const AskingQuestion := "asking_question"
  const SupplementTitle := "Supplement Diary"
  const CreateTitle := "Create Voice Diary"
  const VoicePath := "/diary/voice"

  // ---------------------------------------------------------------------------
  // Navigation targets

  /** A JavaScript number interpolated into a template string. */
  function NumberText(x: Api.JsNumber): string
  {
    match x
    case Num(n) => Text.IntToString(n)
    case NaN => "NaN"
    case Undefined => "undefined"
  }

  /** `handleNewDiarySuccess`: the page of the new entry, named in the query string. */
  function NewDiaryHref(id: Api.JsNumber): string
  {
    VoicePath + "?id=" + NumberText(id)
  }

  /** The entry's own page. */
  function EntryHref(id: int): string
  {
    "/diary/" + Text.IntToString(id)
  }

  /**
   * After a new recording the page reloads on the new entry: the `id`
   * parameter it is sent to parses back to the entry's id.
   */
  lemma NewDiaryIdRoundTrip(n: int)
    ensures var href := NewDiaryHref(Api.Num(n));
            var prefix := VoicePath + "?id=";
            && href[..|prefix|] == prefix
            && Text.ParseInt(href[|prefix|..]) == Some(n)
  {
    var prefix := VoicePath + "?id=";
    assert NewDiaryHref(Api.Num(n))[|prefix|..] == Text.IntToString(n);
    Text.ParseIntRoundTrip(n);
  }

  /** A reply without a usable id sends the page to an `id` that does not parse: it starts a new entry. */
  lemma MissingIdStartsOver(id: Api.JsNumber)
    requires !id.Num?
    ensures Text.ParseInt(NumberText(id)) == None
  {
    var s := NumberText(id);
    assert s[0] == 'N' || s[0] == 'u';
    Text.TrimStartKeeps(s);
  }

  // ---------------------------------------------------------------------------
  // The missing-information affordances

  /** What `renderMissingInfoTabs` shows. */
  datatype Affordance =
    | Nothing
    | AnswerQuestion(question: string)
    | PeriodTabs(tabs: seq<SupplementType>, suggestion: Option<string>)

  /** The left-to-right order of the tabs. */
  function TabOrder(t: SupplementType): nat
  {
    match t
    case Morning => 0
    case Afternoon => 1
    case Evening => 2
    case General => 3
    case QuestionResponse => 4
  }

  /** A tab for each missing period of the day, in the day's order, then General. */
  function TabsFor(missing: seq<string>): (tabs: seq<SupplementType>)
    ensures |tabs| >= 1 && tabs[|tabs| - 1] == General
    ensures forall t :: t in tabs <==> t == General || (t.IsPeriod() && TypeName(t) in missing)
    ensures forall i, j :: 0 <= i < j < |tabs| ==> TabOrder(tabs[i]) < TabOrder(tabs[j])
  {
    (if TypeName(Morning) in missing then [Morning] else []) +
    (if TypeName(Afternoon) in missing then [Afternoon] else []) +
    (if TypeName(Evening) in missing then [Evening] else []) +
    [General]
  }

  /**
   * `renderMissingInfoTabs`: nothing without a status; the AI's question
   * when the conversation is asking one (whatever else the status says);
   * nothing for a complete entry or one with nothing missing; otherwise the
   * tabs, with the AI's suggestion when there is one.
   */
  function MissingInfoTabs(status: Option<Api.CompletionStatus>): (a: Affordance)
    ensures status.None? ==> a == Nothing
    ensures status.Some? ==>
              var s := status.value;
              var asks := s.conversationPhase == AskingQuestion && s.meaningfulQuestion != "";
              && (a.AnswerQuestion? <==> asks)
              && (a.AnswerQuestion? ==> a.question == s.meaningfulQuestion)
              && (a.PeriodTabs? <==> !asks && !s.complete && s.missingInformation != [])
              && (a.PeriodTabs? ==> a.tabs == TabsFor(s.missingInformation))
              && (a.PeriodTabs? ==> (a.suggestion.Some? <==> s.nextQuestion != ""))
              && (a.PeriodTabs? && a.suggestion.Some? ==> a.suggestion.value == s.nextQuestion)
  {
    match status
    case None => Nothing
    case Some(s) =>
      if s.conversationPhase == AskingQuestion && s.meaningfulQuestion != "" then AnswerQuestion(s.meaningfulQuestion)
      else if s.complete || s.missingInformation == [] then Nothing
      else PeriodTabs(TabsFor(s.missingInformation), if s.nextQuestion != "" then Some(s.nextQuestion) else None)
  }

  /**
   * A status in the backend's shape carries no conversation phase, so the
   * page never asks the AI's question for it.
   */
  lemma BackendStatusNeverAsks(body: Api.CompletionBody)
    requires body.BackendShape?
    ensures !MissingInfoTabs(Some(Api.NormalizeCompletion(body))).AnswerQuestion?
  {
  }

  // ---------------------------------------------------------------------------
  // The panels

  /** The completion panel under the affordances. */
  datatype Panel = NoPanel | CompletePanel(href: string) | StatusPanel(morning: bool, afternoon: bool, evening: bool)

  /** `diary?.structuredContent?.<period>` is a non-empty text. */
  predicate PeriodRecorded(d: Diary, p: SupplementType)
  {
    d.structuredContent.Some? && TypeName(p) in d.structuredContent.value && d.structuredContent.value[TypeName(p)] != ""
  }

  /**
   * The panel for an entry with its status: the link to the analysis for a
   * complete entry; the per-period status while incomplete and not asking a
   * question; nothing while the AI's question is pending.
   */
  function PanelFor(d: Diary, s: Api.CompletionStatus): (p: Panel)
    ensures p.CompletePanel? <==> s.complete
    ensures p.CompletePanel? ==> p.href == EntryHref(d.id)
    ensures p.StatusPanel? <==> !s.complete && s.conversationPhase != AskingQuestion
    ensures p.StatusPanel? ==>
              && (p.morning <==> PeriodRecorded(d, Morning))
              && (p.afternoon <==> PeriodRecorded(d, Afternoon))
              && (p.evening <==> PeriodRecorded(d, Evening))
  {
    if s.complete then CompletePanel(EntryHref(d.id))
    else if s.conversationPhase != AskingQuestion then
      StatusPanel(PeriodRecorded(d, Morning), PeriodRecorded(d, Afternoon), PeriodRecorded(d, Evening))
    else NoPanel
  }

  /** The AI's question and the per-period status are never shown together. */
  lemma QuestionHidesStatus(d: Diary, s: Api.CompletionStatus)
    requires MissingInfoTabs(Some(s)).AnswerQuestion?
    ensures !PanelFor(d, s).StatusPanel?
  {
  }

  /** Tabs for missing parts are never shown next to the "complete" panel. */
  lemma TabsOnlyWhileIncomplete(d: Diary, s: Api.CompletionStatus)
    requires MissingInfoTabs(Some(s)).PeriodTabs?
    ensures !PanelFor(d, s).CompletePanel?
  {
  }

  /**
   * A complete entry offers no tabs and links to its own page (it may still
   * show the AI's question if the status also carries one).
   */
  lemma CompleteOffersNoTabs(d: Diary, s: Api.CompletionStatus)
    requires s.complete
    ensures !MissingInfoTabs(Some(s)).PeriodTabs?
    ensures PanelFor(d, s) == CompletePanel(EntryHref(d.id))
  {
  }

  /** A fresh entry missing the whole day offers the three period tabs, then General. */
  lemma WholeDayMissingOffersEveryTab(s: Api.CompletionStatus)
    requires !s.complete && s.conversationPhase == "collecting_info"
    requires s.missingInformation == ["morning", "afternoon", "evening"]
    ensures MissingInfoTabs(Some(s)).PeriodTabs?
    ensures MissingInfoTabs(Some(s)).tabs == [Morning, Afternoon, Evening, General]
  {
  }

  // ---------------------------------------------------------------------------
  // The embedded recorder

  /**
   * The recorder's `supplementFor`: present exactly when an entry is loaded,
   * naming it, the active tab and the AI's question ("" without a status).
   */
  function RecorderTarget(diary: Option<Diary>, status: Option<Api.CompletionStatus>, activeTab: SupplementType)
    : (t: Option<Recorder.SupplementTarget>)
    ensures t.Some? <==> diary.Some?
    ensures t.Some? ==> t.value.diaryId == diary.value.id && t.value.kind == activeTab
    ensures t.Some? && status.Some? ==> t.value.question == status.value.meaningfulQuestion
    ensures t.Some? && status.None? ==> t.value.question == ""
  {
    if diary.None? then None
    else Some(Recorder.SupplementTarget(diary.value.id, activeTab,
                                        if status.Some? then status.value.meaningfulQuestion else ""))
  }

  /**
   * Answering the AI's question: once its button selected the question tab,
   * the recording is sent for the loaded entry as a question response that
   * carries the question.
   */
  lemma AnswerCarriesQuestion(d: Diary, s: Api.CompletionStatus, today: string)
    requires MissingInfoTabs(Some(s)).AnswerQuestion?
    ensures var fields := Recorder.TextFields(RecorderTarget(Some(d), Some(s), QuestionResponse), today);
            && Recorder.FieldValue(fields, "question") == Some(s.meaningfulQuestion)
            && Recorder.FieldValue(fields, "supplementType") == Some(TypeName(QuestionResponse))
            && Recorder.FieldValue(fields, "diaryId") == Some(Text.IntToString(d.id))
  {
  }

  // ---------------------------------------------------------------------------
  // The page

  datatype View =
    | LoadingView
    | PageView(title: string, affordance: Affordance, panel: Panel, recorder: Option<Recorder.SupplementTarget>)

  class VoicePage {
    var diary: Option<Diary>
    var completionStatus: Option<Api.CompletionStatus>
    var loading: bool
    var activeTab: SupplementType

    constructor()
      ensures diary == None && completionStatus == None && loading && activeTab == General
    {
      diary := None;
      completionStatus := None;
      loading := true;
      activeTab := General;
    }

    /**
     * `loadDiary`: without an `id`, or with one that does not parse, nothing
     * is fetched (`requested` is none); otherwise the entry is fetched and
     * stored, then its status. A failed fetch leaves what was not fetched
     * as it was; loading ends in every case.
     */
    method LoadDiary(idParam: string, diaryReply: Api.Remote<Diary>, statusReply: Api.Remote<Api.CompletionBody>)
      returns (requested: Option<int>)
      modifies this
      ensures requested == if idParam == "" then None else Text.ParseInt(idParam)
      ensures !loading && activeTab == old(activeTab)
      ensures requested.None? ==> diary == old(diary) && completionStatus == old(completionStatus)
      ensures requested.Some? ==>
                var fetched := Api.GetDiary(diaryReply);
                var status := Api.GetDiaryCompletionStatus(statusReply);
                && diary == (if fetched.Returned? then Some(fetched.value) else old(diary))
                && completionStatus == (if fetched.Returned? && status.Returned? then Some(status.value)
                                        else old(completionStatus))
    {
      if idParam == "" {
        loading := false;
        return None;
      }
      loading := true;
      requested := Text.ParseInt(idParam);
      if requested.None? {
        loading := false;
        return;
      }
      var fetched := Api.GetDiary(diaryReply);
      if fetched.Returned? {
        diary := Some(fetched.value);
        var status := Api.GetDiaryCompletionStatus(statusReply);
        if status.Returned? {
          completionStatus := Some(status.value);
        }
      }
      loading := false;
    }

    /**
     * `handleSupplementSuccess`: an id that is 0, NaN or missing is ignored;
     * otherwise the entry and then its status are fetched again, and the page
     * moves to the entry's own page exactly when the status says the entry
     * is complete.
     */
    method HandleSupplementSuccess(id: Api.JsNumber, diaryReply: Api.Remote<Diary>,
                                   statusReply: Api.Remote<Api.CompletionBody>)
      returns (navigateTo: Option<string>)
      modifies this
      ensures loading == old(loading) && activeTab == old(activeTab)
      ensures !(id.Num? && id.n != 0) ==>
                navigateTo == None && diary == old(diary) && completionStatus == old(completionStatus)
      ensures id.Num? && id.n != 0 ==>
                var fetched := Api.GetDiary(diaryReply);
                var status := Api.GetDiaryCompletionStatus(statusReply);
                && diary == (if fetched.Returned? then Some(fetched.value) else old(diary))
                && completionStatus == (if fetched.Returned? && status.Returned? then Some(status.value)
                                        else old(completionStatus))
                && (navigateTo.Some? <==> fetched.Returned? && status.Returned? && status.value.complete)
                && (navigateTo.Some? ==> navigateTo.value == EntryHref(id.n))
    {
      if !(id.Num? && id.n != 0) {
        return None;
      }
      navigateTo := None;
      var fetched := Api.GetDiary(diaryReply);
      if fetched.Returned? {
        diary := Some(fetched.value);
        var status := Api.GetDiaryCompletionStatus(statusReply);
        if status.Returned? {
          completionStatus := Some(status.value);
          if status.value.complete {
            navigateTo := Some(EntryHref(id.n));
          }
        }
      }
    }

    /** A tab button, or the question's "Respond to Question" button. */
    method SelectTab(t: SupplementType)
      modifies this
      ensures activeTab == t
      ensures diary == old(diary) && completionStatus == old(completionStatus) && loading == old(loading)
    {
      activeTab := t;
    }

    /**
     * What the page shows: the loading notice while loading; otherwise the
     * title, the affordances and the panel (only with both an entry and its
     * status), and the recorder, supplementing the loaded entry if there is
     * one and recording a new entry if not.
     */
    function Render(): (v: View)
      reads this
      ensures v.LoadingView? <==> loading
      ensures v.PageView? ==>
                && v.title == (if diary.Some? then SupplementTitle else CreateTitle)
                && (v.affordance != Nothing ==> diary.Some? && completionStatus.Some?)
                && (diary.Some? ==> v.affordance == MissingInfoTabs(completionStatus))
                && (v.panel != NoPanel ==> diary.Some? && completionStatus.Some?)
                && (diary.Some? && completionStatus.Some? ==> v.panel == PanelFor(diary.value, completionStatus.value))
                && v.recorder == RecorderTarget(diary, completionStatus, activeTab)
    {
      if loading then LoadingView
      else
        var both := diary.Some? && completionStatus.Some?;
        PageView(if diary.Some? then SupplementTitle else CreateTitle,
                 if both then MissingInfoTabs(completionStatus) else Nothing,
                 if both then PanelFor(diary.value, completionStatus.value) else NoPanel,
                 RecorderTarget(diary, completionStatus, activeTab))
    }
  }
}
