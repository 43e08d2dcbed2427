/**
 * The diary entry form (app/components/diary/DiaryForm.tsx): its initial
 * values, the two change handlers and the submit cycle. The submit handler
 * is split at its one `await`: BeginSubmit runs before the caller's
 * `onSubmit`, FinishSubmit after it settles.
 */
module DiaryForm {
  import opened Optional
  import opened DiaryTypes
  import Text

  /** The form state (`Partial<Diary>` as the form fills it). */
  datatype FormData = FormData(title: string, content: string, date: string,
                               isAnalyzed: bool, isComplete: bool,
                               structuredContent: map<string, string>)

  const SaveFailed := "Error saving diary. Please try again."

  /** The sections a new entry starts with. */
  const EmptySections: map<string, string> := map["morning" := "", "afternoon" := "", "evening" := ""]

  /** `iso.split('T')[0]`: the calendar-day part of an ISO timestamp. */
  function DatePart(iso: string): (day: string)
    ensures Text.StartsWith(iso, day)
    ensures forall i :: 0 <= i < |day| ==> day[i] != 'T'
    ensures |day| < |iso| ==> iso[|day|] == 'T'
  {
    Text.SplitHead(iso, Text.Is('T'));
    Text.Split(iso, Text.Is('T'))[0]
  }

  /** The day part of `<day>T<time>` is `<day>`. */
  lemma DatePartOf(day: string, time: string)
    requires forall i :: 0 <= i < |day| ==> day[i] != 'T'
    ensures DatePart(day + "T" + time) == day
  {
    Text.SplitAtSeparator(day, 'T', time, Text.Is('T'));
    Text.SplitWithoutSeparator(day, Text.Is('T'));
  }

  /**
   * The initial form. A new entry is blank, dated today (`nowIso` is
   * `new Date().toISOString()`) and has the three empty sections; an entry
   * being edited contributes its values, each falsy one falling back to the
   * blank value. `toIso` is `new Date(d).toISOString()`.
   */
  function InitialFormData(diary: Option<Diary>, nowIso: string, toIso: string -> string): (f: FormData)
    ensures diary.None? ==> f == FormData("", "", DatePart(nowIso), false, false, EmptySections)
    ensures diary.Some? ==>
              && f.title == diary.value.title && f.content == diary.value.content
              && f.isAnalyzed == diary.value.isAnalyzed && f.isComplete == diary.value.isComplete
              && f.date == DatePart(if diary.value.date != "" then toIso(diary.value.date) else nowIso)
              && f.structuredContent == diary.value.structuredContent.GetOr(EmptySections)
  {
    match diary
    case None => FormData("", "", DatePart(nowIso), false, false, EmptySections)
    case Some(d) =>
      FormData(d.title, d.content, DatePart(if d.date != "" then toIso(d.date) else nowIso),
               d.isAnalyzed, d.isComplete, d.structuredContent.GetOr(EmptySections))
  }

  /** The inputs wired to `handleChange`, by their `name`. */
  datatype TextField = DateField | TitleField | ContentField

  function FieldText(f: FormData, field: TextField): string
  {
    match field
    case DateField => f.date
    case TitleField => f.title
    case ContentField => f.content
  }

  /** `{...prev, [name]: value}`: only the named input's value changes. */
  function SetField(f: FormData, field: TextField, value: string): (r: FormData)
    ensures FieldText(r, field) == value
    ensures forall other :: other != field ==> FieldText(r, other) == FieldText(f, other)
    ensures r.isAnalyzed == f.isAnalyzed && r.isComplete == f.isComplete
    ensures r.structuredContent == f.structuredContent
  {
    match field
    case DateField => f.(date := value)
    case TitleField => f.(title := value)
    case ContentField => f.(content := value)
  }

  /**
   * `name.split('_')[1]`: the section a textarea writes to. A name without
   * an underscore yields `undefined`, which becomes the key "undefined".
   */
  function SectionKey(name: string): (key: string)
    ensures forall i :: 0 <= i < |key| ==> key[i] != '_'
  {
    var pieces := Text.Split(name, Text.Is('_'));
    if |pieces| >= 2 then pieces[1] else "undefined"
  }

  /** A textarea named `content_<period>` writes to `<period>`. */
  lemma SectionKeyOfTextarea(period: string)
    requires forall i :: 0 <= i < |period| ==> period[i] != '_'
    ensures SectionKey("content_" + period) == period
  {
    assert "content_" + period == "content" + ['_'] + period;
    Text.SplitAtSeparator("content", '_', period, Text.Is('_'));
    Text.SplitWithoutSeparator("content", Text.Is('_'));
    Text.SplitWithoutSeparator(period, Text.Is('_'));
  }

  /** The three section textareas write to the three sections a new entry starts with. */
  lemma SectionTextareasMatchSections()
    ensures forall p :: p in Periods ==>
              SectionKey("content_" + TypeName(p)) == TypeName(p) && TypeName(p) in EmptySections
  {
    forall p | p in Periods
      ensures SectionKey("content_" + TypeName(p)) == TypeName(p)
    {
      SectionKeyOfTextarea(TypeName(p));
    }
  }

  /** Writing one section leaves the other sections and every other field as they were. */
  function SetSection(f: FormData, name: string, value: string): (r: FormData)
    ensures SectionKey(name) in r.structuredContent && r.structuredContent[SectionKey(name)] == value
    ensures forall k :: k != SectionKey(name) ==>
              (k in r.structuredContent <==> k in f.structuredContent) &&
              (k in f.structuredContent ==> r.structuredContent[k] == f.structuredContent[k])
    ensures r.(structuredContent := f.structuredContent) == f
  {
    f.(structuredContent := f.structuredContent[SectionKey(name) := value])
  }

  class DiaryForm {
    /** Whether the form edits an existing entry (`diary` was passed). */
    const editing: bool
    var formData: FormData
    var isSubmitting: bool

    constructor(diary: Option<Diary>, nowIso: string, toIso: string -> string)
      ensures editing == diary.Some?
      ensures formData == InitialFormData(diary, nowIso, toIso) && !isSubmitting
    {
      editing := diary.Some?;
      formData := InitialFormData(diary, nowIso, toIso);
      isSubmitting := false;
    }

    method HandleChange(field: TextField, value: string)
      modifies this
      ensures formData == SetField(old(formData), field, value) && isSubmitting == old(isSubmitting)
    {
      formData := SetField(formData, field, value);
    }

    method HandleStructuredContentChange(name: string, value: string)
      modifies this
      ensures formData == SetSection(old(formData), name, value) && isSubmitting == old(isSubmitting)
    {
      formData := SetSection(formData, name, value);
    }

    /** Submit, up to the caller's `onSubmit`: it receives the current form data. */
    method BeginSubmit() returns (submitted: FormData)
      modifies this
      ensures isSubmitting && formData == old(formData) && submitted == formData
    {
      isSubmitting := true;
      submitted := formData;
    }

    /** Submit, once `onSubmit` settled: a rejection raises the save alert; submitting ends. */
    method FinishSubmit(rejected: bool) returns (alert: Option<string>)
      modifies this
      ensures !isSubmitting && formData == old(formData)
      ensures alert == if rejected then Some(SaveFailed) else None
    {
      alert := if rejected then Some(SaveFailed) else None;
      isSubmitting := false;
    }

    /** The submit button's label. */
    function SubmitLabel(): (caption: string)
      reads this
      ensures isSubmitting ==> caption == "Saving..."
      ensures !isSubmitting ==> caption == (if editing then "Update" else "Save")
    {
      if isSubmitting then "Saving..." else if editing then "Update" else "Save"
    }
  }
}
