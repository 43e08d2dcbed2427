/**
 * The diary card (app/components/diary/DiaryCard.tsx): the sentiment icon
 * chosen from the analysed emotion and the fallbacks for missing fields.
 */
module DiaryCard {
  import opened Optional
  import opened DiaryTypes
  import Text

  datatype Icon = Sun | Moon | Skull

  const BrightWords: seq<string> := ["joy", "happy", "positive"]
  const DarkWords: seq<string> := ["sad", "anger", "negative"]

  /** Some word of `words` occurs in `s`. */
  predicate MentionsAny(s: string, words: seq<string>)
  {
    exists k :: 0 <= k < |words| && Text.Contains(s, words[k])
  }

  /** `analysis?.feelings?.emotion`, "" where any link is missing. */
  function Emotion(d: Diary): (e: string)
    ensures d.analysis.None? ==> e == ""
  {
    if d.analysis.Some? then d.analysis.value.emotion else ""
  }

  /**
   * The sentiment icon: a skull for a missing emotion; otherwise, on the
   * lower-cased emotion, a sun for a bright word, else a moon for a dark
   * word, else a skull.
   */
  function SentimentIcon(emotion: string): (i: Icon)
    ensures i == Sun <==> emotion != "" && MentionsAny(Text.Lower(emotion), BrightWords)
    ensures i == Moon <==> emotion != "" && !MentionsAny(Text.Lower(emotion), BrightWords)
                                         && MentionsAny(Text.Lower(emotion), DarkWords)
  {
    if emotion == "" then Skull
    else
      var sentiment := Text.Lower(emotion);
      if MentionsAny(sentiment, BrightWords) then Sun
      else if MentionsAny(sentiment, DarkWords) then Moon
      else Skull
  }

  /** A bright word wins over a dark one in the same emotion. */
  lemma BrightWins(emotion: string, k: nat)
    requires k < |BrightWords| && Text.Contains(Text.Lower(emotion), BrightWords[k])
    ensures SentimentIcon(emotion) == Sun
  {
  }

  /** Lower-casing the emotion first does not change the icon. */
  lemma CaseDoesNotMatter(emotion: string)
    ensures SentimentIcon(Text.Lower(emotion)) == SentimentIcon(emotion)
  {
    var once := Text.Lower(emotion);
    assert Text.Lower(once) == once;
    assert once == "" <==> emotion == "";
  }

  /** A bright word written in any case, say "JOY" or "Happy", still gives the sun. */
  lemma AnyCaseBrightGivesSun(emotion: string, w: string, at: int)
    requires Text.Lower(w) in BrightWords && Text.OccursAt(emotion, w, at)
    ensures SentimentIcon(emotion) == Sun
  {
    Text.LowerKeepsOccurrence(emotion, w, at);
    var k :| 0 <= k < |BrightWords| && BrightWords[k] == Text.Lower(w);
    assert Text.OccursAt(Text.Lower(emotion), BrightWords[k], at);
    assert emotion != "" by {
      assert |Text.Lower(w)| > 0;
    }
  }

  function DateLabel(d: Diary, format: string -> string): (s: string)
    ensures d.date == "" ==> s == "Undated entry"
    ensures d.date != "" ==> s == format(d.date)
  {
    if d.date != "" then format(d.date) else "Undated entry"
  }

  function TitleLabel(d: Diary): (s: string)
    ensures s != ""
    ensures d.title != "" ==> s == d.title
    ensures d.title == "" ==> s == "Untitled Chronicle"
  {
    if d.title != "" then d.title else "Untitled Chronicle"
  }

  function ContentLabel(d: Diary): (s: string)
    ensures s != ""
    ensures d.content != "" ==> s == d.content
    ensures d.content == "" ==> s == "No content"
  {
    if d.content != "" then d.content else "No content"
  }

  /** The aura badge: shown only for an entry with an emotion, with its icon and text. */
  function Aura(d: Diary): (a: Option<(Icon, string)>)
    ensures a.Some? <==> Emotion(d) != ""
    ensures a.Some? ==> a.value.1 == Emotion(d)
    ensures a.Some? ==>
              (a.value.0 == Skull <==>
                 (!MentionsAny(Text.Lower(Emotion(d)), BrightWords) && !MentionsAny(Text.Lower(Emotion(d)), DarkWords)))
  {
    if Emotion(d) == "" then None else Some((SentimentIcon(Emotion(d)), Emotion(d)))
  }
}
