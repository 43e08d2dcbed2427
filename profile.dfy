/**
 * The profile page statistics (pages/profile/index.tsx): the entry count,
 * the word count and the three most recent entries. `time` is the instant
 * of an entry's date.
 */
module ProfilePage {
  import opened Optional
  import opened DiaryTypes
  import opened Collections
  import Text

  /**
   * `content.split(/\s+/).filter(word => word.length > 0)`. Splitting at every
   * single whitespace character and dropping the empty pieces gives the same
   * words as splitting at whitespace runs.
   */
  function Words(content: string): (words: seq<string>)
    ensures forall k :: 0 <= k < |words| ==> words[k] != ""
    ensures forall k, i :: 0 <= k < |words| && 0 <= i < |words[k]| ==> !Text.IsSpace(words[k][i])
  {
    Text.NonEmpty(Text.Split(content, Text.IsSpace))
  }

  function WordCount(content: string): nat
  {
    |Words(content)|
  }

  /** Text without whitespace is one word, or none when it is empty. */
  lemma OneWord(w: string)
    requires forall i :: 0 <= i < |w| ==> !Text.IsSpace(w[i])
    ensures WordCount(w) == if w == "" then 0 else 1
  {
    Text.SplitWithoutSeparator(w, Text.IsSpace);
    assert Text.NonEmpty([w]) == (if w == [] then [] else [w]) by {
      assert [w][1..] == [];
    }
  }

  /** Whitespace separates: the words of `a c b` are those of `a` followed by those of `b`. */
  lemma WordsAcrossSpace(a: string, c: char, b: string)
    requires Text.IsSpace(c)
    ensures Words(a + [c] + b) == Words(a) + Words(b)
    ensures WordCount(a + [c] + b) == WordCount(a) + WordCount(b)
  {
    Text.SplitAtSeparator(a, c, b, Text.IsSpace);
    Text.NonEmptyAppend(Text.Split(a, Text.IsSpace), Text.Split(b, Text.IsSpace));
  }

  /** `diaries.reduce((count, d) => count + words(d.content || ''), 0)`. */
  function TotalWords(diaries: seq<Diary>): nat
  {
    if diaries == [] then 0
    else TotalWords(diaries[..|diaries| - 1]) + WordCount(diaries[|diaries| - 1].content)
  }

  /** The total over two lists is the sum of their totals. */
  lemma {:induction false} TotalWordsAppend(xs: seq<Diary>, ys: seq<Diary>)
    ensures TotalWords(xs + ys) == TotalWords(xs) + TotalWords(ys)
    decreases |ys|
  {
    if ys == [] {
      assert xs + ys == xs;
    } else {
      var init := ys[..|ys| - 1];
      assert (xs + ys)[..|xs + ys| - 1] == xs + init;
      TotalWordsAppend(xs, init);
    }
  }

  /** An entry without content adds no words. */
  lemma EmptyContentAddsNothing(xs: seq<Diary>, d: Diary)
    requires d.content == ""
    ensures TotalWords(xs + [d]) == TotalWords(xs)
  {
    assert (xs + [d])[..|xs + [d]| - 1] == xs;
    assert Words("") == [];
  }

  /** `totalEntries`. */
  function TotalEntries(diaries: seq<Diary>): nat
  {
    |diaries|
  }

  /**
   * `[...diaries].sort(most recent first).slice(0, 3)`: at most three entries,
   * most recent first, all taken from the list, and no entry left out is
   * more recent than any kept one. The sort works on a copy, so the list
   * itself keeps its order.
   */
  function RecentEntries(diaries: seq<Diary>, time: Diary -> int): (recent: seq<Diary>)
    ensures |recent| == if |diaries| < 3 then |diaries| else 3
    ensures SortedDesc(recent, time)
    ensures multiset(recent) <= multiset(diaries)
    ensures forall x, y :: x in multiset(diaries) - multiset(recent) && y in recent ==> time(x) <= time(y)
  {
    var sorted := SortDesc(diaries, time);
    TakeOfSorted(sorted, 3, time);
    Take(sorted, 3)
  }

  /** The first `n` of a sorted list are sorted, and beat everything after them. */
  lemma TakeOfSorted(s: seq<Diary>, n: nat, time: Diary -> int)
    requires SortedDesc(s, time)
    ensures SortedDesc(Take(s, n), time)
    ensures multiset(Take(s, n)) <= multiset(s)
    ensures forall x, y :: x in multiset(s) - multiset(Take(s, n)) && y in Take(s, n) ==> time(x) <= time(y)
  {
    if n < |s| {
      var front, back := s[..n], s[n..];
      assert Take(s, n) == front;
      assert s == front + back;
      assert multiset(s) - multiset(front) == multiset(back);
      FrontBeatsBack(s, n, time);
    }
  }

  /** In a sorted list, everything before position `n` is at least as recent as everything from it on. */
  lemma FrontBeatsBack(s: seq<Diary>, n: nat, time: Diary -> int)
    requires SortedDesc(s, time) && n <= |s|
    ensures forall x, y :: x in multiset(s[n..]) && y in s[..n] ==> time(x) <= time(y)
  {
    forall x, y | x in multiset(s[n..]) && y in s[..n]
      ensures time(x) <= time(y)
    {
      var j :| 0 <= j < |s[n..]| && s[n..][j] == x;
      var i :| 0 <= i < n && s[..n][i] == y;
      assert s[n + j] == x && s[i] == y;
    }
  }

  /** The profile card's name and e-mail: "Chronicler" and no e-mail when nobody is signed in. */
  function ProfileCard(user: Option<User>): (card: (string, string))
    ensures card.0 != ""
    ensures user.Some? && user.value.username != "" ==> card.0 == user.value.username
    ensures user.Some? && user.value.username == "" ==> card.0 == "Chronicler"
    ensures user.None? ==> card == ("Chronicler", "")
    ensures user.Some? ==> card.1 == user.value.email
  {
    match user
    case None => ("Chronicler", "")
    case Some(u) => (if u.username != "" then u.username else "Chronicler", u.email)
  }
}
