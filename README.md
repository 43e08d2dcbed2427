# Voice diary client — a Dafny model

This project models the browser side of a diary application. In it:

- signed-in users write entries by hand or record them by voice;
- a remote service transcribes the recordings and analyses them;
- the service reports which parts of the day (morning, afternoon, evening) an entry still lacks;
- the service may ask a follow-up "meaningful question", which the user answers with another recording.

The model covers these parts of the client:

- **Service client** (`app/lib/api.ts`):
  - the bearer-header interceptor;
  - token storage on login and registration, and its removal on logout;
  - the error policy of every remote call (return `[]`, or throw a fixed message);
  - the normalisation of completion-status replies from the backend's `isComplete` shape.
- **Route guard** (`middleware.ts`): signed-in users are sent away from the login and register pages, and anonymous users are sent to the login page. The model proves that a redirect target never redirects again.
- **Session store** (`app/context/AuthContext.tsx`):
  - the startup check that restores a saved session, or wipes an unreadable one;
  - login and logout.
- **Login form, diary form, diary card and sidebar**: their state changes, labels, fallbacks and highlighting rules.
- **Diary list, calendar and profile pages**:
  - grouping entries by month or by day (the `forEach`/`push` loop);
  - ordering months and entries most recent first;
  - the calendar grid and cells;
  - word counts;
  - the three most recent entries.
- **Voice recorder** (`app/components/diary/VoiceDiaryRecorder.tsx`):
  - the record, stop, reset and submit state machine;
  - the prompt for each kind of recording;
  - the multipart fields of a submission;
  - reading the reply;
  - the `mm:ss` clock.
- **Voice diary page** (`pages/diary/voice.tsx`):
  - loading the entry and its completion status;
  - the affordances it offers (the AI's question takes precedence over tabs for missing periods);
  - the completion panels;
  - the recorder target;
  - navigation after a successful recording.

## How the model works

- **Remote calls.** Each remote call is an input `Remote<T>`: either the body the server answered, or `Failed`. What the client function gives its caller is an `Outcome<T>`: `Returned(value)` or `Threw(message)`.
- **Async handlers.** A handler with one `await` is split into two methods at the suspension point, `Begin…` and `Finish…`.
- **Browser state.** `localStorage` and the `jwt_token` cookie are fields of a `Browser` object.
- **Component state.** React state becomes the fields of a class per component. Each setter becomes an assignment, and each method's `ensures` states the whole new state.
- **Dates, formatting and JSON.** The results of `new Date(…)`, `format(…)` and `JSON.parse` are function parameters.
- **Optional strings.** Optional string fields whose every use is a truthiness test are plain strings, with `""` standing for "absent".

Where the code and the written design disagree, the model follows the code:

- **Empty missing list.** An incomplete entry whose `missingInformation` is empty shows no affordance at all (`pages/diary/voice.tsx:114-116`). It does not fall back to a "general" tab. See `VoicePage.MissingInfoTabs`.
- **Completeness versus a pending question.** The question check comes before the completeness check. So a status that is complete and also asking a question shows the question next to the "complete" panel. See `VoicePage.CompleteOffersNoTabs`: a complete entry offers no tabs, but it is not proved to hide the question.
- **Partial update after a supplement.** `handleSupplementSuccess` stores the refreshed entry before it fetches the status. If that second fetch fails, the new entry stays shown next to the old status (`VoicePage.VoicePage.HandleSupplementSuccess`).
- **Logout in the service client.** `logout` in the service client removes only the token. The user record stays in `localStorage`; only the session store's logout removes both (`Api.Logout`, `AuthContext.AuthProvider.Logout`).
- **A rejected login with a token.** A login rejected with `success: false` still stores a token that the reply carries, and sets the cookie. The service client does this before the form looks at `success` (`LoginForm.LoginForm.FinishSubmit`).

## Model

| member | source | states |
|---|---|---|
| DiaryTypes.ParsePhase | app/types/index.ts:11-15 | a wire string names a phase exactly when it is that phase's wire name |
| Api.WithBearer | app/lib/api.ts:16-25 | the `Authorization: Bearer <token>` header is added exactly in a browser with a non-empty stored token; every other header is untouched |
| Api.Intercept | app/lib/api.ts:16-25 | the interceptor sets the request's headers in place to the bearer rule applied to the stored token |
| Api.StoreToken | app/lib/api.ts:32-36 | a reply carrying an access token stores it under `jwt_token` and sets the cookie; otherwise storage is untouched |
| Api.Login | app/lib/api.ts:28-42 | a failed request throws the fixed authentication message and stores nothing; an answer is returned as is and its token, if any, is stored |
| Api.Register | app/lib/api.ts:44-58 | as login, with the registration message |
| Api.Logout | app/lib/api.ts:60-64 | only the token is removed from storage and the cookie is expired |
| Api.GetDiaries | app/lib/api.ts:67-75 | a failed fetch yields the empty list and never throws; otherwise the server's list |
| Api.Rethrow | app/lib/api.ts:77-125 | the shared policy of the entry calls: throws exactly when the request failed, with the call's own message, else returns the body |
| Api.DeleteDiary | app/lib/api.ts:107-115 | returns true exactly when the request succeeded, and throws the delete message exactly when it failed |
| Api.FailureMessagesDistinct | app/lib/api.ts:40-202 | the ten failure messages are pairwise different, so a caller can tell which call failed |
| Api.NormalizeCompletion | app/lib/api.ts:186-199 | a backend body becomes `{complete, missingInformation}`, with the missing list defaulting to empty and no phase or questions; a client-shaped body passes through |
| Api.NormalizeIdempotent | app/lib/api.ts:191-199 | normalising an already normalised status changes nothing |
| Api.GetDiaryCompletionStatus | app/lib/api.ts:186-203 | a failure throws the completion-status message; an answer is normalised |
| BrowserStorage.Browser.GetItem | app/lib/api.ts:19 | finds a value exactly when the key is stored, and the value is the stored one |
| BrowserStorage.Browser.SetItem | app/lib/api.ts:33 | only the given key changes, to the given value; the cookie is untouched |
| BrowserStorage.Browser.RemoveItem | app/lib/api.ts:61 | only the given key disappears; the cookie is untouched |
| BrowserStorage.Browser.SetTokenCookie | app/lib/api.ts:35 | the cookie holds the token; storage is untouched |
| BrowserStorage.Browser.ExpireTokenCookie | app/lib/api.ts:63 | the cookie is gone; storage is untouched |
| Middleware.CookieToken | middleware.ts:12 | a missing cookie reads as the empty token |
| Middleware.Guard | middleware.ts:4-26 | redirects to `/diary` exactly for a signed-in request of a public page, to `/login` exactly for an anonymous request of any other page, and passes exactly when being public and being anonymous coincide |
| Middleware.NoRedirectLoop | middleware.ts:15-23 | the target of a redirect, requested with the same cookie, passes |
| Middleware.Route | middleware.ts:29-35 | paths outside the matcher pass; every redirect lands on a matched path the guard lets through |
| AuthContext.AuthProvider.constructor | app/context/AuthContext.tsx:24-25 | starts with no user and loading |
| AuthContext.AuthProvider.IsAuthenticated | app/context/AuthContext.tsx:87 | authenticated exactly when a user is set |
| AuthContext.AuthProvider.CheckAuth | app/context/AuthContext.tsx:28-58 | on the server nothing changes; a saved session that parses restores the user and re-sets the cookie; one that does not parse loses both keys and the cookie; without a saved session the cookie ends cleared; loading always ends |
| AuthContext.AuthProvider.Login | app/context/AuthContext.tsx:61-67 | stores the token and the serialised user, sets the cookie and the user; nothing else in storage changes |
| AuthContext.AuthProvider.Logout | app/context/AuthContext.tsx:70-80 | removes both keys, expires the cookie and clears the user; navigates to `/login` exactly in a browser |
| AuthContext.LoginIsRestored | app/context/AuthContext.tsx:33-66 | what login stores is a saved session the next startup check restores to the same user |
| LoginForm.WithField | app/components/auth/LoginForm.tsx:20-26 | the named credential takes the value and the other keeps its own |
| LoginForm.RejectionMessage | app/components/auth/LoginForm.tsx:35-36 | the server's message when it has one, else "Login failed"; never empty |
| LoginForm.LoginForm.constructor | app/components/auth/LoginForm.tsx:13-18 | empty credentials, no error, not loading |
| LoginForm.LoginForm.HandleChange | app/components/auth/LoginForm.tsx:20-26 | only the named credential changes |
| LoginForm.LoginForm.BeginSubmit | app/components/auth/LoginForm.tsx:28-34 | loading starts, the error is cleared, and the current credentials are the ones sent |
| LoginForm.LoginForm.FinishSubmit | app/components/auth/LoginForm.tsx:28-57 | a failed request shows the authentication message and signs nobody in; `success === false` shows the rejection message (a carried token is still stored); any other reply signs in the `<username>@example.com` user built from the submitted credentials, stores token and user, sets the cookie and navigates to `/diary`; loading always ends |
| LoginForm.EditWhilePending | app/components/auth/LoginForm.tsx:28-45 | a username edited while the request is pending changes the inputs but not the user a successful reply signs in |
| DiaryForm.DatePart | app/components/diary/DiaryForm.tsx:13 | the day part is a prefix of the timestamp without a `T`, cut at the first `T` |
| DiaryForm.DatePartOf | app/components/diary/DiaryForm.tsx:13 | the day part of `<day>T<time>` is `<day>` |
| DiaryForm.InitialFormData | app/components/diary/DiaryForm.tsx:10-21 | a new entry is blank, dated today, with three empty sections; an edited entry contributes its fields, an undated one dated today and one without sections the empty sections |
| DiaryForm.SetField | app/components/diary/DiaryForm.tsx:23-26 | only the named input changes; the other inputs, the flags and the sections keep their values |
| DiaryForm.SectionKey | app/components/diary/DiaryForm.tsx:30 | the section a textarea writes to contains no underscore |
| DiaryForm.SectionKeyOfTextarea | app/components/diary/DiaryForm.tsx:28-38 | a textarea named `content_<period>` writes to `<period>` |
| DiaryForm.SectionTextareasMatchSections | app/components/diary/DiaryForm.tsx:111-147 | the three textareas write to exactly the three sections a new entry starts with |
| DiaryForm.SetSection | app/components/diary/DiaryForm.tsx:28-39 | the textarea's section takes the value; every other section and every other field keeps its value |
| DiaryForm.DiaryForm.constructor | app/components/diary/DiaryForm.tsx:9-21 | the form starts from the initial form data and is not submitting |
| DiaryForm.DiaryForm.HandleChange | app/components/diary/DiaryForm.tsx:23-26 | the form data changes by the single-field update |
| DiaryForm.DiaryForm.HandleStructuredContentChange | app/components/diary/DiaryForm.tsx:28-39 | the form data changes by the single-section update |
| DiaryForm.DiaryForm.BeginSubmit | app/components/diary/DiaryForm.tsx:41-46 | submitting starts and `onSubmit` receives the current form data |
| DiaryForm.DiaryForm.FinishSubmit | app/components/diary/DiaryForm.tsx:45-53 | a rejection raises the save alert and nothing else does; submitting ends and the data is kept |
| DiaryForm.DiaryForm.SubmitLabel | app/components/diary/DiaryForm.tsx:165-171 | "Saving..." while submitting, else "Update" when editing and "Save" for a new entry |
| DiaryCard.Emotion | app/components/diary/DiaryCard.tsx:10 | an entry without analysis has no emotion |
| DiaryCard.SentimentIcon | app/components/diary/DiaryCard.tsx:9-19 | the sun exactly when the lower-cased emotion mentions a bright word, the moon exactly when it mentions a dark word and no bright one, the skull otherwise |
| DiaryCard.BrightWins | app/components/diary/DiaryCard.tsx:13-17 | a bright word gives the sun even if a dark word is present too |
| DiaryCard.CaseDoesNotMatter | app/components/diary/DiaryCard.tsx:12 | lower-casing the emotion first never changes the icon |
| DiaryCard.AnyCaseBrightGivesSun | app/components/diary/DiaryCard.tsx:12-14 | a bright word in any letter case gives the sun |
| DiaryCard.DateLabel | app/components/diary/DiaryCard.tsx:27 | an undated entry reads "Undated entry", a dated one its formatted date |
| DiaryCard.TitleLabel | app/components/diary/DiaryCard.tsx:32 | the entry's title when it has one, otherwise "Untitled Chronicle" |
| DiaryCard.ContentLabel | app/components/diary/DiaryCard.tsx:34 | the entry's content when it has one, otherwise "No content" |
| DiaryCard.Aura | app/components/diary/DiaryCard.tsx:37-47 | the badge appears exactly for an entry with an emotion, shows that emotion, and shows the skull exactly when the emotion mentions no listed word |
| Collections.Filter | pages/calendar/index.tsx:59-69 | keeps exactly the elements that pass, never more than the input |
| Collections.FilterAppend | pages/calendar/index.tsx:59-69 | filtering distributes over concatenation |
| Collections.FilterMultiplicity | pages/calendar/index.tsx:59-69 | a passing element is kept as many times as it occurs, a failing one not at all |
| Collections.FilterNone | pages/diary/index.tsx:35-50 | a filter nothing passes keeps nothing |
| Collections.FilterKeepsAll | pages/calendar/index.tsx:74-89 | a filter everything passes keeps the whole list |
| Collections.Insert | pages/profile/index.tsx:39-42 | inserting into a sorted list keeps it sorted and adds exactly the element |
| Collections.SortDesc | pages/diary/index.tsx:107-117 | the result is in descending key order and is a permutation of the input |
| Collections.Take | pages/profile/index.tsx:43 | the first `min(n, length)` elements |
| Collections.GroupBy | pages/diary/index.tsx:32-53 | the loop builds exactly the grouping: keys are those some element has, each group is the elements with its key in input order, each key is listed once |
| Collections.GroupAllShape | pages/diary/index.tsx:35-50 | the grouping's keys and order agree, no key is listed twice, and each group is the filter of its key |
| Collections.SumSizesUnlisted | pages/diary/index.tsx:42-46 | changing an unlisted group leaves the total unchanged |
| Collections.SumSizesReplace | pages/diary/index.tsx:42-46 | changing a listed group changes the total by the change in its size |
| Collections.GroupSizesSum | pages/diary/index.tsx:35-50 | the group sizes add up to the number of elements with a key: nothing is lost or duplicated |
| DiaryList.GroupByMonth | pages/diary/index.tsx:32-53 | every dated entry whose date formats lands in exactly its month's group, in input order; months are listed once; undated entries are dropped and the sizes add up |
| DiaryList.Section | pages/diary/index.tsx:125-135 | a month's section holds exactly its group's entries, most recent first |
| DiaryList.MonthSections | pages/diary/index.tsx:107-141 | months most recent first, each shown once, each with exactly its entries most recent first |
| DiaryList.DiaryListPage.constructor | pages/diary/index.tsx:12-13 | no entries, loading |
| DiaryList.DiaryListPage.LoadDiaries | pages/diary/index.tsx:15-29 | the entries are the fetched list (empty after a failure); loading ends |
| DiaryList.DiaryListPage.Render | pages/diary/index.tsx:55-146 | the loading notice exactly while loading, the empty state exactly for an empty list, otherwise the month sections of the grouping |
| CalendarPage.AllDays | pages/calendar/index.tsx:50-56 | blank cells for the weekdays before the first, then the days 1 to the month's length in order |
| CalendarPage.EachDayOnce | pages/calendar/index.tsx:50-56 | each day of the month sits in exactly one cell |
| CalendarPage.EntriesThisMonth | pages/calendar/index.tsx:59-69 | the input filtered, in input order, to the dated entries of the current month and year; so exactly those entries, each as often as in the input |
| CalendarPage.EntriesByDay | pages/calendar/index.tsx:72-89 | a day has a list exactly when an entry of the month falls on it; the list holds exactly those entries, in order, and is never empty; the lists together hold every entry of the month |
| CalendarPage.EveryEntryHasADay | pages/calendar/index.tsx:74-89 | every entry of the month has a day, so none is dropped from the grouping |
| CalendarPage.TitleOrUntitled | pages/calendar/index.tsx:139 | the entry's title when it has one, otherwise "Untitled Entry" |
| CalendarPage.Cell | pages/calendar/index.tsx:118-153 | a day cell lists the title of every entry of its day in order, and shows "+N more" exactly when there are more than two, with N the count beyond two |
| CalendarPage.Notable | pages/calendar/index.tsx:164-179 | the notice exactly when the month has no entries, otherwise one date-and-title line per entry in order |
| Sidebar.IsActive | app/components/layout/Sidebar.tsx:36 | highlighted exactly when a path is known and starts with the link |
| Sidebar.HrefsPrefixFree | app/components/layout/Sidebar.tsx:10-15 | no menu link is a prefix of another |
| Sidebar.AtMostOneActive | app/components/layout/Sidebar.tsx:35-36 | whatever the path, at most one menu item is highlighted |
| Sidebar.ActiveItems | app/components/layout/Sidebar.tsx:35-45 | the highlighted items are the one whose link the path starts with, or none |
| ProfilePage.Words | pages/profile/index.tsx:35 | the words are non-empty and contain no whitespace |
| ProfilePage.OneWord | pages/profile/index.tsx:35 | text without whitespace counts as one word, or none if empty |
| ProfilePage.WordsAcrossSpace | pages/profile/index.tsx:35 | a whitespace character separates: the words of `a c b` are those of `a` then those of `b` |
| ProfilePage.TotalWordsAppend | pages/profile/index.tsx:33-36 | the word total of two lists is the sum of their totals |
| ProfilePage.EmptyContentAddsNothing | pages/profile/index.tsx:33-36 | an entry without content adds no words |
| ProfilePage.RecentEntries | pages/profile/index.tsx:39-43 | at most three entries, most recent first, all from the list, and no entry left out is more recent than one kept |
| ProfilePage.TakeOfSorted | pages/profile/index.tsx:39-43 | the front of a sorted list is sorted and beats everything after it |
| ProfilePage.ProfileCard | pages/profile/index.tsx:65-66 | the user's name when it is non-empty, otherwise "Chronicler" (also when nobody is signed in); the user's e-mail, or none |
| Text.Lower | app/components/diary/DiaryCard.tsx:12 | same length, each character lower-cased |
| Text.LowerKeepsOccurrence | app/components/diary/DiaryCard.tsx:12-13 | a word found in a text is found, lower-cased, at the same place in the lower-cased text |
| Text.Split | pages/profile/index.tsx:35 | at least one piece, and no piece contains a separator |
| Text.SplitWithoutSeparator | pages/profile/index.tsx:35 | text without separators splits into itself |
| Text.SplitAtSeparator | pages/profile/index.tsx:35 | splitting at a separator concatenates the splits of the two sides |
| Text.SplitHead | app/components/diary/DiaryForm.tsx:13 | the first piece is a prefix, followed by a separator when shorter |
| Text.NonEmpty | pages/profile/index.tsx:35 | keeps only non-empty pieces, all from the input |
| Text.NonEmptyAppend | pages/profile/index.tsx:35 | dropping empty pieces distributes over concatenation |
| Text.NatToDecimal | app/components/diary/VoiceDiaryRecorder.tsx:62 | decimal digits, with a leading zero exactly for zero |
| Text.DecimalRoundTrip | app/components/diary/VoiceDiaryRecorder.tsx:62 | the decimal text of a number reads back as that number |
| Text.PadStart | app/components/diary/VoiceDiaryRecorder.tsx:62 | at least the width, ending in the text, padded in front with the fill character |
| Text.ZeroPaddingKeepsValue | app/components/diary/VoiceDiaryRecorder.tsx:62 | zero padding keeps a digit string's value |
| Text.DigitPrefix | pages/diary/voice.tsx:34 | the longest run of leading digits |
| Text.ParseIntReadsToString | pages/diary/voice.tsx:34 | parseInt reads back `toString` of an integer, whatever non-digit text follows |
| Text.ParseIntRoundTrip | pages/diary/voice.tsx:34 | parseInt of an integer's text is that integer |
| Recorder.Pad2 | app/components/diary/VoiceDiaryRecorder.tsx:62 | at least two digits, worth the number; exactly two below 100 |
| Recorder.FormatTime | app/components/diary/VoiceDiaryRecorder.tsx:59-63 | `mm:ss` with both fields at least two digits and seconds below 60, and minutes × 60 + seconds reads back as the input |
| Recorder.FiveCharacterClock | app/components/diary/VoiceDiaryRecorder.tsx:59-63 | below 100 minutes the clock is five characters |
| Recorder.PromptFor | app/components/diary/VoiceDiaryRecorder.tsx:38-57 | the whole-day prompt for a new entry, the period's prompt for a period, the question (or its fallback) for a question response, the "anything else" prompt for general; never empty |
| Recorder.PromptsTellKindsApart | app/components/diary/VoiceDiaryRecorder.tsx:40-56 | different kinds of recording without a question get different prompts |
| Recorder.TextFields | app/components/diary/VoiceDiaryRecorder.tsx:125-159 | a supplement sends the entry id, the kind and, exactly for a question response with a question, that question, and never a date; a new entry sends the date and `Diary: <date>` and nothing about an entry |
| Recorder.NoSuchField | app/components/diary/VoiceDiaryRecorder.tsx:122-159 | a name no field carries is not found |
| Recorder.FieldAt | app/components/diary/VoiceDiaryRecorder.tsx:122-159 | a lookup finds the first field with its name |
| Recorder.SupplementFieldsReadBack | app/components/diary/VoiceDiaryRecorder.tsx:127-128 | the server reads the entry id back with parseInt, and the kind name identifies the kind |
| Recorder.SubmissionRequest | app/components/diary/VoiceDiaryRecorder.tsx:121-161 | the supplement endpoint exactly for a supplement; the audio first, then the text fields |
| Recorder.Interpret | app/components/diary/VoiceDiaryRecorder.tsx:137-181 | a thrown call reports the submission error; an unsuccessful reply its message or "Unknown error"; a successful one sets the AI question exactly when it asks one, otherwise reports a suggestion if any, and passes the entry id on |
| Recorder.OnlySuccessNotifies | app/components/diary/VoiceDiaryRecorder.tsx:137-177 | `onSuccess` is called exactly for a successful reply |
| Recorder.Recorder.constructor | app/components/diary/VoiceDiaryRecorder.tsx:9-19 | idle, no blob, clock 0, status "Ready", no prompt or question, no recorder or chunks |
| Recorder.Recorder.ApplyPrompt | app/components/diary/VoiceDiaryRecorder.tsx:38-57 | the prompt becomes the target's prompt; a question response also sets the AI question, or clears it when there is none |
| Recorder.Recorder.StartRecording | app/components/diary/VoiceDiaryRecorder.tsx:65-96 | with microphone access, recording starts on an empty chunk list with the clock at 0; without it, only the status reports the refusal |
| Recorder.Recorder.OnDataAvailable | app/components/diary/VoiceDiaryRecorder.tsx:73-77 | a chunk with data is appended and an empty one is dropped, so every collected chunk has data |
| Recorder.Recorder.OnRecorderStop | app/components/diary/VoiceDiaryRecorder.tsx:79-85 | the collected chunks become the blob |
| Recorder.Recorder.Tick | app/components/diary/VoiceDiaryRecorder.tsx:21-36 | the clock advances by one exactly while recording |
| Recorder.Recorder.StopRecording | app/components/diary/VoiceDiaryRecorder.tsx:98-104 | stops and reports completion only when a recorder is recording; otherwise nothing changes |
| Recorder.Recorder.ResetRecording | app/components/diary/VoiceDiaryRecorder.tsx:106-110 | the blob is dropped, the status is "Ready" and the clock 0 |
| Recorder.Recorder.BeginSubmit | app/components/diary/VoiceDiaryRecorder.tsx:112-123 | without a blob, nothing is sent and only the status changes; with one, submitting starts and the request carries that blob and the target's fields |
| Recorder.Recorder.FinishSubmit | app/components/diary/VoiceDiaryRecorder.tsx:135-184 | the reply to the request that was sent, through the error policy of that request's endpoint, sets status, AI question and notification as interpreted; submitting always ends |
| Recorder.SubmitSupplement | app/components/diary/VoiceDiaryRecorder.tsx:112-184 | a whole supplement submission: without a recording nothing is sent and the no-audio status shows; otherwise the reply is read as a supplement's and submitting ends |
| Recorder.Recorder.ShownControls | app/components/diary/VoiceDiaryRecorder.tsx:221-259 | Start exactly when idle without a blob, Stop exactly while recording, Record Again and Submit exactly with a blob, all enabled exactly when not submitting |
| Recorder.Recorder.StartExcludesSubmit | app/components/diary/VoiceDiaryRecorder.tsx:221-241 | Start is never shown next to Submit or Stop |
| VoicePage.NewDiaryIdRoundTrip | pages/diary/voice.tsx:60-62 | after a new recording, the page reloads on an `id` that parses back to the new entry |
| VoicePage.MissingIdStartsOver | pages/diary/voice.tsx:60-62 | a reply without a numeric id sends the page to an `id` that does not parse, so it starts a new entry |
| VoicePage.TabsFor | pages/diary/voice.tsx:119-164 | a tab for exactly each missing period, in the day's order, then General last |
| VoicePage.MissingInfoTabs | pages/diary/voice.tsx:90-173 | the question exactly when the status asks one, whatever else it says; tabs exactly for an incomplete entry with something missing and no question; the suggestion exactly when there is one |
| VoicePage.BackendStatusNeverAsks | pages/diary/voice.tsx:95-111 | a status in the backend's shape never shows the question |
| VoicePage.PanelFor | pages/diary/voice.tsx:193-242 | the "complete" link to the entry exactly for a complete entry; the per-period status exactly while incomplete and not asking, each period marked by whether the entry has text for it |
| VoicePage.QuestionHidesStatus | pages/diary/voice.tsx:96-111 | the question and the per-period status are never shown together |
| VoicePage.TabsOnlyWhileIncomplete | pages/diary/voice.tsx:114-116 | tabs never appear next to the "complete" panel |
| VoicePage.CompleteOffersNoTabs | pages/diary/voice.tsx:114-116 | a complete entry offers no tabs and links to its page |
| VoicePage.WholeDayMissingOffersEveryTab | pages/diary/voice.tsx:119-164 | an entry missing the whole day offers morning, afternoon, evening, then general |
| VoicePage.RecorderTarget | pages/diary/voice.tsx:246-257 | the recorder supplements exactly when an entry is loaded: that entry, the active tab and the status's question |
| VoicePage.AnswerCarriesQuestion | pages/diary/voice.tsx:103-108 | answering the question sends a question response for the loaded entry that carries the question |
| VoicePage.VoicePage.constructor | pages/diary/voice.tsx:11-14 | no entry, no status, loading, the general tab |
| VoicePage.VoicePage.LoadDiary | pages/diary/voice.tsx:29-58 | without an `id`, or with one that does not parse, nothing is fetched; otherwise the entry, then its status, are stored as far as fetching succeeded; loading ends |
| VoicePage.VoicePage.HandleSupplementSuccess | pages/diary/voice.tsx:64-88 | an id of 0, NaN or undefined is ignored; otherwise entry and status are refreshed as far as fetching succeeded, and the page moves to the entry exactly when the status says complete |
| VoicePage.VoicePage.SelectTab | pages/diary/voice.tsx:103-163 | only the active tab changes |
| VoicePage.VoicePage.Render | pages/diary/voice.tsx:175-257 | the loading view exactly while loading; otherwise the title by whether an entry is loaded, affordances and panel only with both entry and status, and the recorder target |

## Left out

- HTTP transport, axios, the base URL and request bodies: each remote call is an input reply (answered body or failure).
- MediaRecorder, `getUserMedia`, Blob and `URL.createObjectURL`: microphone access, data chunks and the stop event are inputs; chunks are byte strings.
- The recorder's timer is one `Tick` per second while recording; `setInterval`/`clearInterval` and the interleaving of asynchronous callbacks are not modelled.
- `Date`, `date-fns` `format`, `toISOString`, `toLocaleDateString`: date parsing and formatting are function parameters; an invalid date's `toISOString` throwing in the diary form is not modelled.
- `JSON.parse`/`JSON.stringify`: parsing is a parameter; serialisation does not escape strings.
- AuthContext.AuthProvider.CheckAuth: a stored user text of `null` parses without throwing and leaves the user signed out with the keys kept; the `parse` parameter has no such result (its `None` stands for a throw, which wipes the keys). `Login` never stores that text.
- The cookie string format (`path`, `max-age`, `SameSite`, expiry date): the cookie is a present or absent value.
- `window.location.href` and `router.push`: navigation is a returned target; the page reload it causes is not modelled.
- Rendering (JSX, CSS classes, icons, headings) beyond the labels, affordances and cells listed above.
- `toLowerCase` only lowers the ASCII letters A to Z; other letters keep their case.
- Collections.SortDesc: JavaScript's sort comparator may be inconsistent for NaN dates; keys are integers here, and stability is not proved.
- Middleware.Matched: the `/diary/:path*` matcher is `/diary` or any path under `/diary/`.
- The `loadDiaries` effect repeated in the calendar and profile pages is modelled once, in `DiaryList.DiaryListPage.LoadDiaries`; those pages take the loaded list as input.
- Api.GetDiary, Api.CreateDiary, Api.UpdateDiary, Api.GetAiAnalysis, Api.SubmitVoiceDiary and Api.SupplementVoiceDiary: each is `Api.Rethrow` with its own message, so they have no contracts of their own.
- The voice page's `searchParams` effect: the `id` parameter is the input of `LoadDiary`.
- `onSuccess` is optional in the recorder's props, but the voice page always passes it, so the model always notifies.
