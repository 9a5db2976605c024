# PandemicNet page logic in Dafny

This project models the decision and state logic inside five parts of the
PandemicNet React app, with the rendering, timers and browser storage
stripped away.

- **The health assistant chat** (`HealthAssistant`, `health_assistant.dfy`).
  - `getAIResponse` lower-cases the input and tests six keyword groups in a
    fixed order. The first group with a keyword present picks one of six
    canned replies; otherwise a fallback reply is given. The model is the
    page's own if-chain (`Classify`). An independent first-match scan of a
    priority table (`FirstMentioned`) is proved equal to it.
  - `handleSendMessage` is modelled as a class in two phases. `Submit`
    appends the user's message, clears the field and sets the typing flag.
    `Resolve`, standing for the timer, appends the reply and clears the flag.
  - The class invariant says the log is always the greeting followed by
    complete user/reply turns, plus the pending user message while a reply
    is due.
- **The notification list** (`Notifications`, `notifications.dfy`).
  - `markAsRead`, `dismissNotification`, `markAllAsRead`, `clearAll` and the
    derived unread count are pure functions over the list.
  - A `NotificationCenter` class holds the list and replaces it the way the
    page's state setter does.
- **The search page** (`Search`, `search.dfy`).
  - `filteredResults` filters by case-insensitive text and by tab. Result
    cards are rendered only once a query has been typed
    (`DisplayedResults`).
  - `highlightText` splits a string around case-insensitive occurrences of
    the query, keeping each occurrence as a piece of its own, and marks the
    pieces that equal the query.
- **The resources page** (`Resources`, `resources.dfy`).
  - `filteredResources`, the page's term and tab state with its Clear
    button, and the per-card button label.
- **The session** (`Auth`, `auth.dfy`).
  - Credential checks and the user record that `login` and `signup` build.
  - The right-biased merge `{ ...user, ...userData }` used by `updateProfile`.
  - An `AuthProvider` class over `user`, `isLoading` and an abstract stored
    copy of the user.

Shared pieces:
- `seqs.dfy`: a generic order-preserving `Filter` with its subsequence and
  membership facts.
- `strings.dfy`: lower-casing, `includes`, `trim`, `length` and
  `split(c)[0]`.
- `wrappers.dfy`: `Option` and `Result`.

The keyword list is kept exactly as written, including the misspelling
`'diziness'` (src/pages/HealthAssistant.tsx:82). As a consequence, an input
reading "dizziness" is not recognised by the dizziness group
(`HealthAssistant.DizzinessNotRecognised`).

Password lengths are counted the way JavaScript's `length` counts them,
in UTF-16 code units (`Strings.Utf16Length`). A character outside the
Basic Multilingual Plane therefore counts twice, and three emoji make an
acceptable password (`Auth.AstralPasswordAccepted`).

## Model

| member | source | states |
|---|---|---|
| HealthAssistant.Classify | src/pages/HealthAssistant.tsx:63-92 | the if-chain of `getAIResponse` picks a group only when the input mentions it, and picks the fallback only when no group is mentioned |
| HealthAssistant.GetAIResponse | src/pages/HealthAssistant.tsx:63-92 | the reply is always one of the seven canned texts; an input mentioning a fever gets the fever text, and an input mentioning no group gets the fallback text |
| HealthAssistant.MentionsIff | src/pages/HealthAssistant.tsx:66-88 | a group is mentioned exactly when one of the keywords listed for it occurs in the lower-cased input |
| HealthAssistant.AllKeywordsListed | src/pages/HealthAssistant.tsx:66-88 | the fifteen keywords in the order the page tests them, the misspelt "diziness" included |
| HealthAssistant.FirstMentioned | src/pages/HealthAssistant.tsx:66-88 | the first position in a priority order whose group is mentioned, with none before it mentioned; none when no group is mentioned |
| HealthAssistant.ClassifyIsTableScan | src/pages/HealthAssistant.tsx:63-92 | the page's if-chain picks the same reply as a first-match scan of the priority table |
| HealthAssistant.ClassifyPriority | src/pages/HealthAssistant.tsx:66-88 | a group's reply is chosen if and only if that group is mentioned and no group tested before it is |
| HealthAssistant.FallbackIffNoKeyword | src/pages/HealthAssistant.tsx:63-92 | there are fifteen keywords, and the fallback reply is chosen if and only if none of them occurs |
| HealthAssistant.FeverBeatsCough | src/pages/HealthAssistant.tsx:66-72 | an input containing both "fever" and "cough" gets the fever reply |
| HealthAssistant.DizzinessNotRecognised | src/pages/HealthAssistant.tsx:82 | the word "dizziness" matches no keyword of the dizziness group and never gets the dizziness reply |
| HealthAssistant.ResponseIgnoresCase | src/pages/HealthAssistant.tsx:64 | the reply to an input equals the reply to its lower-cased form |
| HealthAssistant.Transcript | src/pages/HealthAssistant.tsx:19-59 | the log after n completed turns has 2n+1 entries and starts with the greeting |
| HealthAssistant.TranscriptAt | src/pages/HealthAssistant.tsx:19-59 | a log after n turns has 2n+1 entries: the greeting first, then each turn's text as a user message followed by the reply to that text |
| HealthAssistant.TranscriptGrows | src/pages/HealthAssistant.tsx:46-57 | a completed turn only appends: the earlier log is a prefix of the new one |
| HealthAssistant.Assistant.constructor | src/pages/HealthAssistant.tsx:18-26 | the page opens with the greeting alone, an empty field and no reply pending |
| HealthAssistant.Assistant.SetInput | src/pages/HealthAssistant.tsx:135-141 | typing replaces the field, and is ignored while a reply is pending |
| HealthAssistant.Assistant.Submit | src/pages/HealthAssistant.tsx:34-48 | a blank field changes nothing; otherwise exactly one user message with the text verbatim is appended, the field is cleared and loading is set; the log changes if and only if the submit button was enabled |
| HealthAssistant.Assistant.Resolve | src/pages/HealthAssistant.tsx:51-59 | exactly one assistant message holding the reply to the submitted text is appended and loading is cleared; earlier entries are untouched |
| HealthAssistant.AllEntriesShownGeneral | src/components/ChatMessage.tsx:18 | every log entry, assistant replies included, is rendered in the general style because the page passes no message type |
| Strings.TrimEmptyIffBlank | src/pages/HealthAssistant.tsx:37 | `trim` yields the empty string exactly for strings made only of white space |
| Strings.ContainsIff | src/pages/Search.tsx:197-198 | `includes` holds exactly when the searched text occurs at some position |
| Strings.ToLowerIdempotent | src/pages/HealthAssistant.tsx:64 | lower-casing twice is lower-casing once |
| Strings.Utf16Length | src/contexts/AuthContext.tsx:59 | `length` counts UTF-16 code units: one character counts 2 if it lies at or above U+10000 and 1 otherwise; a string counts between one and two per character, and exactly one per character when every character lies in the Basic Multilingual Plane |
| Strings.Utf16LengthAppend | src/contexts/AuthContext.tsx:59 | `length` adds up over concatenation, so with the single-character value it fixes the `length` of every string |
| Seqs.Filter | src/pages/Notifications.tsx:152 | `Array.prototype.filter` keeps exactly the elements that satisfy the test, every repetition included (each element occurs as often as in the input if it passes and not at all otherwise), in their original order |
| Strings.BeforeFirst | src/contexts/AuthContext.tsx:66 | `split(c)[0]` is a prefix free of `c`, followed by `c` whenever it stops short of the end |
| Notifications.MarkRead | src/pages/Notifications.tsx:143-149 | entries with the id become read, every other field and entry is unchanged, and the length and order are kept |
| Notifications.MarkReadIdempotent | src/pages/Notifications.tsx:146 | marking read twice equals marking read once |
| Notifications.MarkReadUnreadCount | src/pages/Notifications.tsx:143-149 | after marking an id read, the unread count is that of the entries with other ids |
| Notifications.Dismiss | src/pages/Notifications.tsx:151-152 | the result holds no entry with the id, keeps every entry with another id, and is a subsequence of the old list |
| Notifications.DismissCount | src/pages/Notifications.tsx:151-152 | what is kept and the entries with the id add up to the old length: exactly those entries are removed |
| Notifications.DismissUnreadCount | src/pages/Notifications.tsx:151-152 | dismissing never raises the unread count |
| Notifications.MarkAllRead | src/pages/Notifications.tsx:159-162 | every entry becomes read and nothing else changes, length and order included |
| Notifications.MarkAllReadLeavesNoneUnread | src/pages/Notifications.tsx:159-162 | after marking all read the unread count is 0 and the "Mark all as read" button is disabled |
| Notifications.UnreadCount | src/pages/Notifications.tsx:177 | the count never exceeds the length, and is 0 exactly when every entry is read |
| Notifications.UnreadCountIsFalseFlags | src/pages/Notifications.tsx:177 | the unread count is the number of entries whose read flag is false |
| Notifications.ReadToggleLabel | src/pages/Notifications.tsx:241 | the toggle reads "Mark as unread" exactly for read entries and "Mark as read" exactly for unread ones |
| Notifications.InitialIdsDistinct | src/pages/Notifications.tsx:21-82 | the initial list has six entries with pairwise distinct ids |
| Notifications.InitialReadFlags | src/pages/Notifications.tsx:21-82 | the read flags of the initial entries are, in order, false, true, true, false, false, true |
| Notifications.InitialUnreadCount | src/pages/Notifications.tsx:21-82 | three of the initial entries are unread |
| Notifications.NotificationCenter.constructor | src/pages/Notifications.tsx:140 | the page starts from the initial list |
| Notifications.NotificationCenter.MarkAsRead | src/pages/Notifications.tsx:143-149 | the list is replaced by its marked-read form |
| Notifications.NotificationCenter.ClickReadToggle | src/pages/Notifications.tsx:239-241 | whatever its label says, the toggle marks read, so no read entry becomes unread |
| Notifications.NotificationCenter.DismissNotification | src/pages/Notifications.tsx:151-157 | the list loses the entries with the id and the unread count does not rise |
| Notifications.NotificationCenter.MarkAllAsRead | src/pages/Notifications.tsx:159-167 | every entry is read afterwards and the unread count is 0 |
| Notifications.NotificationCenter.ClearAll | src/pages/Notifications.tsx:169-175 | the list is empty afterwards, with no unread entry, and "Clear all" is disabled |
| Search.FilterResults | src/pages/Search.tsx:194-204 | an entry is in `filteredResults` if and only if it is in the table and passes both the text test and the tab test; `filteredResults` keeps the table's order |
| Search.DisplayedResults | src/pages/Search.tsx:228-282 | while the query is empty no result card is rendered (Quick Access and Recent Searches are); otherwise the cards are `filteredResults` over the page's table, and every rendered card contains the query in its title or description ignoring case |
| Search.EmptyQueryKeepsCategory | src/pages/Search.tsx:194-204 | with an empty query `filteredResults` holds exactly the entries of the tab |
| Search.EmptyQueryAllTabShowsEverything | src/pages/Search.tsx:190-204 | with the initial empty query on the "all" tab `filteredResults` is the whole table, although the page renders none of it until a query is typed |
| Search.EmptyQueryGuardRedundant | src/pages/Search.tsx:196-198 | an entry passes the text test exactly when its lower-cased title or description contains the lower-cased query, the empty query included |
| Search.TabSelectsCategory | src/pages/Search.tsx:201 | on a category tab `filteredResults` holds only entries of that category |
| Search.FirstMatchFrom | src/pages/Search.tsx:170 | the leftmost case-insensitive occurrence of the query at or after a position, or none when there is none |
| Search.SplitAround | src/pages/Search.tsx:170 | `split` with a capturing group yields an odd number of pieces: one more gap than there are occurrences |
| Search.SplitAroundSpells | src/pages/Search.tsx:170 | the split pieces, put back together, give the original text |
| Search.SplitAroundOccurrences | src/pages/Search.tsx:170 | every piece at an odd position equals the query ignoring case |
| Search.SplitAroundCutsLeftmost | src/pages/Search.tsx:170 | no occurrence of the query starts at any position of the text covered by an even piece, so each cut is made at the leftmost match after the previous one |
| Search.SplitAroundGaps | src/pages/Search.tsx:170 | no piece at an even position contains an occurrence of the query |
| Search.HighlightText | src/pages/Search.tsx:167-176 | with no query the text comes back whole and unmarked; otherwise the pieces are exactly those of the split; the pieces always spell the text; a piece is marked exactly when the query is non-empty and the piece equals the query ignoring case, which holds exactly at the odd positions, where the occurrences are |
| Resources.FilterResources | src/pages/Resources.tsx:147-152 | an item is shown if and only if it is in the table and passes both the term test and the tab test; the results keep the table's order |
| Resources.EmptyTermMatchesAll | src/pages/Resources.tsx:148-149 | the empty term passes the term test for every item |
| Resources.EmptyTermKeepsCategory | src/pages/Resources.tsx:147-152 | with an empty term the page lists exactly the items of the tab |
| Resources.ShowsAllInitially | src/pages/Resources.tsx:144-152 | the initial empty term on the "all" tab lists the whole table |
| Resources.TabSelectsCategory | src/pages/Resources.tsx:150 | a category tab lists only items of that category |
| Resources.ButtonLabel | src/pages/Resources.tsx:136 | the label is "Download" exactly for documents, "Visit" exactly for links, and "Watch" exactly for videos and infographics |
| Resources.ResourcesPage.constructor | src/pages/Resources.tsx:144-145 | the page opens with an empty term on the "all" tab over the resources table |
| Resources.ResourcesPage.SetSearchTerm | src/pages/Resources.tsx:168 | typing replaces the term and keeps the tab |
| Resources.ResourcesPage.SelectCategory | src/pages/Resources.tsx:176 | choosing a tab replaces it and keeps the term |
| Resources.ResourcesPage.Clear | src/pages/Resources.tsx:171 | Clear empties the term and keeps the tab, so the page lists every item of the tab |
| Auth.Merge | src/contexts/AuthContext.tsx:149 | each field present in the update overrides, and every other field of the current user is kept |
| Auth.MergeNoChanges | src/contexts/AuthContext.tsx:149 | an empty update leaves the user as it is |
| Auth.MergeIdempotent | src/contexts/AuthContext.tsx:149 | applying the same update twice equals applying it once |
| Auth.MergeThen | src/contexts/AuthContext.tsx:149 | two updates in a row equal one combined update in which the later one wins field by field |
| Auth.MergeFullPatch | src/contexts/AuthContext.tsx:149 | an update carrying every field of another user replaces the user with it |
| Auth.EmailPrefix | src/contexts/AuthContext.tsx:66 | the name taken from an email is the prefix before its first "@": it holds no "@" and the email continues with "@" |
| Auth.Authenticate | src/contexts/AuthContext.tsx:59-70 | login fails with "Invalid credentials" if and only if the email lacks "@" or the password's `length` is below 6 UTF-16 code units; on success the user is named after the email prefix, keeps the email verbatim, has the "user_" id and normal health with a booster |
| Auth.Register | src/contexts/AuthContext.tsx:99-110 | signup fails with "Invalid signup details" if and only if the name is empty, the email lacks "@" or the password's `length` is below 6 UTF-16 code units; on success the user keeps the name and email and has normal health and no vaccination |
| Auth.AstralPasswordAccepted | src/contexts/AuthContext.tsx:59 | a password of three characters from outside the Basic Multilingual Plane has `length` 6 and is accepted |
| Auth.MixedPasswordRejected | src/contexts/AuthContext.tsx:59 | a password of two characters from outside the Basic Multilingual Plane and one from inside has `length` 5 and is refused |
| Auth.SignupThenLogin | src/contexts/AuthContext.tsx:59-101 | credentials that sign up are also accepted by login |
| Auth.AuthProvider.constructor | src/contexts/AuthContext.tsx:39-40 | before mounting nobody is signed in and loading is on |
| Auth.AuthProvider.Restore | src/contexts/AuthContext.tsx:43-49 | mounting restores the stored user if there is one and ends loading |
| Auth.AuthProvider.Login | src/contexts/AuthContext.tsx:51-89 | loading is off afterwards; the call succeeds exactly when the email holds "@" and the password's `length` in UTF-16 code units is at least 6, and then the authenticated user is set and stored; on failure the error is returned and user and stored copy are unchanged |
| Auth.AuthProvider.Signup | src/contexts/AuthContext.tsx:91-129 | loading is off afterwards; the call succeeds exactly when the name is non-empty, the email holds "@" and the password's `length` in UTF-16 code units is at least 6, and then the new user is set and stored; on failure the error is returned and user and stored copy are unchanged |
| Auth.AuthProvider.UpdateProfile | src/contexts/AuthContext.tsx:140-167 | without a user it returns "Not authenticated" and changes nothing, loading included; otherwise the merged user replaces the old one in memory and in storage and loading is off |
| Auth.AuthProvider.Logout | src/contexts/AuthContext.tsx:131-138 | the user and the stored copy are cleared, so nobody is authenticated |

## Left out

- Chat message timestamps are not modelled. Notification dates are kept
  as uninterpreted text in the `date` field, and nothing in the logic
  reads them.
- Date formatting (`formatDate`, `toLocaleTimeString`) depends on the clock
  and the locale and is left out.
- `toLowerCase` is modelled for the ASCII letters A-Z only; every other
  character is left unchanged. JavaScript applies the full Unicode case
  mapping, so "É" lowers to "é" and U+212A KELVIN SIGN lowers to "k". The
  members below are therefore exact only on inputs whose letters are ASCII:
- HealthAssistant.GetAIResponse and HealthAssistant.ResponseIgnoresCase:
  "S\u212AIN" gets the skin reply in the page but the fallback in the model.
- Search.MatchesSearch: a query "é" finds a title holding "É" in the page
  but not in the model.
- Resources.MatchesTerm: the same non-ASCII case mapping is missing.
- Search.SplitAround and Search.HighlightText: the `i` flag of the regular
  expression also folds non-ASCII case, which the model does not.
- `highlightText` builds a regular expression from the query without
  escaping it. The model treats the query as literal text, so queries
  holding regular-expression metacharacters are not modelled.
- The one-second delays (`setTimeout`, the awaited promises) are not
  modelled as time.
  - The chat reply is the separate `Resolve` step.
  - Each session operation completes at once. The `isLoading = true`
    visible during the wait is therefore not a separate state; only its
    value before the call and after it are modelled.
- `localStorage` and JSON encoding are reduced to an abstract `stored`
  copy of the user. A stored value that fails to parse is not modelled.
- `Math.random` in the user id is replaced by an `idSuffix` parameter.
- Toasts, scrolling, `window.open` and navigation are UI side effects and
  are left out.
- Card icons and other rendering are left out.
- The link button under a notification calls `markAsRead` like the read
  toggle does (src/pages/Notifications.tsx:248). It is the same operation,
  `NotificationCenter.MarkAsRead`.
- Auth.Merge: a patch that sets an optional field to `undefined`
  explicitly, which would clear that field in the spread, is not
  modelled. An absent field in a `Patch` always keeps the current value.
- Auth.AuthProvider.Login: the rethrown exception is modelled as a
  returned error message.
- Auth.AuthProvider.Signup: the rethrown exception is likewise modelled as
  a returned error message.
- That the seven reply texts differ from one another is not proved,
  because comparing the long literals is too costly. The priority facts
  are proved over the `Response` values that select the texts.
- `useAuth` outside a provider, which throws, is plumbing outside the model.
