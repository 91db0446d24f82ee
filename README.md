# LinguAI pages: a Dafny model

This project models the client-side behaviour of six screens of the LinguAI
language-learning web app. The model is written in Dafny, and properties of
it are proved.

- **Sign-in / sign-up page** (`AuthPage`): contact masking, one-time codes,
  validation schemas and the resolver that picks one per submit, the four-box
  code input, the resend countdown, and the three-step sign-up flow.
- **Practice test** (`PracticeTest`): the question bank, and the mapping from
  the route's level to a difficulty label. Also the session itself: answers,
  revealed results, navigation, score, completion summary and banner, and retry.
- **Help and support page**: FAQ search, the suggestion chosen for a query,
  the FAQ accordion with its advanced panel, and the quick-action modal.
- **Privacy page**: the section accordion, the security toggles, the data
  export (idle, preparing, ready) and the account-deletion dialog armed by
  typing DELETE.
- **Profile page**: the edit dialog with its drafts, and the quick settings.
- **Spelling card**: the demo spelling check and how it is shown.

Pure helpers are Dafny functions, each with lemmas about it. Each page's React
state is a class whose fields are the page's `useState` variables. Each event
handler is a method with `modifies this`; its `ensures` gives the whole new
state and keeps the page's `Valid()` invariant. Timers, animation frames and
the clock are explicit inputs:

- a timer firing is its own method (`Tick`, `ProgressTimerFires`, `DoneTimerFires`);
- an animation frame is a method taking the elapsed milliseconds (`ExportTick`);
- the random draw of a new code is an integer parameter in [1000, 9999].

Calls to the authentication backend are returned as request values. They are
not performed.

Modules:

- `Text`: JavaScript string operations, exact on white space, ASCII for letter case.
  - `trim`, `trimStart`, `trimEnd`, `toLowerCase`, `toUpperCase`.
  - `includes`, `split(/\s+/)`, digit stripping, and decimal rendering.
- `Seqs`: order-preserving `filter`.
- `Auth`, `Countdown`, `OtpInput`, `Signup`: `src/pages/AuthPage.tsx`.
- `QuestionBank`, `PracticeTest`: `src/pages/PracticeTest.tsx`.
- `Help`: `src/pages/HelpSupportPage.tsx`.
- `Privacy`: `src/pages/PrivacyPage.tsx`.
- `Profile`: `src/pages/ProfilePage.tsx`.
- `Spelling`: `src/components/SpellingCard.tsx`.

An e-mail whose local part has at most two characters masks that part to
`***`, so `ab@x.com` gives `***@x.com` (`Auth.MaskLocal`).

## Model

| member | source | states |
|---|---|---|
| Auth.MaskLocal | src/pages/AuthPage.tsx:36 | The masked local part has five characters for a local part longer than two, and three otherwise. Its middle three are `*`. The only characters shown are the local part's first and last, and only when it is longer than two. |
| Auth.MaskContact | src/pages/AuthPage.tsx:33-41 | A contact without `@` is reduced to its digits. The result has one character per digit; all but the last four are `*`, and those four are kept. |
| Auth.MaskEmail | src/pages/AuthPage.tsx:33-41 | For an e-mail, the mask is the masked local part, `@`, then the text after the first `@` up to the next `@` or the end. |
| Auth.GenerateOtp | src/pages/AuthPage.tsx:43-45 | A draw in [1000, 9999] gives exactly four decimal digits with no leading zero, and the code reads back as the draw. |
| Auth.GenerateOtpInjective | src/pages/AuthPage.tsx:43-45 | Different draws never give the same code. |
| Auth.ErrorsOfSpec | src/pages/AuthPage.tsx:50-63 | A field is reported exactly when one of the schema's `min` rules for it is broken. |
| Auth.ErrorsOfEmpty | src/pages/AuthPage.tsx:50-63 | A schema reports no error exactly when every one of its rules holds. |
| Auth.ResolverTable | src/pages/AuthPage.tsx:192-196 | What a submit must satisfy, per mode and step. Login needs username ≥ 3 and password ≥ 6. The account step needs name ≥ 2, contact ≥ 5, username ≥ 3 and password ≥ 6. Every other step needs name ≥ 2 and contact ≥ 5. |
| Auth.Step3ExtendsStep1 | src/pages/AuthPage.tsx:50-58 | Values the account-step schema accepts are also accepted by the first step's schema. |
| Auth.StepTitleIdentifiesScreen | src/pages/AuthPage.tsx:314-320 | Two screens with the same heading have the same mode and, when signing up, the same step. |
| Auth.LoginIdentifier | src/pages/AuthPage.tsx:264-265 | The sign-up identifier always contains `@`. It is the contact when the contact contains `@`; otherwise it is the username followed by `@app.local`. |
| Countdown.Idle | src/pages/AuthPage.tsx:133-136 | The hook starts at 30 seconds with resend allowed and no interval. |
| Countdown.StartAsWritten | src/pages/AuthPage.tsx:138-154 | `start` as written shows 30 seconds and forbids resend. A new interval is armed only if the countdown was not already active. |
| Countdown.Start | src/pages/AuthPage.tsx:138-154 | `start` as intended: 30 seconds, resend forbidden, and a live interval, whatever the previous state. |
| Countdown.StartAgreesWhenIdle | src/pages/AuthPage.tsx:138-154 | When the previous countdown had finished, the written and the intended `start` agree. |
| Countdown.Tick | src/pages/AuthPage.tsx:146-151 | One firing preserves consistency (seconds in [0, 30], an interval only while active). It takes one second off a live countdown and changes nothing without an interval. |
| Countdown.TicksFromArmed | src/pages/AuthPage.tsx:146-151 | A live countdown at `s` seconds counts down one per firing. After exactly `s` firings it stops at 0 with resend allowed. |
| Countdown.TicksWhenUnarmed | src/pages/AuthPage.tsx:144-154 | Without a live interval, no number of seconds changes anything. |
| Countdown.ResendAfterThirtyTicks | src/pages/AuthPage.tsx:138-154 | After `start`, resend is offered again exactly from the 30th second on. The seconds shown are 30 − k, and never below 0. |
| Countdown.FrozenCountdown | src/pages/AuthPage.tsx:138-154 | Restarting a running countdown as written freezes it: 30 seconds shown and resend refused forever. |
| OtpInput.LastDigit | src/pages/AuthPage.tsx:74 | The digit kept from a keystroke is at most one digit, is absent exactly when nothing typed was a digit, and otherwise is the last digit typed: it stands at a position of the keystroke after which no digit follows. |
| OtpInput.HandleChange | src/pages/AuthPage.tsx:73-80 | The result is again a code of at most four digits. A digit overwrites the box it is typed in, or is appended if that box was empty. Typing no digit removes that box's digit, and the later digits move left. |
| OtpInput.Compact | src/pages/AuthPage.tsx:77-78 | Joining the slots and removing the blanks keeps exactly the non-blank slots, in order, and leaves no blank. |
| OtpInput.SlotsKept | src/pages/AuthPage.tsx:75-79 | Removing the blanks from the four slots gives the value with the box overwritten, appended to, or deleted. |
| OtpInput.Backspace | src/pages/AuthPage.tsx:82-95 | Backspace removes at most one digit. It removes the box's own digit, or the previous box's digit when the box is the first empty one past box 0. Otherwise it changes nothing. |
| OtpInput.ClearChar | src/pages/AuthPage.tsx:86-88 | Splitting the value, blanking one character and joining gives the value without that character, one shorter. |
| OtpInput.Paste | src/pages/AuthPage.tsx:97-102 | A paste gives a prefix of the clipboard's digits: all of them, or the first four. |
| Signup.SignupFlow.constructor | src/pages/AuthPage.tsx:176-184 | The page opens on the login form, nothing typed or sent, with the countdown idle. |
| Signup.SignupFlow.SendOtp | src/pages/AuthPage.tsx:202-214 | A new four-digit code is generated and the countdown restarts. Nothing else changes. When the previous countdown had finished, the restart is exactly the page's own `start`. |
| Signup.SignupFlow.Submit | src/pages/AuthPage.tsx:217-295 | A submit the current schema rejects reports its errors and changes nothing. A login hands the backend the username and password. The first step stores the trimmed contact and the name, sends a code and moves to the code step, whose description names the contact the code was sent to. The code step moves on only for a complete, matching code. The last step requests the sign-up with the login identifier. |
| Signup.SignupFlow.SubmitContact | src/pages/AuthPage.tsx:240-245 | The contact is stored trimmed, a code is sent to its mask, and the page moves to the code step. The code step's description (`getStepDesc`, lines 321-326) names exactly the masked contact the code was sent to. |
| Signup.SignupFlow.SubmitCode | src/pages/AuthPage.tsx:248-260 | Fewer than four digits: "enter all 4 digits". A wrong code: "invalid". Either way nothing changes. The right code moves to the account step with the boxes cleared. |
| Signup.SignupFlow.TypeInBox | src/pages/AuthPage.tsx:114 | A keystroke in a box updates the code as `handleChange` does and touches nothing else. |
| Signup.SignupFlow.BackspaceInBox | src/pages/AuthPage.tsx:115 | Backspace in a box updates the code as `handleKeyDown` does and touches nothing else. |
| Signup.SignupFlow.PasteIntoBoxes | src/pages/AuthPage.tsx:105 | A paste replaces the code with the clipboard's first four digits. |
| Signup.SignupFlow.Resend | src/pages/AuthPage.tsx:297-301 | Resend is only available on the code step while resending is allowed. It clears the boxes, sends a new code to the stored contact and forbids resending again. The restart is exactly the page's own `start`, and the description still names the contact the code went to. In any other state it does nothing. |
| Signup.SignupFlow.SwitchMode | src/pages/AuthPage.tsx:605 | The mode flips and the flow restarts at the first step with both codes cleared. The countdown and the stored contact are kept. |
| Signup.SignupFlow.Tick | src/pages/AuthPage.tsx:146-151 | One second of the countdown passes, and nothing else changes. |
| QuestionBank.BankInvariant | src/pages/PracticeTest.tsx:18-255 | The bank has 20 well-formed questions with ids 1 to 20 in order. A choice question offers its answer. A fill-in answer is one of its hints, in lower case with no padding. |
| QuestionBank.NormalizedFixed | src/pages/PracticeTest.tsx:472 | A lower-case, unpadded answer is unchanged by `trim().toLowerCase()`. |
| QuestionBank.LevelLabelAsWritten | src/pages/PracticeTest.tsx:264-275 | As written, a known level gives its label, and a key inherited from `Object.prototype` gives a value that is not a string. |
| QuestionBank.LevelLabel | src/pages/PracticeTest.tsx:264-275 | As intended, a known level gives its label and anything else gives "Beginner". The label is always one of the four. |
| QuestionBank.LevelLabelAgrees | src/pages/PracticeTest.tsx:264-275 | The two agree on every level except the inherited keys. |
| QuestionBank.SelectSpec | src/pages/PracticeTest.tsx:276 | A question is selected exactly when its difficulty equals the label, and the selection keeps the bank's order. |
| QuestionBank.SelectBlocks | src/pages/PracticeTest.tsx:276 | Each label selects exactly its declared block of questions. Any other value selects nothing. |
| QuestionBank.BlockDifficulties | src/pages/PracticeTest.tsx:18-255 | The bank is declared in four blocks, each of a single difficulty. |
| QuestionBank.FiveQuestionsPerLevel | src/pages/PracticeTest.tsx:264-276 | With the intended label, every level gets five questions. |
| QuestionBank.InheritedLevelSelectsNothing | src/pages/PracticeTest.tsx:275-276 | As written, the level "constructor" selects no question at all. The intended label gives it five. |
| PracticeTest.Find | src/pages/PracticeTest.tsx:288 | `find` returns the first question of the list with the id (no earlier question has it), and returns nothing exactly when no question has that id. |
| PracticeTest.CorrectIds | src/pages/PracticeTest.tsx:287-289 | The ids counted as correct are exactly the answered ids whose answer equals the question's answer. |
| PracticeTest.ScoreBounds | src/pages/PracticeTest.tsx:284-289 | While answers belong to the session's questions: correct ≤ answered ≤ number of questions. |
| PracticeTest.BannerThresholds | src/pages/PracticeTest.tsx:578 | "Excellent work!" exactly when 5·correct ≥ 4·total. "Good effort" exactly below that with 2·correct ≥ total. "Keep going" otherwise. |
| PracticeTest.BannerForFive | src/pages/PracticeTest.tsx:578 | With five questions: 4 or 5 correct is "Excellent", 3 is "Good effort", and fewer is "Keep going". |
| PracticeTest.SessionAgrees | src/pages/PracticeTest.tsx:275-276 | Outside the keys inherited from `Object.prototype`, the intended label selects exactly the questions the page selects. |
| PracticeTest.Mount | src/pages/PracticeTest.tsx:275-281 | The page on a level holds that level's questions, starts at the first one, and has nothing answered or typed. |
| PracticeTest.TestSession.constructor | src/pages/PracticeTest.tsx:278-281 | A session starts at the first of its questions with nothing answered, revealed or typed. |
| PracticeTest.TestSession.Current | src/pages/PracticeTest.tsx:284 | The current question is absent exactly when the session has no questions. |
| PracticeTest.TestSession.Score | src/pages/PracticeTest.tsx:287-289 | The score never exceeds the number answered, nor the number of questions. |
| PracticeTest.TestSession.SubmitAnswer | src/pages/PracticeTest.tsx:291-298 | With no question, or one whose result is already shown, nothing changes. Otherwise the answer is recorded for that id only and its result revealed. |
| PracticeTest.TestSession.SubmitTwice | src/pages/PracticeTest.tsx:291-298 | Of two submits in a row, the first answer is recorded and the second, whatever it is, changes nothing. With no question, or a result already shown, neither changes anything. |
| PracticeTest.TestSession.SubmitFill | src/pages/PracticeTest.tsx:472-476 | A fill-in text that trims to nothing submits nothing, and neither does any text when there is no question or its result is shown. Otherwise the trimmed, lower-cased text is recorded. |
| PracticeTest.TestSession.SetFill | src/pages/PracticeTest.tsx:468-489 | Typing or picking a hint sets the text box only. |
| PracticeTest.TestSession.GoNext | src/pages/PracticeTest.tsx:310-314 | Next moves one question on and clears the box, except at the last question where nothing changes. |
| PracticeTest.TestSession.GoPrev | src/pages/PracticeTest.tsx:316-320 | Previous moves one question back and clears the box, except at the first question. |
| PracticeTest.TestSession.JumpTo | src/pages/PracticeTest.tsx:545 | A progress dot jumps to any question and clears the box. Answers are kept. |
| PracticeTest.TestSession.Retry | src/pages/PracticeTest.tsx:582-586 | Retry returns to the first question with nothing answered: score 0, summary hidden. |
| PracticeTest.FillInAnswerMatches | src/pages/PracticeTest.tsx:472-476 | A fill-in answer typed in any letter case, with any white space around it, is recorded as exactly the stored answer, so it counts as correct. |
| PracticeTest.NonEmptyAnswers | src/pages/PracticeTest.tsx:18-255 | No answer in the bank is empty. |
| Help.QueryBlankIffAllSpace | src/pages/HelpSupportPage.tsx:116 | The normalised query is empty exactly when the typed text is all white space. |
| Help.BlankQueryShowsAll | src/pages/HelpSupportPage.tsx:117-121 | A blank query shows all six FAQs in order. |
| Help.FilteredSpec | src/pages/HelpSupportPage.tsx:116-121 | For any other query, the FAQs shown keep their order. An FAQ is shown exactly when the query has no inner white space and occurs in its lower-cased title and keywords. |
| Help.InnerSpaceMatchesNothing | src/pages/HelpSupportPage.tsx:118-120 | A query with white space inside it shows no FAQ. |
| Help.SearchIgnoresCase | src/pages/HelpSupportPage.tsx:116-121 | Queries that differ only in letter case show the same FAQs. |
| Help.FirstContained | src/pages/HelpSupportPage.tsx:123 | The index found belongs to a key the query contains, and no earlier key is contained. |
| Help.SuggestionKey | src/pages/HelpSupportPage.tsx:123 | A suggestion is a table key contained in the query. There is none exactly when the query contains no key. |
| Help.SuggestionIsFirst | src/pages/HelpSupportPage.tsx:123 | The key chosen comes, in declaration order, no later than any key the query contains. |
| Help.BlankQueryNoSuggestion | src/pages/HelpSupportPage.tsx:116-123 | A blank query gets no suggestion. |
| Help.HelpPage.constructor | src/pages/HelpSupportPage.tsx:92-101 | The page opens with no query, no FAQ open and no flow shown. |
| Help.HelpPage.SetQuery | src/pages/HelpSupportPage.tsx:92 | Typing changes only the query. |
| Help.HelpPage.ToggleFaq | src/pages/HelpSupportPage.tsx:228 | An open FAQ closes and hides its advanced panel, and a closed one opens in place of any other. Afterwards no other FAQ shows an advanced panel. |
| Help.HelpPage.ToggleAdvanced | src/pages/HelpSupportPage.tsx:241 | Inside the open FAQ, the advanced panel flips. |
| Help.HelpPage.OpenFlow | src/pages/HelpSupportPage.tsx:126-137 | The action's modal opens with an empty bar, not done. A bar timer is added and the done timer is re-armed. |
| Help.HelpPage.CloseFlow | src/pages/HelpSupportPage.tsx:140-145 | The modal closes with an empty bar and the done timer cleared. Pending bar timers remain. |
| Help.HelpPage.ProgressTimerFires | src/pages/HelpSupportPage.tsx:134 | A bar timer fills the bar, whether or not the modal is open. |
| Help.HelpPage.DoneTimerFires | src/pages/HelpSupportPage.tsx:136 | The done timer marks the shown flow done, and fires only while a flow is shown. |
| Privacy.FlipOnlyEntry | src/pages/PrivacyPage.tsx:95-102 | A flip changes entry `i`'s switch, keeps its name and leaves every other entry as it was. |
| Privacy.FlipTwice | src/pages/PrivacyPage.tsx:95-102 | Flipping the same switch twice restores the list. |
| Privacy.FlipsCommute | src/pages/PrivacyPage.tsx:95-102 | Flips of two switches commute. |
| Privacy.ExportPercent | src/pages/PrivacyPage.tsx:114-116 | The bar shows a value in [0, 100]. It reaches 100 exactly from 1990 ms on, the rounded share of two seconds. |
| Privacy.ExportPercentMonotone | src/pages/PrivacyPage.tsx:114-116 | With a clock that does not go back, the bar never shrinks. |
| Privacy.ConfirmText | src/pages/PrivacyPage.tsx:360 | The confirmation box holds the text with each character upper-cased in place (same length, character by character), so it is already upper case. |
| Privacy.ConfirmAnyCase | src/pages/PrivacyPage.tsx:360-373 | The Delete button is enabled exactly by the six letters of DELETE, each typed in either case. |
| Privacy.PrivacyPage.constructor | src/pages/PrivacyPage.tsx:76-85 | The page opens with "data" open, the initial toggles, no export and no dialog. |
| Privacy.PrivacyPage.ToggleSection | src/pages/PrivacyPage.tsx:200 | The open section closes, and any other section opens in its place. |
| Privacy.PrivacyPage.FlipToggle | src/pages/PrivacyPage.tsx:95-102 | The toggles become the flipped list, and nothing else changes. |
| Privacy.PrivacyPage.StartExport | src/pages/PrivacyPage.tsx:105-108 | From idle, the export is preparing with an empty bar. Otherwise nothing changes. |
| Privacy.PrivacyPage.ExportTick | src/pages/PrivacyPage.tsx:112-121 | A frame shows the elapsed percentage. The export becomes ready exactly when it reaches 100. |
| Privacy.PrivacyPage.Download | src/pages/PrivacyPage.tsx:127-144 | Download returns a ready export to idle with an empty bar. |
| Privacy.PrivacyPage.OpenDelete | src/pages/PrivacyPage.tsx:312 | The delete dialog opens. |
| Privacy.PrivacyPage.TypeConfirm | src/pages/PrivacyPage.tsx:360 | The box holds the typed text in upper case. Delete is enabled exactly when that equals DELETE. |
| Privacy.PrivacyPage.CloseDelete | src/pages/PrivacyPage.tsx:338-366 | Backdrop, close button and Cancel close the dialog and clear the text, which disables Delete. |
| Privacy.PrivacyPage.ConfirmDeletion | src/pages/PrivacyPage.tsx:147-151 | Deletion is reachable only with DELETE typed, and closes the dialog with the text cleared. |
| Profile.SavedName | src/pages/ProfilePage.tsx:90-91 | The saved name is the trimmed draft, or the previous name when the draft is blank. |
| Profile.SavedNameStaysTrimmed | src/pages/ProfilePage.tsx:90-91 | A name that is neither blank nor padded stays so through any save. |
| Profile.SavedNameUnedited | src/pages/ProfilePage.tsx:84-91 | Saving the name the dialog opened with keeps it. |
| Profile.SavedNameIgnoresPadding | src/pages/ProfilePage.tsx:91 | White space typed around a name is not saved. |
| Profile.ProfilePage.constructor | src/pages/ProfilePage.tsx:54-66 | The page opens as Alex Johnson, Intermediate, with notifications and pronunciation feedback on and grammar check off. |
| Profile.ProfilePage.OpenEdit | src/pages/ProfilePage.tsx:84-88 | The drafts start from what is shown, and the dialog opens. |
| Profile.ProfilePage.EditName | src/pages/ProfilePage.tsx:422 | Typing changes only the draft name. |
| Profile.ProfilePage.EditLevel | src/pages/ProfilePage.tsx:437-446 | Picking an offered level changes only the draft level. |
| Profile.ProfilePage.SaveEdit | src/pages/ProfilePage.tsx:90-95 | The name becomes the saved draft name and the level the draft level, and the dialog closes. An unedited save changes nothing shown. |
| Profile.ProfilePage.CancelEdit | src/pages/ProfilePage.tsx:389-454 | Cancelling closes the dialog and changes nothing shown. |
| Profile.ProfilePage.ToggleSetting | src/pages/ProfilePage.tsx:347-361 | A quick-setting switch flips that setting and no other. |
| Spelling.FoundSpec | src/components/SpellingCard.tsx:19-21 | A demo entry is found exactly when its word occurs in the lower-cased text, and results keep the demo list's order. |
| Spelling.FoundInAnyCase | src/components/SpellingCard.tsx:19-21 | A misspelling typed in any letter case is found. |
| Spelling.FoundIgnoresCase | src/components/SpellingCard.tsx:19-21 | Texts that differ only in letter case find the same entries. |
| Spelling.SpellingCard.Shown | src/components/SpellingCard.tsx:54-72 | Nothing is shown before a check. "No spelling errors found!" is shown exactly when a check found nothing; otherwise the found entries are. |
| Spelling.SpellingCard.constructor | src/components/SpellingCard.tsx:12-14 | The card starts empty and unchecked. |
| Spelling.SpellingCard.Edit | src/components/SpellingCard.tsx:44-47 | Editing sets the text and hides the last check's results. |
| Spelling.SpellingCard.Check | src/components/SpellingCard.tsx:16-24 | A blank text changes nothing. Otherwise the card shows exactly the entries found in the text. |
| Text.TrimEmptyIffAllSpace | src/components/SpellingCard.tsx:17 | `trim()` gives the empty string exactly when the text is all white space. |
| Text.TrimIdempotent | src/pages/ProfilePage.tsx:91 | Trimming a trimmed string leaves it as it is. |
| Text.TrimPadded | src/pages/ProfilePage.tsx:91 | Trimming white-space padding around a string that starts and ends with non-space gives back the string. |
| Text.TrimToLowerCommute | src/pages/HelpSupportPage.tsx:116 | `toLowerCase().trim()` equals `trim().toLowerCase()`. |
| Text.ContainsIffOccurs | src/components/SpellingCard.tsx:20 | `includes` holds exactly when there is an index at which the string occurs. |
| Text.SomeWordContainsIff | src/pages/HelpSupportPage.tsx:118-120 | Some word of `split(/\s+/)` contains `q` exactly when `q` has no white space and the whole text contains it. |
| Text.LastDigitPosition | src/pages/AuthPage.tsx:74 | The last character kept by `replace(/\D/g, "")` stands at a position of the original after which no digit follows. |
| Text.DecimalRoundTrip | src/pages/AuthPage.tsx:43-45 | The decimal rendering of a number reads back as the number. |
| Seqs.FilterMembership | src/pages/PracticeTest.tsx:276 | An element survives `filter` exactly when it is in the input and satisfies the predicate. |
| Seqs.FilterIsSubsequence | src/pages/PracticeTest.tsx:276 | `filter` never reorders: its result is a subsequence of its input. |

## Left out

- Backend calls are not made: sign-in, sign-up, session check, deletion request, logout. The sign-up flow returns the request it would make. Success and failure toasts, the loading flag and navigation after success are not modelled.
- Text that is only displayed is not modelled: question prompts, explanations, audio text, FAQ answers and advanced explanations, suggestion texts, toggle subtitles, and toast messages.
- Speech synthesis, avatar upload, charts and the exported JSON file are left out. They are browser I/O with no state the pages read back.
- Letter case is mapped on ASCII letters only. `toLowerCase`/`toUpperCase` outside ASCII (including length-changing mappings such as `ß`) are not modelled. White space for `trim` and `\s` is the full ECMAScript set.
- Timers, intervals, animation frames and `Date.now` are events or parameters. React's batching of state updates and re-render timing are not modelled, and each handler is applied atomically.
- `Privacy.ExportPercent`: the elapsed time is a natural number of milliseconds. A clock that goes backwards (negative elapsed time) is not modelled. `Math.round` on the floating-point quotient is modelled by exact rational rounding, half up.
- `PracticeTest.BannerThresholds`: `Math.ceil(n * 0.8)` uses exact arithmetic. Floating-point error in `n * 0.8` is not modelled.
- `form.reset()` on a mode switch, and the password visibility toggle, are not modelled, because form values are a parameter of each submit.
- `Help.HelpPage.ToggleFaq`: `openId` may name any integer, as in the source, which does not check that the id belongs to a listed FAQ.
- `Help.HelpPage.CloseFlow`: a pending bar timer can still fill the bar of a closed modal, as in the source. The model keeps that behaviour and does not claim the bar stays empty.
- `PracticeTest.Mount` selects with the corrected label `QuestionBank.LevelLabel`, not the page's `levelLabels[level] || "Beginner"`. On a level such as `constructor` it therefore holds five Beginner questions where the page holds none (second row of "## Findings"); on every other level the two agree (`PracticeTest.SessionAgrees`). It does not state the number of questions either: that every level gets five is `QuestionBank.FiveQuestionsPerLevel`.
- `Signup.SignupFlow.SendOtp`, `Signup.SignupFlow.Submit` and `Signup.SignupFlow.SubmitContact` restart the countdown with the corrected `Countdown.Start`, not the page's `start`. Sending a code while a countdown is still running therefore counts down again in the model, where the page freezes at 30 seconds (first row of "## Findings"). When the previous countdown had finished, their contracts state that the two agree.
- String lengths and indexes count Unicode scalar values, not UTF-16 code units. `length`, the schemas' `min` rules (`Auth.ErrorsOfSpec`, `Auth.ResolverTable`) and the first and last characters kept by `Auth.MaskLocal` therefore differ from the page on characters outside the Basic Multilingual Plane: a full name "😀" is two code units, which the page accepts, and one scalar value, which the model rejects.
- Sending the code as a toast is modelled as an outcome value (`OtpSent`). The auto-focus moves of the code boxes are not modelled.

## Findings

| source | as written | input that shows it | evidently intended | confidence | as-written member | corrected member |
|---|---|---|---|---|---|---|
| src/pages/AuthPage.tsx:138-154 | `start` clears the running interval and sets `active` to true. The effect that arms a new interval runs only when `active` changes, so restarting a running countdown leaves no interval. | Send a code on sign-up, switch to login and back, then send a code again within 30 s. The page shows 30 s and never offers a resend. | Every `start` begins a fresh 30-second countdown that ends with resend allowed. | high (not executed) | Countdown.StartAsWritten, Countdown.FrozenCountdown | Countdown.Start, Countdown.ResendAfterThirtyTicks |
| src/pages/PracticeTest.tsx:264-276 | `levelLabels[level] \|\| "Beginner"` looks the route's level up on a plain object. Inherited keys such as `constructor` give a function, which is truthy, so no question's difficulty equals it. | The route `/task/practice/constructor` shows a test with no questions. | Unknown levels fall back to "Beginner" and get its five questions. | high (not executed) | QuestionBank.LevelLabelAsWritten, QuestionBank.InheritedLevelSelectsNothing | QuestionBank.LevelLabel, QuestionBank.FiveQuestionsPerLevel |
