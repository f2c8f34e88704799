# Healthcare Analysis HQ — client core in Dafny

Healthcare Analysis HQ (HAQ) is a 15-day learning web application. A user logs in. Each day they open a multiple-choice quiz from a calendar, and they follow their progress: a streak, counts and six achievement badges. Completing 15 days shows a certificate. The application is a React front end over an external workflow backend and an auth service.

This project models the client-side logic of that front end. Each source file becomes one module:

| module | file | what it holds |
|---|---|---|
| `ProgressStats` | progress_stats.dfy | the streak (a method with a loop, proved against a definition on the multiset of days), the counts, the success rate, the badges, the 1..15 day grid |
| `QueryPage` | query_page.dfy | the quiz page as a class `Quiz`: loading, answer selection, the submit guard, grading, the submission payload, the reply handling and the completion timer |
| `Index` | index_router.dfy | the view router as a class `App`: start-up restore, login, day click, completion, the certificate check, the return timer, reset, rendering |
| `Dashboard` | dashboard.dfy | `yyyy-MM-dd` formatting with its inverse, the calendar marks, the progress counter, date selection and logout |
| `UserContext` | user_context.dfy | the session store as a class `Session` with six nullable fields and their setters, and `useUser` |
| `UseLogout` | use_logout.dfy | the logout sequence |
| `LoginPage` | login_page.dfy | the login form as a class `LoginForm` |
| `Browser`, `Wrappers` | browser.dfy, wrappers.dfy | a key/value storage object; `Option` and `Result` |

Modelling conventions:
- Network replies and sign-out outcomes are method parameters.
- The two-second timers are explicit "timer fires" methods: `Quiz.CompletionTimerFires` and `App.ReturnTimerFires`.
- Callbacks such as `onLogin`, `onDayClick` and `onComplete` become return values that hold the call's arguments.
- JavaScript truthiness is written out. In `userId && loginDate && loginTime`, the id 0 and the empty string count as false. In `selectedDay && userData`, the day 0 counts as false.

## Behaviour of the code worth knowing

- The certificate appears when the completed list has exactly 15 entries, whatever the success rate. 16 entries do not bring it up.
- Login goes straight to the dashboard.
- The code's only day classifications are the 1..15 grid (completed, attempted, not started) and the two calendar marks.
- The streak counts steps of exactly one down from the largest completed day. A repeated day ends the streak just as a gap does.
- The submission summary carries the correct count, the question count and the constant `question_id = 1`.
- The Submit button stays on screen while a submission is in flight, so a second click sends a second submission. Each reply then sets `submitted` on its own, and the latest reply decides it. A "fail" that arrives after a "success" leaves the quiz unsubmitted, while the completion timer that the success started still reports the day complete.

## Model

| member | source | states |
|---|---|---|
| ProgressStats.CalculateStreak | src/components/ProgressStats.tsx:27-39 | The result is 0 exactly for no days, and never exceeds the number of entries. Otherwise it is the length k of the longest run max, max-1, …, max-k+1 of days that all occur, where every value above the lowest occurs once, so a duplicate stops the run like a gap. The input list is a value and is not changed. |
| ProgressStats.StreakOfSorted | src/components/ProgressStats.tsx:29-37 | Counting steps of exactly one over a largest-first permutation of the days, up to the first other step, gives exactly that streak. |
| ProgressStats.SortDescending | src/components/ProgressStats.tsx:29 | The sorted copy is non-increasing and is a permutation of the days, which fixes it uniquely. |
| ProgressStats.SuccessRate | src/components/ProgressStats.tsx:23 | The rate is 0 without attempts. Otherwise, rate × attempted = completed × 100. |
| ProgressStats.FullRate | src/components/ProgressStats.tsx:23 | The rate is exactly 100 iff attempted > 0 and completed = attempted. |
| ProgressStats.DayBreakdown | src/components/ProgressStats.tsx:176-192 | Completed is the number of completed entries. Completed plus in progress equals attempted, so in progress is attempted − completed. Completed plus in progress plus not started equals 15. In progress is negative iff there are more completed than attempted entries. Not started is negative iff there are more than 15 attempted entries. |
| ProgressStats.Achievements | src/components/ProgressStats.tsx:44-81 | There are exactly six badges, in the order First Step, On Fire, Half Way, Almost There, Perfect Score, Master. |
| ProgressStats.UnlockConditions | src/components/ProgressStats.tsx:44-81 | First Step iff completed ≥ 1. On Fire iff streak ≥ 3. Half Way iff completed ≥ 7. Almost There iff completed ≥ 10. Perfect Score iff attempted ≥ 5 and completed = attempted. Master iff completed = 15 exactly. |
| ProgressStats.CountBadgesMonotone | src/components/ProgressStats.tsx:45-80 | More completions never re-lock First Step, Half Way or Almost There. 16 completions do not unlock Master. |
| ProgressStats.PageBadges | src/components/ProgressStats.tsx:20-81 | The page's badges are computed from the two list lengths and the streak the page calculates. On Fire is unlocked iff that streak is at least 3, which needs at least three completed entries. Perfect Score is unlocked iff there are at least 5 attempted entries and exactly as many completed ones. |
| ProgressStats.DayGrid | src/components/ProgressStats.tsx:239-256 | There are 15 cells. Cell i (day i+1) is completed iff the day is in the completed list. It is attempted iff the day is attempted and not completed. It is not started iff the day is in neither list. So each cell has exactly one class. |
| QueryPage.Quiz.constructor | src/components/QueryPage.tsx:36-46 | The page starts loading with no questions and no answers, nothing in flight and no timer. It starts submitted (read-only) exactly when the day was attempted before. |
| QueryPage.Quiz.LoadQuestions | src/components/QueryPage.tsx:49-86 | Loading ends. The questions come from the array body, else from its `mcqs` array, else there are none (also on a fetch error). Every answer is null, one per question. |
| QueryPage.Unanswered | src/components/QueryPage.tsx:76 | It gives n answers, all null. |
| QueryPage.Quiz.HandleSelect | src/components/QueryPage.tsx:93-99 | Answer q becomes the chosen value. The length and every other answer are unchanged. |
| QueryPage.Quiz.ChooseOption | src/components/QueryPage.tsx:235-238 | When the quiz is submitted, the disabled option group changes nothing. Otherwise the selection is recorded, also while a submission is in flight. |
| QueryPage.Quiz.HandleSubmit | src/components/QueryPage.tsx:101-147 | With any answer missing, nothing is sent and nothing changes. Otherwise the graded submission of the current answers is sent and joins the submissions in flight, which remember whether every answer was correct. Nothing else changes until its reply. |
| QueryPage.Quiz.ReplyArrives | src/components/QueryPage.tsx:147-185 | The reply to one in-flight submission, in any order, removes it from those in flight. The quiz is submitted afterwards iff this reply is "success", whatever earlier replies did. On "success", the result is marked correct iff that submission was all correct, and then the confetti shows and one more completion timer starts. On "fail", another status, an empty reply array or an error, only `submitted` is written, to false. The confetti never shows without a pending completion timer. |
| QueryPage.Quiz.CompletionTimerFires | src/components/QueryPage.tsx:166-169 | `onComplete` is called with the page's day, the confetti stops and one fewer timer is pending. |
| QueryPage.Grade | src/components/QueryPage.tsx:109 | There is one result per question. Result i holds iff answer i is that question's correct option. |
| QueryPage.CountTrue | src/components/QueryPage.tsx:112 | The correct count is the number of true results. So it is at most the number of results, equals it iff every result is true, and is 0 iff none is. |
| QueryPage.OptionLetter | src/components/QueryPage.tsx:119 | Option index 0..25 gives the code unit of `A`..`Z`. |
| QueryPage.LetterRoundTrip | src/components/QueryPage.tsx:119 | Every option index below 2^16 can be recovered from its letter. |
| QueryPage.BuildSubmission | src/components/QueryPage.tsx:115-131 | There is one response per question, in question order. Each has the question's `mcq_id`, the user's `user_id`, the answer's letter, a correct flag that holds iff the answer is right, `answered = true` and `respond_date` = the login date. The summary has `total_mcq` = question count, `question_id = 1`, the same `user_id` and `respond_date`, and `no_correct` = the number of rows flagged correct. |
| QueryPage.AllCorrectSummary | src/components/QueryPage.tsx:109-131 | The summary reports every question correct (`no_correct` = `total_mcq`) iff every answer is its question's correct option. |
| QueryPage.FirstReply | src/components/QueryPage.tsx:151 | An array reply is read through its first element, which is missing exactly when the array is empty. An object reply is read as it is. |
| QueryPage.VerdictOf | src/components/QueryPage.tsx:147-185 | The reply is accepted iff the read reply exists and has status "success". It is rejected iff that status is "fail". Every other case is unexpected. |
| QueryPage.EmptyQuizCompletes | src/components/QueryPage.tsx:160-169 | After a failed question fetch, an accepted submission of the empty quiz still reports the day complete. |
| QueryPage.SuccessThenLateFail | src/components/QueryPage.tsx:154-174 | Submit clicked twice before any reply: a "success" and then a "fail" leave the quiz unsubmitted, and the success's timer still reports the day complete. |
| Index.App.constructor | src/pages/Index.tsx:16-48 | Start-up restores the saved user and both saved lists (empty lists when nothing is saved). The view is certificate if the restored completed list has exactly 15 entries. Otherwise it is dashboard when a user was saved, and login when none was. The restored state agrees with storage. |
| Index.App.CertificateCheck | src/pages/Index.tsx:44-48 | A completed list of exactly 15 entries forces the certificate view. Any other length leaves the view alone. |
| Index.App.HandleLogin | src/pages/Index.tsx:50-55 | The user is set and written under `haq_user`, and the view becomes dashboard. Storage still agrees with the state. |
| Index.App.HandleDayClick | src/pages/Index.tsx:57-60 | The selected day is the clicked day and the view is query. |
| Index.App.HandleQueryComplete | src/pages/Index.tsx:62-76 | The day is appended to both lists without deduplication, so each grows by exactly one. Both lists are persisted and one return timer is scheduled. The view becomes certificate iff the completed list now has 15 entries. "Every completed entry is also an attempted one" is preserved. |
| Index.App.ReturnTimerFires | src/pages/Index.tsx:72-75 | The view becomes dashboard and the selected day null, whatever the view was, certificate included. |
| Index.App.HandleBackToDashboard | src/pages/Index.tsx:78-81 | The view becomes dashboard and the selected day null. |
| Index.App.HandleReset | src/pages/Index.tsx:83-91 | Exactly the three keys are removed from storage. The user becomes null, both lists become empty and the view becomes login. |
| Index.App.Render | src/pages/Index.tsx:93-130 | The login view, and only it, renders the login page. The quiz renders iff the view is query, the selected day is set and not 0, and a user exists. The quiz is told `hasAttempted` iff that day is in the attempted list. With a user, the certificate view renders that user's certificate, and the dashboard view renders that user's dashboard over the completed list. Nothing renders iff the view is not login and either there is no user or the query view lacks a usable day. |
| Index.Reload | src/pages/Index.tsx:26-41 | A reload from the page's storage rebuilds the same user and lists. |
| Index.FifteenthCompletion | src/pages/Index.tsx:44-75 | Completing the fifteenth day shows the certificate. The return timer of that same completion then replaces it with the dashboard. |
| Dashboard.FormatDate | src/components/Dashboard.tsx:56 | The string has a '-' six and three characters from its end, and every other character is a decimal digit. It has exactly 10 characters (`yyyy-MM-dd`) for years below 10000, and at least 10 otherwise. |
| Dashboard.FormatRoundTrip | src/components/Dashboard.tsx:62 | Reading the `yyyy-MM-dd` string back gives the same date. |
| Dashboard.FormatInjective | src/components/Dashboard.tsx:61-69 | Distinct dates of the common era have distinct strings, so a listed string marks at most one calendar date. |
| Dashboard.IsDateCompleted | src/components/Dashboard.tsx:61-64 | A date counts as completed iff its `yyyy-MM-dd` string is in the completed list, and then that entry reads back as the date. |
| Dashboard.IsDateAttempted | src/components/Dashboard.tsx:66-69 | A date counts as attempted iff its `yyyy-MM-dd` string is in the attempted list, and then that entry reads back as the date. |
| Dashboard.DateMarks | src/components/Dashboard.tsx:153-156 | The completed mark is set iff the date's string is in the completed list. The attempted mark is set iff the string is attempted and not completed. No date carries both marks. |
| Dashboard.ProgressCounter | src/components/Dashboard.tsx:29-30 | The counter shows the number of completed entries out of a fixed 15. The bar's value v satisfies v × 15 = completed × 100. |
| Dashboard.ProgressBarFull | src/components/Dashboard.tsx:29-30 | The bar's value is exactly 100 iff there are 15 completed entries, and above 100 iff there are more. |
| Dashboard.DashboardPage.constructor | src/components/Dashboard.tsx:28 | No date is selected when the dashboard opens. |
| Dashboard.DashboardPage.HandleDateSelect | src/components/Dashboard.tsx:53-59 | Without a date, nothing changes and nothing is forwarded. With a date, it becomes the selection and its `yyyy-MM-dd` string is forwarded, and that string reads back as the date. No date is filtered out. |
| Dashboard.DashboardPage.HandleLogout | src/components/Dashboard.tsx:39-50 | When sign-out returns, both storage areas are emptied and the page navigates to "/". When it throws, neither storage area changes and there is no navigation. |
| Browser.Storage.Clear | src/hooks/useLogout.ts:29-30 | The storage area ends up empty. |
| UserContext.Session.constructor | src/context/UserContext.tsx:22-28 | All six fields start null. |
| UserContext.Session.SetUserId | src/context/UserContext.tsx:23 | Only `userId` changes, to the given value. |
| UserContext.Session.SetLoginEmail | src/context/UserContext.tsx:24 | Only `loginEmail` changes, to the given value. |
| UserContext.Session.SetLoginTime | src/context/UserContext.tsx:25 | Only `loginTime` changes, to the given value. |
| UserContext.Session.SetLoginDate | src/context/UserContext.tsx:26 | Only `loginDate` changes, to the given value. |
| UserContext.Session.SetUserLogId | src/context/UserContext.tsx:27 | Only `userLogId` changes, to the given value. |
| UserContext.Session.SetOverallScore | src/context/UserContext.tsx:28 | Only `overallScore` changes, to the given value. |
| UserContext.UseUser | src/context/UserContext.tsx:36-40 | It succeeds iff there is a provider, and then gives the provider's session. Otherwise it fails with "useUser must be used within UserProvider". |
| UseLogout.RequestFor | src/hooks/useLogout.ts:13-22 | A request is built iff userId is set and non-zero and loginDate and loginTime are set and non-empty. It then carries exactly those three values. |
| UseLogout.Logout | src/hooks/useLogout.ts:10-42 | The request is sent exactly under that condition, and a failed request is only logged. Both storage areas always end up empty. userId, loginEmail, loginDate and loginTime become null, while userLogId and overallScore keep their values. The page always navigates to "/". |
| LoginPage.LoginForm.constructor | src/components/LoginPage.tsx:27-29 | All three fields start empty. |
| LoginPage.LoginForm.SetName | src/components/LoginPage.tsx:63 | Only the name changes. |
| LoginPage.LoginForm.SelectTrack | src/components/LoginPage.tsx:71-78 | The track becomes the chosen track's value, which is never empty. |
| LoginPage.LoginForm.SetBatchCode | src/components/LoginPage.tsx:90 | Only the batch code changes. |
| LoginPage.LoginForm.HandleSubmit | src/components/LoginPage.tsx:31-36 | `onLogin` is called iff name, track and batch code are all non-empty. It then receives exactly (name, track, batchCode) in that order. |
| LoginPage.TrackValues | src/components/LoginPage.tsx:76-78 | The track values are exactly DA, SDET and DVLPR. They are non-empty and pairwise distinct. |
| LoginPage.SubmitUntouchedForm | src/components/LoginPage.tsx:27-35 | Submitting the form as it opens does not call `onLogin`. |

## Left out

- Transport: HTTP requests, headers, status codes and timeouts. Only their outcomes are modelled, as parameters.
- Toast notifications, console logging and all markup and styling.
- The email buttons (`handleEmailQuery`, `handleEmailProgress`), which only show a toast.
- The unused `selectedAnswer` state of the quiz page.
- The floating-point percentages. The bars' values are exact rationals in the model, and the `toFixed` display is left out.
- ProgressStats.SuccessRate: computed in exact rationals rather than IEEE doubles. For the comparison with 100 that the Perfect Score badge makes, the two agree at any realistic count.
- ProgressStats.SortDescending: the copy is sorted as a value, not in place in an array. Nothing observes the copy part-way through the sort.
- JSON encoding of stored values: the router's storage holds the records themselves. `Index.App.constructor` requires each of the page's three keys to hold the kind of record the page writes there. Storage edited by other means, with a key holding the wrong kind or text that is not JSON, is not modelled.
- The two logout paths model storage as opaque strings.
- Quiz.HandleSelect: assumes the index is within the answers, as every option group passes its own question's index. JavaScript's growth of an array written past its end is not modelled.
- Quiz.HandleSubmit: assumes the quiz is not yet submitted, since the submit button exists only then. A reply that arrives after the page has unmounted is still applied to the model's state.
- The `onBack` and `onViewStats` buttons only forward the callbacks.
- Index.tsx passes integer days and an undeclared `currentDay` to a Dashboard whose props are `yyyy-MM-dd` strings. It also never passes the required `attemptedDays` (src/pages/Index.tsx:121-126), so the calendar's `attempted` modifier calls `includes` on `undefined` (src/components/Dashboard.tsx:68,155). Each module keeps its own file's declared types, and the two are not connected, so the model's dashboard always receives an attempted list.
- Dashboard.Date: years 1 BC and earlier are not modelled. For them `yyyy` prints the era year, so year 0 would print as 0001. A day is not checked against the length of its month, since dates from the calendar are always real dates.
- Index.App.HandleQueryComplete: appends the day to the lists as they are when it runs. The page's handler appends to the lists captured when the quiz's `onComplete` was created (src/pages/Index.tsx:63-64). So two completion timers started from one rendering of the quiz store the day once, not twice.
- Unmounting: a timer that fires after its page has gone still runs its step (`ReturnTimerFires` after `HandleReset`). Unmounting itself is not modelled.
- UserContext.Session: `userId`, `userLogId` and `overallScore` are JavaScript numbers, and `overallScore` may be fractional. They are modelled as integers. No modelled operation computes with them: they are only stored, copied, or tested against 0 in the logout guard, where a NaN `userId` would also count as false.
- Dashboard.DashboardPage.HandleLogout: only a thrown sign-out error is told apart. The page does not inspect an error object that sign-out returns, and neither does the model.
