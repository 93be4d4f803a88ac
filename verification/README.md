# WeHearU dashboard logic in Dafny

WeHearU is a customer-feedback dashboard written in TypeScript and React.
This project models the parts of it that compute something, each as a Dafny module
named after the source file:

- **`FeedbackContext`**: the feedback provider.
  - It holds the sentiment bucketing rule and the mock generator of fifty records.
  - The random draws are parameters of the generator.
  - It computes the statistics block of `fetchFeedbacks`: counts and a `Math.round` average.
  - The trend series and the category series are random and independent of the records.
  - Its state fields change under `fetchFeedbacks` and `exportFeedbacks`.
- **`FeedbackTable`**: the feedback table.
  - Search is a case-insensitive substring match on four fields.
  - Pages hold ten records each.
  - Previous and Next are clamped to the valid page range.
  - A page-number strip shows links and ellipses.
  - The score circle and the sentiment badge each get a colour.
- **`FeedbackPage`**: the four summary cards, whose percentages guard the division.
- **`SentimentChart`**: the time-range window over the trend series, and the per-day totals.
- **`CategoryChart`**: the total of the counts, and the colour each slice gets in turn.
- **`Signup`**: the four password checks and the order in which the submit handler reports problems.
- **`AuthContext`**: the mock session.
  - The signed-in user is kept in step with the `wehearu_user` local-storage entry, modelled as an optional stored user.
- **`Settings`**: the tab shown for a URL, the URL a tab click leads to, and the avatar letter.
- **`Tea`**: the Tea Station.
  - It has a tea table and a quantity stepper.
  - The brewing state machine is driven by a once-a-second tick.
  - The countdown is written as `m:ss`.
- **`Team`**: the avatar initials of a member's name and the department badge lookup.

Two more modules model the JavaScript built-ins these rely on:

- **`JsString`**: `toLowerCase`, `includes`, `split`/`join`, and the decimal rendering of numbers.
- **`JsMath`**: `Math.round` of a quotient, computed exactly on integers.

**How the model represents things:**

- Every `Math.random()` result is an input. It is given already scaled and floored, so it is an integer in the range the source draws from.
- A date is a number of days before today.
- Local storage is an `Option` holding the stored user.
- Methods with a `modifies` clause stand for state that React keeps in `useState`.

## Model

| member | source | states |
|---|---|---|
| JsString.LowerChar | src/components/Dashboard/FeedbackTable.tsx:59-62 | Upper-case ASCII letters map to the matching lower-case letter; every other character is unchanged |
| JsString.Lower | src/components/Dashboard/FeedbackTable.tsx:59-62 | Lower-casing keeps the length and lower-cases each character in place |
| JsString.LowerIdempotent | src/components/Dashboard/FeedbackTable.tsx:59-62 | Lower-casing twice is the same as lower-casing once |
| JsString.Contains | src/components/Dashboard/FeedbackTable.tsx:59-62 | `includes` scans the start positions from the left; it can succeed only when the needle is no longer than the string |
| JsString.ContainsSound | src/pages/Settings/Settings.tsx:48-51 | When `includes` succeeds, the needle occurs at some position |
| JsString.ContainsComplete | src/pages/Settings/Settings.tsx:48-51 | An occurrence at any position makes `includes` succeed |
| JsString.ContainsIff | src/components/Dashboard/FeedbackTable.tsx:59-62 | The left-to-right `includes` scan succeeds iff the needle occurs at some position |
| JsString.ContainsEmpty | src/components/Dashboard/FeedbackTable.tsx:59-62 | Every string includes the empty string |
| JsString.Split | src/pages/Dashboard/Team.tsx:76 | `split` returns at least one part, and no part contains the separator |
| JsString.JoinSplit | src/pages/Dashboard/Team.tsx:76 | Joining the parts of a split with the same separator gives back the string |
| JsString.NatToString | src/pages/Dashboard/Tea.tsx:80 | A number renders as its shortest decimal numeral: a non-empty run of digits, one digit exactly when the number is below 10, and starting with `0` only for 0 itself, so there is no leading zero |
| JsString.ParseNatToString | src/pages/Dashboard/Tea.tsx:80 | Reading a rendered number back gives the number |
| JsString.NatToStringInjective | src/context/FeedbackContext.tsx:66 | Different numbers render differently |
| JsMath.RoundDiv | src/context/FeedbackContext.tsx:152 | The result is the integer nearest to a/b, with halves rounded up as `Math.round` does |
| JsMath.RoundDivUnique | src/context/FeedbackContext.tsx:152 | Only one integer satisfies the rounding bounds |
| JsMath.RoundDivBetween | src/context/FeedbackContext.tsx:152 | If a/b lies in [lo, hi], the rounded value lies in [lo, hi] |
| JsMath.RoundDivExact | src/pages/Dashboard/Feedback.tsx:78 | An exact quotient is returned unchanged |
| FeedbackContext.SentimentOf | src/context/FeedbackContext.tsx:56-60 | Positive iff the score is above 70; negative iff below 40; neutral iff in [40, 70]. The three cases are exclusive and cover every score |
| FeedbackContext.MockScore | src/context/FeedbackContext.tsx:54-55 | The positive branch gives a score in [70, 99]; the other branch gives [10, 49] |
| FeedbackContext.MockRecord | src/context/FeedbackContext.tsx:53-76 | Record i has id `feedback-(i+1)`, a score in [10, 99], and a sentiment that follows the bucketing rule |
| FeedbackContext.GenerateMockFeedbacks | src/context/FeedbackContext.tsx:48-78 | Exactly 50 records with ids `feedback-1` to `feedback-50`. Every record is well formed with a score in [10, 99]. The positive branch was taken iff the score is at least 70. Source, category and product come from the fixed tables |
| FeedbackContext.PositiveBranchSentiment | src/context/FeedbackContext.tsx:54-60 | A positive-branch record is never negative. It is neutral exactly when it drew the score 70 |
| FeedbackContext.FeedbackIdInjective | src/context/FeedbackContext.tsx:66 | Different record numbers give different ids |
| FeedbackContext.MockIdsDistinct | src/context/FeedbackContext.tsx:53-66 | The 50 generated ids are pairwise distinct |
| FeedbackContext.CountSentiment | src/context/FeedbackContext.tsx:142-144 | A sentiment count never exceeds the number of records. It is 0 iff no record has that sentiment, and the full length iff every record has it |
| FeedbackContext.CountsPartition | src/context/FeedbackContext.tsx:141-144 | The positive, negative and neutral counts add up to the number of records |
| FeedbackContext.SumScores | src/context/FeedbackContext.tsx:145 | The sum of the scores is non-negative when every score is |
| FeedbackContext.SumScoresBetween | src/context/FeedbackContext.tsx:145 | If every score is in [lo, hi], the sum is between n·lo and n·hi |
| FeedbackContext.ComputeStats | src/context/FeedbackContext.tsx:141-153 | `total` is the record count. `positive`, `negative` and `neutral` are each the count of records with that sentiment, and they add up to `total`. `averageScore` is sum/total rounded half-up. It needs a non-empty list because the source divides without a guard |
| FeedbackContext.AverageBetween | src/context/FeedbackContext.tsx:145-152 | The rounded average lies between any lower and upper bound on the scores |
| FeedbackContext.MockStats | src/context/FeedbackContext.tsx:137-153 | On generated data the total is 50 and the average is in [10, 99] |
| FeedbackContext.StatsExample | src/context/FeedbackContext.tsx:141-153 | Scores 95, 85, 50, 25, 10 give total 5, 2 positive, 2 negative, 1 neutral, average 53 |
| FeedbackContext.GenerateSentimentTrends | src/context/FeedbackContext.tsx:80-97 | 31 points, oldest first. Point k is dated 30−k days ago. Positive is in [20, 69], negative in [5, 24], neutral in [10, 39] |
| FeedbackContext.GenerateCategoryDistribution | src/context/FeedbackContext.tsx:99-107 | The five fixed categories in a fixed order. Their counts are in [50, 149], [40, 119], [30, 99], [20, 79] and [10, 59] |
| FeedbackContext.FeedbackProvider.constructor | src/context/FeedbackContext.tsx:113-123 | Before the first fetch: no records, `loading` is true, and all statistics are zero |
| FeedbackContext.FeedbackProvider.FetchFeedbacks | src/context/FeedbackContext.tsx:130-168 | Stores the generated records, with `stats` computed from exactly those records. Stores the generated trends and categories. `loading` ends false. The filters are ignored |
| FeedbackContext.FeedbackProvider.ExportFeedbacks | src/context/FeedbackContext.tsx:171-193 | Only `loading` changes, and it ends false |
| FeedbackTable.Matches | src/components/Dashboard/FeedbackTable.tsx:58-63 | A record matches iff the lower-cased term occurs in the lower-cased text, source, category or product. Id, date, sentiment and score are never searched |
| FeedbackTable.FilterFeedbacks | src/components/Dashboard/FeedbackTable.tsx:58-63 | The result is no longer than the input, and holds exactly the input records that match |
| FeedbackTable.FilterAppend | src/components/Dashboard/FeedbackTable.tsx:58-63 | Filtering a concatenation filters each part, so the input order is kept |
| FeedbackTable.FilterEmptyTerm | src/components/Dashboard/FeedbackTable.tsx:58-63 | The empty search term keeps every record |
| FeedbackTable.FilterCaseInsensitive | src/components/Dashboard/FeedbackTable.tsx:58-63 | Two terms that lower-case alike select the same records |
| FeedbackTable.TotalPages | src/components/Dashboard/FeedbackTable.tsx:66 | The page count is ⌈n/10⌉ |
| FeedbackTable.Paginate | src/components/Dashboard/FeedbackTable.tsx:67-68 | Page p holds the items from index (p−1)·10 onwards, at most 10 of them. It is empty iff (p−1)·10 ≥ n |
| FeedbackTable.ConcatPagesPrefix | src/components/Dashboard/FeedbackTable.tsx:66-68 | Pages 1 to k laid end to end are the first min(10k, n) items |
| FeedbackTable.PagesReconstruct | src/components/Dashboard/FeedbackTable.tsx:66-68 | Pages 1 to totalPages laid end to end are the whole filtered list |
| FeedbackTable.PaginateTen | src/components/Dashboard/FeedbackTable.tsx:55-68 | With ten items, page 1 holds them all, page 2 is empty, and there is one page |
| FeedbackTable.EntryAt | src/components/Dashboard/FeedbackTable.tsx:257-282 | A page renders at most one entry, and that entry carries the page's own number |
| FeedbackTable.StripFrom | src/components/Dashboard/FeedbackTable.tsx:254-283 | Strip entries lie within the page range and are in strictly increasing page order |
| FeedbackTable.PageStrip | src/components/Dashboard/FeedbackTable.tsx:254-283 | The strip's entries have pages in [1, totalPages], in strictly increasing order, so there are at most totalPages of them |
| FeedbackTable.StripFromEntries | src/components/Dashboard/FeedbackTable.tsx:254-283 | An entry for page q is in the strip from p on exactly when page q itself renders that entry |
| FeedbackTable.PageStripEntries | src/components/Dashboard/FeedbackTable.tsx:254-283 | A page gets a link iff it is 1, the last page, or within 1 of the current page, and the link is active iff the page is current. It gets an ellipsis iff it gets no link and the gap rule holds |
| FeedbackTable.EllipsisPositions | src/components/Dashboard/FeedbackTable.tsx:274-280 | An ellipsis appears only at page 2 when current > 3, or at the page before the last when current < total−2 |
| FeedbackTable.CountLinksStep | src/components/Dashboard/FeedbackTable.tsx:257-271 | Each page adds one link to the count when it is a link page, and none otherwise |
| FeedbackTable.CandidatesStep | src/components/Dashboard/FeedbackTable.tsx:257-260 | A link page is one of the five candidate pages, so it uses one of them up |
| FeedbackTable.CountLinksFrom | src/components/Dashboard/FeedbackTable.tsx:257-271 | A tail of the strip has no more links than there are candidate link pages in it |
| FeedbackTable.AtMostFiveLinks | src/components/Dashboard/FeedbackTable.tsx:257-271 | At most five page links are rendered |
| FeedbackTable.ScoreColour | src/components/Dashboard/FeedbackTable.tsx:199-205 | Green iff the score is at least 70; red iff at most 40; grey iff strictly between |
| FeedbackTable.SentimentBadge | src/components/Dashboard/FeedbackTable.tsx:71-82 | The badge is green iff the record is positive, red iff negative, and grey iff neutral |
| FeedbackTable.BadgeAgreesWithScoreColour | src/components/Dashboard/FeedbackTable.tsx:71-82 | Badge and circle agree in colour, except at scores 70 and 40. There the record is neutral while the circle is green or red |
| FeedbackTable.TableState.constructor | src/components/Dashboard/FeedbackTable.tsx:53-54 | The search term starts empty and the page starts at 1 |
| FeedbackTable.TableState.Shown | src/components/Dashboard/FeedbackTable.tsx:66-68 | At most 10 rows are shown. Each is an input record that matches the current term |
| FeedbackTable.TableState.SetSearchTerm | src/components/Dashboard/FeedbackTable.tsx:93 | Only the term changes. The current page is not reset |
| FeedbackTable.TableState.PreviousPage | src/components/Dashboard/FeedbackTable.tsx:249 | The page becomes max(p−1, 1) |
| FeedbackTable.TableState.NextPage | src/components/Dashboard/FeedbackTable.tsx:287 | The page becomes min(p+1, totalPages), which also pulls a page left too large by a search back to the last page. Next is only reachable while the strip is shown |
| FeedbackTable.TableState.GoToPage | src/components/Dashboard/FeedbackTable.tsx:265 | Clicking a page link makes that page current |
| FeedbackPage.Percentage | src/pages/Dashboard/Feedback.tsx:78 | An empty list divides by 1. Otherwise the result is 100·value/length rounded half-up, in [0, 100] when value ≤ length, and exactly 100 when value = length > 0 |
| FeedbackPage.SummaryCards | src/pages/Dashboard/Feedback.tsx:56-79 | Four cards: Total shows the list length, and the other three show the sentiment counts, which add up to Total. Every card's percentage is `Percentage` of its own value over the list length, and lies in [0, 100]. All are 0 for an empty list; Total is 100 otherwise |
| FeedbackPage.CardsMatchStats | src/pages/Dashboard/Feedback.tsx:57-72 | The card values equal the provider's `total`, `positive`, `negative` and `neutral` |
| SentimentChart.FilteredData | src/components/charts/SentimentChart.tsx:31-39 | `all` returns the data unchanged. Otherwise the result is the last min(k, n) entries, a suffix in the original order |
| SentimentChart.DaysToFilter | src/components/charts/SentimentChart.tsx:34-36 | `7d`, `14d` and `30d` select windows of 7, 14 and 30 days, each range its own window |
| SentimentChart.DataWithTotal | src/components/charts/SentimentChart.tsx:42-44 | Length and order are kept, and the counts are copied. Each row's total is positive + negative + neutral |
| SentimentChart.DefaultViewOfGeneratedSeries | src/components/charts/SentimentChart.tsx:28-38 | The default 30-day range drops the oldest day of the 31-day series, leaving 29 days ago to today. Every total is in [35, 132] |
| CategoryChart.TotalAppend | src/components/charts/CategoryChart.tsx:28 | The total of a concatenation is the sum of the totals |
| CategoryChart.Total | src/components/charts/CategoryChart.tsx:28 | With non-negative counts the total is non-negative |
| CategoryChart.WithColours | src/components/charts/CategoryChart.tsx:29-31 | Length and order are kept, category and count are copied, and every colour is from the palette |
| CategoryChart.SharedColour | src/components/charts/CategoryChart.tsx:20-31 | Two slices share a colour iff their indices agree mod 6 |
| CategoryChart.ColoursDistinct | src/components/charts/CategoryChart.tsx:20 | The six palette entries are pairwise different |
| CategoryChart.ColoursDistinctUpToSix | src/components/charts/CategoryChart.tsx:29-31 | Up to six slices all get different colours |
| CategoryChart.GeneratedSlices | src/components/charts/CategoryChart.tsx:28-31 | The five generated categories get five different colours. Their total is in [150, 505] |
| CategoryChart.TotalOfFive | src/components/charts/CategoryChart.tsx:28 | The total of five entries is the sum of their five counts |
| Signup.ContainsMatch | src/pages/Auth/Signup.tsx:33-35 | A one-character-class regex test succeeds iff some character is in the class |
| Signup.ValidatePassword | src/pages/Auth/Signup.tsx:30-37 | `length` iff at least 8 characters. `number` iff some ASCII digit. `uppercase` iff some A–Z. `special` iff some character from the special set |
| Signup.IsPasswordValid | src/pages/Auth/Signup.tsx:39-40 | Valid iff the password has at least 8 characters and contains a digit, an upper-case letter and a special character |
| Signup.AnyFieldEmpty | src/pages/Auth/Signup.tsx:46 | True iff one of name, email, password and confirmation is the empty string, the only string for which `!field` holds |
| Signup.SubmitDisabled | src/pages/Auth/Signup.tsx:199 | The button is disabled while loading. It is enabled when not loading with a valid password that the confirmation equals, and when it is enabled the password has at least 8 characters and the confirmation equals it |
| Signup.ShowsMismatch | src/pages/Auth/Signup.tsx:166-174 | The mismatch hint shows exactly when the confirmation is non-empty and differs from the password |
| Signup.SubmitCheck | src/pages/Auth/Signup.tsx:44-59 | "Please fill in all fields" iff some field is the empty string. Otherwise the requirements message iff the password is invalid. Otherwise "Passwords do not match" iff the two differ. Otherwise sign-up proceeds |
| Signup.EnabledSubmit | src/pages/Auth/Signup.tsx:166-199 | About the submit handler itself: while the button is enabled, the mismatch hint is hidden, and the handler's own checks can fail only with "Please fill in all fields", exactly when the name or the email is empty |
| Signup.SignupForm.constructor | src/pages/Auth/Signup.tsx:24-28 | All fields and the error start empty |
| Signup.SignupForm.HandleSubmit | src/pages/Auth/Signup.tsx:42-62 | About the handler once it runs: the error becomes the first failing check's message, or empty. `signup` runs only when every check passes; otherwise the session is untouched |
| AuthContext.ApiKey | src/context/AuthContext.tsx:118 | A key is `whu_` followed by the suffix, and the suffix can be read back |
| AuthContext.ApiKeyInjective | src/context/AuthContext.tsx:118 | Different suffixes give different keys |
| AuthContext.AuthProvider.IsAuthenticated | src/context/AuthContext.tsx:141 | Authenticated iff there is a user |
| AuthContext.AuthProvider.constructor | src/context/AuthContext.tsx:26-27 | No user and loading, before the mount effect runs |
| AuthContext.AuthProvider.Restore | src/context/AuthContext.tsx:29-36 | The user becomes the stored entry, if there is one, and loading ends either way |
| AuthContext.AuthProvider.Login | src/context/AuthContext.tsx:38-70 | Any credentials give the admin "Demo User" with id "1", the given email and a fresh key. It is stored, and loading ends |
| AuthContext.AuthProvider.Signup | src/context/AuthContext.tsx:72-103 | A member with id "1", the given email and name and no key. It is stored, and loading ends |
| AuthContext.AuthProvider.Logout | src/context/AuthContext.tsx:105-107 | No user, and the stored entry is removed |
| AuthContext.AuthProvider.GenerateApiKey | src/context/AuthContext.tsx:114-131 | Returns `whu_`+suffix. When signed in, only `apiKey` changes and the result is stored. When signed out, nothing changes |
| Settings.GetTabValue | src/pages/Settings/Settings.tsx:46-53 | The first tab, in the order api-keys, notifications, billing, security, whose `/settings/<tab>` marker the path contains. Otherwise profile |
| Settings.HandleTabChange | src/pages/Settings/Settings.tsx:55-57 | Every tab click navigates to a path under `/settings` |
| Settings.ContainsUnderSettings | src/pages/Settings/Settings.tsx:48-51 | Under `/settings/`, a marker for x occurs iff x begins the rest of the path (neither contains a slash) |
| Settings.TabRoundTrip | src/pages/Settings/Settings.tsx:46-57 | For each of the five tabs, `getTabValue` maps the path a click on it navigates to back to that tab |
| Settings.TabUnderSettings | src/pages/Settings/Settings.tsx:46-57 | `getTabValue` maps `/settings/` followed by one of the four non-profile tabs to that tab |
| Settings.MarkerPresent | src/pages/Settings/Settings.tsx:48-51 | `/settings/v` contains its own marker |
| Settings.MarkerAbsent | src/pages/Settings/Settings.tsx:48-51 | `/settings/v` lacks the marker of a tab starting with a different letter |
| Settings.ProfileLink | src/pages/Settings/Settings.tsx:52 | `getTabValue` maps the navigation bar's `/settings/profile` to the profile tab |
| Settings.UnrecognisedIsProfile | src/pages/Settings/Settings.tsx:52 | `getTabValue` maps `/settings/<v>`, where v starts with no other tab name, to the profile tab |
| Settings.AvatarInitial | src/pages/Settings/Settings.tsx:153 | One character: the first letter of the user's name, or `U` when there is no user or the name is empty |
| Tea.FindIn | src/pages/Dashboard/Tea.tsx:56 | A tea is found iff some entry has that id, and the one found has that id |
| Tea.TeaTable | src/pages/Dashboard/Tea.tsx:24-30 | Every brew time is 2 to 5 minutes, and the tea ids are distinct |
| Tea.StepDown | src/pages/Dashboard/Tea.tsx:135 | The minus button gives max(1, q−1), never below 1 |
| Tea.StepUp | src/pages/Dashboard/Tea.tsx:153 | The plus button gives min(10, q+1), never above 10 |
| Tea.TypedQuantity | src/pages/Dashboard/Tea.tsx:146 | A typed value is kept unless it failed to parse or is 0; those become 1. The result is never 0 |
| Tea.StepsStayInRange | src/pages/Dashboard/Tea.tsx:135-153 | Both buttons keep a quantity in [1, 10]. Typed values such as 42 or −3 are not clamped |
| Tea.ClockText | src/pages/Dashboard/Tea.tsx:80 | Minutes, a colon at the third-last place, and two digits of seconds. The minutes field reads back as the minutes and has no leading zero (one digit iff below 10), and the seconds field reads back as the seconds |
| Tea.FormatTime | src/pages/Dashboard/Tea.tsx:77-81 | The countdown is `m:ss`: the minutes field reads back as seconds/60 with no leading zero, and the two-digit seconds field as seconds mod 60 |
| Tea.PaddedSeconds | src/pages/Dashboard/Tea.tsx:79-80 | Seconds below 60 render as exactly two digits that read back as the seconds |
| Tea.FormatTimeRoundTrip | src/pages/Dashboard/Tea.tsx:77-81 | The countdown text reads back as the seconds it was made from |
| Tea.ClockTextShort | src/pages/Dashboard/Tea.tsx:77-81 | Under ten minutes the countdown is exactly one minute digit, a colon and two second digits |
| Tea.FormatTimeFourMinutes | src/pages/Dashboard/Tea.tsx:77-81 | 240 seconds show as `4:00` |
| Tea.FormatTimeSixtyFive | src/pages/Dashboard/Tea.tsx:77-81 | 65 seconds show as `1:05` |
| Tea.TickStep | src/pages/Dashboard/Tea.tsx:64-73 | Above 1 second a tick counts down by one. Otherwise it sets timeLeft 0, isPreparing false, isDone true and stops the timer. It keeps the brewing invariant |
| Tea.TicksInvariant | src/pages/Dashboard/Tea.tsx:63-74 | Any number of ticks keeps the brewing invariant |
| Tea.TicksCountDown | src/pages/Dashboard/Tea.tsx:64-73 | Before the last second, n ticks take off exactly n seconds |
| Tea.BrewTakesExactlyT | src/pages/Dashboard/Tea.tsx:63-74 | A brew started with T seconds is still brewing after fewer than T ticks and done after exactly T |
| Tea.TeaStation.constructor | src/pages/Dashboard/Tea.tsx:34-40 | No tea selected, quantity 1, not brewing, not done, no time left |
| Tea.TeaStation.SelectTea | src/pages/Dashboard/Tea.tsx:42-45 | Selecting a tea (from the menu or the guide) sets it and clears "done". Brewing state and time are untouched, and the invariant holds |
| Tea.TeaStation.PrepareTea | src/pages/Dashboard/Tea.tsx:47-75 | With no selection it reports the error and changes nothing. Otherwise brewing starts, not done. A known tea sets timeLeft to brewTime·60 and starts the timer; an unknown id starts no timer |
| Tea.TeaStation.Tick | src/pages/Dashboard/Tea.tsx:63-74 | One firing of the interval performs `TickStep` on the page state |
| Tea.TeaStation.DecreaseQuantity | src/pages/Dashboard/Tea.tsx:135 | The quantity becomes `StepDown` of the old one |
| Tea.TeaStation.IncreaseQuantity | src/pages/Dashboard/Tea.tsx:153 | The quantity becomes `StepUp` of the old one |
| Tea.TeaStation.TypeQuantity | src/pages/Dashboard/Tea.tsx:146 | The quantity becomes `TypedQuantity` of what `parseInt` returned |
| Team.DepartmentBadge | src/pages/Dashboard/Team.tsx:86 | A department has a badge class iff it is one of the colour table's own keys, and the class is that key's entry |
| Team.RosterWellFormed | src/pages/Dashboard/Team.tsx:12-67 | Every member's department has a badge colour. The ids are 1 to 5 in order, so they are distinct |
| Team.NonEmptyParts | src/pages/Dashboard/Team.tsx:76 | The non-empty parts, each taken from the input, no more of them than parts |
| Team.FirstChars | src/pages/Dashboard/Team.tsx:76 | The result is the first characters of the non-empty parts, in their order, one per non-empty part; empty parts contribute nothing |
| Team.FirstCharsSplit | src/pages/Dashboard/Team.tsx:76 | The first characters of the split parts are exactly the characters that begin a word |
| Team.Initials | src/pages/Dashboard/Team.tsx:76 | The avatar initials are the first letters of the words of the name, in order. Runs of spaces add nothing |
| Team.WordStartsAppend | src/pages/Dashboard/Team.tsx:76 | Word starts of a concatenation are the word starts of each part, given whether the first part ends in a space |
| Team.WordStartsOneWord | src/pages/Dashboard/Team.tsx:76 | A word without spaces contributes only its first letter |
| Team.InitialsOfTwoWords | src/pages/Dashboard/Team.tsx:76 | "First Last" gives the two letters F and L |
| Team.TwoWordName | src/pages/Dashboard/Team.tsx:76 | A name made of two space-free words separated by one space has two initials, starting with its first letter |
| Team.RosterInitials | src/pages/Dashboard/Team.tsx:12-58 | Every roster name gives two initials, starting with the name's first letter |
| Team.AlexInitials | src/pages/Dashboard/Team.tsx:206 | Alex Johnson's avatar reads "AJ" |

## Left out

- Asynchronous delays (`setTimeout`, `await`), toasts, `console.error`, `navigate` after sign-up and `navigator.clipboard` are effects with no result to state. Each operation is modelled as if its delay had already elapsed.
- Real `localStorage` and JSON (de)serialisation are not modelled. The stored entry is an `Option<User>`, with `Some` meaning a non-empty stored string that parses back to the same user.
- `Math.random()` and the clock are not modelled as such. Draws are inputs, already floored into their ranges. Dates, `toISOString`, `toLocaleDateString` and date-fns formatting become day offsets or are dropped.
- The base-36 rendering of a random number behind each API key suffix is not modelled. The suffix is an input string.
- Signup.ValidatePassword / Signup.IsPasswordValid / Team.FirstChars / Team.Initials / Settings.AvatarInitial: lengths and first characters are counted in Unicode scalar values, because a Dafny `string` is a sequence of them. JavaScript's `password.length` (src/pages/Auth/Signup.tsx:32), `n[0]` (src/pages/Dashboard/Team.tsx:76) and `charAt(0)` (src/pages/Settings/Settings.tsx:153) count UTF-16 code units. The two agree on every character in the Basic Multilingual Plane and differ on characters outside it, such as emoji. For example, `Aa1!😀😀` has JavaScript length 8 and passes the source's length check, but has 6 scalar values here and fails it. A name starting with an emoji gets a lone high surrogate as its initial in the source, but the whole emoji here.
- Team.DepartmentBadge: the lookup is modelled as membership among the colour table's own keys. A JavaScript object lookup (src/pages/Dashboard/Team.tsx:86) also returns inherited `Object.prototype` members, so a department named `constructor`, `toString`, `valueOf` or `__proto__` gets a value in the source but `None` here. No roster department has such a name.
- JsString.LowerChar / JsString.Lower: lower-case only ASCII A–Z. JavaScript's `toLowerCase` also folds non-ASCII letters.
- FeedbackPage.Percentage: computes exactly on rationals. The source rounds a floating-point value, whose error could tip a tie.
- The floating-point percentage in the category chart (`toFixed`, NaN for a zero total) is left out. So are the Tea progress bar width and the dashboard-page percentages, which divide by a zero total before the first fetch.
- The sentiment badge's `Unknown` default is unreachable, because `Sentiment` has only three values.
- FeedbackContext.FeedbackProvider.FetchFeedbacks: the provider calls it on mount (src/context/FeedbackContext.tsx:127), and so do the dashboard page (src/pages/Dashboard/Dashboard.tsx:37) and the feedback page (src/pages/Dashboard/Feedback.tsx:15), which also calls it on Refresh (src/pages/Dashboard/Feedback.tsx:19). These calls overlap: the first to finish sets `loading` to false while another is still pending, and the records are replaced once per call. The model treats each call as atomic, so it does not capture that interleaving. The transient `loading = true` during the delay is not visible, and the `catch` path (which no statement here can trigger) is left out. The filters argument is accepted and ignored.
- FeedbackContext.FeedbackProvider.ExportFeedbacks: only the `loading` flag is modelled. The source produces no file.
- AuthContext.AuthProvider.Login / Signup: the `catch` branches, which rethrow, are unreachable in the mock and are left out. So is the sign-up form's own catch message.
- Tea.TeaStation.PrepareTea: requires that no brew is in progress, because the button is disabled then. The quantity controls likewise require it. A second concurrent interval therefore cannot arise and is not modelled.
- The Tea Station's sugar and milk choices are left out. They are stored but affect nothing else.
- `parseInt` itself is not modelled. `TypedQuantity` receives its result, with `None` for NaN.
- Sidebar, navigation bar, marketing pages and other markup carry no computation and are not part of this model.
- The trend and category series are not derived from the records, because the source draws them independently at random. So there is no per-day or per-category counting to model.
- The statistics have no zero-division guard. `ComputeStats` requires a non-empty list, which the generator always provides.
- The search term is not trimmed. A term of spaces matches only records whose fields contain those spaces.
- Signup.SignupForm.HandleSubmit: the browser's own form validation runs before the handler and is not modelled. The name, email, password and confirmation inputs are `required` (src/pages/Auth/Signup.tsx:101,117,133,170), the email input has `type="email"` (src/pages/Auth/Signup.tsx:112), and the terms checkbox is `required` (src/pages/Auth/Signup.tsx:182). So a click never reaches the handler with an empty field, a malformed email or the terms box unticked, and "Please fill in all fields" is shown only if the handler runs some other way. The model has no terms field.
- Settings.GetTabValue: routing is not part of this model. The router matches only the exact path `/settings` (src/App.tsx:35) and sends every other path to the not-found page (src/App.tsx:36). So `/settings/api-keys` and the other tab paths, including the navigation bar's `/settings/profile` link (src/components/Navbar.tsx:96), render the not-found page rather than Settings, and every tab click except profile leaves the Settings page. The Settings rows state only what `getTabValue` maps each path to.
