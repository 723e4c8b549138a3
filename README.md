# Prediction league pages, modelled in Dafny

This project models the logic of a football prediction league's web pages.
Players predict the total goals of a match day, and a season leaderboard ranks
them by the points their predictions earned. The modelled parts are:

- **The season leaderboard** (`Grouping`, `Ranking`, `Leaderboard`). Scored
  prediction rows are grouped by user id in an insertion-ordered dictionary.
  For each user the page sums the points, counts the rows and keeps the team
  name of the user's first row. The entries are sorted by total points with a
  stable sort, and each rank is rewritten to the entry's 1-based position.
  `FetchLeaderboard` runs these steps as loops over an array. Its
  postcondition ties the result to the functional `Board`. The lemmas prove:
  - one entry per player;
  - exact sums and counts;
  - the first-row team label;
  - the ordering, with ties kept in first-appearance order;
  - ranks 1..N;
  - medals for the top three.
- **The sign-up and sign-in forms** (`Text`, `Email`, `Credentials`, `SignUp`,
  `SignIn`). The email regex `^[^\s@]+@[^\s@]+\.[^\s@]+$` is modelled twice:
  - as the pattern itself, `MatchesEmailRegex`, which asks for split points;
  - as a direct check, `ValidateEmail`, which needs exactly one '@', a
    non-empty local part, and a '.' strictly inside the domain.

  The two are proved equivalent. White space is the ECMAScript
  WhiteSpace/LineTerminator set. `String.prototype.trim`, the regex `\s` and
  `parseInt` all use this set.

  Each page is a class with the form state, the error record and the loading
  flag:
  - `ValidateForm` fills the error record field by field;
  - `HandleChange` sets one field and clears one error;
  - `HandleSubmit` takes the backend's answers as parameters.
- **The dashboard** (`IntText`, `Dashboard`):
  - `parseInt` is modelled as ECMAScript defines it: leading white space,
    then a sign, then an optional `0x` prefix, then the longest digit run;
    `NaN` when there are no digits.
  - `Number.prototype.toString` is modelled for integers.
  - The page is a class:
    - `CheckAuth` is the load sequence, with the paywall redirect before any
      match-day query.
    - `HandleSubmitPrediction` is the submit handler, with its insert and
      update paths and the `finally` reset.
    - The lock conditions of the input and the button are functions.

The backend (authentication, queries, inserts and updates) is not modelled.
Its answers are parameters of the methods. The match-day cutoff test against
the clock is a boolean `isClosed`.

One behaviour is worth knowing. A successful first insert stores a local
prediction whose `id` is the empty string. This locks the input and relabels
the button "Update Prediction". A second press in the same session therefore
sends an update keyed by the empty id. Its goals are those of the text in the
input when the insert's answer arrived; the input is locked from then on.
`HandleSubmitPrediction` states both steps, with each handler run as one
atomic step (see "## Left out").

## Model

| member | source | states |
|---|---|---|
| Text.IsSpace | src/app/signup/page.tsx:66 | definition, no contract: the ECMAScript WhiteSpace and LineTerminator code points, the set shared by `trim`, the regex class `\s` and `parseInt` |
| Text.Trim | src/app/signup/page.tsx:80 | definition, no contract: `trim` as `TrimEnd` after `TrimStart`; `TrimEmptyIffBlank` and `TrimHasNoOuterSpace` state its properties |
| Text.TrimStart | src/app/signup/page.tsx:80 | the result is a suffix of the input, everything dropped is white space, and the result starts with a non-space character unless it is empty |
| Text.TrimEnd | src/app/signup/page.tsx:80 | the result is a prefix of the input, everything dropped is white space, and the result ends with a non-space character unless it is empty |
| Text.TrimEmptyIffBlank | src/app/signup/page.tsx:80 | `s.trim()` is empty exactly when every character of `s` is white space |
| Text.TrimHasNoOuterSpace | src/app/signup/page.tsx:90 | a trimmed string neither starts nor ends with white space |
| Email.ValidateEmail | src/app/signup/page.tsx:65-68 | definition, no contract: `validateEmail` as a direct check (no white space, one '@' after a non-empty local part, a dot inside the domain); `ValidateEmailIsRegex` proves it equal to the regex |
| Email.MatchesEmailRegex | src/app/signup/page.tsx:66 | reference definition, no contract: the language of the email regex, local part, '@', domain, '.', and suffix each a non-empty run without white space or '@' |
| Email.IndexOf | src/app/signup/page.tsx:65-68 | the returned index holds the character, and no earlier position does |
| Email.ValidateEmailIsRegex | src/app/signup/page.tsx:65-68 | the direct check accepts a string exactly when the regex `^[^\s@]+@[^\s@]+\.[^\s@]+$` matches it: no white space, exactly one '@', a non-empty local part, and a '.' with a character on each side inside the domain |
| Email.ValidEmailIsNotBlank | src/app/signup/page.tsx:90-94 | an address the regex accepts is never blank, so the "required" and "invalid" branches never overlap |
| Email.PaddedEmailIsInvalid | src/app/signup/page.tsx:90-94 | an address with leading or trailing white space never matches |
| Credentials.EmailError | src/app/signup/page.tsx:90-94 | definition, no contract: "Email is required" for a blank address, "Please enter a valid email" when the untrimmed text fails the regex, otherwise empty; `EmailErrorCases` states each case |
| Credentials.PasswordError | src/app/signup/page.tsx:96-100 | definition, no contract: "Password is required" when empty, the length message under 8 characters, otherwise empty; `PasswordErrorCases` states each case |
| Credentials.EmailErrorCases | src/app/signup/page.tsx:90-94 | the email message is empty exactly when the regex matches; it is "Email is required" exactly when the address is blank; it is "Please enter a valid email" exactly when it is not blank and does not match |
| Credentials.PaddedEmailReported | src/app/signin/page.tsx:36-40 | any non-blank address that starts or ends with white space is reported as invalid, not as missing, because the regex runs on the untrimmed text |
| Credentials.PasswordErrorCases | src/app/signin/page.tsx:42-46 | "Password is required" exactly when empty, the length message exactly for 1 to 7 characters, no message from 8 characters up; no trimming |
| SignUp.DisplayNameError | src/app/signup/page.tsx:80-84 | definition, no contract: the display-name message; `DisplayNameCases` states each case |
| SignUp.TeamError | src/app/signup/page.tsx:86-88 | definition, no contract: "Please select a team" exactly when no team is chosen |
| SignUp.ConfirmError | src/app/signup/page.tsx:102-106 | definition, no contract: the confirmation message; `ConfirmCases` states each case |
| SignUp.TermsError | src/app/signup/page.tsx:108-110 | definition, no contract: the terms message exactly when the box is unchecked |
| SignUp.Validate | src/app/signup/page.tsx:70-113 | definition, no contract: the six messages `validateForm` computes; `FieldErrorIffUnacceptable` and `ValidateAcceptsExactly` state what they mean |
| SignUp.ApplyChange | src/app/signup/page.tsx:121-124 | definition, no contract: the form with the changed field replaced; `ChangeSetsOnlyItsField` states it |
| SignUp.ClearError | src/app/signup/page.tsx:126-131 | definition, no contract: the errors with one message emptied; `ClearErrorOnlyItsField` states it |
| SignUp.NewProfile | src/app/signup/page.tsx:161-168 | definition, no contract: the inserted profile row; `NewProfileIgnoresDisplayName` states it |
| SignUp.FieldErrorIffUnacceptable | src/app/signup/page.tsx:80-110 | each of the six fields gets a message exactly when its own value is unacceptable, stated by an independent per-field predicate |
| SignUp.ValidateAcceptsExactly | src/app/signup/page.tsx:70-114 | the error record is all-empty exactly when all six fields are acceptable |
| SignUp.DisplayNameCases | src/app/signup/page.tsx:80-84 | "Display name is required" exactly for a blank name; the length message exactly for a non-blank name under 3 characters, counting surrounding spaces; no message exactly for a non-blank name of at least 3 characters |
| SignUp.ConfirmCases | src/app/signup/page.tsx:102-106 | "Please confirm your password" exactly when empty; "Passwords do not match" exactly when non-empty and different; no message exactly when non-empty and equal to the password |
| SignUp.ChangeSetsOnlyItsField | src/app/signup/page.tsx:121-124 | a change stores `checked` for the terms checkbox and the text for every other field, and leaves the other five fields unchanged |
| SignUp.ClearErrorOnlyItsField | src/app/signup/page.tsx:126-131 | clearing empties the named field's message and keeps the other five |
| SignUp.NewProfileIgnoresDisplayName | src/app/signup/page.tsx:161-168 | the inserted profile depends only on the user id and the team; its display name is "Player" and its status "inactive" |
| SignUp.SignUpPage.constructor | src/app/signup/page.tsx:14-32 | the page starts with an empty form, no errors and not loading |
| SignUp.SignUpPage.ValidateForm | src/app/signup/page.tsx:70-114 | commits the six messages of `Validate` for the current form and returns true exactly when all six are empty, which `ValidateAcceptsExactly` shows means every field is acceptable |
| SignUp.SignUpPage.HandleChange | src/app/signup/page.tsx:116-132 | the form becomes the old form with the one field changed, and only that field's message is cleared |
| SignUp.SignUpPage.HandleSubmit | src/app/signup/page.tsx:134-188 | the messages are committed; sign-up is called exactly when they are all empty (an acceptable form, by `ValidateAcceptsExactly`); a profile is inserted exactly when a user comes back; the redirect is scheduled exactly after a successful insert; loading is off again after any attempt and untouched when validation fails |
| SignUp.SignUpPage.SignUpAndCreateProfile | src/app/signup/page.tsx:141-187 | the profile `NewProfile(user id, form)` is inserted exactly when sign-up returns a user; the redirect is scheduled exactly when that insert succeeds; every path (auth error, no user, profile error, thrown error) ends with loading off |
| SignIn.Validate | src/app/signin/page.tsx:30-49 | definition, no contract: the email and password messages `validateForm` computes; `ValidateAcceptsExactly` states when both are empty |
| SignIn.SetField | src/app/signin/page.tsx:54-57 | definition, no contract: the form with one field replaced; `SetFieldOnlyItsField` states it |
| SignIn.ClearError | src/app/signin/page.tsx:59-64 | definition, no contract: the errors with one message emptied; `ClearErrorOnlyItsField` states it |
| SignIn.ValidateAcceptsExactly | src/app/signin/page.tsx:30-50 | the error record is empty exactly when the address matches the regex and the password has at least 8 characters |
| SignIn.SetFieldOnlyItsField | src/app/signin/page.tsx:52-57 | a change sets the named field and leaves the other unchanged |
| SignIn.ClearErrorOnlyItsField | src/app/signin/page.tsx:58-64 | clearing empties the named field's message and keeps the other |
| SignIn.SignInPage.constructor | src/app/signin/page.tsx:13-23 | the page starts with an empty form, no errors and not loading |
| SignIn.SignInPage.ValidateForm | src/app/signin/page.tsx:30-50 | commits both messages and returns true exactly for a matching address and a password of at least 8 characters |
| SignIn.SignInPage.HandleChange | src/app/signin/page.tsx:52-65 | sets the named field and clears only its message |
| SignIn.SignInPage.HandleSubmit | src/app/signin/page.tsx:67-99 | sign-in is attempted only for a valid form; the redirect happens only on success; loading is turned off only after an error or an exception, and stays on after success or an answer without a user |
| IntText.ParseInt | src/app/dashboard/page.tsx:136 | definition, no contract: `parseInt` with no radix (skip white space, optional sign, "0x" selects hexadecimal, longest digit run, none is NaN); `ParseDecimalPrefix`, `RoundTrip` and `NoDigitsIsNaN` state its properties |
| IntText.ParseSigned | src/app/dashboard/page.tsx:136 | definition, no contract: the optional sign of `parseInt`, negating the unsigned value after a '-' |
| IntText.ParseUnsigned | src/app/dashboard/page.tsx:136 | definition, no contract: the "0x"/"0X" prefix choice of radix and the value of the longest digit run, NaN when the run is empty |
| IntText.DigitsValue | src/app/dashboard/page.tsx:136 | definition, no contract: the value of a digit string in the radix, most significant digit first |
| IntText.IntToString | src/app/dashboard/page.tsx:104 | definition, no contract: `toString` of an integer, a '-' before the digits of a negative; `RoundTrip` proves `parseInt` reads it back |
| IntText.LeadingDigits | src/app/dashboard/page.tsx:136 | the result is the longest prefix made of digits of the radix |
| IntText.NatToDecimal | src/app/dashboard/page.tsx:104 | the result is non-empty, all decimal digits, and has no leading zero |
| IntText.ParseDecimalPrefix | src/app/dashboard/page.tsx:136 | `parseInt` of white space, then a decimal number, then text that does not continue it, gives that number |
| IntText.RoundTrip | src/app/dashboard/page.tsx:104 | `parseInt(n.toString())` is `n` for every integer |
| IntText.NoDigitsIsNaN | src/app/dashboard/page.tsx:136-137 | text without any decimal digit parses to NaN, hexadecimal letters such as "abc" or "-f" included, since without a '0' there is no "0x" prefix |
| Dashboard.CheckPrediction | src/app/dashboard/page.tsx:131-140 | definition, no contract: the two guards of the submit handler; `PredictionVerdicts` states each outcome both ways |
| Dashboard.PredictionVerdicts | src/app/dashboard/page.tsx:131-140 | "Please enter a prediction" exactly when the user, the match day or the text is missing; "Please enter a valid number" exactly when `parseInt` gives NaN or a negative number; otherwise the accepted goals are the parsed, non-negative number |
| Dashboard.LoadedPredictionResubmits | src/app/dashboard/page.tsx:101-104 | the text loaded for a stored prediction of n goals is accepted again as exactly n |
| Dashboard.NegativePredictionRejected | src/app/dashboard/page.tsx:136-140 | any negative number is rejected with the number message |
| Dashboard.PredictionPrefixAccepted | src/app/dashboard/page.tsx:136 | leading white space and a tail that does not continue the number are ignored, so "  3.7" is accepted as 3 (a 0 followed by "x" is excluded: it switches `parseInt` to hexadecimal) |
| Dashboard.BlankPredictionInvalid | src/app/dashboard/page.tsx:131-140 | non-empty white space passes the emptiness check and is rejected as not a number |
| Dashboard.DashboardPage.InputDisabled | src/app/dashboard/page.tsx:277 | definition, no contract: the input is locked once the match day closes or a prediction exists; `HandleSubmitPrediction` states it holds after a first insert |
| Dashboard.DashboardPage.SubmitDisabled | src/app/dashboard/page.tsx:312-316 | definition, no contract: the button cannot be pressed once the match day closes (it is not rendered), while submitting, or with an empty input; `HandleSubmitPrediction` states it is free again after an accepted attempt while the day is open |
| Dashboard.DashboardPage.SubmitLabel | src/app/dashboard/page.tsx:324 | definition, no contract: "Submitting...", else "Update Prediction" when a prediction exists, else "Submit Prediction" |
| Dashboard.DashboardPage.constructor | src/app/dashboard/page.tsx:13-21 | the initial state: loading, not submitting, no message, no prediction |
| Dashboard.DashboardPage.CheckAuth | src/app/dashboard/page.tsx:24-111 | no user goes to sign-in; an inactive profile goes to the paywall, and the match day is queried exactly when the profile is active; a stored prediction fills the input with its goals as text; loading ends unless the page navigates away |
| Dashboard.DashboardPage.OnPredictionChange | src/app/dashboard/page.tsx:271-276 | the text is stored and the message is cleared |
| Dashboard.DashboardPage.HandleSubmitPrediction | src/app/dashboard/page.tsx:127-194 | clears the message, then sets the verdict's message and writes nothing on rejection; otherwise updates an existing prediction by its id or inserts a new one; only a successful insert stores the local prediction with points null; submitting is off after every accepted attempt, and while the match day is open the submit button is enabled again, so a second press is possible; after a first insert the input is disabled and the button reads "Update Prediction" |
| Grouping.TeamLabel | src/app/leaderboard/page.tsx:57 | definition, no contract: a missing or empty team name shows "Unknown Team" |
| Grouping.PointsValue | src/app/leaderboard/page.tsx:62 | definition, no contract: missing points count as 0 |
| Grouping.UserIds | src/app/leaderboard/page.tsx:53-64 | reference definition, no contract: the distinct users in order of their first row; `UserIdsAreThePlayers` and `UserIdsInFirstSeenOrder` state its properties |
| Grouping.PointsOf | src/app/leaderboard/page.tsx:62 | reference definition, no contract: the sum of a user's points over all rows |
| Grouping.CountOf | src/app/leaderboard/page.tsx:63 | reference definition, no contract: the number of a user's rows |
| Grouping.FirstTeam | src/app/leaderboard/page.tsx:55-61 | reference definition, no contract: the team label of a user's first row; `FirstRowDecidesTeam` states it |
| Grouping.FirstIndex | src/app/leaderboard/page.tsx:55 | the index of the user's first row, or the row count when the user never appears |
| Grouping.UserIdsAreThePlayers | src/app/leaderboard/page.tsx:53-64 | the dictionary's keys are exactly the users who appear in the rows, each once |
| Grouping.UserIdsInFirstSeenOrder | src/app/leaderboard/page.tsx:53-67 | the keys come out in the order of each user's first row |
| Grouping.CountPositiveIffOccurs | src/app/leaderboard/page.tsx:62-63 | a user has a positive row count exactly when they appear; an absent user has 0 points |
| Grouping.FirstRowDecidesTeam | src/app/leaderboard/page.tsx:55-61 | the team name is the first row's name, or "Unknown Team" when that name is missing or empty, whatever later rows hold |
| Ranking.SortDesc | src/app/leaderboard/page.tsx:75 | reference definition, no contract: the stable sort by points, highest first, by repeated insertion; `SortDescPermutes`, `SortDescIsSorted` and `SortDescOrdersTies` state its properties |
| Ranking.InsertPermutes | src/app/leaderboard/page.tsx:75 | inserting one entry gives a permutation of the entry plus the sequence |
| Ranking.SortDescPermutes | src/app/leaderboard/page.tsx:75 | the sorted sequence is a permutation of the input |
| Ranking.InsertKeepsSorted | src/app/leaderboard/page.tsx:75 | inserting into a sequence sorted by descending points keeps it sorted |
| Ranking.SortDescIsSorted | src/app/leaderboard/page.tsx:75 | the sorted sequence is in non-increasing order of points |
| Ranking.InsertKeepsOrder | src/app/leaderboard/page.tsx:75 | insertion keeps the order "more points first, equal points in first-seen order" |
| Ranking.SortDescOrdersTies | src/app/leaderboard/page.tsx:67-75 | sorting a sequence given in first-seen order keeps tied entries in that order: the sort is stable |
| Ranking.SortByPoints | src/app/leaderboard/page.tsx:75 | the array sorted in place equals the stable descending sort of its old contents |
| Ranking.InsertNext | src/app/leaderboard/page.tsx:75 | one step of the in-place sort inserts the next element into the sorted prefix and leaves the rest unchanged |
| Leaderboard.Board | src/app/leaderboard/page.tsx:49-82 | reference definition, no contract: the leaderboard, `GroupedEntries` sorted by `SortDesc` and re-ranked by position; `BoardHoldsTotals`, `BoardCoversPlayers` and `BoardInLeaderboardOrder` state its properties |
| Leaderboard.GroupedEntries | src/app/leaderboard/page.tsx:67-73 | reference definition: one entry per user of `UserIds`, in that order, with the user's totals and rank = position |
| Leaderboard.Ranked | src/app/leaderboard/page.tsx:78-80 | reference definition: every rank set to its 1-based position |
| Leaderboard.Ahead | src/app/leaderboard/page.tsx:75 | definition, no contract: the leaderboard order, `Ranking.Precedes` keyed by the first-row index |
| Leaderboard.GroupRows | src/app/leaderboard/page.tsx:51-64 | the loop's dictionary has exactly the users who appear, in first-seen order, each with their point sum, row count and first-row team label |
| Leaderboard.FetchLeaderboard | src/app/leaderboard/page.tsx:49-82 | the result is the leaderboard `Board`: empty for no rows; one entry per user; exact sums and counts; rank = position |
| Leaderboard.ToEntries | src/app/leaderboard/page.tsx:67-73 | the array built from the dictionary is `GroupedEntries`: one entry per user in first-seen order, with that user's totals and first-row team, ranked by dictionary position |
| Leaderboard.RankByPosition | src/app/leaderboard/page.tsx:78-80 | after the second pass every entry's rank is its 1-based position and nothing else changes |
| Leaderboard.BoardHoldsTotals | src/app/leaderboard/page.tsx:53-80 | every entry belongs to a user who appears, with that user's point sum, row count and first-row team, and rank equal to its 1-based position |
| Leaderboard.BoardCoversPlayers | src/app/leaderboard/page.tsx:49-82 | every user who appears has an entry, the board has as many entries as distinct users, and no rows give an empty board |
| Leaderboard.BoardInLeaderboardOrder | src/app/leaderboard/page.tsx:67-80 | entries are in non-increasing order of points, ties are in order of first appearance, and no user appears twice |
| Leaderboard.MedalIcon | src/app/leaderboard/page.tsx:92-103 | definition, no contract: `getMedalIcon`, gold, silver and bronze for ranks 1 to 3 and the rank itself otherwise; `MedalIconIsInjective` and `TopThreeGetMedals` state its properties |
| Leaderboard.MedalIconIsInjective | src/app/leaderboard/page.tsx:92-103 | distinct ranks never show the same cell |
| Leaderboard.TopThreeGetMedals | src/app/leaderboard/page.tsx:92-103 | exactly the first three entries show a medal, in gold, silver, bronze order; every other entry shows its rank |

## Left out

- Backend calls are not modelled: authentication, queries, inserts and updates. Their answers are method parameters. Toasts, console logging, `router.push` and the `setTimeout` delays before redirects are left out too, as is logging out.
- The match-day cutoff `new Date(cutoff_at) <= new Date()` reads the clock. The lock functions take it as a boolean `isClosed`, and the warning toast it triggers is left out.
- The games list, the season name, the teams list on sign-up and all rendering are left out. They are display only.
- Dashboard.DashboardPage.CheckAuth: an exception during loading is not modelled. It would end loading with a toast. Neither are the games query and a prediction fetch error other than "no row", which the page only logs.
- Dashboard.Prediction: `created_at` is the clock's time and is not modelled.
- IntText.ParseInt: JavaScript numbers are doubles. Digit runs beyond 2^53 lose precision in JavaScript but are exact here. Runs beyond about 1.8e308 give `Infinity` in JavaScript, which the page accepts because it is neither NaN nor negative; here they stay finite integers. The leaderboard's `total_points` sums (src/app/leaderboard/page.tsx:62) are likewise doubles in JavaScript and unbounded integers here.
- IntText.IntToString: JavaScript writes integers of 10^21 or more in exponent notation. The model always writes plain decimal digits.
- IntText.ParseInt: `parseInt("-0")` is `-0` in JavaScript. Here it is 0, which the page accepts the same way because `-0 < 0` is false.
- SignUp.DisplayNameError: lengths are counted in Unicode code points here. JavaScript counts UTF-16 code units, so a name or password with characters outside the Basic Multilingual Plane counts as longer in the page. SignIn and Credentials.PasswordError share this.
- SignUp.ApplyChange: the team select passes its value through `String(value)`. The model takes every value as text already.
- Dashboard.DashboardPage.OnPredictionChange: the input has `type="number"`, so the browser may hand back an empty string for text it cannot read as a number. The model accepts any text.
- Dashboard.DashboardPage.HandleSubmitPrediction: handlers are atomic here. In the page the write is awaited (src/app/dashboard/page.tsx:147-168), and the input's lock (:277) ignores `isSubmitting`. So during a first insert the input stays enabled, and the text can change before `existingPrediction` is set. The stored prediction keeps the goals that were sent, and a second press then sends an update with the new text's goals.
- Credentials.EmailError: both email inputs have `type="email"` (src/app/signup/page.tsx:383, src/app/signin/page.tsx:169). The browser strips leading and trailing ASCII white space from such inputs, so in the page a padded address (`Credentials.PaddedEmailReported`) can only arise from other white space, such as U+00A0. The model takes the text as given.
- React state: updates are applied at once. In the page, handlers read the state of the render they were created in. No handler here reads a value it has just set, so the order is the same.
- Grouping: user ids are assumed to be UUID-like strings. JavaScript orders integer-like object keys numerically before the others. Inherited property names such as "constructor" would look already present in `grouped`.
- Grouping.PointsValue: `points || 0` also maps `NaN` to 0. Points here are integers or null. The points formula itself is computed elsewhere and not modelled.
- Leaderboard.FetchLeaderboard: the query's filters (only scored rows, only users with a profile) run in the database. The model takes the rows it returns. A failed query gives no rows, which the `length > 0` guard turns into an empty board as well.
