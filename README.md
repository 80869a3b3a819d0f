# Quiz core in Dafny

A model of the sequential core of a browser trivia quiz (`script.js`): the
question normaliser that turns raw records from a trivia service into the
questions the quiz shows, the client that builds the request and unwraps the
reply, the quiz session's state machine (answering, the per-question
countdown, moving on, results, quitting), the settings clamping, the
high-score list and two small helpers (the player-name sanitiser and the theme
cycle).

Modules, one per piece of the core:

- `Js` (js.dfy): JSON values plus `undefined`, JavaScript truthiness, property
  reads, `a || b || ...` over a list of property names (`Pick`), `String(v)`,
  and an `Array.prototype.map` whose callback may throw.
- `Shuffle` (shuffle.dfy): `shuffle` as a stable sort of the elements by
  injected random keys.
- `Normalize` (normalize.dfy): `normalizeQuestion`.
- `Settings` (settings.dfy): `clamp` and the submit handler's reading of the form.
- `SourceClient` (source_client.dfy): `buildUrl`'s query pairs, `fetchJSON`'s
  status check, and `fetchQuestions`.
- `Session` (session.dfy): the global `State` as the class `QuizState`, with
  one method per event handler.
- `HighScores` (high_scores.dfy): the save-score handler and the stored list.
- `Identity` (identity.dfy) and `Theme` (theme.dfy): the name sanitiser and the
  theme cycle.

External effects are parameters: the HTML entity decoder is `decode: string ->
string` (no property of it is assumed), the `Math.random()` draws of the
shuffle are `rand`, the network is `server`, mapping a query to its reply, and
the clock is the `now` argument of `SaveScore`. Each firing of the countdown
interval is one call of `QuizState.Tick`.

Behaviour of the code worth knowing:

- `normalizeQuestion` is not total. It throws a TypeError when the record is
  `null`, when the first truthy incorrect-answer alias is not an array (a
  string, say), or when the prompt, the correct answer or an incorrect answer
  is an object with its own `toString` field (`String()` of such an object, and
  assigning it to `innerHTML`, throw). `fetchQuestions` then fails too. The
  model returns an error in each of these cases.
- A record with no `type` and exactly one incorrect answer gets the
  kind "boolean", while its answers are its own two strings, not "True" and
  "False" (`Normalize.SingleDistractorLabelledBoolean`).
- A record whose `options` has length 2 gets the answers "True" and "False"
  even when its correct answer is neither (`Normalize.OptionsPairReplacesAnswers`).
- The timer locks the question when `remaining` drops to 0 or below.
- Scoring twice and advancing early are prevented only by disabling the
  answer buttons and the Next button. The model's event methods do nothing
  when their control is disabled or hidden.
- A question fetch that completes after the player quit is not discarded by
  the code. The model treats the submit handler as one step, so it does not
  capture this (see "Left out").
- Network failures and unreadable replies are caught by the same handler.
  The model still names them `NetworkError` and `FormatError`, and an empty
  result `NoQuestions`.

## Model

| member | source | states |
|---|---|---|
| `Js.Get` | script.js:145-149 | reading a property of a record: an object's own field when it has one, the `length` of an array or of a string, `undefined` for a missing field, any other key, and any property of a number or a boolean; the core reads properties only of values that are not `null` or `undefined` |
| `Js.Pick` | script.js:145-147 | `a || b || c || fallback` over property names: the value of the first key whose property is truthy and all earlier ones falsy; the fallback when every property is falsy; never a falsy property value |
| `Js.ToString` | script.js:148 | `String(v)`: "undefined", "null", "true"/"false", the decimal form of a number, a string itself, an array's element strings joined by commas, "[object Object]" for an object; it throws a TypeError exactly for an object with its own `toString` field or an array holding one, at any depth |
| `Js.ElementStrings` | script.js:148 | the string `join` writes for each array element: empty for `null` and `undefined`, `String(item)` otherwise, one per element; it throws exactly when some element's conversion throws |
| `Js.Join` | script.js:148 | `join(",")`: "" for no parts, the part itself for one part, and otherwise starting with the first part |
| `Js.JoinSnoc` | script.js:148 | joining one more part appends a comma and that part, so the parts appear in order separated by single commas |
| `Js.Digits` | script.js:128 | the decimal digits of a natural number: a canonical numeral, at least one digit and no leading zero |
| `Js.DigitsValue` | script.js:128 | the digits written for `n` denote `n` |
| `Js.IntToString` | script.js:128 | `String(n)` for the amount: non-empty, with a leading minus exactly for negative numbers |
| `Js.IntToStringValue` | script.js:128 | `String(n)` is the canonical decimal numeral of `n`, after a minus sign when `n` is negative |
| `Js.MapOrThrow` | script.js:140 | `items.map(f)` with a throwing callback: succeeds exactly when every item succeeds, then one result per item, in item order; otherwise the error of some item |
| `Shuffle.Tag` | script.js:69 | pairs each element with the key drawn for its index: the elements in order, and the key of index `i` is `rand(i)` |
| `Shuffle.InsertByKey` | script.js:69 | inserting a keyed element lengthens the sequence by one, adds exactly that pair to the multiset, and puts `x` or the old first pair first |
| `Shuffle.InsertByKeyValues` | script.js:69 | inserting a keyed element adds exactly its element to the multiset of elements |
| `Shuffle.InsertByKeySorted` | script.js:69 | inserting into a key-sorted sequence keeps it key-sorted |
| `Shuffle.SortByKey` | script.js:69 | the stable sort by key: its result is sorted by key, a permutation of its input, and has the same multiset of elements |
| `Shuffle.Shuffle` | script.js:69 | `shuffle`: for any random keys, the result has the input's length and the same multiset of elements |
| `Shuffle.ShuffleKeepsElements` | script.js:69 | every input element is in the shuffled output |
| `Shuffle.ShuffleSingleton` | script.js:69 | a one-element list shuffles to itself |
| `Normalize.IsTrueFalse` | script.js:149 | for a record object, the True/False test holds exactly when `type` is "boolean", or `options` is a two-element array, a two-character string or an object whose own `length` is 2 |
| `Normalize.DecodeValue` | script.js:64-67 | `decode(v)`: throws exactly when `String(v)` does; otherwise the entity decoder applied to `String(v)` |
| `Normalize.Incorrect` | script.js:147-148 | the incorrect answers: throws exactly when the picked alias is not an array or one of its items cannot be converted to a string; otherwise one decoded `String(x)` per item, same length and order |
| `Normalize.Assemble` | script.js:149-159 | the returned question: the decoded prompt and correct answer; `["True","False"]` for a true/false record, otherwise a permutation of `[correct, ...incorrect]` containing `correct`; the kind is a truthy `type`, else "boolean" iff there are two answers, else "multiple"; `category` and `difficulty` default to `""` |
| `Normalize.NormalizeQuestion` | script.js:143-160 | throws exactly on a nullish record, a picked prompt or correct answer that cannot be converted to a string, or incorrect answers that throw; the prompt and correct answer are the decoded picked aliases; `type` "boolean" or two-element `options` give exactly `["True","False"]`, otherwise the answers are a permutation of `[correct, ...incorrect]` containing `correct`; `kind` is a truthy `type`, else "boolean" iff there are two answers, else "multiple"; `category` and `difficulty` default to `""` |
| `Normalize.TextFieldsFollowAliases` | script.js:145-146 | for a record that normalises, the prompt and the correct answer are the decoded first truthy alias (an empty string falls through), or `decode("")` when none is truthy |
| `Normalize.EmptyArrayDoesNotFallThrough` | script.js:147 | an empty `incorrect_answers` array is truthy and is used: no incorrect answers, whatever the other aliases hold |
| `Normalize.RecordWithoutAliases` | script.js:143-156 | a record with no truthy alias and no type does not fail: prompt and correct answer are `decode("")`, the answers are that one string, the kind is "multiple" |
| `Normalize.SingleDistractorLabelledBoolean` | script.js:156 | with no `type`, one incorrect answer and no `options`, the record normalises exactly when its prompt, correct answer and incorrect answer convert to strings, and then the kind is "boolean" and the answers are the correct and the incorrect answer |
| `Normalize.UnconvertibleAnswerThrows` | script.js:147-148 | an incorrect answer that is an object with its own `toString` field makes `normalizeQuestion` throw |
| `Normalize.OptionsPairReplacesAnswers` | script.js:149-151 | a record whose only truthy aliases are `answer` (say "Paris") and a two-element `options` (say `["London","Rome"]`), with no `type`, normalises exactly when its prompt and both options convert to strings, and then gets the answers "True" and "False", so when its decoded answer is neither, no shown answer is correct; it is labelled "boolean" |
| `Settings.Clamp` | script.js:70 | `clamp(n, lo, hi)` is at least `lo`, at most `hi` when `lo <= hi`, `n` itself when in range, `lo` below the range, `hi` above it |
| `Settings.NumberOr` | script.js:336 | `Number(v) || fallback`: the number unless it is NaN or 0 |
| `Settings.ReadSettings` | script.js:336-340 | the amount is always 5..25 (10 for an empty or zero field) and the timer 0..600 (0 for an empty field); in-range inputs are kept; the text settings are copied |
| `SourceClient.BuildQuery` | script.js:126-133 | `amount` first, then `category`, `difficulty`, `type` in that order, each present exactly when its setting is non-empty; every value is the setting's and none is empty |
| `SourceClient.FetchJson` | script.js:104-109 | `fetchJSON`: succeeds exactly for a 2xx reply with a parsable body, and returns that body; no reply or a non-2xx status is a network error |
| `SourceClient.UnwrapItems` | script.js:139 | a bare array is used as it is; else `results`, else `questions`; neither truthy gives no items; a nullish body or a non-array pick throws |
| `SourceClient.NormalizeAll` | script.js:140 | `items.map(normalizeQuestion)`: succeeds exactly when every item normalises, then exactly one question per item, in item order |
| `SourceClient.FetchQuestions` | script.js:135-141 | succeeds exactly when the reply is good, unwraps and every item normalises, and returns those questions in order; never reports "no questions" itself |
| `SourceClient.NoArrayMeansNoQuestions` | script.js:139-140 | a reply object with neither `results` nor `questions` yields zero questions |
| `Session.QuizState.constructor` | script.js:12-27 | the initial state: default settings, no questions, index and score 0, no countdown, setup card |
| `Session.QuizState.StopTimer` | script.js:290 | afterwards no countdown runs |
| `Session.QuizState.StartTimer` | script.js:267-272 | a countdown runs exactly when the timer setting is positive, starting at that many seconds; a timer of 0 starts none |
| `Session.QuizState.RenderQuestion` | script.js:208-226 | the answers are enabled, Next is disabled, the countdown restarted; index, score and questions unchanged |
| `Session.QuizState.ResetQuiz` | script.js:163-168 | index and score 0, no questions; nothing else changes |
| `Session.QuizState.Submit` | script.js:333-364 | from the setup card: clamped settings, fresh session on the quiz card; the fetched questions with the first one rendered, or the load error with nothing answerable and Next disabled |
| `Session.QuizState.Load` | script.js:350-363 | an empty result is the error `NoQuestions`; a non-empty one becomes the session's questions and the first is rendered |
| `Session.QuizState.SelectAnswer` | script.js:214-247 | a click on answer button `i` of the question shown, while the answers are enabled: the countdown stops, the answers lock, Next is enabled, and the score rises by exactly 10 iff answer `i` is the correct one; a click on a disabled or missing button changes nothing |
| `Session.QuizState.Tick` | script.js:273-287 | while a countdown runs: one second less, and at 0 or below the countdown stops, the answers lock and Next is enabled, score unchanged; a stopped countdown never ticks |
| `Session.QuizState.ShowResults` | script.js:257-265 | the results card with the score and the total 10 per question, score within the total |
| `Session.QuizState.Next` | script.js:249-255 | on enabled Next: the index rises by exactly 1; the results, with `score <= total = 10 * questions`, exactly when the index reaches the number of questions; otherwise the next question is rendered, with a countdown exactly when the timer is positive, restarted at `settings.timerSeconds` |
| `Session.QuizState.Quit` | script.js:367 | from the quiz card: the countdown stops and the setup card shows; nothing else changes (settings, questions, index, score, remaining seconds, answer and Next state) |
| `Session.QuizState.Back` | script.js:359-361 | the load-failure message's Back button returns to the setup card |
| `Session.QuizState.LeaveResults` | script.js:368-369 | Play again and Home return from the results card to the setup card |
| `Session.PerfectRound` | script.js:214-259 | when every question's correct answer is among its buttons, clicking it on every question ends on the results card with score equal to the total |
| `Session.TimeoutThenLateAnswer` | script.js:273-287 | after the countdown runs out, the question is locked, Next enabled, and a late answer changes nothing |
| `HighScores.InsertByRank` | script.js:376 | inserting an entry adds exactly that entry to the multiset |
| `HighScores.InsertByRankRanked` | script.js:376 | inserting into a ranked list keeps it ranked |
| `HighScores.SortByRank` | script.js:376 | the sort is ranked (score descending, then `at` ascending) and a permutation of its input |
| `HighScores.Keep` | script.js:79 | `slice(0, n)`: the whole list when it has at most `n` entries, otherwise exactly its first `n` |
| `HighScores.Saved` | script.js:374-377 | the stored list is ranked, holds only entries of the old list and the new one, and has exactly `min(n + 1, 20)` entries for a read list of `n` |
| `HighScores.SavedBelowCapacity` | script.js:374-377 | with fewer than 20 stored entries nothing is dropped and the new entry is stored |
| `HighScores.SavedKeepsTheBest` | script.js:376-377 | every dropped entry ranks no higher than every kept one |
| `HighScores.ReadScores` | script.js:75-77 | a readable list reads as itself; a missing or unreadable one reads as empty |
| `HighScores.HighScoreStore.constructor` | script.js:75-77 | the store starts with the given stored list |
| `HighScores.HighScoreStore.SaveScore` | script.js:371-381 | the stored list becomes the saved list for the read list and the new entry, and is ranked with at most 20 entries |
| `Identity.Leading` | script.js:192 | the length of the white-space run `s` starts with: every character before it is white space and the one at it is not |
| `Identity.Trailing` | script.js:192 | the length of the white-space run `s` ends with: every character from `|s| - n` on is white space and the one before is not |
| `Identity.Trim` | script.js:192 | `trim()` leaves the middle of the input: only white space before and after it, and it neither starts nor ends with white space |
| `Identity.SanitizeName` | script.js:192 | the name is 1..20 characters; "Player" when the trimmed input is empty; otherwise the first `min(20, n)` characters of the trimmed input (of length `n`), starting with a non-white-space character |
| `Identity.PlayerName` | script.js:373 | `getSavedName() || "Player"`: a non-empty saved name is used as it is, an empty one gives "Player", and the result is never empty |
| `Theme.NextTheme` | script.js:386-387 | auto goes to dark, dark to light, anything else to auto; the result is always one of the three |
| `Theme.DatasetFor` | script.js:93-97 | the `data-theme` value stands for the same theme as the one applied: "" for auto (or an empty theme), the theme's own name otherwise |
| `Theme.Click` | script.js:385-389 | one click of the theme button: the new `data-theme` value stands for the next theme of the cycle, is "" exactly when that theme is auto, and is never "auto" |
| `Theme.Label` | script.js:96 | the label names the theme: "Dark" for dark, "Light" for light, "Auto" for auto, empty or anything else |
| `Theme.ClickCycle` | script.js:385-389 | three clicks return to the starting theme, and each click changes the theme |
| `Theme.ClickNormalises` | script.js:385-389 | after one click the theme is auto, dark or light, whatever was stored |

## Left out

- HTML entity decoding depends on the browser's parser, so it is the parameter `decode`. No property of it is assumed, so an empty field reads as `decode("")`.
- `Math.random` is the parameter `rand`. The shuffle is modelled as the stable sort by those keys, so its order is exact for given keys. Nothing is said about the distribution.
- The network is the parameter `server`. The URL is modelled as its ordered query pairs. The endpoint string, percent-encoding and `url.toString()` are not modelled.
- `fetchCategories`, with its `localeCompare` sort and `<option>` elements, is network and locale-dependent UI.
- Local storage is not modelled. The high-score list is a parsed `Option<seq<Entry>>`, with `None` for missing or corrupt data. A stored JSON value that parses but is not a list of entries is not modelled, and neither are storage write failures. Saving the player name, the theme and the stored theme are not modelled either.
- The submit handler's `await` is not modelled: `QuizState.Submit` performs the fetch and its outcome in one step. So the model does not capture a fetch that completes after Quit or after a second submit. The code applies such a result.
- `setInterval` scheduling is not modelled. Each firing is an explicit call of `QuizState.Tick`.
- DOM rendering is not modelled: elements, buttons, CSS classes, highlighting the correct button, score and timer text. Neither is the welcome card with its greeting or the high-score dialog. `locked`, `nextEnabled` and `card` stand for what the quiz logic depends on.
- The progress and result percentages are floating point and are not modelled. Neither are the shake, pulse and confetti animations, the parallax handler or the select-open scrolling helpers, which are cosmetic.
- JavaScript numbers are integers here. Fractional inputs and `Number()` parsing of form fields are not modelled: a field is its parsed value, or `None` for NaN. JSON fractions are not modelled either. `Js.ToString` writes every integer in plain decimal, while `String(n)` uses exponent form from 10^21 on ("1e+21"), and JSON parsing rounds integers beyond 2^53; a numeric incorrect answer would show both.
- String lengths count Unicode scalar values, while JavaScript counts UTF-16 code units. So `slice(0, 20)` and `options.length` on text outside the Basic Multilingual Plane differ.
- `Js.MapOrThrow`: the contract does not say which failing item's error is returned (the body returns the first one's). Every error here is a TypeError, so this makes no difference.
