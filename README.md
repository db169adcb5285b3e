# Workout log page, modelled in Dafny

This project models the one piece of logic in the exercise diary's page
component `Index` (`src/pages/Index.jsx`): a page that keeps a list of logged
workouts and the text of an input field, and logs the field's text as a new
workout when the user presses "Log Workout".

- `js_string.dfy`, module `JsString`: the white-space test and the trimming of
  ECMAScript's `String.prototype.trim`, which the page uses to reject blank
  input. White space is the WhiteSpace set of section 12.2 of ECMA-262 (TAB,
  VT, FF, ZWNBSP and every code point of category Zs) together with its
  LineTerminator set of section 12.3 (LF, CR, U+2028, U+2029).
- `index_page.dfy`, module `IndexPage`: the `Workout` record `{id, name}`, the
  class `Page` with the component's two state variables `workouts` and
  `newWorkout`, the field's change handler (`SetInput`), the add handler
  (`AddWorkout`), and `Render`, which gives what the list part of the page
  shows.

The add handler rejects input that is blank (empty after trimming): it
returns `Error`, and the list and the field keep their values. Otherwise it
appends `Workout(now, text)` to the list, with the text exactly as typed
(trimming is only used for the test), clears the field and returns
`Success`. `Page.Valid()` is the invariant that every logged name is non-blank.
When each call's clock reading is later than the last id, the ids stay strictly
increasing, so the rendered rows have distinct keys.

Modelling choices:

- The clock reading `Date.now()` is the parameter `now` of `AddWorkout`.
- The toast notifications are the returned `Outcome` (`Error` or `Success`).
- React's state setters are immediate assignments to the class's fields inside
  one synchronous handler.
- The list part of the page is the value `Render(workouts)`: `Placeholder`
  when nothing is logged, otherwise one `ListItem(key, text)` per workout, in
  list order.

The page stores only an id and a name per workout; it has no workout types,
durations, deletion, persistence or progress statistics.

## Model

| member | source | states |
|---|---|---|
| `JsString.TrimStart` | src/pages/Index.jsx:11 | the result is a suffix of the input, what was dropped is all white space, and the result is empty or starts with a non-white-space character |
| `JsString.TrimEnd` | src/pages/Index.jsx:11 | the result is a prefix of the input, what was dropped is all white space, and the result is empty or ends with a non-white-space character |
| `JsString.Trim` | src/pages/Index.jsx:11 | the result is the slice of the input left after removing its leading and trailing white space: everything removed before and after it is white space, and a non-empty result neither starts nor ends with white space |
| `JsString.TrimEmptyIffBlank` | src/pages/Index.jsx:11 | `trim()` yields the empty string exactly when every character of the input is white space (both directions) |
| `JsString.TrimsToEmpty` | src/pages/Index.jsx:11 | the guard `newWorkout.trim() === ""` is true exactly when every character of the input is white space |
| `IndexPage.IncreasingIdsAreOrdered` | src/pages/Index.jsx:21 | ids that increase from each record to the next increase between any two records |
| `IndexPage.AppendKeepsIdsIncreasing` | src/pages/Index.jsx:21 | appending a record whose id is later than the last one keeps the ids strictly increasing |
| `IndexPage.AppendKeepsNamesNonBlank` | src/pages/Index.jsx:11-21 | appending a record with a non-blank name to a log whose names are all non-blank keeps every name non-blank |
| `IndexPage.IncreasingIdsAreDistinct` | src/pages/Index.jsx:60 | increasing ids are pairwise distinct, so they are valid list keys |
| `IndexPage.Rows` | src/pages/Index.jsx:59-63 | one row per workout, in list order, each keyed by the workout's id and showing its name |
| `IndexPage.Render` | src/pages/Index.jsx:55-65 | the placeholder is shown exactly when the list is empty; otherwise the rows are the workouts' ids and names in list order |
| `IndexPage.RenderAfterAppend` | src/pages/Index.jsx:59-63 | after a workout is appended the list is shown, with the earlier rows unchanged and one new row for it at the bottom |
| `IndexPage.RenderKeysDistinct` | src/pages/Index.jsx:60 | with increasing ids, no two rendered rows share a key |
| `IndexPage.Page.constructor` | src/pages/Index.jsx:6-7 | the initial state is an empty workout list and an empty input text |
| `IndexPage.Page.SetInput` | src/pages/Index.jsx:44 | the input text becomes the field's value and the list is unchanged |
| `IndexPage.Page.AddWorkout` | src/pages/Index.jsx:10-30 | returns `Error` exactly when the input is blank, and then changes neither the list nor the input; otherwise appends `Workout(now, input as typed)` after the unchanged old list, clears the input and returns `Success`; keeps every logged name non-blank, and keeps ids increasing when `now` is later than the last id |

## Left out

- Page layout, Chakra UI components, icons and static text (src/pages/Index.jsx:32-80 outside the list logic): presentation only.
- Toast title, description, duration and closable flags: library arguments; only the error/success outcome is kept.
- `Date.now()`: a clock, taken as the parameter `now`.
- React's scheduling of state updates and re-rendering: each setter is an immediate assignment.
- JavaScript strings are sequences of UTF-16 code units; here a string is a sequence of Unicode scalar values, so unpaired surrogates cannot be represented. Every white-space code point lies in the Basic Multilingual Plane outside the surrogate range, so trimming is unaffected.
- Workout type, duration, deletion, persistence and per-day aggregation: not present in this page.
