# jsPsych leaderboard plugin — a Dafny model of the trial

The leaderboard plugin is a jsPsych plugin that shows a table of scores and then
ends its trial. The rows come either from a static `data` array or from a
World-Wide-Lab leaderboard, which is fetched through the `jsPsychWorldWideLab`
integration. The trial ends either when the participant presses Continue or
when a timeout of `duration` milliseconds elapses.

This project models `LeaderboardPlugin.trial` in four parts:

- `params.dfy` (module `Params`): the trial parameters as JavaScript values
  (null, array, or another value with its truthiness), and the chain of
  early-exit checks. `Validate` returns a `Config` or the first error found.
- `columns.dfy` (module `Columns`): the displayed columns. These are the
  supplied `columns`, or the two fixed Name/Score columns for fetched rows, or
  one unlabelled column per key of the first static row.
- `render.dfy` (module `Render`): the header row of labels and the body of cell
  texts. `BuildTable` is written as the two `forEach` passes, as loops.
- `session.dfy` (module `Session`): the trial as a `Trial` object. Host
  effects are kept as a log of events: display writes, `on_load`, the armed
  timeout and `finishTrial`. The methods are `Start` (the part before the first
  `await`), `ScoresLoaded` (resuming with the fetched rows), `ClickContinue` and
  `TimerFires`. The pure function `Launch` states what `Start` decides, and
  `LaunchEvents`, `ShowEvents` and `FetchedEvents` state what it emits.
- `rows.dfy` (module `Rows`): rows as `(key, value)` bindings listed in
  `Object.keys` order (integer-like keys first, in ascending order, then the
  other keys in insertion order), and `row[key]` lookup, where `None` is
  `undefined`. `wrappers.dfy` holds `Option` and `Result`.

The `Trial` object's invariant `Valid` says that `finishTrial` has been called
exactly once when the trial has ended and never before. It also says that
while the table is shown, exactly one trigger is live: the Continue button on
the screen, or the timeout.

Some behaviour of the code is worth noting, because the model keeps it as written:

- Static `data` that is an empty array, with `columns` null, makes the code
  evaluate `Object.keys(undefined)`. That throws, so the trial neither shows a
  table nor calls `finishTrial`. It is not a configuration error that finishes
  the trial. This is the `Crash` step and the `Threw` phase. The
  repository's own test "should handle empty data gracefully"
  (src/index.spec.ts:67-91) passes `data: []` without `columns` and expects a
  table to be shown, so the test and the code disagree; the model keeps the
  code's behaviour.
- An integration whose `client` is not initialised is a separate error. It is
  checked after the other checks and before the loading message is written.
- The code has no periodic refresh and does not accept a `{scores: ...}`
  wrapper around fetched rows. `finishTrial` is called with no data, so no
  rows are reported at the end.

## Model

| member | source | states |
|---|---|---|
| Params.Validate | src/index.ts:121-146 | accepted iff exactly one of `data`/`wwl_leaderboard_id` is truthy (an empty array counts as given), an id comes with the integration, `data` and `columns` are arrays or null and the level is `"individual"` or `"groups"`; each error is reported exactly when every earlier check passed and its own check fails; the level is checked for static rows too; an accepted config keeps the rows, id, columns, level and duration given |
| Params.ParseLevel | src/index.ts:142-146 | a level is recognised exactly for the two literal strings |
| Rows.Lookup | src/index.ts:213 | `row[key]` is `undefined` exactly when `key` is not among the row's keys |
| Rows.LookupAt | src/index.ts:182 | in an object, looking up the i-th key of `Object.keys` yields the i-th value |
| Columns.RemoteColumns | src/index.ts:170-177 | supplied columns are used unchanged; otherwise exactly `[{publicIndividualName, "Name"}, {score, "Score"}]` for `"individual"` and `[{publicGroupName, "Name"}, {score, "Score"}]` for `"groups"` |
| Columns.KeyColumns | src/index.ts:182 | the derived columns' keys are the row's keys in `Object.keys` order, and none has a label |
| Columns.StaticColumns | src/index.ts:178-184 | supplied columns are used unchanged; without them the columns are the first row's keys, unlabelled; there is no result exactly when no columns are supplied and there is no first row |
| Render.BuildTable | src/index.ts:196-218 | one header cell per column in column order, the `name` when it is defined (an explicit `""` is kept) and the key otherwise; one body row per data row in data order, each with one cell per column holding the text of `row[col]`, `"undefined"` for a missing key; no sorting |
| Render.StaticDefaultTable | src/index.ts:179-217 | with default static columns the header is the first row's keys and the first body row shows that row's values in its own key order |
| Session.Launch | src/index.ts:120-184 | a malformed configuration aborts with `Validate`'s error; a remote source without an initialised client aborts; a remote source with one waits for the scores, keeping the validated configuration (loading message, supplied columns, level and duration as given); static rows are shown with the supplied or derived columns; empty static rows with null columns throw |
| Session.LaunchEvents | src/index.ts:122-165 | a rejected trial emits only `finishTrial`, so nothing is shown and `on_load` is not called; `on_load` is called before the first wait only for static rows; a remote trial first shows only the loading message; static rows emit exactly `ShowEvents` for their rows, columns and duration |
| Session.ShowEvents | src/index.ts:185-246 | `on_load` comes first, then the table; a Continue button is shown exactly when `duration` is null, and a single timeout of exactly `duration` (zero included) is armed exactly when it is not; `finishTrial` is not called |
| Session.FetchedEvents | src/index.ts:165-246 | when the fetched rows arrive, the loading message is cleared, then `on_load` is called, then the table is shown with the remote columns; a Continue button exactly when `duration` is null, and a single timeout of exactly `duration` exactly when it is not; `finishTrial` is not called |
| Session.Trial.Start | src/index.ts:120-246 | emits exactly the events of `Launch` and enters the matching phase; it keeps the validated configuration while waiting, or arms the trigger for `duration`; preserves `Valid` |
| Session.Trial.ScoresLoaded | src/index.ts:166-246 | resumes a waiting trial with the fetched rows: emits `FetchedEvents`, arms the trigger for `duration` and shows the table; preserves `Valid` |
| Session.Trial.ShowTable | src/index.ts:185-246 | appends `ShowEvents`, arms the button or the timeout, and leaves the trial showing the table |
| Session.Trial.ClickContinue | src/index.ts:224-241 | with the Continue button on the screen, the display is cleared and then `finishTrial` is called once; otherwise nothing changes |
| Session.Trial.TimerFires | src/index.ts:234-246 | with a timeout armed, the display is cleared and then `finishTrial` is called once; otherwise nothing changes |
| Session.Trial.EndTrial | src/index.ts:234-241 | clears the display, then calls `finishTrial`, and the trial has ended |
| Session.Trial.Reject | src/index.ts:122-162 | an early exit calls `finishTrial` and nothing else |

## Left out

- DOM construction is not modelled: the `<style>` element with `table_styles`, the class names and the button element. The table is sequences of strings; the display is a `Display` value.
- The fetch `client.getLeaderboardScores` and its `wwl_score_options` are not modelled. The fetched rows are the argument of `ScoresLoaded`. The code does not handle a rejected fetch, so no fetch error is modelled; such a trial stays in `Loading`.
- `console.error` and `console.log` output is not modelled; an error is identified by its `Error` value.
- The never-resolving promise that keeps `trial` pending is not modelled, nor is the event-loop timing. The phases `Loading` and `Showing` stand for the two waits.
- `on_load`, `finishTrial` and `pluginAPI.setTimeout` are host services; they appear only as events in the log. The time that passes before a timeout fires is not modelled; `TimerFires` is its expiry.
- Number formatting: `Value.Num` holds integers, which are shown in decimal as `String` does below 1e21. Fractions, exponent notation, `NaN`, `Infinity` and `-0` are not modelled.
- Row values other than strings and numbers, and a `wwl_leaderboard_id` that is not a string, are not modelled. A `duration` of `undefined` is not modelled either; jsPsych fills in the default null.
- The display element is taken to be empty when the trial starts.
- Rows.Lookup: names a row inherits from `Object.prototype` (`constructor`, `toString`, `__proto__`, ...) are treated as missing and render as `"undefined"`, whereas `row[col]` finds them and `String` shows the inherited value; prototype lookup is not modelled.
- Rows.Keys: the ordering rule of `Object.keys` (integer-like keys first, ascending) is not computed; a `Row` is taken to list its bindings already in that order.
