# Dashboard page state, modelled in Dafny

The dashboard is a single page whose browser script (`static/script.js`) keeps
four small pieces of state:

- a colour theme;
- a live clock with a 12-hour/24-hour switch;
- a start/pause/reset stopwatch;
- a to-do list.

All four are persisted in the browser's key-value store, except the stopwatch,
which lives only in memory. This project models that state and the handlers
that change it, one module per concern:

| file | module | what it models |
|---|---|---|
| `wrappers.dfy` | `Wrappers` | `Option` |
| `storage.dfy` | `Storage` | `Stored<T>`: what reading a key and `JSON.parse` of its text yields. The cases are missing (`null` or `""`, so the script's fallback literal is parsed), parsed to a value, or corrupt (the parse throws) |
| `decimal.dfy` | `Decimal` | `n.toString()`, `padStart(2, "0")` (the clock's `pad2`) and reading a digit string back |
| `theme.dfy` | `Theme` | `loadTheme`/`toggleTheme`, and the root element's `data-theme` attribute together with the "theme" key as a class |
| `clock.dfy` | `Clock` | The time string of `updateClock` in both forms, and a parser that reads it back. Also the `use24Hour` flag: its start-up load and the toggle button, as a class |
| `stopwatch.dfy` | `StopwatchEngine` | The stopwatch variables as a state machine and as a class. Also `renderStopwatch`, with a parser that reads its output back |
| `todos.dfy` | `Todos` | `String.prototype.trim` and `loadTodos`. Also the submit, checkbox and delete handlers, on lists and as a class holding the "todos" key, the list last rendered and the input box |

Every formatter is proved against a parser. `ParseTime(FormatTime(h, m, s, f), f)` gives back `(h, m, s)`, and `ParseStopwatch(Render(ms))` gives back the three display fields. The state machines are proved against invariants and inverses:

- A reload shows what the page shows.
- Deleting the item just added restores the list.
- Pressing the format button twice restores the clock format, and pressing the theme button twice restores the theme when it is "dark" or "light".
- A start/pause sequence banks exactly the lengths of the runs it delimits.

Time is a natural number of milliseconds supplied by the caller (`now`), and the local hour, minute and second are parameters.

`static/script.js:20` calls `JSON.parse` at the top level of the script with no `try`. A corrupt value therefore throws there, and the rest of the script never runs. So `Clock.LoadUse24Hour` returns `None` for `Corrupt`, and `FormatPreference`'s constructor requires a value that parses.

## Model

| member | source | states |
|---|---|---|
| Decimal.NatToString | static/script.js:96-98 | `n.toString()` of a non-negative integer is a non-empty digit string, starting with '0' exactly when `n` is 0 |
| Decimal.ValueOfNatToString | static/script.js:36 | reading `n.toString()` back as a decimal number gives `n` |
| Decimal.NatToStringLength | static/script.js:36 | `n.toString()` has one digit exactly when `n < 10`, and two when `10 <= n < 100` |
| Decimal.PadStart | static/script.js:96-97 | `padStart(width, "0")` gives as many characters as the larger of `width` and the length of `s`: zeros followed by `s` itself, so nothing is cut |
| Decimal.Pad2 | static/script.js:36 | `pad2(n)` is `n.toString()` with zeros in front, at least two characters and never shorter than `n.toString()`; `Decimal.Pad2Digits` proves it denotes `n` and has exactly two characters below 100 |
| Decimal.Pad2Digits | static/script.js:36 | `pad2(n)` is all digits, denotes `n`, has at least two characters and exactly two below 100, and starts with '0' exactly when `n < 10` |
| Decimal.Pad2Small | static/script.js:36 | below 100, `pad2(n)` is the tens digit followed by the units digit |
| Theme.LoadTheme | static/script.js:5-8 | the start-up theme is the stored name, or "dark" when the key is absent or empty; it is never empty |
| Theme.ToggleTheme | static/script.js:9-10 | the toggle yields "light" exactly when the attribute was "dark", and "dark" otherwise; the result is always one of the two, and differs from a known current theme |
| Theme.ToggleThemeTwice | static/script.js:9-13 | two presses restore the theme exactly when it was "dark" or "light"; any other attribute ends up "light" |
| Theme.ReloadAfterToggle | static/script.js:5-13 | a reload after a toggle starts in the theme the toggle stored |
| Theme.ThemeController.constructor | static/script.js:5-8 | start-up sets the attribute from the key and stores nothing; a reload would show the same theme |
| Theme.ThemeController.Toggle | static/script.js:9-13 | the button switches the attribute and stores the new name, so a reload shows it |
| Clock.Hour12 | static/script.js:42-44 | the 12-hour hour is between 1 and 12 and agrees with the hour modulo 12 |
| Clock.Suffix | static/script.js:42 | the suffix is two characters ending in 'M': 'P' exactly from hour 12 on, 'A' exactly before |
| Clock.Hour12Cases | static/script.js:42-44 | hour 0 is 12 AM, 1..11 are themselves AM, 12 is 12 PM, and 13..23 drop 12 and are PM |
| Clock.FormatTime | static/script.js:38-46 | the `updateClock` string is at least 8 characters in 24-hour form, with no suffix, and at least 11 in 12-hour form, ending in " " followed by the suffix; `Clock.FormatTimeShape` and `Clock.ParseFormatTime` prove its exact layout and that it reads back as the time |
| Clock.FormatTimeShape | static/script.js:38-46 | 24-hour form is `HH:MM:SS` (8 characters); 12-hour form adds " AM" or " PM" (11 characters); the fields are `pad2` of the shown hour, the minute and the second |
| Clock.FormatTimeLeadingZeros | static/script.js:36-46 | every field is two digits, with a leading '0' exactly when its value is below 10 |
| Clock.TwoDigitsOfPad2 | static/script.js:36 | any field below 100 reads back as itself |
| Clock.ParseFormatTime | static/script.js:38-46 | the clock string determines the time: reading it back in the same form gives the hour, minute and second |
| Clock.TwelveHourExamples | static/script.js:42-45 | midnight shows "12" with " AM", noon "12" with " PM", and 13h "01" with " PM", at any minute and second |
| Clock.MidnightExample24 | static/script.js:39-40 | in 24-hour form midnight shows "00" and there is no suffix |
| Clock.LoadUse24Hour | static/script.js:20 | an absent key gives false and a parsed value gives itself; a corrupt value, and only that, stops the script |
| Clock.FormatPreference.constructor | static/script.js:20 | start-up takes the flag from the key and keeps the key unchanged |
| Clock.FormatPreference.Toggle | static/script.js:68-70 | the button negates the flag and stores it, so a reload starts in the new format |
| Clock.FormatPreference.Display | static/script.js:38-47 | a tick shows 8 or 11 characters by the current flag, and the string reads back as the time it was given |
| Clock.ToggleTwice | static/script.js:68-70 | pressing the format button twice restores the flag and what a reload gives |
| StopwatchEngine.AfterPress | static/script.js:101-119 | a press flips `running`; a start anchors at `now` and keeps the banked time; a pause banks the current run; the total shown at `now` is unchanged and banked time never drops |
| StopwatchEngine.AfterReset | static/script.js:121-125 | a reset stops the watch and banks nothing, so the total is 0 at every time; `startTime` is left as it was |
| StopwatchEngine.Total | static/script.js:114 | the time a watch stands for at `now` is the banked time for a stopped watch, and the banked time plus `now - startTime` for a running one |
| StopwatchEngine.ReplayBanksRuns | static/script.js:101-119 | from a stopped watch, presses at non-decreasing times bank exactly `(t1 - t0) + (t3 - t2) + ...`; the watch runs after an odd number of presses |
| StopwatchEngine.TwoCycles | static/script.js:101-119 | two start/pause cycles of lengths d1 and d2 bank d1 + d2 and leave the watch stopped |
| StopwatchEngine.ReplayNeverLoses | static/script.js:106-107 | no sequence of presses decreases the banked time |
| StopwatchEngine.RenderFields | static/script.js:89-94 | seconds are below 60 and tenths below 10; the time the fields stand for is at most `ms` and less than 100 ms below it, so tenths are cut, not rounded |
| StopwatchEngine.SourceArithmetic | static/script.js:91-94 | in exact arithmetic, the script's floor expressions over `ms / 1000` equal the whole-number minutes, seconds and tenths |
| StopwatchEngine.Render | static/script.js:89-98 | the `renderStopwatch` text is at least 7 characters and ends in '.' and one digit; `StopwatchEngine.ParseRender` proves it reads back as (minutes, seconds, tenths) |
| StopwatchEngine.ParseRender | static/script.js:89-98 | the display has at least 7 characters, exactly 7 below 100 minutes, and reads back as (minutes, seconds, tenths); minutes of 100 or more are never cut |
| StopwatchEngine.RenderZero | static/script.js:125 | the display at start-up and after a reset is "00:00.0" |
| StopwatchEngine.Stopwatch.constructor | static/script.js:81-83 | the stopwatch starts stopped, with no start time and nothing banked |
| StopwatchEngine.Stopwatch.StartStop | static/script.js:101-119 | the start/pause button moves the variables as `AfterPress` does, keeping a start time whenever the watch runs |
| StopwatchEngine.Stopwatch.Reset | static/script.js:121-127 | the reset button moves the variables as `AfterReset` does and shows "00:00.0" |
| StopwatchEngine.Stopwatch.Tick | static/script.js:112-116 | a tick of a running watch shows the banked time plus the current run |
| Todos.TrimKeepsMiddle | static/script.js:252 | `trim` keeps the middle of the input between a run of leading and a run of trailing white space, and the result neither starts nor ends with white space |
| Todos.Trim | static/script.js:252 | `trim` keeps no more than what follows the leading white space; `Todos.TrimKeepsMiddle`, `Todos.TrimEmptyIffBlank` and `Todos.TrimIdempotent` prove what it keeps |
| Todos.TrimEmptyIffBlank | static/script.js:252-253 | the trimmed text is empty exactly when the input is empty or all white space |
| Todos.TrimIdempotent | static/script.js:252 | trimming twice is trimming once |
| Todos.LoadTodos | static/script.js:198-204 | the stored list when it parses; the empty list when the key is absent or corrupt |
| Todos.Added | static/script.js:252-255 | blank input leaves the list alone; otherwise the list grows by one open item at the end, holding the trimmed, non-empty text, and the old items are unchanged |
| Todos.WithDone | static/script.js:222 | item `idx` gets the new flag and keeps its text; every other item is unchanged |
| Todos.Spliced | static/script.js:239 | `splice(idx, 1)` drops item `idx`: earlier items stay put and later ones move down by one; past the end, nothing changes |
| Todos.SplicedRemovesOne | static/script.js:239 | a delete removes exactly one copy of the deleted item, and every other item keeps its multiplicity |
| Todos.SplicedUndoesAdded | static/script.js:239-255 | deleting the item just added restores the list |
| Todos.WithDoneRestores | static/script.js:221-223 | setting an item's flag back to its old value restores the list |
| Todos.DeleteExample | static/script.js:238-241 | from [A, B, C], deleting index 1 leaves [A, C] |
| Todos.AddBlankExample | static/script.js:252-253 | submitting "   " adds nothing |
| Todos.AddTextExample | static/script.js:252-255 | submitting "buy milk" appends an open "buy milk" |
| Todos.TodoStore.constructor | static/script.js:260 | start-up renders the stored list, with an empty input box |
| Todos.TodoStore.Render | static/script.js:208-211 | `renderTodos` shows what `loadTodos` returns and changes nothing stored |
| Todos.TodoStore.Submit | static/script.js:250-259 | blank input changes nothing; otherwise the stored list gains the trimmed item at the end, the box is cleared and the list re-rendered |
| Todos.TodoStore.SetDone | static/script.js:221-225 | a checkbox stores the rendered list with that item's flag set and re-renders; past the end, nothing is stored |
| Todos.TodoStore.Delete | static/script.js:238-242 | a delete button stores the rendered list with that item spliced out, one shorter, and re-renders |

## Left out

- The DOM is not part of this model, except as the fields above: element lookups, `textContent`, button labels (`syncToggleBtnLabel`, "Start/Pause/Resume Stopwatch"), the `li`/checkbox/`span` nodes `renderTodos` builds, and the `done` CSS class.
- Timers are outside the model. `setInterval`/`clearInterval` for the clock and the stopwatch become calls the environment makes. `Stopwatch.Tick` stands for the 100 ms callback, and the once-a-second `updateClock` is `FormatPreference.Display` at the given local time.
- The clock reads no clock. `new Date()`, `getHours`/`getMinutes`/`getSeconds`, the date line (`toLocaleDateString`) and the time-zone label (`Intl.DateTimeFormat`) are left out. The local hour, minute and second are parameters.
- Stopwatch time is modelled as whole milliseconds, not the floats of `performance.now()`.
- `StopwatchEngine.RenderFields` and `StopwatchEngine.SourceArithmetic` work in exact arithmetic, not IEEE doubles. With doubles the tenths can come out one too low: for 4600 ms, `4.6 - 4` is `0.5999999999999996`, so the script shows "00:04.5" where the exact model shows "00:04.6".
- JSON is abstracted to `Stored<T>`.
  - For "use24Hour" the parsed value stands for its truthiness.
  - For "todos" the parsed value is a list of well-formed `{text, done}` records. A stored value that parses but is not such an array (which would make `push` or `forEach` throw) is not modelled.
- The "theme" key holds a bare string, modelled as `Option<string>`.
- The weather and quote panels (the Open-Meteo and quote fetches) and the `app.py` server are not part of this model.
- `Todos.TodoStore.SetDone` and `Todos.TodoStore.Delete` take the item index as a parameter. In the page, each closure is built only for an index of the list it renders. That the handlers share one loaded array until the re-render replaces them is captured only through the `shown` field.
