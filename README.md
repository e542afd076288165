# Weekly to-do page: state and view logic

A model of the `Home` page of a weekly to-do list front end. The page keeps five pieces of
state: the tasks grouped by weekday (`todosByDay`), the selected day, the text of the input,
a notification message and the theme flag. The user moves between a grid of seven day tiles
and the detail view of one day, and adds, completes and deletes tasks through a remote HTTP
API. After each successful change the page reloads the whole list.

The model separates the page's logic from its I/O:

- `Tasks` (`tasks.dfy`): the task record, the seven Indonesian weekday labels
  (`Senin` … `Minggu`), the per-day filter and the grouping loop of `fetchAllTodos`.
  Grouping is a partition with drop: a task whose `day` is not a label is in no bucket.
- `JsText` (`jstext.dfy`): `String.prototype.trim`, which guards `addTodo`.
- `View` (`view.dfy`): a grid tile (first four tasks, plus a "+N lainnya" counter) and the
  body of the detail view.
- `HomePage` (`home.dfy`): a state snapshot, what the page renders from it, the guard and body
  of the create request, and the class `Home` whose methods are the handlers. Every remote call
  is replaced by its reply, given as a parameter. Each handler returns the requests it sends.
  A successful change sends the change and then one `GET` for the reload. The reply to that
  `GET` is a later, separate `FetchAllTodos` call.

Two facts about the code shape what the model claims:

- The store starts as `{}` (src/pages/Home.jsx:7) and gets its seven keys only at the first
  successful load (src/pages/Home.jsx:21-25). Until then no day has a bucket.
- A new message does not cancel the 3-second timer of an older one (src/pages/Home.jsx:13-16),
  so an older timer can clear a newer message. Timers are not modelled, and the model claims
  nothing about how long a message stays visible.

## Model

| member | source | states |
|---|---|---|
| `Tasks.DaysAreSevenLabels` | src/pages/Home.jsx:4 | the day labels are seven distinct strings; the label set and the label list hold the same labels |
| `Tasks.OnDay` | src/pages/Home.jsx:23 | a bucket holds only tasks of its day that come from the fetched list, and holds every fetched task of that day |
| `Tasks.OnDayAppend` | src/pages/Home.jsx:23 | the filter distributes over concatenation, so a bucket keeps the fetched relative order |
| `Tasks.OnDayCount` | src/pages/Home.jsx:23 | a bucket holds each task of its day as many times as the fetched list does, and no task of another day |
| `Tasks.Group` | src/pages/Home.jsx:21-24 | the grouped map has exactly the seven labels as keys; every task in a bucket has that bucket's day and was fetched; every fetched task with a known day is in its day's bucket |
| `Tasks.GroupByDay` | src/pages/Home.jsx:21-24 | the loop that assigns one key per label builds exactly the grouped map |
| `Tasks.GroupSizes` | src/pages/Home.jsx:21-24 | the bucket sizes add up to the number of fetched tasks whose day is a label; a task with any other day is in no bucket |
| `JsText.TrimStart` | src/pages/Home.jsx:32 | the result is a suffix of the input, everything cut off is whitespace, and it does not start with whitespace |
| `JsText.TrimEnd` | src/pages/Home.jsx:32 | the result is a prefix of the input, everything cut off is whitespace, and it does not end with whitespace |
| `JsText.Trim` | src/pages/Home.jsx:32 | the result is a contiguous piece of the input with only whitespace before and after it, and it neither starts nor ends with whitespace |
| `JsText.TrimEmptyIffBlank` | src/pages/Home.jsx:32 | the trimmed text is empty exactly when every character of the text is whitespace |
| `View.TileFor` | src/pages/Home.jsx:119-126 | a tile lists the first min(4, length) tasks of the bucket, in order; the counter appears exactly when the bucket holds more than 4, and listed tasks plus the counter equal the bucket's length; a missing bucket lists nothing |
| `View.DetailAsWritten` | src/pages/Home.jsx:160-164 | as written: the empty note exactly when the bucket exists and is empty, the whole bucket when it is non-empty, and a crash exactly when the bucket is missing |
| `View.DetailFor` | src/pages/Home.jsx:160-164 | corrected: never crashes; the note exactly when the bucket is missing or empty; otherwise the whole bucket; agrees with the code whenever the bucket exists |
| `HomePage.AddRequest` | src/pages/Home.jsx:32-38 | nothing is posted exactly when the text is all whitespace or no day is selected (`null` or `""`, as `!selectedDay` reads it); otherwise the body is the untrimmed text, the selected day and `completed: false` |
| `HomePage.Render` | src/pages/Home.jsx:98-164 | the banner shows exactly when the message is non-empty; the grid shows exactly when no day is selected (`null` or `""`, as `!selectedDay` reads it), with one tile per label in label order; otherwise it renders the corrected detail (`View.DetailFor`, see Findings), which never crashes where the page as written does |
| `HomePage.Home.constructor` | src/pages/Home.jsx:7-11 | the page starts with an empty store, no selection, empty text and message, and the light theme |
| `HomePage.Home.FetchAllTodos` | src/pages/Home.jsx:18-29 | with data, the store becomes the data grouped by day and nothing else changes; on failure only the message changes, to the load-failure text |
| `HomePage.Home.AddTodo` | src/pages/Home.jsx:31-45 | a failed guard sends nothing and changes nothing; a successful POST sends the draft and then a reload, clears the text and sets the success message; a failed POST changes only the message |
| `HomePage.Home.DeleteTodo` | src/pages/Home.jsx:47-55 | sends a DELETE of the id; on success also a reload and the success message; on failure only the message changes |
| `HomePage.Home.CompleteTodo` | src/pages/Home.jsx:57-67 | sends a PUT of `completed: true` for the id; on success also a reload and the success message; on failure only the message changes |
| `HomePage.Home.SelectDay` | src/pages/Home.jsx:111 | clicking a tile selects its day and changes nothing else |
| `HomePage.Home.Back` | src/pages/Home.jsx:137 | the back button clears the selection and changes nothing else |
| `HomePage.Home.EditText` | src/pages/Home.jsx:149 | typing sets the text and changes nothing else |
| `HomePage.Home.ToggleDarkMode` | src/pages/Home.jsx:88 | the theme switch flips `darkMode` and changes nothing else |
| `HomePage.ToggleDarkModeTwice` | src/pages/Home.jsx:88 | flipping the theme switch twice restores the whole state |
| `HomePage.CrashOnlyBeforeLoad` | src/pages/Home.jsx:160-164 | with a day selected, the code as written crashes exactly when no load has succeeded yet; after one, it matches the rendered detail |
| `HomePage.OpenDayAfterFailedLoad` | src/pages/Home.jsx:160-164 | after a failed first load and a tile click, the code as written crashes, while the corrected detail shows the empty note |

## Left out

- The HTTP calls and their hard-coded URLs: network I/O. Each reply is a parameter. Requests are named by method and id only.
- The 3-second `setTimeout` that clears the message: wall-clock timing.
- The reload started after each successful change runs without `await`. Its possible interleavings with other requests are left out: async concurrency. The model records that the reload is sent; its reply is applied by a separate `FetchAllTodos` step.
- The `useEffect` hook that loads the list on mount: React lifecycle. It is one `FetchAllTodos` step after the constructor.
- JSX markup, Tailwind classes and the strikethrough of completed tasks: presentation. A tile's counter is modelled as the number N, not as the text "+N lainnya".
- `HomePage.Home.FetchAllTodos`, `HomePage.Home.AddTodo`, `HomePage.Home.DeleteTodo` and `HomePage.Home.CompleteTodo`: each is one step from the click to the reply. The page awaits each request, and other events can run during the wait. Those events are not captured. For example, a second click on "Tambah" while the first POST is pending sends a second POST, because the text is cleared only after the reply. Typing during a pending POST is likewise wiped when the reply clears the text.
- `JsText.Trim`: JavaScript strings are UTF-16 code units, while the model uses Unicode characters. Every character that `trim` removes is a single code unit, so the guard's outcome is the same.

## Findings

| source | as written | input that shows it | evidently intended | confidence | as-written member | corrected member |
|---|---|---|---|---|---|---|
| src/pages/Home.jsx:160-164 | `todosByDay[selectedDay]?.length === 0` is false when the bucket is missing, so `todosByDay[selectedDay].map` runs on `undefined` and throws | the first load fails (or has not answered yet), then the user clicks the tile of `Senin` | show the empty-state note for a day with no bucket | not executed; high | `HomePage.OpenDayAfterFailedLoad` | `View.DetailFor` |
