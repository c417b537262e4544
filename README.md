# Tasks Generator — a verified model of its core

Tasks Generator turns a feature idea (goal, users, constraints) into user
stories and engineering tasks by asking a language model. It keeps the last
five generations in a history file and lets the user edit, reorder and export
the tasks. This Dafny project models the logic behind that:

- the two `POST /api/generate-tasks` handlers, one backed by Groq and one by
  Anthropic. Each handler checks the request, checks the API key, builds the
  prompt, calls the model, pulls the JSON object out of the reply, and puts
  the new record first in a history of at most five records;
- `GET /api/specs`, the summary list of that history;
- the task editing of both front ends: the Next.js `TaskList` component and
  the Vite `App` with its `TaskList`;
- the Markdown and plain-text exporters of the Vite front end.

Each part keeps the form it has in the source:

- Request handling, extraction, the summary list and the `App` handlers are
  functions.
- The in-place history update (`unshift`, then `splice(5)`) is a method on a
  JavaScript-array class, and so are the `splice` calls of the drag handlers.
- The component state of the two task lists lives in classes whose methods
  update their fields.
- The exporters are methods with a loop that appends to a string. Each is
  proved equal to a function that describes the document.

The upstream model, `JSON.parse`, the clock and the environment enter as
parameters:

- `upstream: string -> Completion` (Groq) or `string -> Reply` (Anthropic),
  applied to the prompt;
- `parse: string -> Option<TaskSet>`;
- `apiKey: Option<string>`;
- `id` and `createdAt`.

The history file is a `StoredFile` value held in a `SpecFile` object.

Modules: `Common`, `JsArrays`, `Tasks`, `Extraction`, `SpecStore`,
`Generation`, `GroqRoute`, `AnthropicRoute`, `SpecsRoute`, `TaskBoard`
(app/components/TaskList.tsx), `AppTasks` (frontend/src/App.jsx), `TaskPanel`
(frontend/src/components/TaskList.jsx) and `Export`
(frontend/src/components/ExportOptions.jsx).

Two things the code does that a reader might not expect:

- The request may carry `risks`, but both handlers destructure only `goal`,
  `users` and `constraints`. So `risks` is in neither the prompt nor the
  stored record, and `SpecRecord` has no such field.
- For a history file of records, `GET /api/specs` fails only when the
  stored JSON value is not an array. A missing or unreadable file lists
  nothing, because `loadSpecs` already catches those errors. (An array
  holding something other than records, such as `null`, is outside the
  model; see "Left out".)

## Model

| member | source | states |
|---|---|---|
| Generation.Prompt | backend/app/api/generate-tasks/route.ts:23-30 | the prompt is the fixed instructions, then `goal`, `users` and `constraints` verbatim after their labels in that order, then the closing instruction; its length is the sum of the parts, so nothing else (such as `risks`) is in it |
| Generation.Layout | backend/src/app/api/generate-tasks/route.ts:24-31 | where each of five concatenated parts of the template lies in the result, and the total length |
| Generation.NewSpec | backend/app/api/generate-tasks/route.ts:81-88 | the new record carries the request's goal, users and constraints, the minted id and timestamp, and the parsed tasks |
| Generation.SaveToHistory | backend/app/api/generate-tasks/route.ts:79-94 | load, `unshift`, `splice(5)` and save: the file becomes the record followed by the loaded history, cut to five, and the reply is the record; a stored non-array makes `unshift` throw, so the reply is the generic 500 and nothing is written |
| Generation.Respond | backend/src/app/api/generate-tasks/route.ts:65-95 | a failed step is sent as it is and the file is left alone; a parsed record is saved as above |
| Generation.FailureWritesNothing | backend/app/api/generate-tasks/route.ts:71-77 | every error reply, a parse failure included, leaves the history file as it was |
| Generation.Handled | backend/app/api/generate-tasks/route.ts:79-100 | how a handler ends: a failed step is sent as its error with the file untouched; a parsed record is put first in the loaded history, cut to five and written back, and sent as the body; a stored non-array gives the generic 500 and no write |
| Generation.SuccessPrependsRecord | backend/app/api/generate-tasks/route.ts:90-94 | after a success the body is the stored record, which is first in the file; the file holds min(old length + 1, 5) records; the rest are a prefix of the old history, in order |
| GroqRoute.Generate | backend/app/api/generate-tasks/route.ts:6-77 | a missing or empty field gives 400 and is the only 400; then a missing key gives 500 "Groq API key not configured"; for an OK reply with content, `JSON.parse` of the brace match (or the whole content) failing gives 500 "Failed to parse AI response", and succeeding gives the record `newSpec` of the request with the parsed tasks |
| GroqRoute.Post | backend/app/api/generate-tasks/route.ts:4-102 | the handler's reply and the new file contents are those `Generate` and the history update determine |
| GroqRoute.OnlyThePromptReachesUpstream | backend/app/api/generate-tasks/route.ts:6-46 | the outcome depends on the upstream only through its answer to the prompt, and not at all on `risks`; when validation or the key check fails, no upstream answer matters |
| GroqRoute.UpstreamFailures | backend/app/api/generate-tasks/route.ts:48-60 | a non-OK status gives 500 with the upstream's error message, or "Groq request failed" without one; empty content gives 500 "Groq returned an empty response"; a failed fetch gives the generic 500 |
| GroqRoute.EmbeddedReplySucceeds | backend/app/api/generate-tasks/route.ts:64-67 | a reply with a JSON object between prose with no `{` before it and no `}` after it yields the record holding what the object parses to |
| AnthropicRoute.Generate | backend/src/app/api/generate-tasks/route.ts:7-95 | 400 for a missing field, then 500 "Claude API key not configured"; a thrown upstream call gives 500 "Failed to generate tasks"; a missing `text` gives 500 "Failed to parse AI response", and so does a failing `JSON.parse` of the brace match (or the whole text); a successful parse gives the record `newSpec` of the request with the parsed tasks; every failure is one of the four fixed errors |
| AnthropicRoute.Post | backend/src/app/api/generate-tasks/route.ts:5-96 | the handler's reply and the new file contents are those `Generate` and the history update determine |
| AnthropicRoute.OnlyThePromptReachesUpstream | backend/src/app/api/generate-tasks/route.ts:7-52 | the outcome depends on the upstream only through its answer to the prompt, and never on `risks` |
| AnthropicRoute.AgreesWithGroqRoute | backend/src/app/api/generate-tasks/route.ts:54-71 | given the same non-empty reply text, both routes yield the same record or the same parse failure |
| Extraction.BraceMatch | backend/app/api/generate-tasks/route.ts:65 | no match exactly when no `{` comes before a `}`; otherwise the match is the leftmost-starting, longest `{…}` substring |
| Extraction.ParseTarget | backend/app/api/generate-tasks/route.ts:65-70 | the text handed to `JSON.parse` is the leftmost-longest `{…}` substring when there is one, and the whole reply otherwise |
| Extraction.FirstIndexOf | backend/src/app/api/generate-tasks/route.ts:59 | the index of the first occurrence of a character, or none when it does not occur |
| Extraction.LastIndexOf | backend/src/app/api/generate-tasks/route.ts:59 | the index of the last occurrence of a character, or none when it does not occur |
| Extraction.LeftmostLongestUnique | backend/src/app/api/generate-tasks/route.ts:59 | the regex match is determined uniquely |
| Extraction.EmbeddedObjectIsSelected | backend/src/app/api/generate-tasks/route.ts:59-61 | an object with no `{` before it and no `}` after it is selected exactly, whatever braces it holds inside |
| Generation.HasRequiredFields | backend/app/api/generate-tasks/route.ts:8 | `!goal`, `!users` and `!constraints` are all false: each field is present and non-empty |
| Common.Truthy | backend/src/app/api/generate-tasks/route.ts:9 | JavaScript truthiness of an optional string: absent and empty are falsy |
| Extraction.Extract | backend/app/api/generate-tasks/route.ts:64-77 | the parse step: `JSON.parse` of the brace match, or of the whole reply |
| Tasks.Moved | app/components/TaskList.tsx:71-73 | the two splices of a drop: out at `from`, back in at `to` |
| AppTasks.FilterOutIndex | frontend/src/App.jsx:91 | `filter((_, i) => i !== index)`, walked with the running index |
| AppTasks.MapAtIndex | frontend/src/App.jsx:98 | `map((task, i) => i === index ? updated : task)`, walked with the running index |
| AppTasks.TaskCount | frontend/src/App.jsx:129 | the count on the Tasks tab |
| AppTasks.TabsVisible | frontend/src/App.jsx:123 | `Object.values(tasks).some(arr => arr.length > 0)` |
| TaskBoard.RendersNothing | app/components/TaskList.tsx:165-167 | the component renders nothing when both groups are empty |
| SpecStore.LoadSpecs | lib/specs.ts:15-26 | a missing or unreadable file reads as the empty history; a stored array reads as itself; only a non-array value is not a history |
| SpecStore.SpecFile.SaveSpecs | lib/specs.ts:29-36 | the file is overwritten with exactly the given records |
| SpecStore.Pushed | backend/app/api/generate-tasks/route.ts:90-91 | `unshift` then `splice(5)`: the record first, the newest older records after it, at most five in all |
| SpecStore.PushAllKeepsNewest | backend/src/app/api/generate-tasks/route.ts:84-86 | however many generations are saved in turn, the history is the newest five, newest first |
| SpecStore.TakeOfTake | backend/src/app/api/generate-tasks/route.ts:85 | cutting to five before or after prepending gives the same history |
| JsArrays.SpliceStart | backend/app/api/generate-tasks/route.ts:91 | `splice` clamps a start past the end to the length |
| JsArrays.SpliceCount | app/components/TaskList.tsx:51 | an omitted delete count removes the whole tail; a larger count removes only what is left |
| JsArrays.JsArray.Unshift | backend/app/api/generate-tasks/route.ts:90 | the element becomes the first, the rest follow in order |
| JsArrays.JsArray.Splice | backend/src/app/api/generate-tasks/route.ts:85 | the clamped range is removed and returned, and the inserted elements take its place |
| JsArrays.JsArray.SetAt | app/components/TaskList.tsx:38 | assignment to an index inside the array changes that element only |
| SpecsRoute.Summarize | backend/src/app/api/specs/route.ts:8-12 | a summary carries exactly id, createdAt, goal, users and constraints of its record, and no tasks |
| SpecsRoute.SummarizeAll | backend/src/app/api/specs/route.ts:7-13 | one summary per record, summary i from record i |
| SpecsRoute.Summaries | backend/src/app/api/specs/route.ts:7 | min(history length, 5) summaries, summary i from history[i] |
| SpecsRoute.ListSpecs | backend/src/app/api/specs/route.ts:4-22 | 500 "Failed to fetch specs" exactly when the stored value is not an array; an empty or missing history lists nothing; otherwise the summaries |
| SpecsRoute.NewestGenerationListedFirst | backend/src/app/api/specs/route.ts:6-11 | right after a generation is saved, its summary heads the list |
| Tasks.TaskSet.With | frontend/src/App.jsx:82-85 | `{ ...tasks, [group]: s }` replaces the named group and keeps the other |
| Tasks.Without | app/components/TaskList.tsx:50-51 | `splice(index, 1)` on a copy: the elements before the index stay, those after move down by one; an index past the end removes nothing |
| Tasks.InsertAt | app/components/TaskList.tsx:73 | `splice(i, 0, x)`: `x` at the clamped index, the elements before it in place, those after it moved up by one |
| Tasks.WithoutInsertAt | app/components/TaskList.tsx:72-73 | removing what was inserted gives back the sequence inserted into |
| Tasks.MovedIsPermutation | app/components/TaskList.tsx:71-73 | a drag move keeps the length and the multiset of tasks |
| Tasks.MovedPlacesTask | app/components/TaskList.tsx:71-73 | the moved task lands at the target index (or last), and the other tasks keep their relative order |
| Tasks.MovedToItselfIsIdentity | frontend/src/components/TaskList.jsx:39-41 | taking a task out and putting it back at its own index changes nothing |
| Tasks.Toggled | app/components/TaskList.tsx:84-91 | exactly the toggled section changes membership |
| Tasks.ToggledTwice | app/components/TaskList.tsx:84-91 | toggling the same section twice restores the set |
| TaskBoard.Saved | app/components/TaskList.tsx:37-38 | only title and description of task `index` change; its id, the length and every other task stay |
| TaskBoard.Board.constructor | app/components/TaskList.tsx:24-28 | nothing edited, nothing dragged, no section collapsed |
| TaskBoard.Board.HandleEdit | app/components/TaskList.tsx:30-34 | the editor opens on the task, seeded with its title and description; nothing else changes |
| TaskBoard.Board.HandleSave | app/components/TaskList.tsx:36-47 | the group becomes `Saved` of it, the other group is passed through, and the editor closes |
| TaskBoard.Board.HandleDelete | app/components/TaskList.tsx:49-58 | the group loses exactly the task at `index`; the other group and the rest of the state are unchanged |
| TaskBoard.Board.HandleDragStart | app/components/TaskList.tsx:60-62 | the dragged task's group and index are remembered |
| TaskBoard.Board.HandleDrop | app/components/TaskList.tsx:68-82 | no drag or a drop on the other group changes nothing; otherwise the group becomes the move of the dragged task to `targetIndex`, the other group is passed through, and the drag is cleared |
| TaskBoard.Board.ToggleSection | app/components/TaskList.tsx:84-92 | the collapsed set becomes `Toggled` of it; nothing else changes |
| AppTasks.ReorderTasks | frontend/src/App.jsx:81-86 | the named group becomes the new order; the other stays |
| AppTasks.FilterOutIndexIsWithout | frontend/src/App.jsx:91 | `filter((_, i) => i !== index)` removes exactly the element at `index`, as `splice(index, 1)` does |
| AppTasks.FilterPastIndex | frontend/src/App.jsx:91 | positions past the index are all kept |
| AppTasks.MapAtIndexReplaces | frontend/src/App.jsx:98 | `map((task, i) => i === index ? updated : task)` replaces exactly that element |
| AppTasks.DeleteTask | frontend/src/App.jsx:88-93 | exactly the element at `index` is removed; an index past the end changes nothing; the other group is untouched |
| AppTasks.EditTask | frontend/src/App.jsx:95-100 | the element at `index` becomes the update; the length, every other element and the other group stay |
| AppTasks.AddTask | frontend/src/App.jsx:102-107 | the new task is appended: the length grows by one and the earlier tasks and the other group stay |
| AppTasks.TabsVisibleIffTasks | frontend/src/App.jsx:123-129 | the Tasks and Export tabs show exactly when the count (user stories plus engineering tasks) is positive, which is exactly when the other front end's list renders anything (app/components/TaskList.tsx:165-167) |
| TaskPanel.GroupFlags.With | frontend/src/components/TaskList.jsx:16 | `{ ...prev, [group]: b }` sets one group's flag and keeps the other |
| TaskPanel.Panel.constructor | frontend/src/components/TaskList.jsx:5-13 | both groups expanded, both add forms hidden, the draft empty |
| TaskPanel.Panel.ToggleGroup | frontend/src/components/TaskList.jsx:15-17 | flips only the named group's expanded flag |
| TaskPanel.Panel.OpenAddForm | frontend/src/components/TaskList.jsx:92-97 | shows the group's add form; nothing else changes |
| TaskPanel.Panel.CancelAddForm | frontend/src/components/TaskList.jsx:118-123 | hides the group's add form and clears the draft |
| TaskPanel.Panel.HandleAddTask | frontend/src/components/TaskList.jsx:50-56 | the draft is handed to `onAdd` exactly when title and description are both non-empty, and then the draft is cleared and the form hidden; otherwise nothing changes |
| TaskPanel.Panel.HandleDrop | frontend/src/components/TaskList.jsx:29-48 | `onReorder` is called exactly when the drag data names the drop group, and then with the group as it was |
| TaskPanel.Panel.HandleDropAt | frontend/src/components/TaskList.jsx:29-48 | the corrected drop: the order handed on is the move of the dragged task to the target index, a permutation of the group with the task at the target |
| TaskPanel.DropCannotReorder | frontend/src/components/TaskList.jsx:40-41 | with two different tasks, the handler as written hands on the old order, while a move onto the other slot swaps them |
| Export.NatToString | frontend/src/components/ExportOptions.jsx:12 | `${n}` is a non-empty string of decimal digits; it starts with `0` only when it is `"0"` itself, so it has no leading zero, and reading it back as a decimal number gives `n` |
| Export.Repeat | frontend/src/components/ExportOptions.jsx:30 | `c.repeat(n)` is `n` copies of `c` |
| Export.Rule | frontend/src/components/ExportOptions.jsx:38 | a rule is exactly 60 copies of its character |
| Export.ItemsStep | frontend/src/components/ExportOptions.jsx:11-14 | rendering one more task appends its block, numbered by its position |
| Export.ItemBlock | frontend/src/components/ExportOptions.jsx:11-13 | the block of one task numbered `n`: the number, `. `, the title (in `**` in Markdown), a newline, the description indented by three spaces, and a blank line; the plain-text form is line 40 without the `**` |
| Export.ItemNumbered | frontend/src/components/ExportOptions.jsx:19-22 | the block of task k is numbered k + 1 and comes right after the blocks of the tasks before it |
| Export.AppendItems | frontend/src/components/ExportOptions.jsx:39-41 | the `forEach` loop appends the numbered blocks of the tasks, in order |
| Export.GenerateMarkdown | frontend/src/components/ExportOptions.jsx:2-26 | the built string is the Markdown document: header, then each non-empty section |
| Export.GenerateText | frontend/src/components/ExportOptions.jsx:28-53 | the built string is the plain-text document: header, then each non-empty section |
| Export.MarkdownDocument | frontend/src/components/ExportOptions.jsx:3-25 | the Markdown document: title and feature details, then `## User Stories` with its numbered blocks when that group is non-empty, then `## Engineering Tasks` likewise |
| Export.TextDocument | frontend/src/components/ExportOptions.jsx:29-52 | the plain-text document: title, a rule of 60 `=`, the feature details, then each non-empty group under its title and a rule of 60 `-`, with its numbered blocks |
| Export.MarkdownHeaderFirst | frontend/src/components/ExportOptions.jsx:3-7 | the document opens with the title line and the details goal, users, constraints; with no tasks it is exactly that |
| Export.TwoSections | frontend/src/components/ExportOptions.jsx:9-23 | after the header, a section's heading is present exactly when its group has tasks |
| Export.MarkdownSectionsIffNonEmpty | frontend/src/components/ExportOptions.jsx:9-23 | "## User Stories" follows the header exactly when there are user stories, and "## Engineering Tasks" follows that section exactly when there are engineering tasks |
| Export.TextTitleRule | frontend/src/components/ExportOptions.jsx:29-30 | the plain-text document opens with its title line and a rule of 60 `=` |
| Export.TextSectionsIffNonEmpty | frontend/src/components/ExportOptions.jsx:36-50 | "USER STORIES" with a rule of 60 `-` follows the header exactly when there are user stories, and "ENGINEERING TASKS" with its rule follows that section exactly when there are engineering tasks |

## Left out

- File system access in `lib/specs.ts` is not modelled. The file is a `StoredFile` value with four cases: missing, unreadable or unparsable, a non-array JSON value, or an array of records. `ensureDataDir` is not modelled.
- SpecStore.SpecFile.SaveSpecs: a failed write is caught and only logged by `saveSpecs`. The model assumes every write succeeds.
- The network calls to Groq and Anthropic are parameters. Headers, model names, temperature and the system message are not modelled. A Groq fetch that rejects, or a body that is not JSON, is the `Unreachable` case. An Anthropic call that throws for any reason is the `Thrown` case.
- The request body is taken to be a JSON object whose `goal`, `users`,
  `constraints` and `risks` are strings or absent. A malformed or `null`
  body makes `request.json()` or the destructuring throw, which the source
  answers with 500 "Failed to generate tasks"; a truthy non-string field
  would pass the check and be interpolated and stored as it is. Neither is
  modelled.
- The upstream reply text (Groq `content`, Anthropic `content[0].text`) is
  taken to be a string or absent. A truthy non-string value makes
  `content.match` throw inside the parse step, which the source answers with
  500 "Failed to parse AI response"; that case is not modelled.
- A stored history array is taken to hold records. An element such as
  `null` would make `spec.id` throw in `GET /api/specs`, answered with 500
  "Failed to fetch specs"; that case is not modelled.
- `JSON.parse` is an arbitrary partial function `parse`. The model does not require it to reject the empty string.
- The parsed payload is modelled as a `TaskSet`. The source stores whatever JSON value the model returned.
- The id and timestamp (`Date.now()`, `toISOString()`) are parameters. The model makes no uniqueness claim.
- Overlapping requests that race on the history file are not modelled. The model is sequential.
- Logging (`console.error`) is not modelled.
- React rendering is not modelled: JSX, CSS, `useState`/`useEffect` wiring, clipboard, download, the history views, the forms and the task cards.
- The `onChange` bindings are not modelled: the edit inputs of app/components/TaskList.tsx and the draft inputs of frontend/src/components/TaskList.jsx. The edit and draft values are class fields that a caller sets directly.
- The handler that closes the editor without saving is not modelled.
- The `handleDragStart` and `handleDragOver` handlers of frontend/src/components/TaskList.jsx only write browser drag data or prevent the default. The drag data reaches `HandleDrop` as an `Option<DragData>`, where `None` is data that does not parse.
- The get-by-id endpoint `/api/specs/:id` is not part of this model.
- TaskBoard.Board.HandleSave: requires an index inside the group. The handler is only bound to rendered tasks. An index past the end would make the source add a task holding only the edited title and description.
- TaskBoard.Board.HandleDrop: requires the dragged index to be inside the group when the groups match, for the same reason. An index past the end would make the source insert `undefined`.
- TaskPanel.Panel.HandleDrop: requires a dragged index inside the group, for the same reason. Drag data whose index is negative, non-integer or past the end is not modelled.
- TaskPanel.Panel.HandleDropAt: requires a dragged index inside the group, as above.
- Export.AppendItems: the Markdown loop appends each item in two pieces (title line, then description). The model appends the whole block at once, which gives the same string.
- The `handleCopy` and `handleDownload` callers of the exporters are not modelled. They are clipboard and download UI.

## Findings

| source | as written | input that shows it | evidently intended | confidence | as-written member | corrected member |
|---|---|---|---|---|---|---|
| frontend/src/components/TaskList.jsx:40-41 | the drop target index is `Math.max(0, sourceIndex)`, which is the source index itself, so the dragged task is put back where it was and `onReorder` receives the old order | group `[a, b]` with `a != b`: drag `a` (index 0) and drop it on the list; the new order is `[a, b]`, never `[b, a]` | the dragged task moves to the index it is dropped on, as app/components/TaskList.tsx:73 does | medium; not executed | TaskPanel.Panel.HandleDrop, TaskPanel.DropCannotReorder | TaskPanel.Panel.HandleDropAt |
