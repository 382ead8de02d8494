# gemini-beyond-prompts: the event-handler logic of the three panels

The repository is a React front-end with three demo panels around a
generative-language-model API. Most of it renders things. Under the JSX, the event
handlers hold a small amount of sequential logic, and this project models that
logic in Dafny. Each component's React state becomes the fields of a class. Each
`prev.map(...)` / `prev.filter(...)` passed to a state setter becomes a pure
function on a sequence of records. Each `await` is a point between two atomic
state updates.

- `Assistant` (personal_assistant.dfy) covers the agents panel.
  - `executeWorkflow` runs a workflow's steps strictly in order: pending, then
    running, then completed with an output text. Aggregate progress is
    (i+0.5)/n·100 while step i runs and (i+1)/n·100 once it has completed. At the
    end the workflow is `completed` with progress exactly 100.
  - The run is modelled as a schedule of `setWorkflows` calls
    (`Begin, Start(0), Finish(0), …, End`). A ghost history holds every value the
    list takes, so ordering and monotonic progress can be stated about
    intermediate states.
  - `createTask` and `executeTask` give a task its linear lifecycle. The pending
    count is the one the task list shows.
- `Documents` (document_analysis.dfy) covers the document library.
  - `generateSummary` keeps the first 50 space-separated words.
  - `deleteDocument` filters by id.
  - The search pipeline is a blank-query guard, a case-insensitive substring
    filter, one 200-character chunk per result and a stable descending sort by
    score.
  - The upload loop appends one document per file and then resets its flags.
- `Chat` (chat_interface.dfy) covers the chat panel.
  - `configureGemini` has a guard on the API key.
  - `sendMessage` has a guard. It appends the user's message, builds a prompt from
    the conversation window and calls the model. On a reply it appends the
    assistant's message, which carries a snapshot of the last 5 entries of the
    window. The window then slides to the last 8 earlier entries plus the new
    exchange.
- `Text` (text.dfy) holds the JavaScript string operations the handlers use:
  `trim`, `substring(0, k)`, `slice(-k)`, `includes`, and `split(' ')` /
  `join(' ')`.
- `Optional` (option.dfy) holds the optional fields (`output?`, `completedAt?`, …).

Everything outside the handlers is a parameter of the model:

- The model's reply is `generate: string -> Option<string>`; `None` means the
  call threw.
- `Math.random()` draws are a sequence of reals in [0, 1), one per document in
  library order.
- `Date.now()` ids and `new Date()` timestamps are arguments.
- `toLowerCase` is a parameter `lower: string -> string`.
- The text `extractTextFromFile` returns is an `Option<string>` per file; `None`
  stands for a throw inside the upload's `try` block.
- Whether `initializeGemini` returns normally is a boolean.

Some buttons are disabled in the UI: Run while the workflow is running, Execute
shown only on pending tasks, the file input while uploading, Send while loading.
These guards are preconditions, not code.

The handlers have no error outcomes of their own:

- Nothing checks a task's or a workflow's status before running it.
- No step, task or agent can fail or be busy. No code sets a step to `error`,
  and agents are never written after initialisation.
- A workflow's progress is not recomputed from its steps. It is set by the
  formulas above. `Assistant.RunProgressFollowsSteps` proves that the two agree
  when a run starts with every step pending. A second run of a workflow that has
  already completed starts with its steps still `completed` from the first run.
  Its later steps then show `completed` while an earlier one runs
  (`Assistant.RunStepOrder`), so there the two do not agree.
- `completedAt` is present exactly on completed tasks. This is an invariant the
  class keeps (`Valid`), not something the code checks.

## Model

| member | source | states |
|---|---|---|
| `Text.BlankIffAllWhitespace` | src/components/PersonalAssistant.tsx:220 | The `!s.trim()` guard holds exactly when every character of s is JavaScript whitespace, the empty string included. |
| `Text.Prefix` | src/components/DocumentAnalysis.tsx:138 | `substring(0, k)` gives a prefix of s of length min(k, \|s\|). |
| `Text.TakeLast` | src/components/ChatInterface.tsx:105 | `slice(-k)` gives the last min(k, \|xs\|) elements, which xs ends with. |
| `Text.Split` | src/components/DocumentAnalysis.tsx:120 | `split(' ')` gives at least one piece, and no piece contains a space. |
| `Text.JoinSplit` | src/components/DocumentAnalysis.tsx:120 | Rejoining the pieces of `split(' ')` with single spaces gives the original string. |
| `Text.SplitJoin` | src/components/DocumentAnalysis.tsx:120 | Splitting the join of space-free words gives the words back. |
| `Text.JoinPrefix` | src/components/DocumentAnalysis.tsx:120 | Joining the first m words gives a prefix of joining all of them. |
| `Assistant.FindIndex` | src/components/PersonalAssistant.tsx:155-156 | `find` returns nothing exactly when no workflow has the id; otherwise it returns the first workflow with that id. |
| `Assistant.Schedule` | src/components/PersonalAssistant.tsx:158-211 | One run over n steps makes 2n + 2 calls of `setWorkflows`. |
| `Assistant.ScheduleOrder` | src/components/PersonalAssistant.tsx:165-204 | The run starts first and ends last. In between, step i is set running and then completed, immediately before step i + 1 is set running. |
| `Assistant.ScheduleAt` | src/components/PersonalAssistant.tsx:165-204 | The update at each position of a run is determined by its parity: Start((k-1)/2) at odd positions, Finish((k-2)/2) at even ones. |
| `Assistant.ScheduleProgress` | src/components/PersonalAssistant.tsx:178-200 | The progress set by the k-th update of a run is k·50/n, half a step per update. |
| `Assistant.ScheduleProgressMonotone` | src/components/PersonalAssistant.tsx:178-209 | Over the updates of a run, the progress set never decreases and stays within [0, 100]. |
| `Assistant.ApplyAllPointwise` | src/components/PersonalAssistant.tsx:169-181 | Each `prev.map` update changes only the workflows with the matching id, each of them by the same record updates. |
| `Assistant.ChainKeepsStepIds` | src/components/PersonalAssistant.tsx:173-177 | The updates of a run keep the workflow's id, its number of steps and every step's id. |
| `Assistant.ChainOtherFields` | src/components/PersonalAssistant.tsx:169-211 | The updates of a run change only a workflow's steps, status and progress. |
| `Assistant.StartStep` | src/components/PersonalAssistant.tsx:173-177 | With distinct step ids, marking step i running touches only step i. |
| `Assistant.FinishStep` | src/components/PersonalAssistant.tsx:191-199 | With distinct step ids, completing step i touches only step i, which gets its output text. |
| `Assistant.RunBegins` | src/components/PersonalAssistant.tsx:158-162 | The first update sets each matching workflow to running with progress 0. Every other workflow is unchanged. |
| `Assistant.RunProgressMonotone` | src/components/PersonalAssistant.tsx:158-211 | Across every value the list takes during a run, a matching workflow's progress never decreases and stays within [0, 100]. |
| `Assistant.RunStepOrder` | src/components/PersonalAssistant.tsx:165-204 | While step i runs, every earlier step is completed with its output and every later step is untouched. Once step i completes, steps 0..i are completed and the rest are untouched. |
| `Assistant.RunStepProgress` | src/components/PersonalAssistant.tsx:178-200 | Progress is (i+0.5)/n·100 while step i runs and (i+1)/n·100 once step i has completed. |
| `Assistant.CountPattern` | src/components/PersonalAssistant.tsx:50 | When the first c steps are completed, the next r are running and the rest are pending, the completed and running counts are min(c, n) and min(c+r, n) − min(c, n). |
| `Assistant.RunProgressFollowsSteps` | src/components/PersonalAssistant.tsx:165-204 | For a run that starts with every step pending, the progress at each step boundary equals (completed + ½·running)/n·100 computed from the step statuses. |
| `Assistant.RunCompletes` | src/components/PersonalAssistant.tsx:207-211 | After the run every matching workflow is `completed` with progress exactly 100, even with zero steps, and every other workflow is unchanged. With distinct step ids, every step of the found workflow is `completed` with output `Resultado da execução: <name> concluído com sucesso.`, and nothing else of it changed. |
| `Assistant.RunKeepsWorkflowsOk` | src/components/PersonalAssistant.tsx:154-211 | A run keeps every workflow's progress within [0, 100] and its step ids distinct. |
| `Assistant.StartTaskPendingCount` | src/components/PersonalAssistant.tsx:242-246 | Starting the one pending task with an id lowers the displayed pending count by exactly one. |
| `Assistant.FinishTaskPendingCount` | src/components/PersonalAssistant.tsx:251-255 | Completing tasks that are no longer pending leaves the pending count unchanged. |
| `Assistant.ExecuteTaskEffect` | src/components/PersonalAssistant.tsx:241-255 | Running a pending task to completion lowers the pending count by one and keeps `completedAt` present exactly on completed tasks. |
| `Assistant.InitialDataOk` | src/components/PersonalAssistant.tsx:95-148 | The initial workflow has distinct step ids and progress within [0, 100]. Each initial task has `completedAt` exactly when it is completed. |
| `Assistant.PersonalAssistant.constructor` | src/components/PersonalAssistant.tsx:68-152 | The panel starts with the three idle agents, the market-research workflow, the two pending tasks and an empty form with priority `medium`. |
| `Assistant.PersonalAssistant.ExecuteWorkflow` | src/components/PersonalAssistant.tsx:154-217 | The list becomes `Run` of the old list, and the history gains exactly the run's trace. An unknown id changes nothing. Tasks and the form are untouched, and the invariant is kept. |
| `Assistant.PersonalAssistant.RunSchedule` | src/components/PersonalAssistant.tsx:158-211 | The loop makes the start update, two updates per step in order and the end update, each recorded in the history. |
| `Assistant.PersonalAssistant.SetWorkflows` | src/components/PersonalAssistant.tsx:169-181 | One `setWorkflows` call applies one update to the matching records and records the new list. |
| `Assistant.PersonalAssistant.CreateTask` | src/components/PersonalAssistant.tsx:219-239 | A blank title does nothing. Otherwise exactly one pending task is prepended, with no `completedAt` and no agent. Title and description are cleared, the priority is kept and the pending count rises by one. |
| `Assistant.PersonalAssistant.ExecuteTask` | src/components/PersonalAssistant.tsx:241-261 | Called on a pending task (the Execute button is shown only on those). Every task with that id goes to `in_progress`, then to `completed` with `completedAt` set. The others are unchanged. With distinct ids the pending count drops by one. `completedAt` stays present exactly on completed tasks. |
| `Documents.GenerateSummary` | src/components/DocumentAnalysis.tsx:118-122 | A summary always ends with `...`. |
| `Documents.SummaryKeepsFirstWords` | src/components/DocumentAnalysis.tsx:118-122 | Before the `...`, a summary is a prefix of the content made of exactly its first min(50, k) space-separated words. Content of at most 50 words is kept whole, followed by `...`. |
| `Documents.Without` | src/components/DocumentAnalysis.tsx:167-168 | A document remains after deletion exactly when it was there and has a different id. |
| `Documents.WithoutAppend` | src/components/DocumentAnalysis.tsx:167-168 | Deletion distributes over concatenation, so the remaining documents keep their original order. |
| `Documents.WithoutAbsent` | src/components/DocumentAnalysis.tsx:167-168 | Deleting an id that no document has leaves the library as it was. |
| `Documents.WithoutIdempotent` | src/components/DocumentAnalysis.tsx:167-168 | Deleting an id twice is the same as deleting it once. |
| `Documents.Score` | src/components/DocumentAnalysis.tsx:136 | `Math.random() * 0.5 + 0.5` lies in [0.5, 1). |
| `Documents.InsertPermutes` | src/components/DocumentAnalysis.tsx:146 | Inserting a result into the sorted list adds exactly that result. |
| `Documents.InsertSorted` | src/components/DocumentAnalysis.tsx:146 | Inserting a result into a list sorted by non-increasing score keeps it sorted. |
| `Documents.SortByScore` | src/components/DocumentAnalysis.tsx:146 | The sort returns a permutation of its input, ordered by non-increasing relevance score. |
| `Documents.KeepMatchingKeeps` | src/components/DocumentAnalysis.tsx:142-145 | The filter keeps a result exactly when the lower-cased content or name contains the lower-cased query. |
| `Documents.MatchingDocumentsKeeps` | src/components/DocumentAnalysis.tsx:142-145 | A document is among the matching documents exactly when it is in the library and its lower-cased content or name contains the lower-cased query. |
| `Documents.KeepMatchingDocuments` | src/components/DocumentAnalysis.tsx:133-145 | Filtering the scored list picks out exactly the matching documents, in library order. |
| `Documents.SortKeepsDocuments` | src/components/DocumentAnalysis.tsx:146 | Sorting keeps the multiset of documents. |
| `Documents.SearchFindsMatches` | src/components/DocumentAnalysis.tsx:133-146 | Search results hold exactly the matching documents, each as many times as it is in the library. They are ordered by non-increasing score. Each has a score in [0.5, 1) and one chunk: the first 200 characters of its content followed by `...`. |
| `Documents.SearchFindsEveryMatch` | src/components/DocumentAnalysis.tsx:133-148 | A document is among the stored search results exactly when it is in the library and matches the query. |
| `Documents.Processed` | src/components/DocumentAnalysis.tsx:58-91 | The loop reads files until the first throw inside the `try` block (a `None` text), or to the end when there is none. |
| `Documents.UploadProgressBelowFull` | src/components/DocumentAnalysis.tsx:60 | The progress shown before file i, i/n·100, lies in [0, 100). |
| `Documents.DocumentLibrary.constructor` | src/components/DocumentAnalysis.tsx:42-47 | The library starts empty, not uploading or searching, with progress 0 and no query or results. |
| `Documents.DocumentLibrary.HandleFileUpload` | src/components/DocumentAnalysis.tsx:50-96 | An empty file list is a no-op. Otherwise one document per read file is appended at the end, in file order. Before file i the observed progress is i/n·100 and the documents are those of the earlier files. Afterwards, success or failure, `isUploading` is false and progress is 0. |
| `Documents.DocumentLibrary.DeleteDocument` | src/components/DocumentAnalysis.tsx:167-173 | The library becomes `Without(old, id)`, and nothing else changes. |
| `Documents.DocumentLibrary.PerformSemanticSearch` | src/components/DocumentAnalysis.tsx:124-165 | A blank query or an empty library does nothing. Otherwise `isSearching` is true while the search waits and false afterwards. The results become the filtered, scored and sorted pipeline, and the documents and query are unchanged. |
| `Chat.ContextPrompt` | src/components/ChatInterface.tsx:82-84 | The context prefix of the prompt is empty exactly when the window is empty. |
| `Chat.ExchangesAlternate` | src/components/ChatInterface.tsx:104-108 | A window made of exchanges has even length, with questions at even and answers at odd positions. |
| `Chat.ExchangesAppend` | src/components/ChatInterface.tsx:104-108 | Appending a question and an answer to a window of exchanges gives a window of exchanges. |
| `Chat.NextContextShape` | src/components/ChatInterface.tsx:104-108 | The new window is the last min(8, k) earlier entries in order, then `User: <input>`, then `Assistant: <first 200 chars of reply>...`. It has at most 10 entries. |
| `Chat.NextContextOk` | src/components/ChatInterface.tsx:104-108 | Sliding the window keeps it a run of at most five whole question/answer exchanges. |
| `Chat.FullWindowSnapshot` | src/components/ChatInterface.tsx:98 | The snapshot keeps the last five entries, not five exchanges: for a full window it starts with an `Assistant: ` entry. |
| `Chat.ConverseFromEmpty` | src/components/ChatInterface.tsx:104-108 | Starting from an empty window, any conversation leaves at most 10 entries in alternating `User: ` / `Assistant: ` order. |
| `Chat.ChatSession.constructor` | src/components/ChatInterface.tsx:24-29 | The chat starts with no messages, empty input and key, not configured, and an empty window. |
| `Chat.ChatSession.ConfigureGemini` | src/components/ChatInterface.tsx:38-62 | A blank key leaves `isConfigured` unchanged. Otherwise a normal return from `initializeGemini` sets it to true and a throw leaves it unchanged. Nothing else changes. |
| `Chat.ChatSession.SendMessage` | src/components/ChatInterface.tsx:64-119 | Blank input or an unconfigured client is a no-op. Otherwise, before the model call, exactly one user message is appended, the input is cleared and `isLoading` is set. On failure the window is unchanged. On a reply the assistant message carries the last ≤5 entries of the old window, and the window slides. `isLoading` is false after either outcome. |
| `Chat.ChatSession.Post` | src/components/ChatInterface.tsx:67-76 | The user message is appended, the input cleared and `isLoading` set before the model is called. |
| `Chat.ChatSession.Receive` | src/components/ChatInterface.tsx:93-118 | On a reply the assistant message is appended and the window slides. On a failure only `isLoading` changes, and it is lowered either way. |

## Left out

- Rendering, toasts, icons, colour helpers, the scroll effect and `Math.round`
  display formatting are left out because they are user-interface output with no
  state logic.
- `src/components/Layout.tsx` is left out because it is a tab layout with no
  logic beyond the selected tab.
- `src/lib/gemini.ts` is not part of this model. The model call is the parameter
  `generate`, and initialisation is the parameter `initOk`.
- The `setTimeout` delays are left out because each `await` is taken as a point
  between atomic state updates.
- Interleaved clicks and React's stale closures are left out because they are
  concurrency. The disabled-button guards are preconditions instead.
- `FileReader` text extraction and MIME sniffing are left out because they are
  browser I/O. The extracted text is an input per file. `None` stands for a throw
  inside the upload's `try` block. The source's extraction never produces one:
  its promise only resolves and never rejects.
- The hang on a read error is not modelled. When `FileReader` fails, `onload`
  never fires and the `await` never resumes, so the `finally` block never runs.
  `isUploading` then stays true and the file input stays disabled. The model's
  upload always returns.
- String lengths, `substring(0, 200)` and `slice` count Unicode scalar values
  (Dafny's `char`), not UTF-16 code units. A character outside the Basic
  Multilingual Plane is one unit here and two in JavaScript. So the model never
  splits a surrogate pair, whereas `substring` can.
- Progress values and relevance scores are exact reals, not IEEE doubles.
  Rounding is not modelled. For example, a draw of 1 − 2⁻⁵³ makes
  `Math.random() * 0.5 + 0.5` round to exactly 1.0 in JavaScript, while the
  model's score stays below 1.
- Unicode `toLowerCase` is left out because case mapping is outside the model's
  scope. `lower` is an arbitrary function.
- The `embedding` field of a document is left out because no code sets it.
- Step `error` status, workflow failure, cancellation and agent-busy behaviour
  are left out because no code assigns them. The agents are a constant list,
  since the component has no setter for them.
- `Assistant.PersonalAssistant.ExecuteTask` proves the pending-count decrease
  only when task ids are distinct. `Date.now()` ids can collide, and with a
  repeated id the code updates every matching task.
- `Assistant.RunCompletes` states the per-step outcome only for workflows whose
  step ids are distinct, as in the initial data. With a repeated step id the code
  updates every step with that id, and the model computes exactly that.
