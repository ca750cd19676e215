# micro-graph in Dafny

A model of the execution engine of micro-graph, a minimal Python library for
graphs of asynchronous "nodes". A node runs one work method under a bounded
retry budget. The method returns one of three result shapes, which the engine
normalises into an (action label, payload) pair. If the node's routing table
has a successor under that label, the payload becomes the successor's keyword
arguments. Otherwise the chain ends and the payload is returned. A parallel
node fans one call out into independently retried tasks and gathers their
results in order. The model also covers the output writer, a small state
machine that wraps text in `<think>` and `<details>` markup, and the text
selector of a chat message.

Modules:

- `Shapes` (shapes.dfy): payload values, the three result shapes and their normalisation.
- `Retry` (retry.dfy): the bounded-retry executor. `Retried` is the specification function. `RunWithRetries` is the loop, proved equal to it. The lemmas state what the loop promises.
- `Parallel` (parallel.dfy): `ParalellNode.run` as prep, an ordered pass over the retried tasks, then post.
- `Graph` (graph.dfy): the `Node` class with its `Then` wiring method, and `Invoke`, the node call.
- `Example` (example.dfy): the self-loop that counts to five and then exits to a message node.
- `Output` (output_writer.dfy): the `OutputWriter` class over a trace of `write` calls.
- `ChatTypes` (chat_types.dfy): `ChatMessage.text()` and the defaults of `ChatCompletionRequest`.

How the model stands in for what it cannot see:

- Work methods (`run`, `prep`, `run_single`, `post`) are function values. Each takes the shared context, the call's arguments and an attempt index, and returns an outcome (a value or an exception) together with the shared context it leaves behind. The attempt index stands for the outside world (a network call, a model) that makes one attempt differ from the next. `run_single` receives both the parallel node's attempt and the task's attempt within it, so a retry of the whole node runs its tasks afresh. Threading the shared context means a failed attempt's writes are kept, as in the source.
- Python exceptions are `Exception(kind, message)` values and are returned, not thrown.
- A node call (`Node.__call__`) is the function `Graph.Invoke`. It reads a set of nodes closed under their routing tables and takes a `fuel` bound on the chain length, because self-loops are legal. `FuelMonotone` shows that the bound only cuts chains short and never changes how a finished chain ends.
- Routing a `None` payload to a successor evaluates `**None`, which raises `TypeError` (micro_graph/micro_graph.py:49, `Graph.RoutedNoneRaises`). Only a parallel node's task entries turn `None` into `{}` (micro_graph/micro_graph.py:79, `Parallel.KwArgs`).

## Model

| member | source | states |
|---|---|---|
| Shapes.Normalise | micro_graph/micro_graph.py:42-47 | a tuple gives its label and payload; a bare string gives that label with an empty payload; any other result, `None` included, is labelled "default" |
| Shapes.NormaliseIsCanonical | micro_graph/micro_graph.py:42-47 | every shape means the same as the explicit tuple it normalises to, and a tuple is left as it is |
| Retry.AttemptsFrom | micro_graph/micro_graph.py:12-16 | attempts k to n - 1 make at least one and at most n - k calls, and a failure is reported only after the last attempt |
| Retry.Retried | micro_graph/micro_graph.py:8-17 | a negative budget raises `ValueError` with no call and the shared context unchanged; otherwise there are between 1 and `max_retries + 1` calls, and a failure comes only after all of them |
| Retry.RunWithRetries | micro_graph/micro_graph.py:8-17 | the loop with its placeholder error, early return and re-raise computes exactly `Retried`: outcome, number of calls and final shared context |
| Retry.AttemptsFromSpec | micro_graph/micro_graph.py:12-16 | from attempt k on, the loop stops at the first success or at the last attempt; what it reports is exactly what that attempt did, every attempt before it failed, and the shared context is the one that attempt left |
| Retry.FirstSuccessReturned | micro_graph/micro_graph.py:12-14 | a success is the first success: its value is returned and every earlier attempt failed |
| Retry.ExhaustedRaisesLast | micro_graph/micro_graph.py:11-17 | when no attempt succeeds, there were exactly `max_retries + 1` calls, all failed, and the raised exception is the last attempt's own |
| Retry.SucceedsAfterFailures | micro_graph/micro_graph.py:12-14 | conversely, k failures and then a success within the budget give that success after exactly k + 1 calls |
| Retry.SideEffectsKept | micro_graph/micro_graph.py:12-16 | nothing is rolled back: the final shared context is the one left by the last attempt made |
| Retry.FlakyScenarios | micro_graph/micro_graph.py:8-17 | an operation failing twice raises its second failure with one retry, and returns its third-attempt success with two retries |
| Parallel.KwArgs | micro_graph/micro_graph.py:79 | a `None` task entry becomes empty keyword arguments; a dictionary is passed as it is |
| Parallel.Task | micro_graph/micro_graph.py:79 | one task under the per-batch budget: a negative budget raises `ValueError` without calling `run_single`, otherwise it is called between once and `budget + 1` times |
| Parallel.Gather | micro_graph/micro_graph.py:78-82 | a successful gather holds one result per task, and an empty batch gathers `[]` with the shared context unchanged |
| Parallel.RunBatch | micro_graph/micro_graph.py:76-83 | a failing `prep` is raised unchanged and nothing else runs; an empty task list goes straight to `post` with `[]`; a negative per-task budget fails a non-empty batch with `ValueError` |
| Parallel.GatherSpec | micro_graph/micro_graph.py:78-82 | the gathered list succeeds exactly when every retried task succeeds, and then holds task k's value at position k; otherwise the error is that of the first failing task in `prep` order |
| Parallel.PostSeesResultsInOrder | micro_graph/micro_graph.py:76-83 | when prep and all tasks succeed, `post` is called once, on the task results in `prep` order |
| Parallel.TaskFailureFailsBatch | micro_graph/micro_graph.py:78-82 | a task that fails after its own retries fails the whole call with the error of the first such task |
| Parallel.GatherNegativeBudget | micro_graph/micro_graph.py:79 | with a negative per-task budget every task raises `ValueError` and `run_single` is never called |
| Parallel.NegativeTaskBudget | micro_graph/micro_graph.py:77-83 | a negative per-task budget fails a non-empty batch with `ValueError`; an empty batch still reaches `post` with `[]` |
| Parallel.IndicesArriveInOrder | micro_graph/micro_graph.py:76-83 | three tasks that return their own index reach `post` as 0, 1, 2 in that order |
| Graph.Invoke | micro_graph/micro_graph.py:40-50 | with no bound left the call is cut short and touches nothing; a negative budget raises `ValueError` before the node runs; a node with no successors always finishes |
| Graph.OuterRetryRerunsTasks | micro_graph/micro_graph.py:76-83 | a retry of a parallel node runs its tasks again: a task that fails throughout the node's first attempt and succeeds on its second yields `post`'s result after two calls |
| Graph.Wire | micro_graph/micro_graph.py:35-38 | "default" maps to the given node, every keyword label to its node, every other label keeps its old successor, and no other label appears |
| Graph.Node.Then | micro_graph/micro_graph.py:35-38 | the routing table becomes `Wire` of the old one, and the `default` node is returned |
| Graph.Node.constructor | micro_graph/micro_graph.py:27-29 | a new node has the given budget (0 when omitted), its work method and an empty routing table |
| Graph.Node.ParalellNode | micro_graph/micro_graph.py:60-62 | a new parallel node has both budgets (0 when omitted), its hooks and an empty routing table |
| Graph.ExhaustedNodeRaisesLast | micro_graph/micro_graph.py:41 | a work method failing every attempt makes the call raise the last attempt's exception, and the shared context afterwards is the one the last attempt left: no successor runs and nothing is rolled back |
| Graph.RoutesToSuccessor | micro_graph/micro_graph.py:48-49 | a wired label makes the call's result the successor's result, called with the same shared context and the payload as arguments |
| Graph.UnwiredLabelReturnsPayload | micro_graph/micro_graph.py:48-50 | an unwired label ends the chain without error and returns the payload, `None` included |
| Graph.WiredDefaultRoutes | micro_graph/micro_graph.py:35-49 | after wiring a node under "default", a bare-payload result routes to it |
| Graph.RoutedNoneRaises | micro_graph/micro_graph.py:49 | routing a `None` payload raises `TypeError` |
| Graph.FuelMonotone | micro_graph/micro_graph.py:40-50 | a call that ends within some bound on the chain length ends identically under every larger bound |
| Graph.TerminalLabelStops | micro_graph/micro_graph.py:48-50 | a node that never emits a wired label ends the chain after one invocation, even with a self-loop under a label it never emits |
| Example.OutputMessage | example.py:10-11 | the message node's work always succeeds with `{"message": message}`, routed under "default", and leaves the shared context alone |
| Example.LoopRun | example.py:14-20 | `iter` defaults to 0; below 5 it routes `{"iter": iter + 1}` under "default", from 5 on it emits "exit"; it never touches the shared context, and fails only on a non-numeric `iter` |
| Example.LoopFromIter | example.py:13-20 | from `iter == k` the flow makes exactly `7 - k` node invocations and returns `{"message": "Hello World!"}`; any smaller bound is not enough |
| Example.LoopFromStart | example.py:13-28 | started with no arguments, the loop runs six times (five self-invocations), then calls the message node once and returns its payload |
| Example.HelloWorld | example.py:22-28 | building, wiring and running the example flow returns `{"message": "Hello World!"}` and leaves the shared context empty |
| Output.Render | micro_graph/output_writer.py:26-33 | text is printed as it is, and every marker is printed on a line of its own |
| Output.ChangeState | micro_graph/output_writer.py:24-38 | the new state is always the requested one; markup is written unless both state and topic are unchanged; a new state records the new topic; the same state with another topic writes `</details>` then the new topic's opener and keeps the old topic |
| Output.RenderedAppend | micro_graph/output_writer.py:18-22 | what a sequence of writes prints is what each write prints, in order |
| Output.ThoughtAfterDetailPrints | micro_graph/output_writer.py:6-31 | `thought(text)` straight after a detail block prints `</details>` then `<think>` on lines of their own, then the text and its line end |
| Output.OutputWriter.constructor | micro_graph/output_writer.py:2-4 | a fresh writer is in the default state with an empty topic and has written nothing |
| Output.OutputWriter.Write | micro_graph/output_writer.py:18-22 | a write appends one entry to the trace and changes nothing else |
| Output.OutputWriter.ChangeStateTo | micro_graph/output_writer.py:24-38 | the trace grows by exactly what `ChangeState` emits, the fields take its values, and the markup stays properly nested |
| Output.OutputWriter.Thought | micro_graph/output_writer.py:6-8 | the state change comes first, then exactly `text + end`; the writer ends in the thought state with an empty topic |
| Output.OutputWriter.Default | micro_graph/output_writer.py:10-12 | the state change comes first, then exactly `text + end`; the writer ends in the default state with an empty topic |
| Output.OutputWriter.Detail | micro_graph/output_writer.py:14-16 | the state change comes first, then exactly `text + end`; the writer ends in the detail state |
| Output.ChangeKeepsNesting | micro_graph/output_writer.py:24-38 | every state change keeps the output properly nested, leaving open exactly the new state's block |
| Output.TextKeepsNesting | micro_graph/output_writer.py:6-16 | written text never opens or closes a block |
| Output.SameSectionIsSilent | micro_graph/output_writer.py:25-36 | the current state with the current topic writes nothing and changes nothing |
| Output.LeavingClosesFirst | micro_graph/output_writer.py:25-35 | leaving a state writes exactly its closer followed by the new state's opener and nothing between: `</think>` or `</details>` first (none from default), the opener last (none for default); both fields take the new values |
| Output.StaleTopicReopens | micro_graph/output_writer.py:36-38 | a topic change inside a detail block leaves `_topic` stale, so repeating the new topic closes and reopens the block again, and returning to the old topic writes no markup at all |
| Output.ChangeStateFixed | micro_graph/output_writer.py:24-38 | the corrected transition always records the requested state and topic, and writes markup unless both are unchanged |
| Output.FixedChangeIsIdempotent | micro_graph/output_writer.py:24-38 | with the topic recorded, a state change leaves the writer in exactly the requested state and topic, a repeat writes nothing, and the markup written is unchanged |
| ChatTypes.FirstText | micro_graph/ai/types.py:34-37 | the text of the first element of type "text" whose text is not `None`, skipping others; "" when none qualifies |
| ChatTypes.ChatMessage.Text | micro_graph/ai/types.py:30-37 | string content is returned as it is; list content gives its first qualifying element's text, or "" |
| ChatTypes.EmptyTextEndsSearch | micro_graph/ai/types.py:20-36 | a "text" element whose text is left at its default "" still qualifies and ends the search with "" |
| ChatTypes.NewRequest | micro_graph/ai/types.py:40-44 | a request given only its model and messages has `max_tokens` -1 and `stream` false |

## Findings

| source | as written | input that shows it | evidently intended | confidence | as-written member | corrected member |
|---|---|---|---|---|---|---|
| micro_graph/output_writer.py:36-38 | a topic change inside a detail block closes and reopens the block but never sets `_topic` | `detail("A", x)`, `detail("B", y)`, `detail("B", z)`: the third call closes the "B" block and opens another "B" block; a `detail("A", w)` after the second call writes no markup, so its text lands in the "B" block | record the new topic in that branch, so that a repeat of the same topic writes no markup | medium, not executed | Output.StaleTopicReopens | Output.FixedChangeIsIdempotent |

`Output.ChangeStateFixed` is the corrected transition. It writes the same markup as the code and also records the topic. `Output.OutputWriter` keeps the behaviour as written, because that is what callers of this writer get.

## Left out

- Concurrency: `asyncio.gather` runs the tasks concurrently. The model runs them one after another in `prep` order, each seeing the shared context the previous one left. It keeps the ordering of results. It does not model interleaving, races on the shared context, or cancellation.
- Which task error surfaces: `asyncio.gather` raises the first exception in completion order. The model raises the first failing task in `prep` order, and still runs every task.
- Argument binding is not modelled. This covers payload keys that do not match a `run` method's parameters, and keys that clash with `self`, `shared`, `function` or `max_retries`. Those raise `TypeError` in Python.
- Result shapes are limited to the declared ones: a dictionary or `None`, a string, or a two-element tuple. A tuple of another length, or a value of another type, is not modelled.
- Graph.Invoke: each routing step nests another `await`, so the source ends a chain that never reaches an unwired label (an endless self-loop) with `RecursionError` at the interpreter's recursion limit. The model's `fuel` stands for that limit and reports `OutOfFuel`.
- Retry.RunWithRetries: only `Exception` subclasses are retried (`except Exception`). Errors outside that class, such as `asyncio.CancelledError`, `KeyboardInterrupt` or `SystemExit`, would propagate at once without a further attempt. The model has no such outcome: every failure is retried.
- Graph.Invoke: every work method is a function of the shared context, the arguments and the attempt index. A node reached twice in a chain with equal arguments and an equal shared context therefore repeats its outcome, so a self-loop that only waits for the outside world to change never ends in the model.
- Parallel.RunBatch: each task's outcome is a function of the shared context, its arguments, the node's attempt and the task's attempt. Nothing else distinguishes one run of a batch from another.
- Retry.RunWithRetries: the loop does not await anything. Suspension points and timing are not modelled.
- `TypeError` messages are approximations. Python's messages also name the callee.
- Output.OutputWriter.ChangeStateTo: requires an empty topic outside the detail state. That is what the three public methods pass. `_state` is one of the three states, not an arbitrary string.
- Output.OutputWriter.Write: printing is modelled as appending to the trace. Each trace entry is tagged as markup or text, and `Output.Rendered` gives the printed characters.
- Graph.Node.Then: requires that no keyword is named "default". Python rejects such a call before `then` runs.
- Example.LoopRun: an `iter` that is neither an int nor a bool raises `TypeError`. Floats are not modelled. The `print` of each iteration is left out.
- The HTTP server (micro_graph/ai/openai_server.py) is not part of this model. It is routing, streaming and framing around the engine.
- The agent wrapper and the agent examples (examples/ai_agent.py, examples/agents/) are not part of this model. They are prompts and calls to language-model modules that are not available.
- Pydantic parsing and validation of the chat records are not modelled. Neither are the records with no behaviour (`ToolInfo`, `EmbeddingRequest`).
