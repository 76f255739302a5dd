# Nomad reconciler, evaluation monitor and evaluations pagination: a Dafny model

This project models three independent pieces of sequential logic from the
Nomad workload orchestrator and proves properties of them.

1. **Allocation classification and bitmap sizing (scheduler).**
   `filterByTaintedAndUnknown` splits an allocation set (a map from allocation
   ID to allocation) into five buckets: untainted, migrate, lost, unknown and
   reconnectable. It looks at whether the allocation is terminal, at its
   `DesiredTransition.Migrate` flag, at its client status and at the status of
   its node. `bitmapFrom` sizes the byte-aligned bitmap of allocation indices
   of a task group; the indices are read from names of the form `job.group[N]`.
   The implementation of both is not part of this model; their behaviour is
   taken from the table tests `TestAllocSet_filterByTainted` and
   `TestBitmapFrom` and from the comments on the test's cases; where the
   tests leave a case open, the model's choice is listed below.
2. **Evaluation monitor diff (command).** `monitor.update` compares the state
   recorded at the last poll with a new evaluation and allocation list, records
   the new state and prints change messages. It is modelled as a pure function
   `Update(prev, eval, allocs)` returning the next state and the messages.
3. **Evaluations list pagination (UI).** The token stack of the evaluations
   controller: `onNext`, `onPrev`, `setStatus`, `refresh`, `onChange`,
   `_resetTokens` and the two "disable" getters.

Modules: `Wrappers` (Option/Result), `Structs` (allocation and node records,
allocation names), `Reconcile` (the classifier), `Bitmaps` (bitmap sizing),
`Monitor` (the diff) and `EvaluationsController` (pagination).

Modelling choices:
- The classifier's order of checks is a modelling choice that follows the
  comments on the test's cases (scheduler/reconcile_util_test.go:84, 91, 98:
  terminal allocations are untainted on any node; :62, 70: a live allocation
  with migrate set migrates, even when its node is nil; :105, 112: live
  allocations on lost nodes are lost; :119, 126, 133: live allocations on
  disconnected nodes are unknown; :140, 147: unknown allocations on
  reconnected nodes are reconnectable). So: terminal, then migrate, then node
  down (lost), then node status unknown (unknown), then client status unknown
  on a ready node (reconnectable), else untainted.
- `Reconcile.ClassifyRules` states these rules for every client status, while
  the test fills each case with only some statuses. The generalisations are
  modelling choices: any live allocation other than a client-unknown one on a
  status-unknown node is unknown (the test has only `Running` ones); a
  client-unknown allocation on a down node is lost (the test has only
  `Pending` and `Running`); any live allocation other than a client-unknown
  one on a ready node is untainted (the test has only `Running`).
- The body also decides cases the test does not exercise at all; these are
  modelling choices, not facts about the code: a live, non-migrating
  allocation whose node entry is nil or missing is put in `lost`; one on a
  draining node whose status is unset falls through to `untainted`; a
  client-unknown allocation on a status-unknown node is `untainted`; a live
  allocation on a node whose status is `initializing` is `untainted`.
- `Failed` counts as terminal like `Complete` (the test's terminal cases at
  scheduler/reconcile_util_test.go:84-104 are all `Complete`), so the terminal
  clause of `Reconcile.ClassifyRules` puts every `Failed` allocation in
  `untainted` on any node, migrating or not. This is a modelling choice.
- The test's comments (scheduler/reconcile_util_test.go:119, 126, 133) call a
  node with status `NodeStatusUnknown` disconnected. The model follows the
  code's name (`NodeUnknown`).
- Bitmap size: the smallest positive multiple of 8 that is at least the
  requested minimum and strictly greater than every index; the tests fix only
  the value 16 for `foo.bar[8]` (scheduler/reconcile_util_test.go:24-33). An
  empty group with minimum 0 therefore gets 8 bits, a choice. An allocation
  whose name has no readable index makes the sizing fail with the IDs of all
  such allocations, instead of being read as index 0; this failure is the
  model's addition, since the test binds a single bitmap result and reads its
  size (scheduler/reconcile_util_test.go:24, 30).
- Monitor messages: Go map iteration order is unspecified, so the
  per-allocation messages are a map from allocation ID to message (at most one
  each); the three evaluation messages keep their printing order. A `wait` is a
  duration in nanoseconds, modelled as an integer.
- Pagination: JavaScript `null` and `undefined` are both `None`. `onPrev` on an
  empty stack pops `undefined`, so the model sets the token to `None` and keeps
  the stack empty.

## Model

| member | source | states |
|---|---|---|
| Structs.NameIndexOfAllocName | scheduler/reconcile_util_test.go:17-22 | the index read back from a generated name `job.group[N]` is N |
| Structs.NameIndexSound | scheduler/reconcile_util_test.go:17-22 | any name the index reader accepts is `job.group[digits]` and the index is the value of the digits |
| Structs.ParseDecimalOfDecimal | scheduler/reconcile_util_test.go:21 | reading a decimal numeral back gives the number it was written from |
| Reconcile.ClassifyRules | scheduler/reconcile_util_test.go:61-153 | terminal allocations are untainted on any node; a live migrating allocation migrates even when its node is nil; a live one on a down node is lost; a live non-unknown one on a status-unknown node is unknown; on a ready node, client status unknown means reconnectable and anything else untainted |
| Reconcile.ScenarioClassify | scheduler/reconcile_util_test.go:61-153 | each of the thirteen table-test allocations classifies into the bucket its test comment names |
| Reconcile.FilterByTaintedAndUnknown | scheduler/reconcile_util_test.go:156-174 | the five outputs are sub-maps of the input, pairwise disjoint, together cover it, and each allocation lies in the bucket it classifies into |
| Reconcile.FilterMembership | scheduler/reconcile_util_test.go:156-174 | an allocation is in an output bucket if and only if it is in the input and classifies into that bucket |
| Reconcile.PartitionSizes | scheduler/reconcile_util_test.go:156-174 | the five bucket sizes add up to the input size |
| Reconcile.FilterByTaintedScenario | scheduler/reconcile_util_test.go:36-174 | the table test's buckets hold exactly the named allocations, with sizes 4, 2, 2, 3 and 2 |
| Bitmaps.RoundUp8 | scheduler/reconcile_util_test.go:12-14 | rounding to a byte boundary never lowers the size and overshoots by less than 8 |
| Bitmaps.SizeForIsBitmapSize | scheduler/reconcile_util_test.go:12-15 | rounding up the larger of the minimum and one past the highest index gives the smallest byte-aligned size that covers every index |
| Bitmaps.BitmapSizeUnique | scheduler/reconcile_util_test.go:12-15 | the smallest covering size is unique |
| Bitmaps.BitmapSizeMonotonic | scheduler/reconcile_util_test.go:12-15 | more indices or a larger minimum never yield a smaller size |
| Bitmaps.BitmapFrom | scheduler/reconcile_util_test.go:12-33 | fails exactly when some name is malformed, reporting all such IDs (a failure the model adds, see "Left out"); otherwise returns the smallest positive multiple of 8 above every index and at least the minimum |
| Bitmaps.BitmapFromScenario | scheduler/reconcile_util_test.go:16-33 | for one allocation `foo.bar[8]` the size is 16 with minimum 1 and still 16 with minimum 8 |
| Bitmaps.BitmapFromScenarioRun | scheduler/reconcile_util_test.go:24-33 | sizing the one-allocation set `foo.bar[8]` succeeds with 16 bits both for minimum 1 and for minimum 8 |
| Monitor.SnapshotLastWins | command/monitor.go:80-88 | the recorded allocations are keyed by exactly the polled IDs, each holding the state of the last stub polled with that ID |
| Monitor.AllocEvents | command/monitor.go:91-110 | a new allocation always gets a message, a scheduling failure when its desired status is `failed` and a creation otherwise; a known one gets a status-change message if and only if its client status changed; allocations not in the poll get none |
| Monitor.EvalEvents | command/monitor.go:112-128 | the evaluation status message appears iff the status changed, the wait message iff the wait went from zero to non-zero, the node message iff the node ID went from empty to non-empty; nothing else appears, each at most once, status before wait before node |
| Monitor.Update | command/monitor.go:67-128 | the recorded state becomes exactly the new evaluation and allocation snapshot; allocations missing from the poll are dropped without a message; new allocations are announced, known ones reported iff their client status changed; the evaluation messages are exactly the changes that happened, each once, status before wait before node |
| Monitor.UpdateQuietIff | command/monitor.go:64-128 | an update prints nothing if and only if every polled allocation is known with the same client status, the status is the same, and neither the first wait nor the first node assignment happened |
| Monitor.UpdateIdempotent | command/monitor.go:64-66 | repeating an update with the same evaluation and allocations prints nothing |
| Monitor.FirstUpdateAnnouncesAll | command/monitor.go:29-39 | the first update of a new monitor announces every polled allocation, each as created or as a scheduling failure |
| EvaluationsController.Init | ui/app/controllers/evaluations/index.js:64-67 | a fresh controller shows the first page, unfiltered, with the user's page size |
| EvaluationsController.OnChange | ui/app/controllers/evaluations/index.js:70-73 | the page size becomes the new value; tokens and status are untouched |
| EvaluationsController.OnNext | ui/app/controllers/evaluations/index.js:75-79 | the previously shown token is pushed on top of the unchanged stack and the new token is shown; page size and status are untouched |
| EvaluationsController.OnPrev | ui/app/controllers/evaluations/index.js:81-86 | the top of the stack is popped and becomes the shown token; on an empty stack the stack stays empty and the token becomes absent; page size and status are untouched |
| EvaluationsController.ResetTokens | ui/app/controllers/evaluations/index.js:101-104 | afterwards there is no token and "previous" is disabled, with page size and status kept |
| EvaluationsController.Refresh | ui/app/controllers/evaluations/index.js:88-93 | refreshing yields the fresh controller for the user's page size |
| EvaluationsController.SetStatus | ui/app/controllers/evaluations/index.js:95-99 | the result is the fresh controller with the current page size and the selected status |
| EvaluationsController.NextThenPrev | ui/app/controllers/evaluations/index.js:75-86 | going forward then back restores token, stack, status and page size |
| EvaluationsController.ForwardAll | ui/app/controllers/evaluations/index.js:75-79 | n steps forward grow the stack by n and leave page size and status alone |
| EvaluationsController.ForwardThenBack | ui/app/controllers/evaluations/index.js:75-86 | any number of steps forward followed by as many steps back restores the controller |
| EvaluationsController.DisablePrevIffFirstPage | ui/app/controllers/evaluations/index.js:49-51 | from the first page, "previous" is disabled after n steps forward iff n is zero |
| EvaluationsController.FollowEnabledNext | ui/app/controllers/evaluations/index.js:45-51 | when "next" is enabled, following it shows a non-empty token and enables "previous" |
| EvaluationsController.PageSizeCommutes | ui/app/controllers/evaluations/index.js:70-86 | changing the page size commutes with both navigation steps and does not affect "previous" |
| EvaluationsController.SetStatusForgetsHistory | ui/app/controllers/evaluations/index.js:95-104 | after a filter change the result depends only on the page size and the selection, and "previous" is disabled |

## Left out

- scheduler/reconcile_util.go is not part of this model. The classifier is specified from its table test and the comments on the test's cases. For the sizing, the table test fixes only the size 16 for `foo.bar[8]`; the general rule is the least byte-aligned size covering every index and the minimum, and the failure result and the floor of 8 bits are choices of the model.
- Bitmaps.BitmapFrom: the source returns a bitmap for every input (scheduler/reconcile_util_test.go:24, 30 bind one result and call `.Size()` on it); the `Failure` on malformed names is the model's addition, and the 8-bit size for an empty group with minimum 0 is a choice.
- Reconcile.ClassifyRules: does not constrain the untested cases (nil or missing node for a live non-migrating allocation, a draining node with unset status, a client-unknown allocation on a status-unknown node, a live allocation on an initializing node); the body decides them as stated above. Its terminal clause covers `Failed` allocations by choice, as stated above; the test's terminal allocations are all `Complete`. Its clauses for a status-unknown node, a down node and a ready node cover client statuses the test does not use, as stated above.
- Bitmap contents, the lowest-free-index search and its exhaustion signal: the tests only assert the size.
- The job type and the allocation's other fields (`Job`, desired status in the classifier): every case of the test uses the same batch job (scheduler/reconcile_util_test.go:57-59) and none sets a desired status, so the tests do not vary them, and the model does not read them.
- The monitor's polling loop (`monitor.monitor`): API calls, `time.Sleep`, following `NextEval` and exit codes are network I/O.
- Message text and timestamp formatting in `output`, and the mutex around the recorded state.
- The statechart wiring, `store.findRecord`, the sidebar and modal actions, `event.stopPropagation`, the query-parameter list and the static status option list of the evaluations controller: framework glue with no logic.
- The volume adapter's query-parameter mapping: a static table with no logic.
