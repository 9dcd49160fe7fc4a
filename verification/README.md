# Models of the admin front end's generator runtime and of the account data layer

Two parts of this repository do work that is easy to get subtly wrong: the generator runtime
that the lowered Vite configuration carries with it, and the generated query and mutation
builders for accounts. This project models both in Dafny and proves what they promise.

## The generator runtime

- `TryFrames` is the language's own view of `try`/`catch`/`finally`: one stack of open
  statements, each in a known phase, and a log of what happened to each. It says which
  statement stops a completion, which finally blocks a completion crosses and in which order.
- `GeneratorSpec` states one call of `next`, `throw` or `return` on that single stack,
  including delegation (`yield*`), and says what a well-formed lowered body may do. A body is
  any function of the world that keeps to a lexical shape; nothing else is known of it.
- `GeneratorSafety` proves an invariant of every step, and with it safety of every run: any
  sequence of calls, any well-formed body, any delegates.
- `GeneratorMachine` is the runtime as it is written: a label, a stack of frames, a separate
  stack of saved completions, a delegate and flags, changed by one dispatch loop. Each call is
  proved to do what the single-stack specification does.
- `Delegation` states what ECMA-262 asks of `yield*` and proves exactly when the runtime does it.
- `TryFinally` is the smallest body with a finally block, shown well-formed and run to its end.
- `Awaiter` drives a generator the way the async helper does. `InjectSettings` holds the
  structured handler and its lowered form, and proves that they perform the same operations in
  the same order and settle the same way in every environment.

The number of times a caller observes the body run (`fuel`, `budget`) is an input and may be any
number; a body that runs on for ever simply gives `Unfinished` for each of them. Between two
runs of the body the dispatch loop needs no such number: its measure is proved to decrease.

## The account data layer

- `EagerLoading` and `ManyToMany` are the batched loaders, as loops over maps and heap nodes;
  `Groups` has the columns and objects of groups, and `JoinedRows` is how the rows of a
  many-to-many query arrive, with the account's key in front of the columns the group query
  compiled. `JoinLoading` is the variant whose rows have a composite key. `BatchOrder` compares
  what a batch hands out with what a query per account would return.
- `QueryAll` puts the loaders into one query and says what the edge accessors then answer.
- `Selection` compiles field selections to columns and proves that they cannot disturb loading.
- `AccountRows` writes an account to a row and reads it back. `RequiredColumns` relates the fields
  that may be nil to what a create requires.
- `QueryClone` clones trees of builders whose slices are updated in place.
- `QueryIds` compares the two ways a builder compiles to a query.
- `BulkSpec` and `BulkCreate` are the chain of mutators of a bulk create, once as a function and
  once as methods on shared arrays; each method is proved to do what the function does.
- `EdgeUpdates` relates the calls on an update builder, what the mutation records, the edge
  specs compiled from it, and what those do to the stored edges.

Lemmas carry `{:induction false}` wherever Dafny would try induction by itself, so each result rests
on the proof that is written.

Tables are sequences of rows; a SQL query is a filter, a join, an arrangement and a window of
them. A spec that clears edges is applied before one that adds edges, and a clear that names no
neighbour means all of them.

## Where the code does not do what one would expect

Each has the exact condition, for all inputs, and a concrete input.

- Loading a many-to-many edge in a batch keeps the order each account would see on its own for
  every assignment of rows to accounts if and only if the rows of each group are adjacent
  (`BatchOrder.OrderKeptIffContiguous`; rows of groups g, h, g in `BatchOrder.ReturningGroupMixes`).
  The groups themselves, each once, are always right.
- `Clear` on an update does not forget additions recorded before it. The result is that of the
  calls taken one by one plus exactly those additions (`EdgeUpdates.UpdateIsSequentialPlusStale`);
  the two agree if and only if none is left over (`EdgeUpdates.AddThenClearKeeps`). In the same way
  clearing the proxy edge leaves a proxy set before it pending
  (`EdgeUpdates.ProxyUpdateIsSequentialIff`, `EdgeUpdates.ClearProxyKeepsPending`); clearing the
  field does forget it.
- In a bulk create without errors a mutation is marked done if and only if every hook of its
  builder and of those before it calls what it wraps (`BulkSpec.DoneIff`). So marked done means that
  the batch ran if and only if a hook of the first builder calls nothing or every hook calls what it
  wraps (`BulkSpec.DoneMeansBatchRanIff`; a save of two builders in
  `BulkSpec.ShortCircuitMarksDone`). It means that the row was inserted if and only if, in the second
  case, the last batch also skipped no row on conflict (`BulkSpec.DoneMeansInsertedIff`; a skipped
  row in `BulkSpec.SkippedRowIsDone`). Hooks may call what they wrap more than once; the batch then
  runs as often as the product of the call counts.
- A clone loses its modifiers, at every level; it compiles to the same query if and only if there
  are none (`QueryClone.CloneSameIff`, `QueryClone.CloneLosesModifier`).
- `IDs` and `All` differ in two cases (`QueryIds.IdsAgreeIff`). A limit of zero means no rows to
  `IDs` and no limit to `All` (`QueryIds.ZeroLimitDiffers`). An offset without a limit makes `IDs`
  stop after `MaxInt32` rows; an offset of zero does so too, where `All` has no bound
  (`QueryIds.LongTableDiffers`).
- For a delegate whose `next` is still the one found when delegation began, and each of whose
  methods is a function, undefined or null, `yield*` does what ECMA-262 asks for if and only if the
  delegate has `next` when it is resumed and, unless closing it throws, `throw` when an error is
  thrown into it (`Delegation.RegularDelegatesIff`; a delegate without methods in
  `Delegation.NoMethodsDiffer`). Otherwise the runtime drops the delegate and the value, or the
  caller's own error, goes on to the body, where the language asks for a TypeError.
- For any delegate the exact condition is `Delegation.DelegatesAsAskedIff`. The runtime looks `next`
  up at each resumption, where the language keeps the first (`Delegation.ReplacedNextDiffers`), and
  takes a falsy method such as 0 for none, where the language rejects what is neither callable nor
  undefined or null (`Delegation.ZeroReturnDiffers`). A falsy operand is no delegate at all
  (`Delegation.FalsyOperandIsNoDelegate`).
- Of several nodes with one ID in a batch only the last gets list edges (`EagerLoading.LoadChildren`,
  `ManyToMany.LoadGroups`; two such nodes in `EagerLoading.ShadowedGetsNone`). The loaders' contracts cover repeated IDs; the usual statement for
  distinct IDs is the special case in which every node is the last with its ID.

## Model

| member | source | states |
|---|---|---|
| TryFrames.CompletionsLandInnermostFirst | frontend/vite.config.js:24-31 | An abrupt completion crosses exactly the frames above the innermost one that stops it, runs the finally of each crossed frame that owes one, once and innermost first, and only then takes effect: at the break's label, in the catch block, or outside the body |
| TryFrames.JourneyGoesOn | frontend/vite.config.js:23-30 | That route is the one of actual runs: when a run comes to the end of a finally block on it, whatever frames the block opened and left, the rest of the route lies ahead, with the same landing |
| TryFrames.FinallyEndsWhereItBegan | frontend/vite.config.js:23-30 | In any legal run, when a finally block ends the open frames are just those that were open when it was entered, and the completion that goes on is the one saved then |
| TryFrames.EveryFinallyRunsOnce | frontend/vite.config.js:23-31 | In any legal run a frame that is gone was left exactly once and entered its finally, if it has one, exactly once; a frame that is still open entered it at most once and then sits in it |
| TryFrames.UnwindExplained | frontend/vite.config.js:24-31 | Unwinding only produces events the language allows on one stack: a frame is never left with its finally outstanding, nor by a completion it should have stopped |
| GeneratorSpec.DoneForever | frontend/vite.config.js:15-34 | Completion is absorbing over any sequence of calls: the body is never reached again; each next gives undefined and done, each return(v) gives v and done, and each throw(e) throws e |
| GeneratorSpec.AbruptStartNeverRuns | frontend/vite.config.js:15-34 | A generator whose first call is throw or return never runs its body, in that call or any later one, and answers them all as a finished generator does: undefined, the value returned, the error thrown |
| GeneratorSpec.ReentryChangesNothing | frontend/vite.config.js:14 | Any calls made while the body runs all fail with the error that the generator is already executing, and change nothing |
| GeneratorSpec.DelegateAnswers | frontend/vite.config.js:16-18 | While the body is suspended on a delegate, the caller gets the very value of a delegate that goes on; one that throws has its error thrown in the body; the value of one that is done is what the body goes on with or, after a return, returns; and if the method is missing the call is made on the body, after a delegate without throw was closed |
| GeneratorSpec.BodyAnswers | frontend/vite.config.js:11-32 | Without a delegate a suspended body goes on at its label with the value of next or the error of throw, and what it yields is what the caller gets, one label further on |
| GeneratorSpec.ReturnOnSuspended | frontend/vite.config.js:24-34 | return(v) on a suspended generator completes with v without running the body exactly if no open frame owes a finally; otherwise the body is run from the finally of the innermost one that does, with the return saved there and the frames above it gone |
| GeneratorSafety.UnwindLands | frontend/vite.config.js:24-31 | Unwinding brings a completion that may travel to a label whose surrounding try statements are exactly the frames still open, each in the phase its region says |
| GeneratorSafety.BodyKeeps | frontend/vite.config.js:32 | A run of a well-formed body, whatever frames it opens and wherever it stops, leaves a state in which the instruction it returns can be carried out |
| GeneratorSafety.RunIsSafe | frontend/vite.config.js:14-34 | The invariant is kept by every operation code and every delegate; end-finally never meets an empty stack of completions; a call yields exactly if the generator is then suspended |
| GeneratorSafety.EveryRunIsSafe | frontend/vite.config.js:10-36 | Every sequence of calls on every well-formed body: end-finally always finds its own saved completion, every event obeys the rules of try statements, and a finished run has left every frame it entered once, with its finally run exactly once |
| GeneratorSafety.EveryFinallyEndsWhereItBegan | frontend/vite.config.js:23-30 | The same for every sequence of calls on every well-formed body |
| GeneratorMachine.Generator.constructor | frontend/vite.config.js:11 | A new generator is the initial state of the specification |
| GeneratorMachine.Generator.Transfer | frontend/vite.config.js:23-31 | The default branch, which sees only the label and two stacks, does one step of unwinding the single stack of phases, and pops a frame whenever it does not settle the completion |
| GeneratorMachine.Generator.Switch | frontend/vite.config.js:20-31 | One switch on the operation is one step of the specification, and each turn that does not reach the body or the caller lowers the measure of open frames and delegation state |
| GeneratorMachine.Generator.Forward | frontend/vite.config.js:17-18 | Forwarding to the delegate either answers the caller or drops the delegate and goes on with the operation its answer stands for |
| GeneratorMachine.Generator.Loop | frontend/vite.config.js:16-34 | The dispatch loop computes the specification's run and makes finitely many turns between two runs of the body |
| GeneratorMachine.Generator.Step | frontend/vite.config.js:14-35 | Each call of next, throw or return gives the answer and the state of the specification, and keeps the saved completions equal, in order, to those of the frames inside their finally; a finished generator, or a new one whose first call is not next, gives undefined to next, v to return(v) and throws e on throw(e) |
| GeneratorMachine.PhaseAtLabel | frontend/vite.config.js:26-28 | Comparing the label with the catch and finally labels of the top frame tells exactly which phase that frame is in |
| GeneratorMachine.StacksPushed | frontend/vite.config.js:32 | Frames pushed by the body extend the frame stack and leave the saved completions alone |
| Delegation.DelegatesAsAskedIff | frontend/vite.config.js:17-18 | For every world, delegate and resumption, forwarding does what ECMA-262 asks for if and only if: next answers as the one found first would, or is gone when that would be done with the value sent; throw is found, or closing throws; and no method is falsy without being undefined or null, unless closing throws just the TypeError |
| Delegation.RegularDelegatesIff | frontend/vite.config.js:17-18 | If next is the one found first and each method is a function, undefined or null, forwarding does what ECMA-262 asks for if and only if the delegate has next when it is resumed and, unless closing it throws, throw when an error is thrown into it |
| Delegation.ReplacedNextDiffers | frontend/vite.config.js:17 | With a delegate whose next replaces itself, the second resumption calls the new one where the language calls the first again |
| Delegation.ErrorGoesOnIff | frontend/vite.config.js:17-18 | An error thrown into a delegate goes on to the body as it is if and only if the delegate has no throw and its closing throws nothing |
| Delegation.ValueGoesOnIff | frontend/vite.config.js:17-18 | A value sent to a delegate goes on to the body if and only if the delegate has no next, or is done with that very value as its result |
| Delegation.NoMethodsDiffer | frontend/vite.config.js:17-18 | With a delegate that has no method, a value and an error both go on to the body where the language asks for a TypeError |
| Delegation.ZeroReturnDiffers | frontend/vite.config.js:17-18 | With a delegate whose return is 0, a return goes on to the body where the language asks for a TypeError |
| Delegation.FalsyOperandIsNoDelegate | frontend/vite.config.js:17-23 | A falsy operand of yield* makes the body go on with undefined and calls no delegate; a truthy one is resumed next |
| TryFinally.CountingIsWellFormed | frontend/vite.config.js:23-32 | A lowered try/finally is a well-formed body |
| TryFinally.FinallyRunsBeforeReturn | frontend/vite.config.js:23-34 | A return inside a try block takes effect after its finally block ran, once |
| Awaiter.Execute | frontend/vite.config.js:1-9 | Driving a generator awaits each value it yields, hands the result or error back by next or throw, and settles as the generator completes |
| InjectSettings.LoweredIsWellFormed | frontend/vite.config.js:51-80 | The lowered handler is a well-formed body, in every environment |
| InjectSettings.LoweredAgreesWithStructured | frontend/vite.config.js:51-80 | For every environment the lowered handler under generator and awaiter performs the operations of the structured one in the same order and settles the same way |
| InjectSettings.Handle | frontend/vite.config.ts:16-32 | The handler as it runs, on the generator object, gives the history and the settled promise of the structured async function, whose promises are the three rows below |
| InjectSettings.HandlerKeepsPromise | frontend/vite.config.ts:16-32 | In every environment the handler performs the eleven planned operations one after the other, each on the answers of those before it; if all give a value it settles with the page the replacement gave; if the response is not ok, the code not 0 or the data falsy it settles with the page as it was; and if an operation fails it reads the message, gives one warning and settles with the page as it was, unless one of these fails, which rejects it |
| InjectSettings.EveryReplaceInjects | frontend/vite.config.js:70-71 | The page is replaced only right after the settings were turned into text, and what goes in place of the end of the head is the script with that text, followed by the end of the head |
| InjectSettings.SettlesByFailures | frontend/vite.config.ts:17-31 | The promise never stays open: without a failing operation there is no warning and it settles with the replaced page or, if there was no replacement, the page as it was; with one there is one warning and the page as it was; it is rejected exactly if a second one fails, with that error |
| EagerLoading.LoadChildren | backend/ent/authidentity_query.go:559-591 | Each child goes to the last node with its foreign key, in query order, and to no other; the load fails exactly at the first child whose key is nil or outside the batch |
| EagerLoading.QueryAndLoadChildren | backend/ent/account_query.go:635-664 | After the batch query each node holds just what a query for it alone would find, in the same order, even when IDs repeat up to the last such node |
| EagerLoading.ShadowedGetsNone | backend/ent/account_query.go:638-643 | Of two nodes with one ID the first gets no child and the second all |
| EagerLoading.ChildrenConserved | backend/ent/account_query.go:655-662 | The lengths of all child lists add up to the number of children returned |
| EagerLoading.KeysDecideShares | backend/ent/account_query.go:655-662 | Children that agree on their own and their parent's keys are handed out alike, and the load fails at the same child |
| EagerLoading.BatchOwns | backend/ent/account_query.go:648-651 | The WHERE IN query returns only children with a parent in the batch, and of each parent's children all, in table order |
| EagerLoading.CollectKeys | backend/ent/account_query.go:604-615 | The queried keys are the non-nil keys of the nodes, each once, in order of first use, and each key is mapped to all nodes that have it |
| EagerLoading.AssignProxies | backend/ent/account_query.go:624-632 | Every node, repeated ones too, gets the neighbour its key looks up; the first neighbour nobody points to is an error |
| EagerLoading.LoadProxy | backend/ent/account_query.go:603-634 | The query is duplicate free and for exactly the non-nil keys, and every node ends with what looking its key up in the table gives, or with none |
| EagerLoading.LookupFinds | backend/ent/account_query.go:624-632 | A lookup gives a row with the key, and gives none only if the table has none |
| ManyToMany.Scan | backend/ent/account_query.go:576-585 | Scanning the returned values, the account's key first and the group's second, builds one object per distinct group, in the order of first rows, from the columns that follow, and records for each group exactly the accounts paired with it, however often a pair repeats |
| ManyToMany.GiveTo | backend/ent/account_query.go:597-599 | Handing a group to its accounts has one outcome whatever order the map is ranged over |
| ManyToMany.Distribute | backend/ent/account_query.go:592-601 | Each account gets exactly its own groups in load order; the first group the scan did not see is an error |
| ManyToMany.LoadGroups | backend/ent/account_query.go:542-602 | Each account of the batch ends with exactly the shared group objects it is paired with in the joined table; each object holds, of the group in the first row of the batch that mentions it, the key and just the selected fields, each with its own value |
| ManyToMany.LoadedGroupsShow | backend/ent/account_query.go:576-586 | Every loaded group has the key and just the selected non-NULL fields, each with its own value, of the group in the first row of the batch that mentions it |
| JoinedRows.CompileGroupColumns | backend/ent/group_query.go:1051-1059 | The column loop of a group query computes the compiled selection, which has the ID first |
| JoinedRows.GroupKeyIsSecond | backend/ent/account_query.go:565-586 | For every selection of group fields, the value the loader takes by position is the group's key, and the group assigned from the values has that key |
| JoinedRows.ReadGroupKey | backend/ent/group.go:217-228 | A group assigned from its values has its key if and only if the key is among the columns |
| JoinedRows.ReadGroupField | backend/ent/group.go:217-454 | Each column that was read and holds a value ends up in its own field of the group, and no other field is set |
| JoinedRows.SeenShows | backend/ent/group_query.go:1051-1059 | With a selection a group shows its key and the selected fields; without one, all fields of the table |
| ManyToMany.FirstGroupsMentioned | backend/ent/account_query.go:579-582 | The loaded groups are those that some row mentions, each once |
| BatchOrder.SameGroups | backend/ent/account_query.go:542-602 | Loaded in a batch or alone, an account gets the groups it is paired with, each exactly once |
| BatchOrder.ContiguousKeepsOrder | backend/ent/account_query.go:553-561 | If the rows of each group are adjacent, every account's list in a batch equals the one of its own query |
| BatchOrder.OrderKeptIffContiguous | backend/ent/account_query.go:576-601 | The batch keeps every account's own order under all assignments of rows to accounts if and only if the rows of each group are adjacent |
| BatchOrder.ReturningGroupMixes | backend/ent/account_query.go:576-601 | With rows of groups g, h, g an account gets g, h from its batch and h, g from its own query |
| BatchOrder.BatchEqualsOwnQuery | backend/ent/account_query.go:542-602 | What an account of a batch holds has the same groups as a query per account, each once, and is the same list when the batch keeps groups together |
| BatchOrder.GroupsIgnoreSelection | backend/ent/account_query.go:557-586 | Whatever fields are selected on the query for groups, an account ends up with the same groups, by key, in the same order |
| QueryAll.SqlAll | backend/ent/account_query.go:480-540 | A query gives one node per row in row order, and each edge accessor of each node answers as the table rows say |
| QueryAll.AnswersMean | backend/ent/account.go:99-135 | Not loaded exactly if the edge was not asked for; a unique edge asked for is not found exactly if no row has its key; a list edge asked for is never absent; of nodes with one ID the last holds just the groups paired with it, each once and with the selected fields, and just the children that point to it, each row once and in table order, and the others an empty list |
| Selection.CompileColumns | backend/ent/account_query.go:716-727 | The column loop computes the compiled selection |
| Selection.CompiledColumns | backend/ent/account_query.go:716-727 | A selection compiles to columns with the ID first and only once, the selected fields, the key of a requested proxy edge, and nothing else |
| Selection.SelectionKeepsKeys | backend/ent/account_query.go:716-727 | Whatever is selected, scanning succeeds and the entity has the keys that loading reads, as with all columns |
| Selection.ChildrenKeepParentKey | backend/ent/proxy_query.go:421-432 | Accounts loaded as children keep the key of their parent under any selection, because the loader adds it |
| Selection.EdgesIgnoreSelection | backend/ent/account_query.go:480-540 | Every edge accessor of every node answers as it would without a field selection on the account query |
| Selection.ChildrenIgnoreSelection | backend/ent/proxy_query.go:411-443 | Whatever fields are selected on the query for the children, each parent gets the same children in the same order, and the load fails at the same child if it fails |
| JoinLoading.CompileColumns | backend/ent/accountgroup_query.go:456-467 | With a composite key the selected fields come first, then the keys of the edges asked for, each only if it was missing |
| JoinLoading.AccountGroup.AssignValues | backend/ent/accountgroup.go:85-120 | The two keys are read exactly if their columns are selected, and are zero otherwise |
| JoinLoading.LoadEdge | backend/ent/accountgroup_query.go:379-436 | The query is duplicate free and for exactly the keys of the nodes; every node ends with what looking its key up gives, and its other edge is left alone |
| JoinLoading.SqlAll | backend/ent/accountgroup_query.go:334-377 | One node per row, with the keys that are selected or needed; whatever fields are selected, both accessors of every node answer by the keys stored in the table |
| JoinLoading.AnswerMeans | backend/ent/accountgroup.go:45-65 | An accessor says not loaded exactly if the edge was not asked for, not found exactly if it was and no row has the key, and otherwise gives a row of the table that has it |
| AccountRows.ScanValues | backend/ent/account.go:138-159 | There is one destination per column, of the type the scan table lists for it |
| AccountRows.KindsAgree | backend/ent/account.go:138-367 | The table of scan types, kept type by type, agrees for every column with the types assigning expects, kept field by field |
| AccountRows.Entity.AssignValues | backend/ent/account.go:163-367 | Too few values are a mismatch and change nothing; otherwise all columns are assigned in order, or the first failure is reported with the fields before it assigned |
| AccountRows.AssignFailsIff | backend/ent/account.go:163-367 | Whatever the entity holds, assigning fails if and only if some column was scanned into the wrong type or holds text that is not JSON, at the first such column, with the error that says which of the two it was |
| AccountRows.JsonMerges | backend/ent/account.go:219-234 | A JSON column is decoded into the object that is there: the members of the row win and the others stay |
| AccountRows.AssignReads | backend/ent/account.go:138-367 | Reading any columns of a readable row into any entity, in any order and with repetitions, never fails and assigns to exactly the fields of the selected columns; a JSON object is merged into the one that is there |
| AccountRows.FreshReads | backend/ent/account.go:138-367 | Into a fresh entity, each field gets the value of its column if that is selected and not NULL, and stays zero otherwise |
| AccountRows.BuildCreate | backend/ent/account_create.go:594-762 | The returned node has the mutation's value in every field it set and the zero value elsewhere; the insert sets just those columns, with the proxy as an edge, pairs the account with just the given groups, and makes just the given usage logs point to it |
| AccountRows.CreateReadsBack | backend/ent/account_create.go:594-762 | Writing a create and reading it back over any column order that covers the entity gives the node the create returned, with its generated key |
| RequiredColumns.NullableIff | backend/ent/account.go:18-79 | A field of the entity may be nil if and only if it is neither the ID nor required by the create check |
| QueryClone.Query.Clone | backend/ent/account_query.go:342-360 | Cloning ends on every tree of nested With-queries, shares no object with the original, and gives the same tree without modifiers |
| QueryClone.Query.CloneEdges | backend/ent/accountgroup_query.go:230-231 | Every nested query is cloned in its place, and the clones share nothing with each other |
| QueryClone.CloneSameIff | backend/ent/account_query.go:342-360 | A clone compiles to the same tree if and only if no query in it has a modifier |
| QueryClone.CloneLosesModifier | backend/ent/account_query.go:342-360 | The clone of a query with one modifier compiles to a different query |
| QueryClone.Apply | backend/ent/account_query.go:41-70 | A call anywhere in a tree changes it in place as the call means on the compiled tree, which the rows on settings and edges below spell out for any list of calls |
| QueryClone.CloneAndEdit | backend/ent/account_query.go:342-360 | Any interleaving of later calls on a query and its clone, at any depth, leaves each as if the other had not been touched; what its own calls then come to is in the rows below |
| QueryClone.SettingsAfter | backend/ent/account_query.go:41-70 | After any calls each list of a builder (predicates, order, fields, interceptors, modifiers) is the old one followed by what the calls of its kind pass, in order; limit, offset and unique are those of the last such call, or as they were; calls on edges and inside them make no difference |
| QueryClone.EdgeKeepsItsCalls | backend/ent/account_query.go:362-371 | While an edge is not asked for again, its query has seen just the calls made inside it, in order, whatever else was called |
| QueryClone.AskingStartsAgain | backend/ent/account_query.go:362-371 | Asking for an edge starts an empty query for it, whatever was said about the edge before; what counts are the calls inside it after the last time |
| QueryClone.CloneForgetsModifiersOnly | backend/ent/account_query.go:342-360 | For every call but one that sets a modifier, at any depth, it makes no difference whether it is made before or after the clone; a modifier set before it is gone |
| QueryIds.SameRowsFound | backend/ent/account_query.go:708-784 | The two compiled forms cut their windows out of one list, the selected rows put in order, for every Unique setting, on tables and on paths |
| QueryIds.SelectedMeans | backend/ent/account_query.go:711-715 | On a path, unless the query says otherwise, and elsewhere if it says so, each row that satisfies the predicates is selected once and no ID comes twice; else all of them are, as often and in the order they come |
| QueryIds.WindowKeeps | backend/ent/account_query.go:735-740 | Offset and limit keep the rows from the offset on, in order, as many as there are up to the limit |
| QueryIds.DistinctRowsAreDistinctIds | backend/ent/account_query.go:280-289 | Removing repeated rows and removing repeated IDs keep the same rows when the ID is a key |
| QueryIds.IdsAgreeIff | backend/ent/account_query.go:261-289 | IDs and All give the same sequence of IDs if and only if a zero limit has nothing to limit, and an offset without a limit, unless All is bounded as well, leaves at most MaxInt32 rows |
| QueryIds.ZeroLimitDiffers | backend/ent/account_query.go:735-737 | With a limit of zero over one row, All returns it and IDs does not |
| QueryIds.LongTableDiffers | backend/ent/account_query.go:775-779 | With an offset of zero and no limit, IDs loses a row of a table longer than MaxInt32 by one |
| BulkSpec.RunIsWellNested | backend/ent/account_create.go:1856-1904 | Under pass-through hooks the run is a well-nested word: hooks entered in builder and list order, the batch once with all specs in builder order, hooks left in reverse |
| BulkSpec.RunIsMutate | backend/ent/account_create.go:1894-1897 | Running the mutators that wrapping from the last hook down made is running hook h around hook h + 1 and builder i around builder i + 1: the first hook is the outermost |
| BulkSpec.BatchCount | backend/ent/account_create.go:1870-1882 | Whatever hooks do with the mutator they wrap, the batch runs as often as the product of their call counts |
| BulkSpec.BatchRunsOnceIff | backend/ent/account_create.go:1856-1904 | The batch runs exactly once if and only if every hook calls what it wraps exactly once |
| BulkSpec.SaveSucceedsIff | backend/ent/account_create.go:1849-1906 | With any hooks, checks and database, a save succeeds if and only if no hook it gets to fails, no check it gets to fails, and every batch is accepted, of which there are then as many as the product of the call counts; it gets to a hook or a check exactly if all hooks before it call what they wrap; the error of a failing save is one of these |
| BulkSpec.DoneIff | backend/ent/account_create.go:1871-1891 | In a save without errors a mutation is marked done if and only if every hook of its builder and of those before it calls what it wraps |
| BulkSpec.DoneMeansBatchRanIff | backend/ent/account_create.go:1871-1891 | Marked done means that the batch ran, for all mutations of a save, if and only if a hook of the first builder calls nothing or every hook calls what it wraps |
| BulkSpec.DoneMeansInsertedIff | backend/ent/account_create.go:1877-1891 | Marked done means that the row was inserted, for all mutations of a save, if and only if a hook of the first builder calls nothing, or every hook calls what it wraps and the last batch skipped no row |
| BulkSpec.PassThroughInsertsIff | backend/ent/account_create.go:1877-1891 | Under pass-through hooks marked done means inserted if and only if the batch skipped no row |
| BulkSpec.SkippedRowIsDone | backend/ent/account_create.go:1886-1891 | A mutation whose row was skipped on conflict is marked done, and its node has no key |
| BulkSpec.ShortCircuitMarksDone | backend/ent/account_create.go:1871-1892 | A hook that calls nothing leaves the builder before it marked done although nothing was inserted |
| BulkSpec.SaveIsAllOrNothing | backend/ent/account_create.go:1849-1906 | Under pass-through hooks a save fails with the first failing check, before any insert, or with the refusal of the batch, and then nothing is marked done; otherwise everything is, with keys matched index by index |
| BulkCreate.FillFailsIff | backend/ent/account_create.go:451-505 | Setting the defaults fails if and only if some field is neither set nor has its generator installed; the error names the first such field, which then stays missing |
| BulkCreate.FillMeans | backend/ent/account_create.go:451-505 | Defaults leave set fields alone and fill only fields of the list, each with its own value; without an error they fill all of them (which fields those are is in DefaultsMean) |
| BulkCreate.DefaultsMean | backend/ent/account_create.go:451-505 | created_at, updated_at, credentials and extra get the value their generator makes, concurrency, priority, rate_multiplier, status, auto_pause_on_expired and schedulable a constant, each only if it was not set, and no other field gets anything; it fails if and only if one of the first four is neither set nor has its generator |
| BulkCreate.CheckMeans | backend/ent/account_create.go:508-574 | The check passes if and only if every rule of the list holds; otherwise it reports the first one broken, as a missing field or an invalid value |
| BulkCreate.CheckPassesIff | backend/ent/account_create.go:508-574 | The check passes if and only if the ten fields with a default and name, platform and type are all set, and the validators accept name, platform, type, status and session_window_status as far as they are set |
| BulkCreate.CreatePassesIff | backend/ent/account_create.go:451-574 | After the defaults the check passes if and only if the caller set name, platform and type, each generator that is needed is installed, and the validators accept what the caller set and, if no status was set, the default one |
| BulkCreate.IgnoredDefaultsErrorIsCaught | backend/ent/account_create.go:451-574 | If a default could not be set, the check that follows fails, so dropping the error of the defaults loses nothing |
| BulkCreate.MissingDefaultFailsSave | backend/ent/account_create.go:1859-1867 | One builder with an unset default makes the whole save fail with nothing inserted and nothing marked done |
| BulkCreate.SaveInsertsIff | backend/ent/account_create.go:1849-1906 | Under pass-through hooks a save of any builders succeeds if and only if the fields each caller set are enough and the database accepts the batch; then every node has its fields with the defaults and the key generated at its index; otherwise nothing is marked done |
| BulkCreate.Builder.SetDefaults | backend/ent/account_create.go:451-505 | Setting the defaults in place leaves the mutation with the fields, and reports the error, that DefaultsMean and FillFailsIff describe |
| BulkCreate.Builder.Check | backend/ent/account_create.go:508-574 | The rule by rule check gives the answer that CheckMeans and CheckPassesIff describe |
| BulkCreate.Builder.Wrap | backend/ent/account_create.go:1860-1896 | The loop over the hooks, last one first, leaves a mutator whose outermost hook is the first |
| BulkCreate.MakeMutators | backend/ent/account_create.go:1856-1899 | After the loop over the builders each has its defaults, as far as they could be set, and its wrapped mutator in the shared array |
| BulkCreate.Chain.Run | backend/ent/account_create.go:1860-1893 | Running a stored mutator over the shared arrays does exactly what the functional chain does, for any hooks |
| BulkCreate.Chain.PerformBatch | backend/ent/account_create.go:1874-1882 | The batch sees the specs in builder order and, unless refused, gives each its own key |
| BulkCreate.Save | backend/ent/account_create.go:1849-1906 | The bulk save does what the functional save does on the builders with their defaults, and returns nodes only on success; under pass-through hooks it succeeds if and only if the fields each caller set are enough and the batch is accepted, and the mutations the caller holds are all done if it succeeds and none if it fails |
| EdgeUpdates.AccountMutation.AddGroupIds | backend/ent/mutation.go:3706-3713 | The call records as an addition |
| EdgeUpdates.AccountMutation.RemoveGroupIds | backend/ent/mutation.go:3726-3734 | The call records as a removal that also takes the IDs back from the pending additions |
| EdgeUpdates.AccountMutation.GroupSpecs | backend/ent/account_update.go:810-866 | In whatever order the sets are ranged over, the compiled specs turn any stored groups into added when cleared, and otherwise into stored minus removed plus added; the update of a single row (lines 1767-1823) has the same statements, and this one method stands for both |
| EdgeUpdates.UpdateIsSequentialPlusStale | backend/ent/account_update.go:810-866 | For all calls and stored groups the update gives the result of the calls one by one and, besides, exactly the additions recorded before a clear and not named since |
| EdgeUpdates.Update | backend/ent/account_update.go:810-866 | Any list of calls made on a mutation, then compiled to specs and applied, gives the sequential result plus just those additions |
| EdgeUpdates.UpdateIsSequentialIff | backend/ent/mutation.go:3706-3734 | The update agrees with the calls one by one if and only if no such addition is left |
| EdgeUpdates.AddThenClearKeeps | backend/ent/mutation.go:3706-3718 | Adding group 7 and then clearing ends with group 7, not with none |
| EdgeUpdates.ProxyUpdateIsSequentialIff | backend/ent/mutation.go:2772-2806 | A proxy update agrees with its calls one by one unless the edge is cleared last while a proxy is pending |
| EdgeUpdates.ClearProxyKeepsPending | backend/ent/mutation.go:3760-3763 | Setting proxy 7 and then clearing the edge ends with proxy 7, not with none |

## Left out

- The packages that generate and run SQL, drivers and transactions; what they do with a spec is stated above as an assumption.
- The value of the JSON codec, the schema defaults, the validators, the outcome of each batch and every answer of the environment: they are parameters, and the results hold for all of them.
- The scheduling of promises and the network: each await is a choice of the environment to resolve or reject.
- JavaScript values keep what the runtime tests, truthiness and identity; numbers are reals, so NaN and negative zero are absent.
- GeneratorMachine.Generator.Step: a body and its delegates are functions of a state they share with the caller; a call made from inside the body is answered by the same branch as any call while running, but is not nested inside the run.
- Bodies that break the lexical rules, such as a break into a try block from outside; nothing is claimed about them.
- The lowering of TypeScript in general; only the runtime and this one body are modelled.
- QueryIds.IdsAgreeIff: that a zero limit in a query spec means none, and that an offset without a limit may be bounded, is how the executor of specs is taken to behave; it is not part of this model.
- BulkSpec.SaveIsAllOrNothing: hooks that replace the mutation they are given; a hook is the number of times it calls what it wraps and whether it fails afterwards.
- The error that a bulk builder may carry from its construction, and the conflict options of an insert beyond a row without a key.
- JoinedRows.ReadGroupField: the types of group columns; every value but the key is a text.
- Interceptors that change or filter neighbours; they pass everything through.
- Limits and offsets on the query of an edge; they would apply to the whole batch.
- EagerLoading.QueryAndLoadChildren: the loaders of usage logs, account groups, channels and adoption decisions are one loop; a key that cannot be nil is one that never is.
- Results of a delegate's method that are not objects, effects of reading a property, and a `call` property that is not the built-in one.
- Delegation.DelegatesAsAskedIff: all TypeErrors are one value; their messages are not told apart.
- JoinLoading.LoadEdge: the loaders of the two edges are one method that takes the side; the loaded neighbours, accounts or groups, are known by their IDs.
- QueryClone.Query.Clone: builders of all entities are one class whose With-edges are a list; intermediate queries and traversal paths, which the clone copies or shares, are not part of the model.
- AccountRows.BuildCreate: the extra columns of the pairs in the join table. Like BulkCreate.Builder.SetDefaults and BulkCreate.Builder.Check, it keeps the statements written once per field as a table in the same order and a loop over it.
- The extra columns of the join table that an edge spec carries, and the usage-log and account-group edges of updates.
- The column values of updates (`SetField`, `ClearField`, `AddField`), one line each.
- Dynamically selected values, counting, grouping and aggregation, locking clauses, printing, and the variants that panic.
- The other entities, whose builders follow the same templates.
