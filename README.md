# FlowBuilder workflow store — a Dafny model

FlowBuilder is a visual editor for workflows. A workflow is a list of
**tasks**. Each task owns an ordered list of **action** ids. The actions
themselves live in one map keyed by id. Each action carries a control-flow
descriptor: `next`, `next_if`, a retry policy and a timeout policy. This
project models four parts of the editor:

- the store that holds this state and the operations that edit it
  (`WorkflowStore.Store`, a class whose methods rewrite its fields);
- the value-level effect of each edit and the consistency invariant between
  the task lists and the action map (`StoreOps`);
- the validator that walks the tasks and reports errors in order (`Validator`);
- import and export of the `{ workflow, actions }` document tree (`Serializer`).

Files:

| file | module | contents |
|---|---|---|
| `types.dfy` | `WorkflowTypes` | tasks, actions, flow descriptors, the default workflow |
| `ids.dfy` | `Ids` | `prefix + base36(now) + base36(counter)` id generation |
| `store_ops.dfy` | `StoreOps` | edit functions, shallow merge, the consistency invariant and the lemmas about it |
| `store.dfy` | `WorkflowStore` | the `Store` class and its operations |
| `validator.dfy` | `Validator` | trim, the error functions, well-formedness, the loop-based validator |
| `serializer.dfy` | `Serializer` | export tree, decode, import into the store, round trips |

**Consistency** (`StoreOps.Consistent`) has three parts:

- task ids are unique;
- every id a task lists is in the map, and that action's `taskId` names the task;
- every action in the map has `id` equal to its key, and is listed by the task its `taskId` names.

The editor never checks this invariant itself. The model proves which
operations keep it and which can break it.

## Model

| member | source | states |
|---|---|---|
| `Ids.Base36` | src/state/workflowStore.ts:85 | `toString(36)` of a natural number is non-empty, uses only `0-9a-z`, and is one digit exactly below 36 |
| `Ids.Base36Injective` | src/state/workflowStore.ts:85 | two numbers with the same base-36 rendering are equal |
| `Ids.Base36LengthMonotone` | src/state/workflowStore.ts:85 | a larger number never has a shorter base-36 rendering |
| `Ids.UidsDistinct` | src/state/workflowStore.ts:82-86 | with a clock that never goes back and a counter that strictly grows, two ids with the same prefix differ, even though the two renderings are joined without a separator |
| `WorkflowStore.Store.constructor` | src/state/workflowStore.ts:71-80 | starts at version "1.0" with no tasks, no actions, no cursors and counter 1; this state is consistent |
| `WorkflowStore.Store.GenerateUid` | src/state/workflowStore.ts:82-86 | the id is built from the counter before the call, and the counter goes up by exactly one; the argument-less call is `GenerateUid("n", now)` |
| `WorkflowStore.Store.AddTask` | src/state/workflowStore.ts:88-99 | appends one empty task with the fresh id and selects it; keeps consistency when the id is new |
| `WorkflowStore.Store.DeleteTask` | src/state/workflowStore.ts:101-118 | removes every task with the id, removes from the map the ids the first such task lists, and clears the selection if it named the task; an unknown id leaves tasks and actions unchanged, though a selection equal to that id is still cleared; on a consistent store it keeps consistency and leaves no action whose `taskId` is the deleted task |
| `WorkflowStore.Store.SetActiveTaskId` | src/state/workflowStore.ts:120-122 | the selection becomes the given value |
| `WorkflowStore.Store.AddAction` | src/state/workflowStore.ts:124-150 | adds the new action to the map and appends its id to each task with that id; keeps consistency when the task exists and the id is new; for a missing task the task list is unchanged and consistency is lost |
| `WorkflowStore.Store.DeleteAction` | src/state/workflowStore.ts:152-173 | an unknown id changes nothing; otherwise the action leaves the map and its owner's list; consistency is kept |
| `WorkflowStore.Store.UpdateAction` | src/state/workflowStore.ts:175-184 | an unknown id changes nothing; otherwise the stored action becomes the shallow merge; a consistent store stays consistent exactly when the merge keeps `id` and `taskId` |
| `WorkflowStore.Store.LinkActions` | src/state/workflowStore.ts:186-198 | an unknown source changes neither the actions nor `linkingFrom`; otherwise only the source's `next` changes and linking mode ends; the target need not exist; consistency is kept |
| `WorkflowStore.Store.UnlinkAction` | src/state/workflowStore.ts:200-211 | sets `next` to null rather than deleting it; an unknown id changes nothing; consistency is kept |
| `StoreOps.FindTask` | src/state/workflowStore.ts:107-108 | finds nothing exactly when no task has the id; otherwise it finds the first task with that id |
| `StoreOps.RemoveTasks` | src/state/workflowStore.ts:104 | the result holds exactly the tasks with a different id; an unknown id leaves the list unchanged |
| `StoreOps.RemoveTasksAppend` | src/state/workflowStore.ts:104 | the filter keeps order and duplicates: filtering a concatenation concatenates the filtered parts |
| `StoreOps.FilterId` | src/state/workflowStore.ts:161 | the result holds exactly the ids other than the removed one; an absent id leaves the list unchanged |
| `StoreOps.FilterIdAppend` | src/state/workflowStore.ts:161 | the filter keeps order and duplicates: filtering a concatenation concatenates the filtered parts |
| `StoreOps.Merge` | src/state/workflowStore.ts:180 | the object spread: each of the ten fields comes from the patch when the patch carries it and from the action otherwise, so an empty patch changes nothing |
| `StoreOps.MergeCompose` | src/state/workflowStore.ts:180 | two successive shallow merges equal one merge of the combined patch, and a repeated merge changes nothing |
| `StoreOps.MergeKeepsIdentity` | src/state/workflowStore.ts:180 | a merge keeps `id` and `taskId` exactly when the patch omits them or repeats their current values |
| `StoreOps.InitialConsistent` | src/state/workflowStore.ts:71-77 | the initial state is consistent |
| `StoreOps.AddTaskPreservesConsistency` | src/state/workflowStore.ts:88-99 | appending an empty task with a new id keeps consistency |
| `StoreOps.RemoveTasksUnique` | src/state/workflowStore.ts:104 | filtering keeps task ids unique |
| `StoreOps.DeleteTaskPreservesConsistency` | src/state/workflowStore.ts:101-118 | removing the task and the ids it lists keeps consistency |
| `StoreOps.DeleteTaskCascade` | src/state/workflowStore.ts:106-109 | on a consistent store, the ids the task lists are exactly the actions whose `taskId` is that task |
| `StoreOps.DeleteTaskCascadeGap` | src/state/workflowStore.ts:106-109 | on an inconsistent store the cascade by list misses an action whose `taskId` names the deleted task, so the action outlives its owner |
| `StoreOps.AddActionPreservesConsistency` | src/state/workflowStore.ts:124-150 | adding an action with a new id to an existing task keeps consistency |
| `StoreOps.AddActionToMissingTask` | src/state/workflowStore.ts:140-148 | for a task id no task has, no list changes but the map gains an action whose `taskId` names no task, so consistency is lost |
| `StoreOps.DeleteActionPreservesConsistency` | src/state/workflowStore.ts:152-173 | removing an action from the map and from its owner's list keeps consistency, and no task lists it afterwards |
| `StoreOps.ReplaceActionConsistency` | src/state/workflowStore.ts:175-184 | replacing an action keeps consistency exactly when the replacement keeps the key as `id` and keeps the same `taskId` |
| `StoreOps.WithNextPreservesConsistency` | src/state/workflowStore.ts:186-211 | changing only `next` keeps consistency |
| `Validator.Trim` | src/utils/workflowUtils.ts:94 | `trim()` returns a string no longer than its input that neither starts nor ends with white space |
| `Validator.TrimEmptyIffBlank` | src/utils/workflowUtils.ts:94 | `trim()` gives the empty string exactly for names made only of ECMAScript white space and line terminators |
| `Validator.WorkflowErrors` | src/utils/workflowUtils.ts:93-144 | the errors of the tasks in order, each task's name error before its action errors; `Validator.ValidIffWellFormed` ties its emptiness to well-formedness |
| `Validator.ListErrorsEmptyIff` | src/utils/workflowUtils.ts:99-143 | a task's action list gives no errors exactly when every listed id is in the map and its action passes every check |
| `Validator.ValidIffWellFormed` | src/utils/workflowUtils.ts:88-147 | the error list is empty exactly when the workflow meets an independent well-formedness definition |
| `Validator.ListErrorsAppend` | src/utils/workflowUtils.ts:99-143 | the errors of two id lists joined are the errors of each, in order |
| `Validator.ActionErrorsAreAbout` | src/utils/workflowUtils.ts:106-141 | every error an action's checks report names that action and is neither a name error nor a missing-action error |
| `Validator.BlankNameReportedOnce` | src/utils/workflowUtils.ts:94-96 | a task has exactly one name error if its name is blank and none otherwise, and that error comes first |
| `Validator.MissingActionReported` | src/utils/workflowUtils.ts:100-104 | a missing-action error is reported for an id exactly when the task lists it and the map lacks it |
| `Validator.ConsistentHasNoMissingAction` | src/utils/workflowUtils.ts:100-104 | when every listed id is in the map, no missing-action error appears |
| `Validator.UnlistedNeverChecked` | src/utils/workflowUtils.ts:93-99 | for two maps with the same key set, the contents of actions that no task lists do not affect the result |
| `Validator.RetryChecksIndependent` | src/utils/workflowUtils.ts:120-131 | a retry policy with strategy "linear", 0 attempts and delay -1 gives all three retry errors, in check order |
| `Validator.RetryErrorsExact` | src/utils/workflowUtils.ts:120-131 | for every retry policy, each of the strategy, max-attempts and delay errors is reported exactly when its own condition holds, and the number of errors is the number of violated conditions |
| `Validator.TimeoutErrorsExact` | src/utils/workflowUtils.ts:134-142 | for every timeout policy, the duration error is reported exactly for a negative duration and the `on_timeout` error exactly for a non-empty target missing from the map; the count of errors matches |
| `Validator.NextReferencesChecked` | src/utils/workflowUtils.ts:111-117 | a `next` or `next_if` is reported exactly when it names an id missing from the map; a null, absent or empty reference is never reported |
| `Validator.SelfLoopNotDangling` | src/utils/workflowUtils.ts:111-113 | an action linked to itself never gets a dangling-`next` error |
| `Validator.ValidateWorkflow` | src/utils/workflowUtils.ts:88-147 | the loop collects the recursive error list, and `valid` holds exactly when that list is empty, which is exactly when the workflow is well-formed; the store is not changed |
| `Validator.CheckTask` | src/utils/workflowUtils.ts:93-144 | the body of the outer loop appends the task's name error, then the errors of its action list |
| `Validator.CheckActionList` | src/utils/workflowUtils.ts:99-143 | the inner loop appends the errors of each listed id, in list order |
| `Validator.CheckListedAction` | src/utils/workflowUtils.ts:99-143 | a missing id stops that id's checks after one error; a present id gets the link, retry and timeout checks |
| `Validator.CheckLinks` | src/utils/workflowUtils.ts:106-117 | appends the type error and the dangling `next` and `next_if` errors |
| `Validator.CheckRetry` | src/utils/workflowUtils.ts:120-131 | appends exactly the retry errors, whose all-input meaning `Validator.RetryErrorsExact` states |
| `Validator.CheckTimeout` | src/utils/workflowUtils.ts:134-142 | appends exactly the timeout errors, whose all-input meaning `Validator.TimeoutErrorsExact` states |
| `Serializer.Export` | src/utils/workflowUtils.ts:6-33 | both exporters build a complete document: a `workflow` object with `tasks`, and an `actions` object |
| `Serializer.Decode` | src/utils/workflowUtils.ts:36-85 | a failure carries the format's message; a success comes from a root whose `workflow` is absent or an object; it takes the document's own workflow (the default one only when `workflow` is absent) and its own action map (the empty map when `actions` is missing), and selects the first task |
| `Serializer.ExportImportRoundTrip` | src/utils/workflowUtils.ts:6-85 | exporting and then importing, in either format, gives back the same workflow and action map, with the first task selected |
| `Serializer.ImportExportRoundTrip` | src/utils/workflowUtils.ts:6-85 | importing a complete document and exporting the result gives the same document |
| `Serializer.DecodeFailsIff` | src/utils/workflowUtils.ts:36-85 | import fails exactly on a parse error, a null root, a `workflow` that is not an object, or a `workflow` without `tasks`, and the message names the format |
| `Serializer.FormatsAgree` | src/utils/workflowUtils.ts:36-85 | JSON and YAML import agree on every tree; this holds by construction, since the two importers differ only in parser and message |
| `Serializer.MissingMembersDefault` | src/utils/workflowUtils.ts:42-52 | a missing `workflow` falls back to the default one, and missing `actions` to the empty map, with nothing selected |
| `Serializer.Import` | src/utils/workflowUtils.ts:36-85 | on success the workflow, action map and selection are replaced wholesale, linking ends and the counter stays; on failure nothing changes |
| `Serializer.ExportThenImport` | src/utils/workflowUtils.ts:6-85 | exporting the store and importing the result into it restores the workflow and actions, selects the first task and ends linking |

## Left out

- Persistence to `localStorage` (src/state/workflowStore.ts:213-222) is storage I/O and is not modelled.
- `Date.now()` is passed to the id operations as the parameter `now`.
- The JSON and YAML text grammars are not modelled. A parse yields a document tree or fails (`Serializer.Parsed`), and export yields the tree both serialisers write.
- Numbers are reals for retry and timeout values and integers for canvas coordinates. NaN and Infinity are not modelled.
- `parameters` is narrowed from `any` to strings, numbers, booleans and null.
- An `actions` member that is a truthy non-object (e.g. a string, which `Object.entries` splits into characters) is not modelled. A document's `actions` is a map or absent.
- A `workflow` object is modelled with `version`, `env`, `vars` and an optional `tasks`. Objects with other missing or mistyped members are outside the model, and so is a `tasks` value that is not an array.
- Imported tasks and actions are taken to be well-typed. After an import, a task without `actions` makes `validateWorkflow` throw at src/utils/workflowUtils.ts:99, and an action without `flow` makes it throw at src/utils/workflowUtils.ts:111. The model cannot express either.
- Extra members of a document are not representable. Extra members of the root are dropped on import. Extra members of `workflow` are stored as they are (src/utils/workflowUtils.ts:45) and exported again (src/utils/workflowUtils.ts:13).
- `Serializer.ImportExportRoundTrip`: holds only for documents without extra members, since those cannot be expressed in the model.
- Error messages are tagged values (`Validator.ValidationError`), not rendered strings. Import failures keep the two literal messages.
- The UI writes `linkingFrom` directly through the store's `setState`. Those writes, and all UI components, are not modelled.
- `activeTaskId` is also used by the canvas to hold an action id. The model keeps it as an untyped optional id.
- `WorkflowStore.Store.UpdateAction`: a patch that sets a required field to `undefined` is not modelled. Patches can carry `undefined` only for the optional fields.
- The model follows the code where the code is permissive. `addAction` does not fail on a missing task; it adds an action whose `taskId` names no task (`StoreOps.AddActionToMissingTask`). `deleteTask` cascades through the task's action list, not by `taskId` (`StoreOps.DeleteTaskCascade`, `StoreOps.DeleteTaskCascadeGap`).
- `deleteAction` does not clear `activeTaskId` or `linkingFrom` even when they name the deleted action. The model keeps this.
