/** The workflow graph store: one object per editor session whose fields every
    operation rewrites. `counter` is the source's `seq` field (a reserved word
    here); the wall-clock reading used for ids is passed in as `now`. */
module WorkflowStore {
  import opened WorkflowTypes
  import opened Ids
  import opened StoreOps

  class Store {
    var workflow: Workflow
    var actions: map<string, Action>
    /** The selection cursor. The canvas also stores action ids here, so it
        does not always name a task. */
    var activeTaskId: Option<string>
    var linkingFrom: Option<string>
    var counter: nat

    ghost predicate IsConsistent()
      reads this
    {
      Consistent(workflow, actions)
    }

    /** The initial state: version "1.0", nothing in it, counter at 1. */
    constructor ()
      ensures workflow == DefaultWorkflow && actions == map[]
      ensures activeTaskId == None && linkingFrom == None && counter == 1
      ensures IsConsistent()
    {
      workflow := DefaultWorkflow;
      actions := map[];
      activeTaskId := None;
      linkingFrom := None;
      counter := 1;
      InitialConsistent();
    }

    /** generateUid: the id is built from the counter before the call, and the
        counter moves up by exactly one. The argument-less call uses the
        default prefix, and is `GenerateUid("n", now)`. */
    method GenerateUid(prefix: string, now: nat) returns (id: string)
      modifies this`counter
      ensures id == Uid(prefix, now, old(counter))
      ensures counter == old(counter) + 1
    {
      id := Uid(prefix, now, counter);
      counter := counter + 1;
    }

    /** addTask: appends one empty task under a fresh id and selects it. */
    method AddTask(name: string, now: nat)
      modifies this`workflow, this`activeTaskId, this`counter
      ensures workflow == old(workflow).(tasks := old(workflow.tasks) + [NewTask(Uid("task_", now, old(counter)), name)])
      ensures activeTaskId == Some(Uid("task_", now, old(counter)))
      ensures counter == old(counter) + 1
      ensures old(IsConsistent()) && Uid("task_", now, old(counter)) !in TaskIds(old(workflow.tasks))
              ==> IsConsistent()
    {
      var id := GenerateUid("task_", now);
      if IsConsistent() && id !in TaskIds(workflow.tasks) {
        AddTaskPreservesConsistency(workflow, actions, id, name);
      }
      workflow := workflow.(tasks := workflow.tasks + [NewTask(id, name)]);
      activeTaskId := Some(id);
    }

    /** deleteTask: drops every task with this id, deletes from the map the ids
        the first such task lists, and clears the cursor if it named the task. */
    method DeleteTask(taskId: string)
      modifies this`workflow, this`actions, this`activeTaskId
      ensures workflow == old(workflow).(tasks := RemoveTasks(old(workflow.tasks), taskId))
      ensures actions == old(actions) - OwnedIds(old(workflow.tasks), taskId)
      ensures activeTaskId == (if old(activeTaskId) == Some(taskId) then None else old(activeTaskId))
      ensures taskId !in TaskIds(old(workflow.tasks)) ==> workflow == old(workflow) && actions == old(actions)
      ensures old(IsConsistent()) ==> IsConsistent() && forall x :: x in actions ==> actions[x].taskId != taskId
    {
      var found := FindTask(workflow.tasks, taskId);
      var updated := actions;
      if found.Some? {
        var ids := found.value.actions;
        var i := 0;
        while i < |ids|
          invariant 0 <= i <= |ids|
          invariant updated == actions - Elems(ids[..i])
        {
          assert ids[..i + 1] == ids[..i] + [ids[i]];
          updated := updated - {ids[i]};
          i := i + 1;
        }
        assert ids[..|ids|] == ids;
      }
      assert updated == actions - OwnedIds(workflow.tasks, taskId);
      if IsConsistent() {
        DeleteTaskPreservesConsistency(workflow, actions, taskId);
        DeleteTaskCascade(workflow, actions, taskId);
      }
      workflow := workflow.(tasks := RemoveTasks(workflow.tasks, taskId));
      actions := updated;
      if activeTaskId == Some(taskId) {
        activeTaskId := None;
      }
    }

    method SetActiveTaskId(id: Option<string>)
      modifies this`activeTaskId
      ensures activeTaskId == id
    {
      activeTaskId := id;
    }

    /** addAction: registers a new action and appends its id to the task named
        `taskId`. Nothing checks that such a task exists. */
    method AddAction(taskId: string, kind: string, name: string, x: int, y: int, now: nat)
      modifies this`workflow, this`actions, this`counter
      ensures var id := Uid("act_", now, old(counter));
              && workflow == old(workflow).(tasks := AppendActionTo(old(workflow.tasks), taskId, id))
              && actions == old(actions)[id := NewAction(id, taskId, kind, name, x, y)]
      ensures counter == old(counter) + 1
      ensures old(IsConsistent()) && taskId in TaskIds(old(workflow.tasks))
              && Uid("act_", now, old(counter)) !in old(actions)
              ==> IsConsistent()
      ensures taskId !in TaskIds(old(workflow.tasks)) ==> workflow == old(workflow) && !IsConsistent()
    {
      var id := GenerateUid("act_", now);
      var action := NewAction(id, taskId, kind, name, x, y);
      if IsConsistent() && taskId in TaskIds(workflow.tasks) && id !in actions {
        AddActionPreservesConsistency(workflow, actions, taskId, id, kind, name, x, y);
      }
      if taskId !in TaskIds(workflow.tasks) {
        AddActionToMissingTask(workflow, actions, taskId, id, kind, name, x, y);
      }
      workflow := workflow.(tasks := AppendActionTo(workflow.tasks, taskId, id));
      actions := actions[id := action];
    }

    /** deleteAction: a missing id changes nothing; otherwise the action leaves
        the map and its owner task's list. */
    method DeleteAction(actionId: string)
      modifies this`workflow, this`actions
      ensures actionId !in old(actions) ==> workflow == old(workflow) && actions == old(actions)
      ensures actionId in old(actions) ==>
                && workflow == old(workflow).(tasks := DropActionFrom(old(workflow.tasks), old(actions)[actionId].taskId, actionId))
                && actions == old(actions) - {actionId}
      ensures old(IsConsistent()) ==> IsConsistent()
    {
      if actionId !in actions {
        return;
      }
      var action := actions[actionId];
      if IsConsistent() {
        DeleteActionPreservesConsistency(workflow, actions, actionId);
      }
      workflow := workflow.(tasks := DropActionFrom(workflow.tasks, action.taskId, actionId));
      actions := actions - {actionId};
    }

    /** updateAction: a missing id changes nothing; otherwise the stored action
        becomes the shallow merge. The patch may rewrite `id` and `taskId`,
        and then consistency is lost. */
    method UpdateAction(actionId: string, updates: ActionPatch)
      modifies this`actions
      ensures actionId !in old(actions) ==> actions == old(actions)
      ensures actionId in old(actions) ==> actions == old(actions)[actionId := Merge(old(actions)[actionId], updates)]
      ensures old(IsConsistent()) && actionId in old(actions) ==>
                (IsConsistent() <==> Merge(old(actions)[actionId], updates).id == actionId
                                     && Merge(old(actions)[actionId], updates).taskId == old(actions)[actionId].taskId)
    {
      if actionId !in actions {
        return;
      }
      var updated := Merge(actions[actionId], updates);
      if IsConsistent() {
        ReplaceActionConsistency(workflow, actions, actionId, updated);
      }
      actions := actions[actionId := updated];
    }

    /** linkActions: sets `flow.next` of an existing source and ends linking.
        The target need not exist. A missing source changes nothing. */
    method LinkActions(fromId: string, toId: string)
      modifies this`actions, this`linkingFrom
      ensures fromId !in old(actions) ==> actions == old(actions) && linkingFrom == old(linkingFrom)
      ensures fromId in old(actions) ==>
                && actions == old(actions)[fromId := WithNext(old(actions)[fromId], Linked(toId))]
                && linkingFrom == None
      ensures old(IsConsistent()) ==> IsConsistent()
    {
      if fromId !in actions {
        return;
      }
      if IsConsistent() {
        WithNextPreservesConsistency(workflow, actions, fromId, Linked(toId));
      }
      actions := actions[fromId := WithNext(actions[fromId], Linked(toId))];
      linkingFrom := None;
    }

    /** unlinkAction: sets `flow.next` to null (not absent). */
    method UnlinkAction(actionId: string)
      modifies this`actions
      ensures actionId !in old(actions) ==> actions == old(actions)
      ensures actionId in old(actions) ==> actions == old(actions)[actionId := WithNext(old(actions)[actionId], Cleared)]
      ensures old(IsConsistent()) ==> IsConsistent()
    {
      if actionId !in actions {
        return;
      }
      if IsConsistent() {
        WithNextPreservesConsistency(workflow, actions, actionId, Cleared);
      }
      actions := actions[actionId := WithNext(actions[actionId], Cleared)];
    }
  }
}
