/** Import and export at the level of the document tree
    `{ workflow, actions: { <id>: Action } }`. The text codecs (JSON and YAML)
    sit outside the model: a parse either yields a tree or fails. */
module Serializer {
  import opened WorkflowTypes
  import WorkflowStore

  datatype Format = Json | Yaml

  /** The `workflow` object of a parsed document; `tasks` may be missing. */
  datatype WorkflowNode = WorkflowNode(
    version: string,
    env: map<string, string>,
    vars: map<string, string>,
    tasks: Option<seq<Task>>)

  /** What the document's `workflow` key holds: nothing (null or undefined),
      a string, number or boolean, or an object. */
  datatype WorkflowField = Absent | NotAnObject | Object(node: WorkflowNode)

  /** The document's root object. `actions` is None when the key is missing
      or falsy. */
  datatype Document = Document(workflow: WorkflowField, actions: Option<map<string, Action>>)

  /** The outcome of the text parser: a syntax error, a root that is null or
      undefined (which cannot be destructured), or a root object. A root that
      is a string, number or boolean destructures to two undefined members and
      is the same as `Root(Document(Absent, None))`. */
  datatype Parsed = Unparsable | NoRoot | Root(doc: Document)

  /** The store fields an import writes (the cursor `linkingFrom` always
      becomes null, and the id counter is left alone). */
  datatype Snapshot = Snapshot(workflow: Workflow, actions: map<string, Action>, activeTaskId: Option<string>)

  datatype ImportResult = Imported(snapshot: Snapshot) | Failed(message: string)

  function FormatMessage(f: Format): string {
    match f
    case Json => "Invalid JSON format"
    case Yaml => "Invalid YAML format"
  }

  /** The selection after an import: the first task, if any. */
  function FirstTaskId(ts: seq<Task>): Option<string> {
    if |ts| > 0 then Some(ts[0].id) else None
  }

  /** The tree both exporters build: the workflow as it is and the action map
      as an object keyed by id. */
  function Export(wf: Workflow, m: map<string, Action>): (d: Document)
    ensures d.workflow.Object? && d.workflow.node.tasks.Some? && d.actions.Some?
  {
    Document(Object(WorkflowNode(wf.version, wf.env, wf.vars, Some(wf.tasks))), Some(m))
  }

  /** What an import makes of a parse outcome. Reading `workflow.tasks.length`
      throws when `workflow` is present but not an object or has no `tasks`,
      and destructuring throws on a null root; every throw surfaces as the
      format's message. */
  function Decode(p: Parsed, f: Format): (r: ImportResult)
    ensures r.Failed? ==> r.message == FormatMessage(f)
    ensures r.Imported? ==> p.Root? && !p.doc.workflow.NotAnObject?
    ensures r.Imported? ==> r.snapshot.activeTaskId == FirstTaskId(r.snapshot.workflow.tasks)
    ensures r.Imported? ==> r.snapshot.actions == (if p.doc.actions.Some? then p.doc.actions.value else map[])
    ensures r.Imported? && p.doc.workflow.Object? ==> p.doc.workflow.node.tasks.Some?
    ensures r.Imported? ==>
              r.snapshot.workflow == (if p.doc.workflow.Absent? then DefaultWorkflow
                                      else Workflow(p.doc.workflow.node.version, p.doc.workflow.node.env,
                                                    p.doc.workflow.node.vars, p.doc.workflow.node.tasks.value))
  {
    match p
    case Unparsable => Failed(FormatMessage(f))
    case NoRoot => Failed(FormatMessage(f))
    case Root(doc) =>
      var actions := if doc.actions.Some? then doc.actions.value else map[];
      match doc.workflow
      case Absent => Imported(Snapshot(DefaultWorkflow, actions, None))
      case NotAnObject => Failed(FormatMessage(f))
      case Object(node) =>
        if node.tasks.None? then Failed(FormatMessage(f))
        else
          var wf := Workflow(node.version, node.env, node.vars, node.tasks.value);
          Imported(Snapshot(wf, actions, FirstTaskId(wf.tasks)))
  }

  /** Exporting and importing back restores the workflow and the action map
      exactly, in either format, and selects the first task. */
  lemma ExportImportRoundTrip(wf: Workflow, m: map<string, Action>, f: Format)
    ensures Decode(Root(Export(wf, m)), f) == Imported(Snapshot(wf, m, FirstTaskId(wf.tasks)))
  {
  }

  /** Importing a complete document and exporting the result gives the document back. */
  lemma ImportExportRoundTrip(doc: Document, f: Format)
    requires doc.workflow.Object? && doc.workflow.node.tasks.Some? && doc.actions.Some?
    ensures Decode(Root(doc), f).Imported?
    ensures var s := Decode(Root(doc), f).snapshot; Export(s.workflow, s.actions) == doc
  {
  }

  /** An import fails exactly on a parse error, a null root, a `workflow`
      that is not an object, or a `workflow` without `tasks`; the message names
      the format. */
  lemma DecodeFailsIff(p: Parsed, f: Format)
    ensures Decode(p, f).Failed? <==>
              || p.Unparsable? || p.NoRoot?
              || (p.Root? && p.doc.workflow.NotAnObject?)
              || (p.Root? && p.doc.workflow.Object? && p.doc.workflow.node.tasks.None?)
    ensures Decode(p, f).Failed? ==> Decode(p, f).message == FormatMessage(f)
  {
  }

  /** The two formats agree on every tree: the same snapshot on success, and
      failure together. This holds by construction, since the two importers
      differ only in the parser and in the failure message. */
  lemma FormatsAgree(p: Parsed)
    ensures Decode(p, Json).Imported? <==> Decode(p, Yaml).Imported?
    ensures Decode(p, Json).Imported? ==> Decode(p, Json) == Decode(p, Yaml)
  {
  }

  /** A missing `workflow` falls back to the default one, and a missing
      `actions` to the empty map, with nothing selected. */
  lemma MissingMembersDefault(f: Format)
    ensures Decode(Root(Document(Absent, None)), f) == Imported(Snapshot(DefaultWorkflow, map[], None))
  {
  }

  /** importWorkflowFromJson / importWorkflowFromYaml: on success the store's
      workflow, actions and selection are replaced wholesale and linking is
      cancelled; on failure nothing in the store changes. */
  method Import(store: WorkflowStore.Store, p: Parsed, f: Format) returns (r: ImportResult)
    modifies store`workflow, store`actions, store`activeTaskId, store`linkingFrom
    ensures r == Decode(p, f)
    ensures r.Imported? ==>
              && store.workflow == r.snapshot.workflow
              && store.actions == r.snapshot.actions
              && store.activeTaskId == r.snapshot.activeTaskId
              && store.linkingFrom == None
    ensures r.Failed? ==> unchanged(store)
  {
    if p.Unparsable? || p.NoRoot? {
      return Failed(FormatMessage(f));
    }
    var workflow, actions := p.doc.workflow, p.doc.actions;
    var actionsMap := if actions.Some? then actions.value else map[];
    if workflow.NotAnObject? || (workflow.Object? && workflow.node.tasks.None?) {
      return Failed(FormatMessage(f));
    }
    var wf := if workflow.Absent? then DefaultWorkflow
              else Workflow(workflow.node.version, workflow.node.env, workflow.node.vars, workflow.node.tasks.value);
    var active := if workflow.Object? && |wf.tasks| > 0 then Some(wf.tasks[0].id) else None;
    store.workflow := wf;
    store.actions := actionsMap;
    store.activeTaskId := active;
    store.linkingFrom := None;
    r := Imported(Snapshot(wf, actionsMap, active));
  }

  /** Exporting the store and importing the tree into the same store restores
      its workflow and actions; the selection moves to the first task and
      linking is cancelled. */
  method ExportThenImport(store: WorkflowStore.Store, f: Format)
    modifies store`workflow, store`actions, store`activeTaskId, store`linkingFrom
    ensures store.workflow == old(store.workflow) && store.actions == old(store.actions)
    ensures store.activeTaskId == FirstTaskId(store.workflow.tasks) && store.linkingFrom == None
    ensures store.counter == old(store.counter)
  {
    var doc := Export(store.workflow, store.actions);
    ExportImportRoundTrip(store.workflow, store.actions, f);
    var r := Import(store, Root(doc), f);
  }
}
