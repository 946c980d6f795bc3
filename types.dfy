/** The workflow data model: tasks that own ordered lists of action ids, and
    actions that carry a control-flow descriptor with retry and timeout policy.
    Every entity here is a value; the store (module WorkflowStore) holds them. */
module WorkflowTypes {

  datatype Option<+T> = None | Some(value: T)

  /** JavaScript truthiness of an optional string: absent and "" are falsy. */
  predicate Truthy(s: Option<string>) {
    s.Some? && s.value != ""
  }

  /** `flow.next` has three states: the key is absent, it was explicitly set
      to null (by unlinking), or it names a successor action. */
  datatype NextRef = Unset | Cleared | Linked(target: string)

  /** Retry policy. The strategy is kept as the raw string so that the
      validator can reject values other than "fixed" and "exponential". */
  datatype RetryConfig = RetryConfig(strategy: string, maxAttempts: real, delay: real)

  datatype TimeoutConfig = TimeoutConfig(duration: real, onTimeout: Option<string>)

  datatype ActionFlow = ActionFlow(
    next: NextRef,
    nextIf: Option<string>,
    retry: Option<RetryConfig>,
    timeout: Option<TimeoutConfig>)

  /** The flow `{}` a new action starts with. */
  const EmptyFlow := ActionFlow(Unset, None, None, None)

  /** Parameter values, narrowed from `any` to the scalars the editor produces. */
  datatype Scalar = Str(s: string) | Num(n: real) | Bool(b: bool) | Null

  /** An action. `kind` is the source's `type` field; "" stands for a missing
      or empty type. `x` and `y` are canvas coordinates and play no role in
      any check. */
  datatype Action = Action(
    id: string,
    taskId: string,
    name: string,
    description: Option<string>,
    kind: string,
    flow: ActionFlow,
    outputs: Option<map<string, string>>,
    parameters: Option<map<string, Scalar>>,
    x: int,
    y: int)

  datatype Task = Task(id: string, name: string, description: Option<string>, actions: seq<string>)

  datatype Workflow = Workflow(
    version: string,
    env: map<string, string>,
    vars: map<string, string>,
    tasks: seq<Task>)

  /** The workflow a fresh store starts with, and the one import falls back to. */
  const DefaultWorkflow := Workflow("1.0", map[], map[], [])

  /** The ids of all tasks in a task list. */
  function TaskIds(ts: seq<Task>): set<string> {
    set t | t in ts :: t.id
  }

  /** The distinct elements of a sequence. */
  function Elems<T>(s: seq<T>): set<T> {
    set x | x in s
  }

  lemma Assoc<T>(x: seq<T>, y: seq<T>, z: seq<T>)
    ensures x + (y + z) == (x + y) + z
  {
  }

  /** The head and tail of a concatenation with a non-empty left part. */
  lemma SplitAppend<T>(a: seq<T>, b: seq<T>)
    ensures a == [] ==> a + b == b
    ensures a != [] ==> (a + b)[0] == a[0] && (a + b)[1..] == a[1..] + b
  {
  }
}
