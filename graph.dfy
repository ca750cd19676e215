/** Nodes, their wiring, and the execution of a wired graph: a node runs its
    work method under its retry budget, normalises the result, and either
    hands the payload to the successor wired under the result's action label
    or, when no successor is wired under it, returns the payload. */
module Graph {
  import opened Shapes
  import opened Retry
  import opened Parallel

  /** A node's work method: a plain `run`, or the prep/run_single/post hooks
      of a parallel node. */
  datatype Work =
    | Single(run: (Dict, Dict, nat) -> Step<RunResult>)
    | Batch(hooks: Hooks)

  /** One attempt of a node's work method. */
  function RunWork(w: Work, shared: Dict, args: Dict, attempt: nat): Step<RunResult>
  {
    match w
    case Single(run) => run(shared, args, attempt)
    case Batch(h) => RunBatch(h, shared, args, attempt)
  }

  /** The work method with this call's arguments, as the retried operation. */
  function WorkOp(w: Work, args: Dict): (Dict, nat) -> Step<RunResult>
  {
    (s: Dict, attempt: nat) => RunWork(w, s, args, attempt)
  }

  /** The routing table after `then(default, **kw)`: "default" is set first,
      then every keyword entry is added or overwritten. */
  function Wire(routes: map<string, Node>, default: Node, kw: map<string, Node>): (r: map<string, Node>)
    requires DefaultAction !in kw
    ensures r.Keys == routes.Keys + kw.Keys + {DefaultAction}
    ensures r[DefaultAction] == default
    ensures forall l :: l in kw ==> r[l] == kw[l]
    ensures forall l :: l in routes && l != DefaultAction && l !in kw ==> r[l] == routes[l]
  {
    routes[DefaultAction := default] + kw
  }

  class Node {
    const maxRetries: int
    const work: Work
    var nextNodes: map<string, Node>

    /** `Node(max_retries=0)` with its `run` method; the budget is not checked
        here but on every call. */
    constructor (run: (Dict, Dict, nat) -> Step<RunResult>, maxRetries: int := 0)
      ensures this.maxRetries == maxRetries && work == Single(run) && nextNodes == map[]
    {
      this.maxRetries := maxRetries;
      work := Single(run);
      nextNodes := map[];
    }

    /** `ParalellNode(max_retries=0, max_retries_per_batch=0)` with its three hooks. */
    constructor ParalellNode(prep: (Dict, Dict, nat) -> Step<seq<NodeResult>>,
                             runSingle: (Dict, Dict, nat, nat) -> Step<NodeResult>,
                             post: (Dict, seq<NodeResult>, nat) -> Step<RunResult>,
                             maxRetries: int := 0, maxRetriesPerBatch: int := 0)
      ensures this.maxRetries == maxRetries
      ensures work == Batch(Hooks(prep, runSingle, post, maxRetriesPerBatch))
      ensures nextNodes == map[]
    {
      this.maxRetries := maxRetries;
      work := Batch(Hooks(prep, runSingle, post, maxRetriesPerBatch));
      nextNodes := map[];
    }

    /** `then(default, **kw)`: wires `default` under "default" and every
        keyword under its own label, leaves other labels alone, and returns
        `default` for chaining. A keyword named "default" cannot be passed
        beside the `default` argument. */
    method Then(default: Node, kw: map<string, Node>) returns (r: Node)
      requires DefaultAction !in kw
      modifies this
      ensures nextNodes == Wire(old(nextNodes), default, kw)
      ensures r == default
    {
      nextNodes := nextNodes[DefaultAction := default];
      nextNodes := nextNodes + kw;
      r := default;
    }
  }

  /** A set of nodes that contains every node wired from one of its members. */
  ghost predicate Closed(nodes: set<Node>)
    reads nodes
  {
    forall n, l :: n in nodes && l in n.nextNodes ==> n.nextNodes[l] in nodes
  }

  /** How a call ends: the final payload, an exception, or (in the model
      only) the recursion bound running out. */
  datatype Outcome = Returned(result: NodeResult) | Raised(error: Exception) | OutOfFuel

  /** A call's outcome and the shared context afterwards. */
  datatype Call = Call(outcome: Outcome, shared: Dict)

  /** What `**None` raises when a None payload is routed to a successor. */
  const UnpackNone: Exception :=
    Exception("TypeError", "argument after ** must be a mapping, not NoneType")

  /** `Node.__call__(shared, **args)`, with at most `fuel` node invocations in
      the chain (self-loops are legal, so a chain need not end). A node with a
      negative budget raises before running; a node with no successors never
      hands on, so its call always finishes. */
  function Invoke(nodes: set<Node>, n: Node, shared: Dict, args: Dict, fuel: nat): (r: Call)
    requires n in nodes && Closed(nodes)
    reads nodes
    ensures fuel == 0 ==> r == Call(OutOfFuel, shared)
    ensures fuel > 0 && n.maxRetries < 0 ==> r == Call(Raised(NegativeBudget), shared)
    ensures fuel > 0 && n.nextNodes == map[] ==> !r.outcome.OutOfFuel?
    decreases fuel
  {
    if fuel == 0 then Call(OutOfFuel, shared)
    else
      var r := Retried(n.maxRetries, WorkOp(n.work, args), shared);
      match r.outcome
      case Fail(e) => Call(Raised(e), r.shared)
      case Ok(res) =>
        var routed := Normalise(res);
        if routed.action !in n.nextNodes then Call(Returned(routed.payload), r.shared)
        else if routed.payload.None? then Call(Raised(UnpackNone), r.shared)
        else Invoke(nodes, n.nextNodes[routed.action], r.shared, routed.payload.value, fuel - 1)
  }

  /** A work method that fails on every one of its `maxRetries + 1` attempts
      makes the call raise the last attempt's exception; no successor runs, so
      the shared context is the one the last attempt left, unrolled. */
  lemma {:induction false} ExhaustedNodeRaisesLast(nodes: set<Node>, n: Node, shared: Dict, args: Dict, fuel: nat)
    requires n in nodes && Closed(nodes) && fuel > 0 && n.maxRetries >= 0
    requires forall j :: 0 <= j <= n.maxRetries ==> AttemptAt(WorkOp(n.work, args), shared, j).Fail?
    ensures Invoke(nodes, n, shared, args, fuel).outcome
         == Raised(AttemptAt(WorkOp(n.work, args), shared, n.maxRetries).error)
    ensures Invoke(nodes, n, shared, args, fuel).shared == StateBefore(WorkOp(n.work, args), shared, n.maxRetries + 1)
  {
    var op := WorkOp(n.work, args);
    AttemptsFromSpec(op, shared, 0, n.maxRetries + 1);
    var r := Retried(n.maxRetries, op, shared);
    assert AttemptAt(op, shared, r.calls - 1).Fail?;
  }

  /** A parallel node whose `prep` yields one task, and whose task fails
      throughout the node's first attempt but succeeds from its second on. */
  function OneTask(shared: Dict, args: Dict, attempt: nat): Step<seq<NodeResult>>
  {
    Step(Ok([None]), shared)
  }

  function FirstRunFails(shared: Dict, args: Dict, run: nat, attempt: nat): Step<NodeResult>
  {
    if run == 0 then Step(Fail(Exception("RuntimeError", "unavailable")), shared)
    else Step(Ok(Some(map[])), shared)
  }

  /** A retry of a parallel node runs its tasks afresh: with one retry of the
      node and none per task, the task failing on the node's first attempt
      does not sink the call, and the node returns what `post` makes of the
      second attempt's result. */
  lemma OuterRetryRerunsTasks(post: (Dict, seq<NodeResult>, nat) -> Step<RunResult>, shared: Dict, args: Dict)
    ensures var p := post(shared, [Some(map[])], 1);
      Retried(1, WorkOp(Batch(Hooks(OneTask, FirstRunFails, post, 0)), args), shared) == Retry(p.outcome, 2, p.shared)
  {
    var h := Hooks(OneTask, FirstRunFails, post, 0);
    var op := WorkOp(Batch(h), args);
    forall run: nat
      ensures Task(SingleAt(h, run), 0, shared, None)
           == Retry(if run == 0 then Fail(Exception("RuntimeError", "unavailable")) else Ok(Some(map[])), 1, shared)
    {
      var t := TaskOp(SingleAt(h, run), None);
      assert KwArgs(None) == map[];
      assert t(shared, 0) == SingleAt(h, run)(shared, map[], 0);
      assert SingleAt(h, run)(shared, map[], 0) == FirstRunFails(shared, map[], run, 0);
      assert AttemptsFrom(t, shared, 0, 1) == Retry(t(shared, 0).outcome, 1, shared);
    }
    assert Gather(SingleAt(h, 0), 0, shared, [None]).outcome.Fail?;
    assert Gather(SingleAt(h, 1), 0, shared, []) == Step(Ok([]), shared);
    var one: seq<NodeResult> := [None];
    assert one[0] == None;
    assert Task(SingleAt(h, 1), 0, shared, one[0]) == Retry(Ok(Some(map[])), 1, shared);
    assert one[1..] == [];
    var v: NodeResult := Some(map[]);
    assert [v] + [] == [v];
    assert Gather(SingleAt(h, 1), 0, shared, one) == Step(Ok([Some(map[])]), shared);
    assert op(shared, 0) == Step(Fail(Exception("RuntimeError", "unavailable")), shared);
    assert op(shared, 1) == post(shared, [Some(map[])], 1);
    assert AttemptsFrom(op, shared, 0, 2) == AttemptsFrom(op, shared, 1, 2);
  }

  /** A label with a successor hands the payload, as keyword arguments, to
      that successor with the same shared context; the call's result is the
      successor's. */
  lemma RoutesToSuccessor(nodes: set<Node>, n: Node, shared: Dict, args: Dict, fuel: nat)
    requires n in nodes && Closed(nodes) && fuel > 0
    requires var r := Retried(n.maxRetries, WorkOp(n.work, args), shared);
      && r.outcome.Ok?
      && Normalise(r.outcome.value).action in n.nextNodes
      && Normalise(r.outcome.value).payload.Some?
    ensures var r := Retried(n.maxRetries, WorkOp(n.work, args), shared);
      var routed := Normalise(r.outcome.value);
      Invoke(nodes, n, shared, args, fuel)
        == Invoke(nodes, n.nextNodes[routed.action], r.shared, routed.payload.value, fuel - 1)
  {
  }

  /** A label with no successor ends the chain without error and returns the
      payload as it is (None included). */
  lemma UnwiredLabelReturnsPayload(nodes: set<Node>, n: Node, shared: Dict, args: Dict, fuel: nat)
    requires n in nodes && Closed(nodes) && fuel > 0
    requires var r := Retried(n.maxRetries, WorkOp(n.work, args), shared);
      r.outcome.Ok? && Normalise(r.outcome.value).action !in n.nextNodes
    ensures var r := Retried(n.maxRetries, WorkOp(n.work, args), shared);
      Invoke(nodes, n, shared, args, fuel) == Call(Returned(Normalise(r.outcome.value).payload), r.shared)
  {
  }

  /** Wiring `then(default=b)` makes a bare-payload result route to `b`. */
  lemma WiredDefaultRoutes(nodes: set<Node>, n: Node, b: Node, shared: Dict, args: Dict, fuel: nat)
    requires n in nodes && Closed(nodes) && fuel > 0
    requires DefaultAction in n.nextNodes && n.nextNodes[DefaultAction] == b
    requires Retried(n.maxRetries, WorkOp(n.work, args), shared).outcome.Ok?
    requires var res := Retried(n.maxRetries, WorkOp(n.work, args), shared).outcome.value;
      res.Payload? && res.result.Some?
    ensures var r := Retried(n.maxRetries, WorkOp(n.work, args), shared);
      Invoke(nodes, n, shared, args, fuel) == Invoke(nodes, b, r.shared, r.outcome.value.result.value, fuel - 1)
  {
  }

  /** Routing a None payload raises `TypeError` instead of calling the
      successor with no arguments. */
  lemma RoutedNoneRaises(nodes: set<Node>, n: Node, shared: Dict, args: Dict, fuel: nat)
    requires n in nodes && Closed(nodes) && fuel > 0
    requires var r := Retried(n.maxRetries, WorkOp(n.work, args), shared);
      r.outcome.Ok? && Normalise(r.outcome.value).action in n.nextNodes && Normalise(r.outcome.value).payload.None?
    ensures Invoke(nodes, n, shared, args, fuel).outcome == Raised(UnpackNone)
  {
  }

  /** The recursion bound only decides whether a chain is cut short: a call
      that ends within some bound ends the same way under any larger one. */
  lemma {:induction false} FuelMonotone(nodes: set<Node>, n: Node, shared: Dict, args: Dict, fuel: nat, more: nat)
    requires n in nodes && Closed(nodes)
    requires !Invoke(nodes, n, shared, args, fuel).outcome.OutOfFuel?
    requires fuel <= more
    ensures Invoke(nodes, n, shared, args, more) == Invoke(nodes, n, shared, args, fuel)
    decreases fuel
  {
    var r := Retried(n.maxRetries, WorkOp(n.work, args), shared);
    if r.outcome.Ok? {
      var routed := Normalise(r.outcome.value);
      if routed.action in n.nextNodes && routed.payload.Some? {
        FuelMonotone(nodes, n.nextNodes[routed.action], r.shared, routed.payload.value, fuel - 1, more - 1);
      }
    }
  }

  /** A node whose work never produces a wired label never calls a
      successor: one invocation ends the chain, whatever the routing table
      holds (even a self-loop under a label it never emits). */
  lemma TerminalLabelStops(nodes: set<Node>, n: Node, shared: Dict, args: Dict, fuel: nat)
    requires n in nodes && Closed(nodes) && fuel > 0
    requires forall s: Dict, i: nat :: RunWork(n.work, s, args, i).outcome.Ok? ==>
      Normalise(RunWork(n.work, s, args, i).outcome.value).action !in n.nextNodes
    ensures Invoke(nodes, n, shared, args, fuel) == Invoke(nodes, n, shared, args, 1)
    ensures !Invoke(nodes, n, shared, args, fuel).outcome.OutOfFuel?
  {
    var op := WorkOp(n.work, args);
    var r := Retried(n.maxRetries, op, shared);
    if n.maxRetries >= 0 && r.outcome.Ok? {
      AttemptsFromSpec(op, shared, 0, n.maxRetries + 1);
      assert r.outcome == op(StateBefore(op, shared, r.calls - 1), r.calls - 1).outcome;
    }
  }
}
