/** The work method of a parallel node: `prep` splits one call into task
    arguments, every task runs `run_single` under its own retry budget, and
    `post` receives the task results in `prep`'s order.

    The fan-out is modelled as a left-to-right pass over the tasks: each task
    sees the shared context the previous one left behind, every task is run,
    and when some fail the error surfaced is that of the first failing task in
    `prep` order. */
module Parallel {
  import opened Shapes
  import opened Retry

  /** The three hooks of a parallel node and its per-task budget. Each hook
      sees the shared context and an attempt index (the external world that
      makes one attempt differ from the next); `runSingle` sees both the
      node's own attempt and the task's attempt within it, since a retry of
      the whole node runs every task afresh. */
  datatype Hooks = Hooks(
    prep: (Dict, Dict, nat) -> Step<seq<NodeResult>>,
    runSingle: (Dict, Dict, nat, nat) -> Step<NodeResult>,
    post: (Dict, seq<NodeResult>, nat) -> Step<RunResult>,
    maxRetriesPerBatch: int)

  /** `result or {}`: a task entry that is None (or empty) becomes empty
      keyword arguments. */
  function KwArgs(entry: NodeResult): (args: Dict)
    ensures entry.None? ==> args == map[]
    ensures entry.Some? ==> args == entry.value
  {
    match entry
    case None => map[]
    case Some(d) => d
  }

  /** One task as the retried operation: `run_single` with that task's arguments. */
  function TaskOp(runSingle: (Dict, Dict, nat) -> Step<NodeResult>, entry: NodeResult): (Dict, nat) -> Step<NodeResult>
  {
    (s: Dict, attempt: nat) => runSingle(s, KwArgs(entry), attempt)
  }

  /** One task under its own retry loop, with the per-batch budget: a
      negative budget raises without calling `run_single`, otherwise it is
      called between once and `budget + 1` times. */
  function Task(runSingle: (Dict, Dict, nat) -> Step<NodeResult>, budget: int, shared: Dict, entry: NodeResult): (r: Retry<NodeResult>)
    ensures budget < 0 ==> r.outcome == Fail(NegativeBudget) && r.calls == 0
    ensures budget >= 0 ==> 1 <= r.calls <= budget + 1
  {
    Retried(budget, TaskOp(runSingle, entry), shared)
  }

  /** Run every task and collect the results in task order: a successful
      gather has one result per task, and an empty batch gathers `[]`
      without touching the shared context. */
  function Gather(runSingle: (Dict, Dict, nat) -> Step<NodeResult>, budget: int, shared: Dict, batch: seq<NodeResult>): (g: Step<seq<NodeResult>>)
    ensures g.outcome.Ok? ==> |g.outcome.value| == |batch|
    ensures batch == [] ==> g == Step(Ok([]), shared)
    decreases |batch|
  {
    if batch == [] then Step(Ok([]), shared)
    else
      var first := Task(runSingle, budget, shared, batch[0]);
      var rest := Gather(runSingle, budget, first.shared, batch[1..]);
      var outcome :=
        match (first.outcome, rest.outcome)
        case (Fail(e), _) => Fail(e)
        case (Ok(_), Fail(e)) => Fail(e)
        case (Ok(v), Ok(vs)) => Ok([v] + vs);
      Step(outcome, rest.shared)
  }

  /** The shared context task `k` starts from. */
  function SharedBeforeTask(runSingle: (Dict, Dict, nat) -> Step<NodeResult>, budget: int, shared: Dict, batch: seq<NodeResult>, k: nat): Dict
    requires k <= |batch|
    decreases k
  {
    if k == 0 then shared
    else Task(runSingle, budget, SharedBeforeTask(runSingle, budget, shared, batch, k - 1), batch[k - 1]).shared
  }

  /** Task `k` of the batch, on its own: the reference the gathered list is
      measured against. */
  function TaskRun(runSingle: (Dict, Dict, nat) -> Step<NodeResult>, budget: int, shared: Dict, batch: seq<NodeResult>, k: nat): Retry<NodeResult>
    requires k < |batch|
  {
    Task(runSingle, budget, SharedBeforeTask(runSingle, budget, shared, batch, k), batch[k])
  }

  /** Task `k + 1` of a batch is task `k` of its tail, started where the head
      task left the shared context. */
  lemma {:induction false} SharedBeforeTaskShift(runSingle: (Dict, Dict, nat) -> Step<NodeResult>, budget: int, shared: Dict, batch: seq<NodeResult>, k: nat)
    requires |batch| > 0 && k < |batch|
    ensures SharedBeforeTask(runSingle, budget, shared, batch, k + 1)
         == SharedBeforeTask(runSingle, budget, Task(runSingle, budget, shared, batch[0]).shared, batch[1..], k)
    decreases k
  {
    if k > 0 {
      SharedBeforeTaskShift(runSingle, budget, shared, batch, k - 1);
    }
  }

  /** Fan-in keeps `prep`'s order: the gathered list succeeds exactly when
      every task succeeds, and then holds task `k`'s value at position `k`;
      otherwise the error raised is that of the first task that failed. The
      shared context at the end is the one the last task left behind. */
  lemma {:induction false} GatherSpec(runSingle: (Dict, Dict, nat) -> Step<NodeResult>, budget: int, shared: Dict, batch: seq<NodeResult>)
    ensures var g := Gather(runSingle, budget, shared, batch);
      && g.shared == SharedBeforeTask(runSingle, budget, shared, batch, |batch|)
      && (g.outcome.Ok? <==> forall k :: 0 <= k < |batch| ==> TaskRun(runSingle, budget, shared, batch, k).outcome.Ok?)
      && (g.outcome.Ok? ==>
            |g.outcome.value| == |batch| &&
            forall k :: 0 <= k < |batch| ==> TaskRun(runSingle, budget, shared, batch, k).outcome == Ok(g.outcome.value[k]))
      && (g.outcome.Fail? ==>
            exists k :: 0 <= k < |batch| && TaskRun(runSingle, budget, shared, batch, k).outcome == Fail(g.outcome.error) &&
              forall j :: 0 <= j < k ==> TaskRun(runSingle, budget, shared, batch, j).outcome.Ok?)
    decreases |batch|
  {
    if batch != [] {
      var first := Task(runSingle, budget, shared, batch[0]);
      var tail := batch[1..];
      GatherSpec(runSingle, budget, first.shared, tail);
      assert TaskRun(runSingle, budget, shared, batch, 0) == first;
      forall k | 0 <= k < |tail|
        ensures TaskRun(runSingle, budget, shared, batch, k + 1) == TaskRun(runSingle, budget, first.shared, tail, k)
      {
        SharedBeforeTaskShift(runSingle, budget, shared, batch, k);
      }
      SharedBeforeTaskShift(runSingle, budget, shared, batch, |tail|);
      var g := Gather(runSingle, budget, shared, batch);
      if g.outcome.Ok? {
        forall k | 0 <= k < |batch|
          ensures TaskRun(runSingle, budget, shared, batch, k).outcome == Ok(g.outcome.value[k])
        {
          if k > 0 {
            assert TaskRun(runSingle, budget, shared, batch, k) == TaskRun(runSingle, budget, first.shared, tail, k - 1);
          }
        }
      } else if first.outcome.Ok? {
        var rest := Gather(runSingle, budget, first.shared, tail);
        var k :| 0 <= k < |tail| && TaskRun(runSingle, budget, first.shared, tail, k).outcome == Fail(rest.outcome.error) &&
          forall j :: 0 <= j < k ==> TaskRun(runSingle, budget, first.shared, tail, j).outcome.Ok?;
        assert TaskRun(runSingle, budget, shared, batch, k + 1).outcome == Fail(g.outcome.error);
        forall j | 0 <= j < k + 1
          ensures TaskRun(runSingle, budget, shared, batch, j).outcome.Ok?
        {
          if j > 0 {
            assert TaskRun(runSingle, budget, shared, batch, j) == TaskRun(runSingle, budget, first.shared, tail, j - 1);
          }
        }
      }
    }
  }

  /** The results `post` receives when every task succeeds, read off task by task. */
  function BatchResults(runSingle: (Dict, Dict, nat) -> Step<NodeResult>, budget: int, shared: Dict, batch: seq<NodeResult>): seq<NodeResult>
  {
    seq(|batch|, k requires 0 <= k < |batch| =>
      match TaskRun(runSingle, budget, shared, batch, k).outcome
      case Ok(v) => v
      case Fail(_) => None)
  }

  /** `run_single` as the tasks of the node's attempt `run` see it. */
  function SingleAt(h: Hooks, run: nat): (Dict, Dict, nat) -> Step<NodeResult>
  {
    (s: Dict, a: Dict, attempt: nat) => h.runSingle(s, a, run, attempt)
  }

  /** `ParalellNode.run`: prep, then every task under its own retries, then
      post on the ordered results. A failure of prep, of any task after its
      retries, or of post is the failure of the whole call. */
  function RunBatch(h: Hooks, shared: Dict, args: Dict, attempt: nat): (r: Step<RunResult>)
    ensures var p := h.prep(shared, args, attempt);
      p.outcome.Fail? ==> r == Step(Fail(p.outcome.error), p.shared)
    ensures var p := h.prep(shared, args, attempt);
      p.outcome.Ok? && p.outcome.value == [] ==> r == h.post(p.shared, [], attempt)
    ensures var p := h.prep(shared, args, attempt);
      p.outcome.Ok? && h.maxRetriesPerBatch < 0 && p.outcome.value != [] ==> r.outcome == Fail(NegativeBudget)
  {
    var p := h.prep(shared, args, attempt);
    if p.outcome.Fail? then Step(Fail(p.outcome.error), p.shared)
    else
      var g := Gather(SingleAt(h, attempt), h.maxRetriesPerBatch, p.shared, p.outcome.value);
      if g.outcome.Fail? then Step(Fail(g.outcome.error), g.shared)
      else h.post(g.shared, g.outcome.value, attempt)
  }

  /** When prep and every task succeed, `post` is called once, on task `k`'s
      result at position `k`, with the shared context the tasks left behind. */
  lemma PostSeesResultsInOrder(h: Hooks, shared: Dict, args: Dict, attempt: nat)
    requires h.prep(shared, args, attempt).outcome.Ok?
    requires var p := h.prep(shared, args, attempt);
      forall k :: 0 <= k < |p.outcome.value| ==>
        TaskRun(SingleAt(h, attempt), h.maxRetriesPerBatch, p.shared, p.outcome.value, k).outcome.Ok?
    ensures var p := h.prep(shared, args, attempt);
      RunBatch(h, shared, args, attempt)
        == h.post(SharedBeforeTask(SingleAt(h, attempt), h.maxRetriesPerBatch, p.shared, p.outcome.value, |p.outcome.value|),
                  BatchResults(SingleAt(h, attempt), h.maxRetriesPerBatch, p.shared, p.outcome.value),
                  attempt)
  {
    var p := h.prep(shared, args, attempt);
    GatherSpec(SingleAt(h, attempt), h.maxRetriesPerBatch, p.shared, p.outcome.value);
    var g := Gather(SingleAt(h, attempt), h.maxRetriesPerBatch, p.shared, p.outcome.value);
    assert g.outcome.value == BatchResults(SingleAt(h, attempt), h.maxRetriesPerBatch, p.shared, p.outcome.value);
  }

  /** Any task that fails after its retries makes the whole call fail, with
      the error of the first such task in `prep` order. */
  lemma TaskFailureFailsBatch(h: Hooks, shared: Dict, args: Dict, attempt: nat, k: nat)
    requires h.prep(shared, args, attempt).outcome.Ok?
    requires var p := h.prep(shared, args, attempt);
      && k < |p.outcome.value|
      && TaskRun(SingleAt(h, attempt), h.maxRetriesPerBatch, p.shared, p.outcome.value, k).outcome.Fail?
      && forall j :: 0 <= j < k ==> TaskRun(SingleAt(h, attempt), h.maxRetriesPerBatch, p.shared, p.outcome.value, j).outcome.Ok?
    ensures var p := h.prep(shared, args, attempt);
      RunBatch(h, shared, args, attempt).outcome
        == Fail(TaskRun(SingleAt(h, attempt), h.maxRetriesPerBatch, p.shared, p.outcome.value, k).outcome.error)
  {
    var p := h.prep(shared, args, attempt);
    GatherSpec(SingleAt(h, attempt), h.maxRetriesPerBatch, p.shared, p.outcome.value);
    var g := Gather(SingleAt(h, attempt), h.maxRetriesPerBatch, p.shared, p.outcome.value);
    var i :| 0 <= i < |p.outcome.value| && TaskRun(SingleAt(h, attempt), h.maxRetriesPerBatch, p.shared, p.outcome.value, i).outcome == Fail(g.outcome.error) &&
      forall j :: 0 <= j < i ==> TaskRun(SingleAt(h, attempt), h.maxRetriesPerBatch, p.shared, p.outcome.value, j).outcome.Ok?;
    assert i == k;
  }

  /** With a negative per-task budget every task raises `ValueError` without
      calling `run_single`, so the shared context is untouched. */
  lemma {:induction false} GatherNegativeBudget(runSingle: (Dict, Dict, nat) -> Step<NodeResult>, budget: int, shared: Dict, batch: seq<NodeResult>)
    requires budget < 0
    ensures Gather(runSingle, budget, shared, batch)
         == if batch == [] then Step(Ok([]), shared) else Step(Fail(NegativeBudget), shared)
    decreases |batch|
  {
    if batch != [] {
      GatherNegativeBudget(runSingle, budget, shared, batch[1..]);
    }
  }

  /** A negative per-task budget fails the call with `ValueError` before
      `run_single` is ever called, unless prep produced no task at all, in
      which case `post` runs on the empty list. */
  lemma NegativeTaskBudget(h: Hooks, shared: Dict, args: Dict, attempt: nat)
    requires h.maxRetriesPerBatch < 0
    requires h.prep(shared, args, attempt).outcome.Ok?
    ensures var p := h.prep(shared, args, attempt);
      RunBatch(h, shared, args, attempt)
        == if p.outcome.value == [] then h.post(p.shared, [], attempt)
           else Step(Fail(NegativeBudget), p.shared)
  {
    var p := h.prep(shared, args, attempt);
    GatherNegativeBudget(SingleAt(h, attempt), h.maxRetriesPerBatch, p.shared, p.outcome.value);
  }

  /** The fan-out/fan-in scenario: prep yields three tasks and each task
      returns its own index; post receives the indices 0, 1, 2 in that order. */
  function IndexTask(shared: Dict, args: Dict, run: nat, attempt: nat): Step<NodeResult>
  {
    Step(Ok(Some(map["index" := if "i" in args then args["i"] else NoneValue])), shared)
  }

  function ThreeTasks(shared: Dict, args: Dict, attempt: nat): Step<seq<NodeResult>>
  {
    Step(Ok([Some(map["i" := IntValue(0)]), Some(map["i" := IntValue(1)]), Some(map["i" := IntValue(2)])]), shared)
  }

  lemma IndicesArriveInOrder(post: (Dict, seq<NodeResult>, nat) -> Step<RunResult>, shared: Dict, args: Dict, attempt: nat)
    ensures RunBatch(Hooks(ThreeTasks, IndexTask, post, 0), shared, args, attempt)
         == post(shared, [Some(map["index" := IntValue(0)]), Some(map["index" := IntValue(1)]), Some(map["index" := IntValue(2)])], attempt)
  {
    var rs := SingleAt(Hooks(ThreeTasks, IndexTask, post, 0), attempt);
    var batch := ThreeTasks(shared, args, attempt).outcome.value;
    forall k | 0 <= k < 3
      ensures Task(rs, 0, shared, batch[k]) == Retry(Ok(Some(map["index" := IntValue(k)])), 1, shared)
    {
      var op := TaskOp(rs, batch[k]);
      assert KwArgs(batch[k]) == map["i" := IntValue(k)];
      assert op(shared, 0) == IndexTask(shared, map["i" := IntValue(k)], attempt, 0);
      assert op(shared, 0) == Step(Ok(Some(map["index" := IntValue(k)])), shared);
      assert AttemptsFrom(op, shared, 0, 1) == Retry(Ok(Some(map["index" := IntValue(k)])), 1, shared);
    }
    var r0, r1, r2 := Some(map["index" := IntValue(0)]), Some(map["index" := IntValue(1)]), Some(map["index" := IntValue(2)]);
    assert SharedBeforeTask(rs, 0, shared, batch, 1) == shared;
    assert SharedBeforeTask(rs, 0, shared, batch, 2) == shared;
    assert SharedBeforeTask(rs, 0, shared, batch, 3) == shared;
    GatherSpec(rs, 0, shared, batch);
    var g := Gather(rs, 0, shared, batch);
    assert TaskRun(rs, 0, shared, batch, 0).outcome == Ok(r0);
    assert TaskRun(rs, 0, shared, batch, 1).outcome == Ok(r1);
    assert TaskRun(rs, 0, shared, batch, 2).outcome == Ok(r2);
    assert g.outcome.value == [r0, r1, r2];
  }
}
