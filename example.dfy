/** The example flow: a node that loops on itself while counting `iter` up
    to five, then takes the "exit" label to a node that outputs a message. */
module Example {
  import opened Shapes
  import opened Retry
  import opened Graph

  /** `OutputMessage(message).run`: always `{"message": message}`, which
      routes under "default", leaving the shared context alone. */
  function OutputMessage(message: string): (run: (Dict, Dict, nat) -> Step<RunResult>)
    ensures forall s: Dict, a: Dict, i: nat ::
              (run(s, a, i).shared == s && run(s, a, i).outcome.Ok? &&
               Normalise(run(s, a, i).outcome.value) == Routed(DefaultAction, Some(map["message" := StrValue(message)])))
  {
    (shared: Dict, args: Dict, attempt: nat) => Step(Ok(Payload(Some(map["message" := StrValue(message)]))), shared)
  }

  /** `Loop.run(shared, iter=0)`: below five it asks to go round again with
      `iter + 1`, otherwise it emits "exit". A non-numeric `iter` makes the
      comparison raise. */
  function LoopRun(shared: Dict, args: Dict, attempt: nat): (r: Step<RunResult>)
    ensures r.shared == shared
    ensures r.outcome.Ok? <==> "iter" !in args || args["iter"].IntValue? || args["iter"].BoolValue?
    ensures "iter" !in args ==> r.outcome == Ok(Labelled(DefaultAction, Some(map["iter" := IntValue(1)])))
    ensures "iter" in args && args["iter"].IntValue? && args["iter"].i < 5
      ==> r.outcome == Ok(Labelled(DefaultAction, Some(map["iter" := IntValue(args["iter"].i + 1)])))
    ensures "iter" in args && args["iter"].IntValue? && args["iter"].i >= 5 ==> r.outcome == Ok(Action("exit"))
  {
    var iter := if "iter" in args then args["iter"] else IntValue(0);
    var count := match iter
      case IntValue(i) => Some(i)
      case BoolValue(b) => Some(if b then 1 else 0)
      case _ => None;
    match count
    case None => Step(Fail(Exception("TypeError", "'<' not supported between instances")), shared)
    case Some(i) =>
      if i < 5 then Step(Ok(Labelled(DefaultAction, Some(map["iter" := IntValue(i + 1)]))), shared)
      else Step(Ok(Action("exit")), shared)
  }

  const Hello: Dict := map["message" := StrValue("Hello World!")]

  /** The loop wired as `loop.then(default=loop, exit=hello_world)`. */
  ghost predicate LoopWiring(nodes: set<Node>, loop: Node, hello: Node)
    reads nodes
  {
    && loop in nodes && hello in nodes && Closed(nodes)
    && loop.work == Single(LoopRun) && loop.maxRetries == 1
    && loop.nextNodes == map[DefaultAction := loop, "exit" := hello]
    && hello.work == Single(OutputMessage("Hello World!")) && hello.maxRetries == 0
    && hello.nextNodes == map[]
  }

  /** From `iter == k` the loop goes round `5 - k` more times and then calls
      the message node: the chain is exactly `7 - k` invocations long, ends
      with the message, and leaves the shared context alone. */
  lemma {:induction false} LoopFromIter(nodes: set<Node>, loop: Node, hello: Node, shared: Dict, k: int, fuel: nat)
    requires LoopWiring(nodes, loop, hello)
    requires 0 <= k <= 5
    ensures Invoke(nodes, loop, shared, map["iter" := IntValue(k)], fuel)
         == if fuel >= 7 - k then Call(Returned(Some(Hello)), shared) else Call(OutOfFuel, shared)
    decreases 5 - k
  {
    var args := map["iter" := IntValue(k)];
    if fuel > 0 {
      var op := WorkOp(loop.work, args);
      assert op(shared, 0) == LoopRun(shared, args, 0);
      if k < 5 {
        assert Retried(1, op, shared) == Retry(Ok(Labelled(DefaultAction, Some(map["iter" := IntValue(k + 1)]))), 1, shared);
        LoopFromIter(nodes, loop, hello, shared, k + 1, fuel - 1);
      } else {
        assert Retried(1, op, shared) == Retry(Ok(Action("exit")), 1, shared);
        var hop := WorkOp(hello.work, map[]);
        assert hop(shared, 0) == OutputMessage("Hello World!")(shared, map[], 0);
        assert Retried(0, hop, shared) == Retry(Ok(Payload(Some(Hello))), 1, shared);
      }
    }
  }

  /** Started with no arguments (`iter` defaults to 0), the flow makes six
      loop invocations, five of them self-invocations, then one call of the
      message node, and returns `{"message": "Hello World!"}`. */
  lemma LoopFromStart(nodes: set<Node>, loop: Node, hello: Node, shared: Dict, fuel: nat)
    requires LoopWiring(nodes, loop, hello)
    ensures Invoke(nodes, loop, shared, map[], fuel)
         == if fuel >= 7 then Call(Returned(Some(Hello)), shared) else Call(OutOfFuel, shared)
  {
    if fuel > 0 {
      var op := WorkOp(loop.work, map[]);
      assert op(shared, 0) == LoopRun(shared, map[], 0);
      assert Retried(1, op, shared) == Retry(Ok(Labelled(DefaultAction, Some(map["iter" := IntValue(1)]))), 1, shared);
      LoopFromIter(nodes, loop, hello, shared, 1, fuel - 1);
    }
  }

  /** `example()`: build the two nodes, wire them, and run the flow from the
      loop with an empty shared context. */
  method HelloWorld() returns (result: Call)
    ensures result == Call(Returned(Some(Hello)), map[])
  {
    var loop := new Node(LoopRun, maxRetries := 1);
    var helloWorld := new Node(OutputMessage("Hello World!"));
    var _ := loop.Then(loop, map["exit" := helloWorld]);
    var nodes := {loop, helloWorld};
    LoopFromStart(nodes, loop, helloWorld, map[], 7);
    result := Invoke(nodes, loop, map[], map[], 7);
  }
}
