/** Values that flow between nodes, and the three shapes a node's work method
    may return, normalised into a canonical (action label, payload) pair. */
module Shapes {

  datatype Option<+T> = None | Some(value: T)

  /** A Python value as it appears in a payload or in the shared context. */
  datatype Value =
    | NoneValue
    | IntValue(i: int)
    | StrValue(s: string)
    | BoolValue(b: bool)
    | ListValue(items: seq<Value>)
    | DictValue(entries: map<string, Value>)

  /** A string-keyed dictionary: keyword arguments, payloads, the shared context. */
  type Dict = map<string, Value>

  /** `NodeResult = dict[str, Any] | None`. */
  type NodeResult = Option<Dict>

  /** The three shapes a work method may return. */
  datatype RunResult =
    | Payload(result: NodeResult)                 // a bare payload (or None)
    | Labelled(action: string, result: NodeResult) // an (action, payload) tuple
    | Action(name: string)                        // a bare action string

  /** The canonical form every shape is brought into before routing. */
  datatype Routed = Routed(action: string, payload: NodeResult)

  const DefaultAction: string := "default"

  /** Normalisation: a tuple is taken apart, a bare string gets an empty
      payload, anything else is labelled "default". */
  function Normalise(r: RunResult): (n: Routed)
    ensures r.Labelled? ==> n == Routed(r.action, r.result)
    ensures r.Action? ==> n == Routed(r.name, Some(map[]))
    ensures r.Payload? ==> n == Routed(DefaultAction, r.result)
  {
    match r
    case Labelled(a, p) => Routed(a, p)
    case Action(s) => Routed(s, Some(map[]))
    case Payload(p) => Routed(DefaultAction, p)
  }

  /** The explicit tuple form of a result. */
  function AsTuple(n: Routed): RunResult
  {
    Labelled(n.action, n.payload)
  }

  /** Every shape means the same as the explicit tuple it normalises to, so the
      tuple shape is canonical: normalising twice changes nothing. */
  lemma NormaliseIsCanonical(r: RunResult)
    ensures Normalise(AsTuple(Normalise(r))) == Normalise(r)
    ensures r.Labelled? ==> AsTuple(Normalise(r)) == r
  {
  }
}
