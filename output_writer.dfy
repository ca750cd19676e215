/** The output writer: a small state machine over the section being written
    (plain text, a thought block, or a detail block with a topic) that emits
    closing and opening markup whenever the section changes.

    Every `write` call is recorded in a trace. Each entry is tagged with the
    markup or text it stands for; `Rendered` gives the exact characters the
    writer prints, so the tags add a view of the output, not a change to it. */
module Output {
  import opened Shapes

  /** The value of `_state`. */
  datatype Mode = InDefault | InThought | InDetail

  /** One `write` call. */
  datatype Emit =
    | OpenThink
    | CloseThink
    | OpenDetails(topic: string)
    | CloseDetails
    | Text(text: string)

  /** The characters one `write` call prints: text as it is, and every
      marker on a line of its own. */
  function Render(e: Emit): (r: string)
    ensures e.Text? ==> r == e.text
    ensures !e.Text? ==> |r| >= 2 && r[0] == '\n' && r[|r| - 1] == '\n'
  {
    match e
    case OpenThink => "\n<think>\n"
    case CloseThink => "\n</think>\n"
    case OpenDetails(t) => "\n<details><summary><b>" + t + ":</b></summary>\n\n"
    case CloseDetails => "\n</details>\n"
    case Text(s) => s
  }

  /** Everything a trace prints, in order. */
  function Rendered(trace: seq<Emit>): string
  {
    if trace == [] then "" else Render(trace[0]) + Rendered(trace[1..])
  }

  /** Printing a trace in two parts prints the parts one after the other. */
  lemma {:induction false} RenderedAppend(a: seq<Emit>, b: seq<Emit>)
    ensures Rendered(a + b) == Rendered(a) + Rendered(b)
    decreases |a|
  {
    if a == [] {
      assert a + b == b;
    } else {
      assert (a + b)[1..] == a[1..] + b;
      RenderedAppend(a[1..], b);
    }
  }

  /** The markup that leaves a section. */
  function Closer(m: Mode): seq<Emit>
  {
    match m
    case InThought => [CloseThink]
    case InDetail => [CloseDetails]
    case InDefault => []
  }

  /** The markup that enters a section. */
  function Opener(m: Mode, topic: string): seq<Emit>
  {
    match m
    case InThought => [OpenThink]
    case InDetail => [OpenDetails(topic)]
    case InDefault => []
  }

  /** What `_change_state` writes, and the new `_state` and `_topic`. */
  datatype Change = Change(emitted: seq<Emit>, state: Mode, topic: string)

  /** `_change_state(newState, newTopic)` from `(state, topic)`, as written:
      a new state closes the old section, opens the new one and records both
      fields; the same state with another topic closes and reopens a detail
      block but leaves `_topic` as it was. */
  function ChangeState(state: Mode, topic: string, newState: Mode, newTopic: string): (c: Change)
    ensures c.state == newState
    ensures c.emitted == [] <==> state == newState && topic == newTopic
    ensures newState != state ==> c.topic == newTopic
    ensures newState == state ==> c.topic == topic
    ensures newState == state && topic != newTopic ==> c.emitted == [CloseDetails, OpenDetails(newTopic)]
  {
    if newState != state then Change(Closer(state) + Opener(newState, newTopic), newState, newTopic)
    else if topic != newTopic then Change([CloseDetails, OpenDetails(newTopic)], state, topic)
    else Change([], state, topic)
  }

  /** The kind of markup block left open. */
  datatype Block = ThinkBlock | DetailsBlock

  /** The block a section keeps open. */
  function BlockOf(m: Mode): Option<Block>
  {
    match m
    case InDefault => None
    case InThought => Some(ThinkBlock)
    case InDetail => Some(DetailsBlock)
  }

  /** One entry read against the block currently open; None when the entry
      opens a block inside another or closes one that is not open. */
  function Next(open: Option<Block>, e: Emit): Option<Option<Block>>
  {
    match e
    case OpenThink => if open == None then Some(Some(ThinkBlock)) else None
    case OpenDetails(_) => if open == None then Some(Some(DetailsBlock)) else None
    case CloseThink => if open == Some(ThinkBlock) then Some(None) else None
    case CloseDetails => if open == Some(DetailsBlock) then Some(None) else None
    case Text(_) => Some(open)
  }

  /** The block a trace leaves open, or None when its markup is not properly
      nested (an opener inside an open block, a closer with nothing to close). */
  function Scan(trace: seq<Emit>): Option<Option<Block>>
  {
    if trace == [] then Some(None)
    else match Scan(trace[..|trace| - 1])
      case None => None
      case Some(open) => Next(open, trace[|trace| - 1])
  }

  /** Reading one more entry. */
  lemma ScanSnoc(trace: seq<Emit>, e: Emit)
    ensures Scan(trace + [e]) == if Scan(trace).None? then None else Next(Scan(trace).value, e)
  {
    assert (trace + [e])[..|trace|] == trace;
  }

  /** Every section change keeps the output properly nested: if the trace so
      far leaves open exactly the block of the current section, the trace after
      the change leaves open exactly the block of the new section. */
  lemma ChangeKeepsNesting(trace: seq<Emit>, state: Mode, topic: string, newState: Mode, newTopic: string)
    requires Scan(trace) == Some(BlockOf(state))
    requires newState == state && topic != newTopic ==> state == InDetail
    ensures var c := ChangeState(state, topic, newState, newTopic);
      Scan(trace + c.emitted) == Some(BlockOf(c.state))
  {
    var c := ChangeState(state, topic, newState, newTopic);
    if newState != state {
      var closer, opener := Closer(state), Opener(newState, newTopic);
      if closer != [] {
        ScanSnoc(trace, closer[0]);
        assert closer == [closer[0]];
      } else {
        assert trace + closer == trace;
      }
      var mid := trace + closer;
      assert Scan(mid) == Some(None);
      if opener != [] {
        ScanSnoc(mid, opener[0]);
        assert opener == [opener[0]];
      } else {
        assert mid + opener == mid;
      }
      assert trace + c.emitted == mid + opener;
    } else if topic != newTopic {
      ScanSnoc(trace, CloseDetails);
      ScanSnoc(trace + [CloseDetails], OpenDetails(newTopic));
      assert trace + c.emitted == trace + [CloseDetails] + [OpenDetails(newTopic)];
    } else {
      assert trace + c.emitted == trace;
    }
  }

  /** Text never changes which block is open. */
  lemma TextKeepsNesting(trace: seq<Emit>, text: string)
    requires Scan(trace).Some?
    ensures Scan(trace + [Text(text)]) == Scan(trace)
  {
    ScanSnoc(trace, Text(text));
  }

  class OutputWriter {
    var state: Mode
    var topic: string
    /** Every `write` call so far. */
    var trace: seq<Emit>

    /** Outside a detail block the topic is empty, and the markup written so
        far is properly nested and leaves open exactly the current section's
        block. */
    ghost predicate Valid()
      reads this
    {
      && (state != InDetail ==> topic == "")
      && Scan(trace) == Some(BlockOf(state))
    }

    /** A fresh writer is in the default section with no topic and has
        written nothing. */
    constructor ()
      ensures Valid()
      ensures state == InDefault && topic == "" && trace == []
    {
      state := InDefault;
      topic := "";
      trace := [];
    }

    /** `write(text)`: appended to the output and nothing else. */
    method Write(e: Emit)
      modifies this
      ensures trace == old(trace) + [e]
      ensures state == old(state) && topic == old(topic)
    {
      trace := trace + [e];
    }

    /** `_change_state(state, topic)`; the public methods pass an empty topic
        for every section but a detail block. */
    method ChangeStateTo(newState: Mode, newTopic: string := "")
      requires Valid()
      requires newState != InDetail ==> newTopic == ""
      modifies this
      ensures var c := ChangeState(old(state), old(topic), newState, newTopic);
        trace == old(trace) + c.emitted && state == c.state && topic == c.topic
      ensures Valid()
    {
      ChangeKeepsNesting(trace, state, topic, newState, newTopic);
      if newState != state {
        if state == InThought {
          Write(CloseThink);
        } else if state == InDetail {
          Write(CloseDetails);
        }
        if newState == InThought {
          Write(OpenThink);
        } else if newState == InDetail {
          Write(OpenDetails(newTopic));
        }
        state := newState;
        topic := newTopic;
      } else if topic != newTopic {
        Write(CloseDetails);
        Write(OpenDetails(newTopic));
      }
    }

    /** `thought(text, end)`: enter the thought section, then write the text. */
    method Thought(text: string, end: string := "\n")
      requires Valid()
      modifies this
      ensures trace == old(trace) + ChangeState(old(state), old(topic), InThought, "").emitted + [Text(text + end)]
      ensures state == InThought && topic == ""
      ensures Valid()
    {
      ChangeStateTo(InThought);
      TextKeepsNesting(trace, text + end);
      Write(Text(text + end));
    }

    /** `default(text, end)`: back to plain text, then write the text. */
    method Default(text: string, end: string := "\n")
      requires Valid()
      modifies this
      ensures trace == old(trace) + ChangeState(old(state), old(topic), InDefault, "").emitted + [Text(text + end)]
      ensures state == InDefault && topic == ""
      ensures Valid()
    {
      ChangeStateTo(InDefault);
      TextKeepsNesting(trace, text + end);
      Write(Text(text + end));
    }

    /** `detail(topic, text, end)`: enter (or re-open) a detail block for
        `newTopic`, then write the text. */
    method Detail(newTopic: string, text: string, end: string := "\n")
      requires Valid()
      modifies this
      ensures var c := ChangeState(old(state), old(topic), InDetail, newTopic);
        trace == old(trace) + c.emitted + [Text(text + end)] && state == InDetail && topic == c.topic
      ensures Valid()
    {
      ChangeStateTo(InDetail, newTopic);
      TextKeepsNesting(trace, text + end);
      Write(Text(text + end));
    }
  }

  /** Staying in the same section with the same topic writes nothing and
      changes nothing. */
  lemma SameSectionIsSilent(state: Mode, topic: string)
    ensures ChangeState(state, topic, state, topic) == Change([], state, topic)
  {
  }

  /** Leaving a section closes it before the new one is opened: the thought
      closer or the details closer comes first, then the opener (none for the
      default section), and both fields take the new values. */
  lemma LeavingClosesFirst(state: Mode, topic: string, newState: Mode, newTopic: string)
    requires newState != state
    ensures var c := ChangeState(state, topic, newState, newTopic);
      && c.state == newState && c.topic == newTopic
      && |c.emitted| == |Closer(state)| + |Opener(newState, newTopic)|
      && (state == InThought ==> c.emitted[0] == CloseThink)
      && (state == InDetail ==> c.emitted[0] == CloseDetails)
      && (state == InDefault ==> c.emitted == Opener(newState, newTopic))
      && (newState == InThought ==> c.emitted[|c.emitted| - 1] == OpenThink)
      && (newState == InDetail ==> c.emitted[|c.emitted| - 1] == OpenDetails(newTopic))
      && (newState == InDefault ==> c.emitted == Closer(state))
  {
  }

  /** What `thought(text)` prints straight after a detail block: the details
      closer, the think opener, then the text and the line end. */
  lemma ThoughtAfterDetailPrints(topic: string, text: string, end: string)
    ensures Rendered(ChangeState(InDetail, topic, InThought, "").emitted + [Text(text + end)])
         == "\n</details>\n" + "\n<think>\n" + text + end
  {
    var c := ChangeState(InDetail, topic, InThought, "").emitted;
    assert c == [CloseDetails] + [OpenThink];
    forall e: Emit
      ensures Rendered([e]) == Render(e)
    {
      assert [e][1..] == [];
    }
    RenderedAppend([CloseDetails], [OpenThink]);
    RenderedAppend(c, [Text(text + end)]);
  }

  /** The `_topic` left stale by a topic change inside a detail block: after
      `detail("A")` and `detail("B")`, a second `detail("B")` still sees a
      different topic and closes and reopens the block once more, while a
      `detail("A")` writes no markup, so its text lands in the "B" block. */
  lemma StaleTopicReopens()
    ensures var first := ChangeState(InDetail, "A", InDetail, "B");
      && first.topic == "A"
      && ChangeState(first.state, first.topic, InDetail, "B").emitted == [CloseDetails, OpenDetails("B")]
      && ChangeState(first.state, first.topic, InDetail, "A").emitted == []
  {
  }

  /** `_change_state` with `_topic` also recorded on a topic change, as the
      comparison with `self._topic` evidently intends. */
  function ChangeStateFixed(state: Mode, topic: string, newState: Mode, newTopic: string): (c: Change)
    ensures c.state == newState && c.topic == newTopic
    ensures c.emitted == [] <==> state == newState && topic == newTopic
  {
    if newState != state then Change(Closer(state) + Opener(newState, newTopic), newState, newTopic)
    else if topic != newTopic then Change([CloseDetails, OpenDetails(newTopic)], state, newTopic)
    else Change([], state, topic)
  }

  /** With the topic recorded, the writer always knows the section it is in:
      asking for the same section twice writes nothing the second time, and
      the markup written is that of the code as written. */
  lemma FixedChangeIsIdempotent(state: Mode, topic: string, newState: Mode, newTopic: string)
    ensures var c := ChangeStateFixed(state, topic, newState, newTopic);
      && c.state == newState && c.topic == newTopic
      && ChangeStateFixed(c.state, c.topic, newState, newTopic).emitted == []
      && c.emitted == ChangeState(state, topic, newState, newTopic).emitted
  {
  }
}
