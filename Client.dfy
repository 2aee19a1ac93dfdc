/**
 * static/script.js: the browser client.  The `#checks` container is a
 * sequence of element values, the socket is the log of strings sent on it,
 * and parsing a message is abstract: `None` when `$.parseJSON` throws or
 * yields a value `for ... of` cannot iterate, otherwise the items iterated.
 */
module Client {
  import opened Wrappers

  /** The one command the client sends. */
  const List: string := "LIST"

  /** `[name, tstamp, [status, out]]`. */
  datatype Record = Record(name: string, tstamp: string, status: string, output: string)

  /**
   * A list element.  `Malformed` is exactly an element on which the
   * `[name, tstamp, [status, out]]` destructuring in `display_list` throws
   * (the element or its third item is not iterable); any other element is a
   * `Wellformed` record holding the text jQuery would set for each field.
   */
  datatype Entry = Wellformed(rec: Record) | Malformed

  /** A `<div>` with its class attribute, its text and its children. */
  datatype Element = Element(cls: string, text: string, children: seq<Element>)

  const Separator: Element := Element("checksep", "", [])

  /** The block rendered for one record; its class is "check ok" whatever the status. */
  function Block(r: Record): Element {
    Element("check ok", "", [Element("c_name", r.name, []), Element("c_name", r.tstamp, []), Element("out", r.output, [])])
  }

  /** The children appended for the given records: a block then a separator for each. */
  function Render(recs: seq<Record>): (elems: seq<Element>)
    ensures |elems| == 2 * |recs|
  {
    if recs == [] then [] else Render(recs[..|recs| - 1]) + [Block(recs[|recs| - 1]), Separator]
  }

  /** The number of leading well-formed entries: the loop throws at the first malformed one. */
  function FirstMalformed(list: seq<Entry>): (n: nat)
    ensures n <= |list|
    ensures forall j :: 0 <= j < n ==> list[j].Wellformed?
    ensures n < |list| ==> list[n].Malformed?
  {
    if list == [] || list[0].Malformed? then 0 else 1 + FirstMalformed(list[1..])
  }

  /** The records of a list of well-formed entries. */
  function Records(list: seq<Entry>): (recs: seq<Record>)
    requires forall j :: 0 <= j < |list| ==> list[j].Wellformed?
    ensures |recs| == |list|
    ensures forall j :: 0 <= j < |list| ==> recs[j] == list[j].rec
  {
    if list == [] then [] else Records(list[..|list| - 1]) + [list[|list| - 1].rec]
  }

  /** The `2i`-th child appended is the `i`-th record's block, the next one a separator. */
  lemma {:induction false} RenderAt(recs: seq<Record>, i: nat)
    requires i < |recs|
    ensures Render(recs)[2 * i] == Block(recs[i]) && Render(recs)[2 * i + 1] == Separator
    decreases |recs|
  {
    if i < |recs| - 1 {
      RenderAt(recs[..|recs| - 1], i);
    }
  }

  /** What `display_list(list)` appends before it finishes or throws. */
  function Rendered(list: seq<Entry>): seq<Element> {
    Render(Records(list[..FirstMalformed(list)]))
  }

  /** Which function sits in `ws.onmessage`: the first handler, or the one installed by it. */
  datatype Handler = Initial | Nested

  /**
   * Everything observable about the client: the container's children, the
   * messages sent, whether the socket is open, and the message handler.
   */
  datatype View = View(checks: seq<Element>, sent: seq<string>, isOpen: bool, onmessage: Handler)

  datatype Phase = AwaitingOpen | Active | Stalled

  function PhaseOf(v: View): Phase {
    if v.onmessage == Nested then Stalled else if v.isOpen then Active else AwaitingOpen
  }

  /** The page as it is loaded, with whatever `#checks` already holds. */
  function Loaded(checks: seq<Element>): View {
    View(checks, [], false, Initial)
  }

  /** `ws.onopen`. */
  function OpenStep(v: View): View {
    v.(sent := v.sent + [List], isOpen := true)
  }

  /**
   * `ws.onmessage(data)`.  The first handler parses, renders, sends LIST and
   * installs the nested handler; an exception (failed parse, malformed
   * entry) stops it where it is.  The nested handler only logs.
   */
  function MessageStep(v: View, data: Option<seq<Entry>>): View {
    match v.onmessage
    case Nested => v
    case Initial =>
      match data
      case None => v
      case Some(list) =>
        var drawn := v.(checks := v.checks + Rendered(list));
        if FirstMalformed(list) == |list| then drawn.(sent := v.sent + [List], onmessage := Nested)
        else drawn
  }

  datatype Event = Open | Message(data: Option<seq<Entry>>)

  /** The view after the socket delivers `events` in order. */
  function Run(v: View, events: seq<Event>): View
    decreases |events|
  {
    if events == [] then v
    else
      var next := match events[0]
        case Open => OpenStep(v)
        case Message(data) => MessageStep(v, data);
      Run(next, events[1..])
  }

  /** The number of `open` events in a trace. */
  function Opens(events: seq<Event>): nat {
    if events == [] then 0 else (if events[0] == Open then 1 else 0) + Opens(events[1..])
  }

  lemma RecordsSnoc(list: seq<Entry>, e: Entry)
    requires forall j :: 0 <= j < |list| ==> list[j].Wellformed?
    requires e.Wellformed?
    ensures Records(list + [e]) == Records(list) + [e.rec]
  {
    assert (list + [e])[..|list|] == list;
  }

  lemma RenderSnoc(recs: seq<Record>, r: Record)
    ensures Render(recs + [r]) == Render(recs) + [Block(r), Separator]
  {
    assert (recs + [r])[..|recs|] == recs;
  }

  /** Rendering one more well-formed entry appends its block and a separator. */
  lemma RenderNext(list: seq<Entry>, i: nat)
    requires i < FirstMalformed(list)
    ensures Render(Records(list[..i + 1])) == Render(Records(list[..i])) + [Block(list[i].rec), Separator]
  {
    assert list[..i + 1] == list[..i] + [list[i]];
    RecordsSnoc(list[..i], list[i]);
    RenderSnoc(Records(list[..i]), list[i].rec);
  }

  class Page {
    var checks: seq<Element>
    var sent: seq<string>
    var isOpen: bool
    var onmessage: Handler

    function ViewOf(): View
      reads this
    {
      View(checks, sent, isOpen, onmessage)
    }

    constructor (checks: seq<Element>)
      ensures ViewOf() == Loaded(checks)
    {
      this.checks := checks;
      sent := [];
      isOpen := false;
      onmessage := Initial;
    }

    /**
     * `display_list(list)`: for each entry in order append its block and a
     * separator; `completed` is false when a malformed entry made it throw.
     */
    method DisplayList(list: seq<Entry>) returns (completed: bool)
      modifies this`checks
      ensures completed <==> forall j :: 0 <= j < |list| ==> list[j].Wellformed?
      ensures checks == old(checks) + Rendered(list)
    {
      var i := 0;
      while i < |list|
        invariant 0 <= i <= FirstMalformed(list)
        invariant checks == old(checks) + Render(Records(list[..i]))
      {
        if list[i].Malformed? {
          assert i == FirstMalformed(list);
          return false;
        }
        var r := list[i].rec;
        RenderNext(list, i);
        checks := checks + [Block(r)];
        checks := checks + [Separator];
        i := i + 1;
      }
      assert list[..i] == list;
      return true;
    }

    method OnOpen()
      modifies this`sent, this`isOpen
      ensures ViewOf() == OpenStep(old(ViewOf()))
    {
      sent := sent + [List];
      isOpen := true;
    }

    method OnMessage(data: Option<seq<Entry>>)
      modifies this`checks, this`sent, this`onmessage
      ensures ViewOf() == MessageStep(old(ViewOf()), data)
    {
      if onmessage == Nested {
        return;
      }
      if data.None? {
        return;
      }
      var list := data.value;
      var completed := DisplayList(list);
      if !completed {
        return;
      }
      sent := sent + [List];
      onmessage := Nested;
    }
  }

  /** Opening sends exactly one LIST and activates a page that is still waiting. */
  lemma OpenSendsList(v: View)
    requires PhaseOf(v) == AwaitingOpen
    ensures OpenStep(v).sent == v.sent + ["LIST"]
    ensures OpenStep(v).checks == v.checks
    ensures PhaseOf(OpenStep(v)) == Active
  {
  }

  /**
   * The first message that parses and is all well formed renders `2N`
   * children in record order, sends one LIST and stalls the client; an
   * empty list renders nothing but still sends LIST.
   */
  lemma FirstMessage(v: View, recs: seq<Record>)
    requires v.onmessage == Initial
    ensures var w := MessageStep(v, Some(seq(|recs|, i requires 0 <= i < |recs| => Wellformed(recs[i]))));
            && |w.checks| == |v.checks| + 2 * |recs|
            && w.checks[..|v.checks|] == v.checks
            && (forall i :: 0 <= i < |recs| ==> w.checks[|v.checks| + 2 * i] == Block(recs[i]) && w.checks[|v.checks| + 2 * i + 1] == Separator)
            && w.sent == v.sent + ["LIST"]
            && w.onmessage == Nested
  {
    var list := seq(|recs|, i requires 0 <= i < |recs| => Wellformed(recs[i]));
    assert list[..FirstMalformed(list)] == list;
    assert Records(list) == recs;
    var w := MessageStep(v, Some(list));
    assert w.checks == v.checks + Render(recs);
    forall i | 0 <= i < |recs|
      ensures w.checks[|v.checks| + 2 * i] == Block(recs[i]) && w.checks[|v.checks| + 2 * i + 1] == Separator
    {
      RenderAt(recs, i);
      assert w.checks[|v.checks| + 2 * i] == Render(recs)[2 * i];
      assert w.checks[|v.checks| + 2 * i + 1] == Render(recs)[2 * i + 1];
    }
  }

  /** A message that fails to parse changes nothing. */
  lemma ParseFailureChangesNothing(v: View)
    ensures MessageStep(v, None) == v
  {
  }

  /**
   * A first message holding a malformed entry renders the entries before
   * it, sends nothing and keeps the first handler.
   */
  lemma MalformedEntryStopsHandler(v: View, list: seq<Entry>)
    requires v.onmessage == Initial
    requires exists j :: 0 <= j < |list| && list[j].Malformed?
    ensures MessageStep(v, Some(list)).checks == v.checks + Rendered(list)
    ensures MessageStep(v, Some(list)).sent == v.sent
    ensures MessageStep(v, Some(list)).onmessage == Initial
  {
  }

  /** Once stalled, no sequence of messages renders or sends anything. */
  lemma {:induction false} StalledStaysStill(v: View, events: seq<Event>)
    requires v.onmessage == Nested
    requires forall k :: 0 <= k < |events| ==> events[k].Message?
    ensures Run(v, events) == v
    decreases |events|
  {
    if events != [] {
      StalledStaysStill(v, events[1..]);
    }
  }

  /** The container only ever grows at its end. */
  lemma {:induction false} AppendOnly(v: View, events: seq<Event>)
    ensures v.checks <= Run(v, events).checks
    decreases |events|
  {
    if events != [] {
      var next := match events[0]
        case Open => OpenStep(v)
        case Message(data) => MessageStep(v, data);
      AppendOnly(next, events[1..]);
    }
  }

  /**
   * Whatever the socket delivers, the client sends nothing but LIST: exactly
   * one per `open`, and at most one more in answer to all the messages together.
   */
  lemma {:induction false} AtMostOneReply(v: View, events: seq<Event>)
    requires forall k :: 0 <= k < |v.sent| ==> v.sent[k] == List
    ensures var w := Run(v, events);
            && v.sent <= w.sent
            && (forall k :: 0 <= k < |w.sent| ==> w.sent[k] == List)
            && |v.sent| + Opens(events) <= |w.sent|
            && |w.sent| <= |v.sent| + Opens(events) + (if v.onmessage == Initial then 1 else 0)
    decreases |events|
  {
    if events != [] {
      var next := match events[0]
        case Open => OpenStep(v)
        case Message(data) => MessageStep(v, data);
      AtMostOneReply(next, events[1..]);
    }
  }
}
