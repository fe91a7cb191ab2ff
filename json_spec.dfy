/**
 * What the declarative topology loader (src/json.cpp) does with an already
 * parsed JSON document, stated as functions.
 *
 * The loader walks five top-level sections in a fixed order and, for every
 * well-formed entry, issues one call on a Topology. Those calls are recorded
 * here as a sequence of Commands. The first malformed value raises
 * JsonInvalidTypeException; every call issued before it has already reached
 * the Topology, so a stage's result is the commands issued so far together
 * with the error, if any.
 */
module JsonSpec {
  import opened Base

  /** A parsed JSON value as rapidjson hands it over. Object members keep
      document order and may repeat a name. Numbers are kept as integers:
      the loader only ever asks whether a value is a string. */
  datatype Value =
    | Null
    | Bool(b: bool)
    | Number(n: int)
    | Str(s: string)
    | Array(items: seq<Value>)
    | Object(members: seq<Member>)

  datatype Member = Member(name: string, value: Value)

  /** The calls json.cpp makes on its Topology, in the order it makes them. */
  datatype Command =
    | CreateCap(cap: string, definition: string)
    | CreatePipeline(pipe: string)
    | CreateElement(element: string, factory: string)
    | SetProperty(element: string, property: string, value: string)
    | AssignCap(element: string, filter: string)
    | AddElementToBin(element: string, bin: string)
      // the second argument is the Topology's own GetPipe of the pipe named here
    | SetRtspPipe(rtspPipe: string, pipeOf: string)
    | ConnectPipe(pipe: string, firstElem: string, srcPipe: string, srcLastElem: string)
    | ConnectElements(src: string, dst: string)

  /** Why loading stopped. Every case but ConnectionNotObject is a
      JsonInvalidTypeException; the arguments are exactly the names its
      message mentions. */
  datatype LoadError =
    | CapsNotObject
    | InvalidCap
    | PipesNotObject
      // the message keeps a literal "%s" instead of the pipe's name
    | PipeBodyNotObject
    | ElementBodyNotObject(element: string)
    | MissingType(element: string, pipe: string)
    | TypeNotString(element: string)
    | InvalidProperties(element: string)
    | RtspNotArray
    | RtspNameNotString
    | ConnectionsNotObject
      // rapidjson's HasMember asserts on a non-object: the process aborts
    | ConnectionNotObject(pipe: string)
    | InvalidFirstElem(pipe: string)
    | InvalidSrcPipe(pipe: string)
    | InvalidSrcLastElem(pipe: string)
    | LinksNotArray
    | ChainNotArray
    | LinkEntryNotString
    | LinkTargetNotString(after: string)
  {
    predicate IsTypeException() { !ConnectionNotObject? }
  }

  /** The commands one stage issued, and the error that stopped it, if any. */
  datatype Outcome = Outcome(cmds: seq<Command>, err: Option<LoadError>)

  function Done(cmds: seq<Command>): Outcome { Outcome(cmds, None) }

  function Fail(cmds: seq<Command>, e: LoadError): Outcome { Outcome(cmds, Some(e)) }

  /** Run a, then b unless a threw. */
  function Then(a: Outcome, b: Outcome): Outcome
  {
    if a.err.Some? then a else Outcome(a.cmds + b.cmds, b.err)
  }

  /** An iterator loop: step on every item in order, stopping at the first
      error. ctx carries what the loop body knows about its surroundings
      (the element or pipe being processed). */
  function Fold<C, T>(ctx: C, xs: seq<T>, step: (C, T) -> Outcome): Outcome
    decreases |xs|
  {
    if xs == [] then Done([])
    else Then(Fold(ctx, xs[..|xs| - 1], step), step(ctx, xs[|xs| - 1]))
  }

  /** The string a value holds, or "" for any other value. */
  function Name(v: Value): string
  {
    if v.Str? then v.s else ""
  }

  /** rapidjson's HasMember / operator[]: the position of the first member
      with that name, or |ms| when there is none. */
  function FirstIndex(ms: seq<Member>, key: string): (i: nat)
    ensures i <= |ms|
    ensures forall j :: 0 <= j < i ==> ms[j].name != key
    ensures i < |ms| ==> ms[i].name == key
  {
    if ms == [] then 0
    else if ms[0].name == key then 0
    else 1 + FirstIndex(ms[1..], key)
  }

  function Find(ms: seq<Member>, key: string): Option<Value>
  {
    var i := FirstIndex(ms, key);
    if i < |ms| then Some(ms[i].value) else None
  }

  // ---------------------------------------------------------------- caps

  function CapStep(ctx: (), m: Member): Outcome
  {
    if m.value.Str? then Done([CreateCap(m.name, m.value.s)]) else Fail([], InvalidCap)
  }

  /** Json::GetCaps */
  function CapsStage(root: seq<Member>): Outcome
  {
    match Find(root, "caps")
    case None => Done([])
    case Some(v) => if v.Object? then Fold((), v.members, CapStep) else Fail([], CapsNotObject)
  }

  // ------------------------------------------------------ pipes, elements

  /** One property of element: "type" is already handled, "filter" names a
      cap to assign, anything else is a generic property. */
  function PropertyStep(element: string, m: Member): Outcome
  {
    if !m.value.Str? then Fail([], InvalidProperties(element))
    else if m.name == "type" then Done([])
    else if m.name == "filter" then Done([AssignCap(element, m.value.s)])
    else Done([SetProperty(element, m.name, m.value.s)])
  }

  /** One element of pipe: create it, set its properties, add it to the pipe. */
  function ElementStep(pipe: string, m: Member): Outcome
  {
    if !m.value.Object? then Fail([], ElementBodyNotObject(m.name))
    else
      match Find(m.value.members, "type")
      case None => Fail([], MissingType(m.name, pipe))
      case Some(t) =>
        if !t.Str? then Fail([], TypeNotString(m.name))
        else
          Then(Then(Done([CreateElement(m.name, t.s)]),
                    Fold(m.name, m.value.members, PropertyStep)),
               Done([AddElementToBin(m.name, pipe)]))
  }

  /** One pipe: it is created before its body is checked. */
  function PipeStep(ctx: (), m: Member): Outcome
  {
    Then(Done([CreatePipeline(m.name)]),
         if m.value.Object? then Fold(m.name, m.value.members, ElementStep)
         else Fail([], PipeBodyNotObject))
  }

  /** Json::GetPipelineStructure */
  function PipesStage(root: seq<Member>): Outcome
  {
    match Find(root, "pipes")
    case None => Done([])
    case Some(v) => if v.Object? then Fold((), v.members, PipeStep) else Fail([], PipesNotObject)
  }

  // ---------------------------------------------------------------- rtsp

  function RtspStep(ctx: (), v: Value): Outcome
  {
    if v.Str? then Done([SetRtspPipe(v.s, v.s)]) else Fail([], RtspNameNotString)
  }

  /** Json::GetRtspPipes */
  function RtspStage(root: seq<Member>): Outcome
  {
    match Find(root, "rtsp")
    case None => Done([])
    case Some(v) => if v.Array? then Fold((), v.items, RtspStep) else Fail([], RtspNotArray)
  }

  // --------------------------------------------------------- connections

  function ConnectionStep(ctx: (), m: Member): Outcome
  {
    if !m.value.Object? then Fail([], ConnectionNotObject(m.name))
    else
      var first := Find(m.value.members, "first_elem");
      var srcPipe := Find(m.value.members, "src_pipe");
      var srcLast := Find(m.value.members, "src_last_elem");
      if !(first.Some? && first.value.Str?) then Fail([], InvalidFirstElem(m.name))
      else if !(srcPipe.Some? && srcPipe.value.Str?) then Fail([], InvalidSrcPipe(m.name))
      else if !(srcLast.Some? && srcLast.value.Str?) then Fail([], InvalidSrcLastElem(m.name))
      else Done([ConnectPipe(m.name, first.value.s, srcPipe.value.s, srcLast.value.s)])
  }

  /** Json::GetInterConnections */
  function ConnectionsStage(root: seq<Member>): Outcome
  {
    match Find(root, "connections")
    case None => Done([])
    case Some(v) => if v.Object? then Fold((), v.members, ConnectionStep) else Fail([], ConnectionsNotObject)
  }

  // --------------------------------------------------------------- links

  /** One turn of the while loop over a chain: the element under the
      iterator, and the one after it if the chain goes on. */
  datatype Slot = Slot(src: Value, next: Option<Value>)

  function Slots(items: seq<Value>): seq<Slot>
  {
    seq(|items|, i requires 0 <= i < |items| =>
      Slot(items[i], if i + 1 < |items| then Some(items[i + 1]) else None))
  }

  function SlotStep(ctx: (), sl: Slot): Outcome
  {
    if !sl.src.Str? then Fail([], LinkEntryNotString)
    else
      match sl.next
      case None => Done([])
      case Some(d) =>
        if d.Str? then Done([ConnectElements(sl.src.s, d.s)]) else Fail([], LinkTargetNotString(sl.src.s))
  }

  function ChainStep(ctx: (), chain: Value): Outcome
  {
    if chain.Array? then Fold((), Slots(chain.items), SlotStep) else Fail([], ChainNotArray)
  }

  /** Json::GetConnections */
  function LinksStage(root: seq<Member>): Outcome
  {
    match Find(root, "links")
    case None => Done([])
    case Some(v) => if v.Array? then Fold((), v.items, ChainStep) else Fail([], LinksNotArray)
  }

  // ------------------------------------------------------------ the whole

  /** Json::CreateTopology: caps, pipes and elements, rtsp flags,
      inter-pipe connections, element links. */
  function Translate(root: seq<Member>): Outcome
  {
    Then(Then(Then(Then(CapsStage(root), PipesStage(root)), RtspStage(root)),
              ConnectionsStage(root)),
         LinksStage(root))
  }
}
