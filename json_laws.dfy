/**
 * Properties of the topology loader of src/json.cpp, proved about the
 * functions of JsonSpec.
 */
module JsonLaws {
  import opened Base
  import opened JsonSpec

  // ------------------------------------------------ iterator loops (Fold)

  /** Taking one more item is one more step. */
  lemma FoldPrefix<C, T>(ctx: C, xs: seq<T>, step: (C, T) -> Outcome, i: nat)
    requires i < |xs|
    ensures Fold(ctx, xs[..i + 1], step) == Then(Fold(ctx, xs[..i], step), step(ctx, xs[i]))
  {
    assert xs[..i + 1][..i] == xs[..i];
  }

  /** Once a loop has thrown, later items are never looked at. */
  lemma {:induction false} FoldStopsAtError<C, T>(ctx: C, xs: seq<T>, step: (C, T) -> Outcome, k: nat)
    requires k <= |xs|
    requires Fold(ctx, xs[..k], step).err.Some?
    ensures Fold(ctx, xs, step) == Fold(ctx, xs[..k], step)
    decreases |xs|
  {
    if k < |xs| {
      var n := |xs| - 1;
      assert xs[..n][..k] == xs[..k];
      FoldStopsAtError(ctx, xs[..n], step, k);
    } else {
      assert xs[..k] == xs;
    }
  }

  /** A loop whose first failing item is the i-th: the commands of the items
      before it, then whatever that item issued before it threw. */
  lemma FoldFailsAt<C, T>(ctx: C, xs: seq<T>, step: (C, T) -> Outcome, i: nat)
    requires i < |xs|
    requires Fold(ctx, xs[..i], step).err.None?
    requires step(ctx, xs[i]).err.Some?
    ensures Fold(ctx, xs, step)
         == Outcome(Fold(ctx, xs[..i], step).cmds + step(ctx, xs[i]).cmds, step(ctx, xs[i]).err)
  {
    FoldPrefix(ctx, xs, step, i);
    FoldStopsAtError(ctx, xs, step, i + 1);
  }

  /** One more turn of a loop that has not thrown yet: its commands are
      appended and its error, if any, is the loop's. */
  lemma FoldNext<C, T>(ctx: C, xs: seq<T>, step: (C, T) -> Outcome, i: nat)
    requires i < |xs|
    requires Fold(ctx, xs[..i], step).err.None?
    ensures Fold(ctx, xs[..i + 1], step)
         == Outcome(Fold(ctx, xs[..i], step).cmds + step(ctx, xs[i]).cmds, step(ctx, xs[i]).err)
    ensures step(ctx, xs[i]).err.Some? ==> Fold(ctx, xs, step) == Fold(ctx, xs[..i + 1], step)
  {
    FoldPrefix(ctx, xs, step, i);
    if step(ctx, xs[i]).err.Some? {
      FoldStopsAtError(ctx, xs, step, i + 1);
    }
  }

  /** The log of a loop that has issued the commands of its first i turns
      and then those of turn i. */
  lemma LogNext<C, T>(ctx: C, xs: seq<T>, step: (C, T) -> Outcome, i: nat,
                      base: seq<Command>, before: seq<Command>, after: seq<Command>)
    requires i < |xs|
    requires Fold(ctx, xs[..i], step).err.None?
    requires before == base + Fold(ctx, xs[..i], step).cmds
    requires after == before + step(ctx, xs[i]).cmds
    ensures after == base + Fold(ctx, xs[..i + 1], step).cmds
  {
    FoldPrefix(ctx, xs, step, i);
    var done := Fold(ctx, xs[..i], step).cmds;
    var turn := step(ctx, xs[i]).cmds;
    assert base + done + turn == base + (done + turn);
  }

  /** The log after one stage that did not throw and then another. */
  lemma LogThen(a: Outcome, b: Outcome, base: seq<Command>, before: seq<Command>, after: seq<Command>)
    requires a.err.None?
    requires before == base + a.cmds
    requires after == before + b.cmds
    ensures after == base + Then(a, b).cmds
    ensures Then(a, b).err == b.err
  {
  }

  /** A loop succeeds exactly when every item succeeds. */
  lemma {:induction false} FoldSucceedsIffEveryStep<C, T>(ctx: C, xs: seq<T>, step: (C, T) -> Outcome)
    ensures Fold(ctx, xs, step).err.None? <==> forall x :: x in xs ==> step(ctx, x).err.None?
    decreases |xs|
  {
    if xs != [] {
      var n := |xs| - 1;
      FoldSucceedsIffEveryStep(ctx, xs[..n], step);
      assert xs == xs[..n] + [xs[n]];
    }
  }

  /** A loop whose every item issues exactly one command and succeeds issues
      those commands, one per item, in order. */
  lemma {:induction false} FoldOfSingles<C, T>(ctx: C, xs: seq<T>, step: (C, T) -> Outcome)
    requires forall x :: x in xs ==> step(ctx, x).err.None? && |step(ctx, x).cmds| == 1
    ensures Fold(ctx, xs, step).err.None?
    ensures |Fold(ctx, xs, step).cmds| == |xs|
    ensures forall i :: 0 <= i < |xs| ==> Fold(ctx, xs, step).cmds[i] == step(ctx, xs[i]).cmds[0]
    decreases |xs|
  {
    if xs != [] {
      var n := |xs| - 1;
      assert forall x :: x in xs[..n] ==> x in xs;
      FoldOfSingles(ctx, xs[..n], step);
      assert xs[n] in xs;
    }
  }

  /** Whatever every item's commands have in common, the loop's have too. */
  lemma {:induction false} FoldKeeps<C, T>(ctx: C, xs: seq<T>, step: (C, T) -> Outcome, p: Command -> bool)
    requires forall x, c :: x in xs && c in step(ctx, x).cmds ==> p(c)
    ensures forall c :: c in Fold(ctx, xs, step).cmds ==> p(c)
    decreases |xs|
  {
    if xs != [] {
      var n := |xs| - 1;
      assert forall x :: x in xs[..n] ==> x in xs;
      FoldKeeps(ctx, xs[..n], step, p);
      assert xs[n] in xs;
    }
  }

  // ------------------------------------------------------- stage ordering

  /** The position of each kind of command in CreateTopology's stage order. */
  function Stage(c: Command): nat
  {
    match c
    case CreateCap(_, _) => 0
    case CreatePipeline(_) => 1
    case CreateElement(_, _) => 1
    case SetProperty(_, _, _) => 1
    case AssignCap(_, _) => 1
    case AddElementToBin(_, _) => 1
    case SetRtspPipe(_, _) => 2
    case ConnectPipe(_, _, _, _) => 3
    case ConnectElements(_, _) => 4
  }

  predicate IsCapCommand(c: Command) { Stage(c) == 0 }
  predicate IsStructureCommand(c: Command) { Stage(c) == 1 }
  predicate IsRtspCommand(c: Command) { Stage(c) == 2 }
  predicate IsPipeConnection(c: Command) { Stage(c) == 3 }
  predicate IsElementLink(c: Command) { Stage(c) == 4 }

  predicate InStage(cmds: seq<Command>, s: nat)
  {
    forall c :: c in cmds ==> Stage(c) == s
  }

  /** Commands ordered by stage, none of them past stage s. */
  predicate OrderedUpTo(cmds: seq<Command>, s: nat)
  {
    && (forall i, j :: 0 <= i < j < |cmds| ==> Stage(cmds[i]) <= Stage(cmds[j]))
    && (forall c :: c in cmds ==> Stage(c) <= s)
  }

  lemma ThenOrdered(a: Outcome, b: Outcome, s: nat)
    requires OrderedUpTo(a.cmds, s)
    requires InStage(b.cmds, s)
    ensures OrderedUpTo(Then(a, b).cmds, s)
  {
    if a.err.None? {
      var r := a.cmds + b.cmds;
      forall i, j | 0 <= i < j < |r| ensures Stage(r[i]) <= Stage(r[j]) {
        if i < |a.cmds| {
          assert r[i] in a.cmds;
          if j >= |a.cmds| { assert r[j] in b.cmds; }
        } else {
          assert r[i] in b.cmds && r[j] in b.cmds;
        }
      }
    }
  }

  lemma InStageOrdered(cmds: seq<Command>, s: nat)
    requires InStage(cmds, s)
    ensures OrderedUpTo(cmds, s)
  {
    forall i, j | 0 <= i < j < |cmds| ensures Stage(cmds[i]) <= Stage(cmds[j]) {
      assert cmds[i] in cmds && cmds[j] in cmds;
    }
  }

  lemma ElementInStage(pipe: string, m: Member)
    ensures InStage(ElementStep(pipe, m).cmds, 1)
  {
    if m.value.Object? {
      FoldKeeps(m.name, m.value.members, PropertyStep, IsStructureCommand);
    }
  }

  lemma PipeInStage(m: Member)
    ensures InStage(PipeStep((), m).cmds, 1)
  {
    if m.value.Object? {
      forall e | e in m.value.members ensures InStage(ElementStep(m.name, e).cmds, 1) {
        ElementInStage(m.name, e);
      }
      FoldKeeps(m.name, m.value.members, ElementStep, IsStructureCommand);
    }
  }

  lemma CapsInStage(root: seq<Member>)
    ensures InStage(CapsStage(root).cmds, 0)
  {
    match Find(root, "caps") {
      case None =>
      case Some(v) => if v.Object? { FoldKeeps((), v.members, CapStep, IsCapCommand); }
    }
  }

  lemma PipesInStage(root: seq<Member>)
    ensures InStage(PipesStage(root).cmds, 1)
  {
    match Find(root, "pipes") {
      case None =>
      case Some(v) =>
        if v.Object? {
          forall m | m in v.members ensures InStage(PipeStep((), m).cmds, 1) { PipeInStage(m); }
          FoldKeeps((), v.members, PipeStep, IsStructureCommand);
        }
    }
  }

  lemma RtspInStage(root: seq<Member>)
    ensures InStage(RtspStage(root).cmds, 2)
  {
    match Find(root, "rtsp") {
      case None =>
      case Some(v) => if v.Array? { FoldKeeps((), v.items, RtspStep, IsRtspCommand); }
    }
  }

  lemma ConnectionsInStage(root: seq<Member>)
    ensures InStage(ConnectionsStage(root).cmds, 3)
  {
    match Find(root, "connections") {
      case None =>
      case Some(v) => if v.Object? { FoldKeeps((), v.members, ConnectionStep, IsPipeConnection); }
    }
  }

  lemma LinksInStage(root: seq<Member>)
    ensures InStage(LinksStage(root).cmds, 4)
  {
    match Find(root, "links") {
      case None =>
      case Some(v) =>
        if v.Array? {
          forall ch | ch in v.items ensures InStage(ChainStep((), ch).cmds, 4) {
            if ch.Array? { FoldKeeps((), Slots(ch.items), SlotStep, IsElementLink); }
          }
          FoldKeeps((), v.items, ChainStep, IsElementLink);
        }
    }
  }

  /** CreateTopology runs its stages in a fixed order, so on every input, a
      well-formed one or one it throws on, the commands it issues are caps
      first, then pipes and elements, then rtsp flags, then inter-pipe
      connections, then element links. */
  lemma StagesInOrder(root: seq<Member>)
    ensures forall i, j :: 0 <= i < j < |Translate(root).cmds| ==>
              Stage(Translate(root).cmds[i]) <= Stage(Translate(root).cmds[j])
  {
    var caps, pipes, rtsp, conns, links :=
      CapsStage(root), PipesStage(root), RtspStage(root), ConnectionsStage(root), LinksStage(root);
    CapsInStage(root);
    PipesInStage(root);
    RtspInStage(root);
    ConnectionsInStage(root);
    LinksInStage(root);
    InStageOrdered(caps.cmds, 0);
    ThenOrdered(caps, pipes, 1);
    ThenOrdered(Then(caps, pipes), rtsp, 2);
    ThenOrdered(Then(Then(caps, pipes), rtsp), conns, 3);
    ThenOrdered(Then(Then(Then(caps, pipes), rtsp), conns), links, 4);
  }

  // ----------------------------------------------------- missing sections

  /** A missing top-level section issues nothing and raises nothing; a
      section of the wrong kind throws before its stage issues anything. */
  lemma SectionShapes(root: seq<Member>)
    ensures Find(root, "caps").None? ==> CapsStage(root) == Done([])
    ensures Find(root, "pipes").None? ==> PipesStage(root) == Done([])
    ensures Find(root, "rtsp").None? ==> RtspStage(root) == Done([])
    ensures Find(root, "connections").None? ==> ConnectionsStage(root) == Done([])
    ensures Find(root, "links").None? ==> LinksStage(root) == Done([])
    ensures Find(root, "caps").Some? && !Find(root, "caps").value.Object? ==> CapsStage(root) == Fail([], CapsNotObject)
    ensures Find(root, "pipes").Some? && !Find(root, "pipes").value.Object? ==> PipesStage(root) == Fail([], PipesNotObject)
    ensures Find(root, "rtsp").Some? && !Find(root, "rtsp").value.Array? ==> RtspStage(root) == Fail([], RtspNotArray)
    ensures (Find(root, "connections").Some? && !Find(root, "connections").value.Object?) ==>
      ConnectionsStage(root) == Fail([], ConnectionsNotObject)
    ensures Find(root, "links").Some? && !Find(root, "links").value.Array? ==> LinksStage(root) == Fail([], LinksNotArray)
  {
  }

  /** A document with none of the five sections loads to nothing. */
  lemma EmptyDocumentIssuesNothing(root: seq<Member>)
    requires forall i :: 0 <= i < |root| ==>
      (root[i].name != "caps" && root[i].name != "pipes" && root[i].name != "rtsp"
       && root[i].name != "connections" && root[i].name != "links")
    ensures Translate(root) == Done([])
  {
  }

  /** The first stage that throws ends loading: the later ones issue nothing. */
  lemma WrongCapsKindStopsEverything(root: seq<Member>)
    requires Find(root, "caps").Some? && !Find(root, "caps").value.Object?
    ensures Translate(root) == Fail([], CapsNotObject)
  {
  }

  // ----------------------------------------------------------------- caps

  /** The caps stage succeeds exactly when every cap is string to string, and
      then issues CreateCap(name, value) for each cap in document order. */
  lemma CapsCreateEveryCap(root: seq<Member>, caps: seq<Member>)
    requires Find(root, "caps") == Some(Object(caps))
    ensures CapsStage(root).err.None? <==> forall m :: m in caps ==> m.value.Str?
    ensures (forall m :: m in caps ==> m.value.Str?) ==>
              |CapsStage(root).cmds| == |caps| &&
              forall i :: 0 <= i < |caps| ==> CapsStage(root).cmds[i] == CreateCap(caps[i].name, caps[i].value.s)
  {
    FoldSucceedsIffEveryStep((), caps, CapStep);
    if forall m :: m in caps ==> m.value.Str? {
      FoldOfSingles((), caps, CapStep);
    }
  }

  // ----------------------------------------------------------------- rtsp

  /** The rtsp stage succeeds exactly when every entry is a string, and then
      issues SetRtspPipe(name, GetPipe(name)) for each entry in order. */
  lemma RtspFlagsEveryEntry(root: seq<Member>, names: seq<Value>)
    requires Find(root, "rtsp") == Some(Array(names))
    ensures RtspStage(root).err.None? <==> forall v :: v in names ==> v.Str?
    ensures (forall v :: v in names ==> v.Str?) ==>
              |RtspStage(root).cmds| == |names| &&
              forall i :: 0 <= i < |names| ==> RtspStage(root).cmds[i] == SetRtspPipe(names[i].s, names[i].s)
  {
    FoldSucceedsIffEveryStep((), names, RtspStep);
    if forall v :: v in names ==> v.Str? {
      FoldOfSingles((), names, RtspStep);
    }
  }

  // ---------------------------------------------------------- connections

  /** An entry of "connections" with string first_elem, src_pipe and
      src_last_elem. */
  predicate WellFormedConnection(m: Member)
  {
    && m.value.Object?
    && Find(m.value.members, "first_elem").Some? && Find(m.value.members, "first_elem").value.Str?
    && Find(m.value.members, "src_pipe").Some? && Find(m.value.members, "src_pipe").value.Str?
    && Find(m.value.members, "src_last_elem").Some? && Find(m.value.members, "src_last_elem").value.Str?
  }

  /** The ConnectPipe call a well-formed entry makes:
      (pipe_name, first_elem, src_pipe, src_last_elem). */
  function PipeConnection(m: Member): Command
    requires WellFormedConnection(m)
  {
    ConnectPipe(m.name,
                Find(m.value.members, "first_elem").value.s,
                Find(m.value.members, "src_pipe").value.s,
                Find(m.value.members, "src_last_elem").value.s)
  }

  /** The connections stage succeeds exactly when every entry is well formed;
      then it issues, per entry and in order,
      ConnectPipe(pipe, first_elem, src_pipe, src_last_elem). A malformed entry
      throws before its ConnectPipe. */
  lemma ConnectionsConnectEveryPipe(root: seq<Member>, conns: seq<Member>)
    requires Find(root, "connections") == Some(Object(conns))
    ensures ConnectionsStage(root).err.None? <==> forall i :: 0 <= i < |conns| ==> WellFormedConnection(conns[i])
    ensures (forall i :: 0 <= i < |conns| ==> WellFormedConnection(conns[i])) ==>
              |ConnectionsStage(root).cmds| == |conns| &&
              forall i :: 0 <= i < |conns| ==>
                WellFormedConnection(conns[i]) && ConnectionsStage(root).cmds[i] == PipeConnection(conns[i])
    ensures forall m :: m in conns && !WellFormedConnection(m) ==> ConnectionStep((), m).cmds == []
  {
    forall m | m in conns
      ensures ConnectionStep((), m).err.None? <==> WellFormedConnection(m)
      ensures WellFormedConnection(m) ==> ConnectionStep((), m) == Done([PipeConnection(m)])
      ensures !WellFormedConnection(m) ==> ConnectionStep((), m).cmds == []
    {
      ConnectionStepShape(m);
    }
    FoldSucceedsIffEveryStep((), conns, ConnectionStep);
    if forall i :: 0 <= i < |conns| ==> WellFormedConnection(conns[i]) {
      assert forall m :: m in conns ==> WellFormedConnection(m);
      FoldOfSingles((), conns, ConnectionStep);
    }
  }

  lemma ConnectionStepShape(m: Member)
    ensures ConnectionStep((), m).err.None? <==> WellFormedConnection(m)
    ensures WellFormedConnection(m) ==> ConnectionStep((), m) == Done([PipeConnection(m)])
    ensures !WellFormedConnection(m) ==> ConnectionStep((), m).cmds == []
  {
  }

  // ------------------------------------------------------------ elements

  /** The command one property issues: "type" is skipped, "filter" assigns
      a cap, anything else sets a property. */
  function PropertyCommand(element: string, m: Member): seq<Command>
  {
    if m.name == "type" then []
    else if m.name == "filter" then [AssignCap(element, Name(m.value))]
    else [SetProperty(element, m.name, Name(m.value))]
  }

  /** The commands an element's properties issue, read front to back. */
  function PropertyCommands(element: string, ms: seq<Member>): seq<Command>
  {
    if ms == [] then [] else PropertyCommand(element, ms[0]) + PropertyCommands(element, ms[1..])
  }

  lemma {:induction false} PropertyCommandsAppend(element: string, a: seq<Member>, b: seq<Member>)
    ensures PropertyCommands(element, a + b) == PropertyCommands(element, a) + PropertyCommands(element, b)
  {
    if a == [] {
      assert a + b == b;
    } else {
      assert (a + b)[0] == a[0];
      assert (a + b)[1..] == a[1..] + b;
      PropertyCommandsAppend(element, a[1..], b);
    }
  }

  /** With string values only, the property loop issues PropertyCommands. */
  lemma {:induction false} PropertiesIssueCommands(element: string, ms: seq<Member>)
    requires forall m :: m in ms ==> m.value.Str?
    ensures Fold(element, ms, PropertyStep) == Done(PropertyCommands(element, ms))
    decreases |ms|
  {
    if ms != [] {
      var n := |ms| - 1;
      assert forall m :: m in ms[..n] ==> m in ms;
      PropertiesIssueCommands(element, ms[..n]);
      assert ms == ms[..n] + [ms[n]];
      PropertyCommandsAppend(element, ms[..n], [ms[n]]);
      assert [ms[n]][1..] == [];
      assert PropertyCommands(element, [ms[n]]) == PropertyCommand(element, ms[n]);
      assert ms[n] in ms;
      assert PropertyStep(element, ms[n]) == Done(PropertyCommand(element, ms[n]));
    }
  }

  /** A well-formed element: CreateElement(name, type) first, then one
      AssignCap or SetProperty per property other than "type", in document
      order, and AddElementToBin only after all of them. */
  lemma WellFormedElementCommands(pipe: string, m: Member, factory: string)
    requires m.value.Object?
    requires Find(m.value.members, "type") == Some(Str(factory))
    requires forall p :: p in m.value.members ==> p.value.Str?
    ensures ElementStep(pipe, m)
         == Done([CreateElement(m.name, factory)] + PropertyCommands(m.name, m.value.members)
                 + [AddElementToBin(m.name, pipe)])
  {
    PropertiesIssueCommands(m.name, m.value.members);
  }

  /** A property whose value is not a string stops the element after the
      commands of the properties before it: the element was created but is
      never added to its pipe. */
  lemma MalformedPropertyStopsElement(pipe: string, m: Member, factory: string, k: nat)
    requires m.value.Object?
    requires Find(m.value.members, "type") == Some(Str(factory))
    requires k < |m.value.members|
    requires forall i :: 0 <= i < k ==> m.value.members[i].value.Str?
    requires !m.value.members[k].value.Str?
    ensures ElementStep(pipe, m)
         == Fail([CreateElement(m.name, factory)] + PropertyCommands(m.name, m.value.members[..k]),
                 InvalidProperties(m.name))
    ensures forall c :: c in ElementStep(pipe, m).cmds ==> !c.AddElementToBin?
  {
    var ms := m.value.members;
    PropertiesIssueCommands(m.name, ms[..k]);
    FoldFailsAt(m.name, ms, PropertyStep, k);
    var r := ElementStep(pipe, m);
    forall c | c in PropertyCommands(m.name, ms[..k]) ensures !c.AddElementToBin? {
      PropertyCommandsNeverAdd(m.name, ms[..k], c);
    }
  }

  lemma {:induction false} PropertyCommandsNeverAdd(element: string, ms: seq<Member>, c: Command)
    requires c in PropertyCommands(element, ms)
    ensures c.AssignCap? || c.SetProperty?
  {
    if c !in PropertyCommand(element, ms[0]) {
      PropertyCommandsNeverAdd(element, ms[1..], c);
    }
  }

  // ---------------------------------------------------------------- pipes

  /** An element whose body is not an object, or whose "type" is missing
      or not a string: the checks that run before CreateElement. */
  predicate MalformedElementHead(m: Member)
  {
    !m.value.Object? || Find(m.value.members, "type").None? || !Find(m.value.members, "type").value.Str?
  }

  /** The body and "type" of an element are checked before anything is
      issued for it: an element issues no command at all exactly when one
      of those checks throws, and then it throws the error of the first
      check that fails. */
  lemma ElementTypeRequired(pipe: string, m: Member)
    ensures MalformedElementHead(m) <==> ElementStep(pipe, m).cmds == []
    ensures !m.value.Object? ==> ElementStep(pipe, m).err == Some(ElementBodyNotObject(m.name))
    ensures m.value.Object? && Find(m.value.members, "type").None? ==>
              ElementStep(pipe, m).err == Some(MissingType(m.name, pipe))
    ensures m.value.Object? && Find(m.value.members, "type").Some? && !Find(m.value.members, "type").value.Str? ==>
              ElementStep(pipe, m).err == Some(TypeNotString(m.name))
  {
    if !MalformedElementHead(m) {
      var t := Find(m.value.members, "type").value;
      var props := Fold(m.name, m.value.members, PropertyStep);
      assert Then(Done([CreateElement(m.name, t.s)]), props).cmds[0] == CreateElement(m.name, t.s);
    }
  }

  /** In a pipe whose elements before the k-th loaded, a k-th element with
      a malformed body or "type" stops the pipe: the pipe and the earlier
      elements were issued, and nothing for the k-th or any later one. */
  lemma MalformedElementStopsPipe(m: Member, k: nat)
    requires m.value.Object? && k < |m.value.members|
    requires Fold(m.name, m.value.members[..k], ElementStep).err.None?
    requires MalformedElementHead(m.value.members[k])
    ensures PipeStep((), m)
         == Outcome([CreatePipeline(m.name)] + Fold(m.name, m.value.members[..k], ElementStep).cmds,
                    ElementStep(m.name, m.value.members[k]).err)
    ensures PipeStep((), m).err.Some?
  {
    var es := m.value.members;
    ElementTypeRequired(m.name, es[k]);
    FoldFailsAt(m.name, es, ElementStep, k);
    assert Fold(m.name, m.value.members[..k], ElementStep).cmds + [] == Fold(m.name, m.value.members[..k], ElementStep).cmds;
  }

  /** CreatePipeline is issued before the pipe's body is checked: when the
      pipes before the k-th loaded and the k-th has a body that is not an
      object, that pipe is created after the earlier pipes' commands and
      then loading throws. */
  lemma PipeCreatedBeforeBodyCheck(root: seq<Member>, pipes: seq<Member>, k: nat)
    requires Find(root, "pipes") == Some(Object(pipes))
    requires k < |pipes|
    requires Fold((), pipes[..k], PipeStep).err.None?
    requires !pipes[k].value.Object?
    ensures PipesStage(root)
         == Fail(Fold((), pipes[..k], PipeStep).cmds + [CreatePipeline(pipes[k].name)], PipeBodyNotObject)
  {
    assert PipeStep((), pipes[k]) == Fail([CreatePipeline(pipes[k].name)], PipeBodyNotObject);
    FoldFailsAt((), pipes, PipeStep, k);
  }

  // ---------------------------------------------------------------- links

  /** ConnectElements(items[i], items[i+1]) for every i < k. */
  function LinkPairs(items: seq<Value>, k: nat): (r: seq<Command>)
    requires k < |items|
  {
    seq(k, i requires 0 <= i < k => ConnectElements(Name(items[i]), Name(items[i + 1])))
  }

  lemma {:induction false} ChainPrefix(items: seq<Value>, k: nat)
    requires k < |items|
    requires forall i :: 0 <= i <= k ==> items[i].Str?
    ensures Fold((), Slots(items)[..k], SlotStep) == Done(LinkPairs(items, k))
  {
    if k > 0 {
      ChainPrefix(items, k - 1);
      FoldPrefix((), Slots(items), SlotStep, k - 1);
      assert LinkPairs(items, k) == LinkPairs(items, k - 1) + [ConnectElements(items[k - 1].s, items[k].s)];
    } else {
      assert Slots(items)[..0] == [];
    }
  }

  /** A chain [n0, ..., nk] of names issues exactly ConnectElements(n_i, n_i+1)
      for every i < k, in order; a chain of one name or none issues nothing. */
  lemma ChainLinksNeighbours(items: seq<Value>)
    requires forall i :: 0 <= i < |items| ==> items[i].Str?
    ensures ChainStep((), Array(items)).err.None?
    ensures |ChainStep((), Array(items)).cmds| == if items == [] then 0 else |items| - 1
    ensures forall i :: 0 <= i < |ChainStep((), Array(items)).cmds| ==>
              ChainStep((), Array(items)).cmds[i] == ConnectElements(items[i].s, items[i + 1].s)
  {
    if items != [] {
      var n := |items| - 1;
      ChainPrefix(items, n);
      FoldPrefix((), Slots(items), SlotStep, n);
      assert Slots(items)[..n + 1] == Slots(items);
    }
  }

  /** A chain whose first non-string is items[k] throws there: at the head
      of the chain before anything is linked, or after the links of the
      names before it. */
  lemma ChainStopsAtNonString(items: seq<Value>, k: nat)
    requires k < |items|
    requires forall i :: 0 <= i < k ==> items[i].Str?
    requires !items[k].Str?
    ensures ChainStep((), Array(items)).err
         == Some(if k == 0 then LinkEntryNotString else LinkTargetNotString(items[k - 1].s))
    ensures |ChainStep((), Array(items)).cmds| == if k == 0 then 0 else k - 1
    ensures forall i :: 0 <= i < |ChainStep((), Array(items)).cmds| ==>
              ChainStep((), Array(items)).cmds[i] == ConnectElements(items[i].s, items[i + 1].s)
  {
    var sl := Slots(items);
    if k == 0 {
      assert sl[..0] == [];
      assert SlotStep((), sl[0]) == Fail([], LinkEntryNotString);
      FoldFailsAt((), sl, SlotStep, 0);
    } else {
      ChainPrefix(items, k - 1);
      assert sl[k - 1] == Slot(items[k - 1], Some(items[k]));
      assert SlotStep((), sl[k - 1]) == Fail([], LinkTargetNotString(items[k - 1].s));
      FoldFailsAt((), sl, SlotStep, k - 1);
      var r := Fold((), sl, SlotStep);
      assert r == Fail(LinkPairs(items, k - 1), LinkTargetNotString(items[k - 1].s));
    }
  }

  /** A link chain that is not an array throws before linking anything of
      its own: when the chains before the k-th linked and the k-th is not
      an array, the links stage ends with their commands and that error. */
  lemma ChainMustBeArray(root: seq<Member>, chains: seq<Value>, k: nat)
    requires Find(root, "links") == Some(Array(chains))
    requires k < |chains|
    requires Fold((), chains[..k], ChainStep).err.None?
    requires !chains[k].Array?
    ensures LinksStage(root) == Fail(Fold((), chains[..k], ChainStep).cmds, ChainNotArray)
  {
    FoldFailsAt((), chains, ChainStep, k);
    assert Fold((), chains[..k], ChainStep).cmds + [] == Fold((), chains[..k], ChainStep).cmds;
  }
}
