/**
 * The hard-coded tables of Topology::LoadJson (src/topology.cpp) are
 * consistent: every name the pipe, link and gateway tables use is declared
 * in the element table. Hence once every factory is installed the pipes
 * always fill, and LoadJson registers no name outside its tables.
 */
module RegistryTables {
  import opened Base
  import opened Gst
  import opened RegistrySpec
  import opened RegistryLaws

  /** The names the element table declares. */
  const DeclaredNames: set<string> := {
    "source0", "tee0", "queue0", "valve0", "convert0",
    "sink0", "queue1", "valve1", "scale1", "videorate1",
    "vaapiproc1", "vaapienc1", "h264pay1", "queue2", "valve2",
    "scale2", "videorate2", "convert2", "theoraenc2", "theorapay2",
    "source_test", "sink_test", "source_rtsp", "conv_rtsp", "encode_rtsp",
    "pay_test"}

  const PipeNames: set<string> := {"main_pipe", "pipe_test"}
  const RtspPipeNames: set<string> := {"rtsp_h264", "rtsp_theora", "pipe_rtsp"}

  /** The names of the element table, in table order. */
  const ElementNames: seq<string> := [
    "source0", "tee0", "queue0", "valve0", "convert0",
    "sink0", "queue1", "valve1", "scale1", "videorate1",
    "vaapiproc1", "vaapienc1", "h264pay1", "queue2", "valve2",
    "scale2", "videorate2", "convert2", "theoraenc2", "theorapay2",
    "source_test", "sink_test", "source_rtsp", "conv_rtsp", "encode_rtsp",
    "pay_test"]

  /** The element table's rows carry ElementNames, row by row. */
  lemma ElementNamesListed()
    ensures |RawElements| == |ElementNames|
    ensures forall i :: 0 <= i < |RawElements| ==> RawElements[i].0 == ElementNames[i]
  {
  }

  /** Every name of the element table is in DeclaredNames. */
  lemma TableNamesDeclared()
    ensures forall x :: x in RawElements ==> x.0 in DeclaredNames
  {
    ElementNamesListed();
    forall x | x in RawElements
      ensures x.0 in DeclaredNames
    {
      var i :| 0 <= i < |RawElements| && RawElements[i] == x;
      assert ElementNames[i] == x.0;
    }
  }

  /** Every name in DeclaredNames is a name of the element table. */
  lemma DeclaredNamesInTable()
    ensures forall n :: n in DeclaredNames ==> exists i :: 0 <= i < |RawElements| && RawElements[i].0 == n
  {
    ElementNamesListed();
    forall n | n in DeclaredNames
      ensures exists i :: 0 <= i < |RawElements| && RawElements[i].0 == n
    {
      assert n in ElementNames;
      var i :| 0 <= i < |ElementNames| && ElementNames[i] == n;
      assert RawElements[i].0 == n;
    }
  }

  /** Every name the pipe tables put into a bin is declared, and the pipes
      are registered under the names PipeNames and RtspPipeNames list. */
  lemma PipeTablesDeclared()
    ensures forall x, n :: x in RawPipes && n in x.1 ==> n in DeclaredNames
    ensures forall x, n :: x in RawRtspPipes && n in x.1 ==> n in DeclaredNames
    ensures forall x :: x in RawPipes ==> x.0 in PipeNames
    ensures forall x :: x in RawRtspPipes ==> x.0 in RtspPipeNames
  {
  }

  /** Both ends of every link are declared. */
  lemma LinkTablesDeclared()
    ensures forall x :: x in RawLinks ==> x.0 in DeclaredNames && x.1 in DeclaredNames
    ensures forall x :: x in RawCapLinks ==> x.0 in DeclaredNames && x.1 in DeclaredNames
  {
  }

  /** The gateways tap pipes and feed RTSP pipes that the pipe tables
      build, at declared elements. */
  lemma GatewayTableDeclared()
    ensures forall x :: x in RawRtspConnections ==>
              x.0 in RtspPipeNames && x.1.0 in PipeNames && x.1.1 in DeclaredNames && x.1.2 in DeclaredNames
  {
  }

  // --------------------------------------------- the pipes always fill

  /** Every declared name is registered as an element. */
  predicate AllCreated(w: World)
  {
    forall i :: 0 <= i < |RawElements| ==> Lookup(w.elements, RawElements[i].0).IsElement()
  }

  /** A loop whose every step succeeds and keeps p succeeds and keeps p. */
  lemma {:induction false} SeqnSucceeds<C, T>(ctx: C, w: World, xs: seq<T>, step: (C, World, T) -> Run,
                                               p: World -> bool)
    requires p(w)
    requires forall v, x :: p(v) && x in xs ==> step(ctx, v, x).ok && p(step(ctx, v, x).w)
    ensures Seqn(ctx, w, xs, step).ok && p(Seqn(ctx, w, xs, step).w)
    decreases |xs|
  {
    if xs != [] {
      var n := |xs| - 1;
      assert forall x :: x in xs[..n] ==> x in xs;
      SeqnSucceeds(ctx, w, xs[..n], step, p);
      assert xs[n] in xs;
    }
  }

  lemma MemberStepKeepsCreated(pipe: Ref, names: seq<string>, w: World)
    requires AllCreated(w)
    ensures AllCreated(Seqn(pipe, w, names, MemberStep).w)
  {
    forall v, n | AllCreated(v) && n in names ensures AllCreated(MemberStep(pipe, v, n).w) {
      TouchKeepsLookups(v.elements, n);
    }
    SeqnKeeps(pipe, w, names, MemberStep, (v: World) => AllCreated(v));
  }

  /** With every declared name an element, filling a pipe of either table
      succeeds. */
  lemma FillSucceeds(pipe: Ref, w: World, names: seq<string>)
    requires pipe.IsPipeline() && pipe in w.bins
    requires AllCreated(w)
    requires forall n :: n in names ==> n in DeclaredNames
    ensures Seqn(pipe, w, names, MemberStep).ok
  {
    DeclaredNamesInTable();
    forall i | 0 <= i < |names| ensures Lookup(w.elements, names[i]).IsElement() {
      assert names[i] in names;
    }
    MembersSucceedIffDeclared(pipe, w, names);
  }

  /** Once every factory is installed, element creation succeeds and the
      pipe and RTSP pipe tables fill without failure: LoadJson can then
      fail only at a link or a gateway. */
  lemma PipesFollowElements(o: Oracle, w0: World)
    requires forall i :: 0 <= i < |RawElements| ==> o.canMake(RawElements[i].1)
    ensures Seqn(o, w0.(caps := InitialCaps), RawElements, CreateStep).ok
    ensures Seqn((), Tune(Seqn(o, w0.(caps := InitialCaps), RawElements, CreateStep).w), RawPipes, PipeStep).ok
    ensures Seqn((), Seqn((), Tune(Seqn(o, w0.(caps := InitialCaps), RawElements, CreateStep).w),
                          RawPipes, PipeStep).w,
                 RawRtspPipes, RtspPipeStep).ok
  {
    var made := Seqn(o, w0.(caps := InitialCaps), RawElements, CreateStep);
    CreateSucceedsIffAllFactories(o, w0.(caps := InitialCaps), RawElements);
    assert AllCreated(made.w);
    TuneKeepsLookups(made.w);
    var tuned := Tune(made.w);
    assert AllCreated(tuned);
    PipeTablesDeclared();
    forall v, x | AllCreated(v) && x in RawPipes
      ensures PipeStep((), v, x).ok && AllCreated(PipeStep((), v, x).w)
    {
      var p := Pipeline(x.0);
      var v1 := v.(pipes := v.pipes[x.0 := p], bins := v.bins[p := {}]);
      assert AllCreated(v1);
      FillSucceeds(p, v1, x.1);
      MemberStepKeepsCreated(p, x.1, v1);
    }
    SeqnSucceeds((), tuned, RawPipes, PipeStep, (v: World) => AllCreated(v));
    var piped := Seqn((), tuned, RawPipes, PipeStep);
    forall v, x | AllCreated(v) && x in RawRtspPipes
      ensures RtspPipeStep((), v, x).ok && AllCreated(RtspPipeStep((), v, x).w)
    {
      var p := Pipeline(x.0);
      var v1 := v.(rtspPipes := v.rtspPipes[x.0 := p], bins := v.bins[p := {}]);
      assert AllCreated(v1);
      FillSucceeds(p, v1, x.1);
      MemberStepKeepsCreated(p, x.1, v1);
    }
    SeqnSucceeds((), piped.w, RawRtspPipes, RtspPipeStep, (v: World) => AllCreated(v));
  }

  /** Setting a property looks the name up but changes no lookup. */
  lemma SetOnKeepsLookups(w: World, name: string, key: string, value: string)
    ensures forall y :: Lookup(SetOn(w, name, key, value).elements, y) == Lookup(w.elements, y)
    ensures SetOn(w, name, key, value).elements.Keys == w.elements.Keys + {name}
    ensures SetOn(w, name, key, value).pipes == w.pipes
    ensures SetOn(w, name, key, value).rtspPipes == w.rtspPipes
  {
    TouchKeepsLookups(w.elements, name);
  }

  /** Setting the properties looks names up but changes no lookup. */
  lemma TuneKeepsLookups(w: World)
    ensures forall y :: Lookup(Tune(w).elements, y) == Lookup(w.elements, y)
    ensures Tune(w).pipes == w.pipes && Tune(w).rtspPipes == w.rtspPipes
  {
    var a := SetOn(w, "h264pay1", "pt", "96");
    var b := SetOn(a, "h264pay1", "name", "pay0");
    var c := SetOn(b, "theorapay2", "pt", "96");
    var d := SetOn(c, "theorapay2", "name", "pay0");
    var e := SetOn(d, "pay_test", "pt", "96");
    var f := SetOn(e, "pay_test", "name", "pay0");
    var g := SetOn(f, "source_test", "pattern", "18");
    SetOnKeepsLookups(w, "h264pay1", "pt", "96");
    SetOnKeepsLookups(a, "h264pay1", "name", "pay0");
    SetOnKeepsLookups(b, "theorapay2", "pt", "96");
    SetOnKeepsLookups(c, "theorapay2", "name", "pay0");
    SetOnKeepsLookups(d, "pay_test", "pt", "96");
    SetOnKeepsLookups(e, "pay_test", "name", "pay0");
    SetOnKeepsLookups(f, "source_test", "pattern", "18");
    SetOnKeepsLookups(g, "source_test", "is-live", "TRUE");
  }

  // -------------------------------------- what LoadJson can register

  /** The registries hold no name but those they started with and those of
      the tables. */
  predicate Within(w: World, w0: World)
  {
    && w.elements.Keys <= w0.elements.Keys + DeclaredNames
    && w.pipes.Keys <= w0.pipes.Keys + PipeNames
    && w.rtspPipes.Keys <= w0.rtspPipes.Keys + RtspPipeNames
  }

  lemma MembersStayWithin(pipe: Ref, w: World, names: seq<string>, w0: World)
    requires Within(w, w0)
    requires forall n :: n in names ==> n in DeclaredNames
    ensures Within(Seqn(pipe, w, names, MemberStep).w, w0)
  {
    SeqnKeeps(pipe, w, names, MemberStep, (v: World) => Within(v, w0));
  }

  /** Element creation and the property settings stay within the tables. */
  lemma ElementsStayWithin(o: Oracle, w0: World)
    ensures Within(Seqn(o, w0.(caps := InitialCaps), RawElements, CreateStep).w, w0)
    ensures Within(Tune(Seqn(o, w0.(caps := InitialCaps), RawElements, CreateStep).w), w0)
  {
    TableNamesDeclared();
    SeqnKeeps(o, w0.(caps := InitialCaps), RawElements, CreateStep, (v: World) => Within(v, w0));
    TuneStaysWithin(Seqn(o, w0.(caps := InitialCaps), RawElements, CreateStep).w, w0);
  }

  /** Setting a property on a declared name stays within the tables. */
  lemma SetOnStaysWithin(w: World, w0: World, name: string, key: string, value: string)
    requires Within(w, w0) && name in DeclaredNames
    ensures Within(SetOn(w, name, key, value), w0)
  {
    SetOnKeepsLookups(w, name, key, value);
  }

  lemma TuneStaysWithin(w: World, w0: World)
    requires Within(w, w0)
    ensures Within(Tune(w), w0)
  {
    var a := SetOn(w, "h264pay1", "pt", "96");
    var b := SetOn(a, "h264pay1", "name", "pay0");
    var c := SetOn(b, "theorapay2", "pt", "96");
    var d := SetOn(c, "theorapay2", "name", "pay0");
    var e := SetOn(d, "pay_test", "pt", "96");
    var f := SetOn(e, "pay_test", "name", "pay0");
    var g := SetOn(f, "source_test", "pattern", "18");
    SetOnStaysWithin(w, w0, "h264pay1", "pt", "96");
    SetOnStaysWithin(a, w0, "h264pay1", "name", "pay0");
    SetOnStaysWithin(b, w0, "theorapay2", "pt", "96");
    SetOnStaysWithin(c, w0, "theorapay2", "name", "pay0");
    SetOnStaysWithin(d, w0, "pay_test", "pt", "96");
    SetOnStaysWithin(e, w0, "pay_test", "name", "pay0");
    SetOnStaysWithin(f, w0, "source_test", "pattern", "18");
    SetOnStaysWithin(g, w0, "source_test", "is-live", "TRUE");
  }

  /** Filling the pipe tables stays within the tables. */
  lemma PipesStayWithin(w: World, w0: World)
    requires Within(w, w0)
    ensures Within(Seqn((), w, RawPipes, PipeStep).w, w0)
    ensures Within(Seqn((), w, RawRtspPipes, RtspPipeStep).w, w0)
  {
    PipeTablesDeclared();
    forall v, x | Within(v, w0) && x in RawPipes ensures Within(PipeStep((), v, x).w, w0) {
      var p := Pipeline(x.0);
      MembersStayWithin(p, v.(pipes := v.pipes[x.0 := p], bins := v.bins[p := {}]), x.1, w0);
    }
    SeqnKeeps((), w, RawPipes, PipeStep, (v: World) => Within(v, w0));
    forall v, x | Within(v, w0) && x in RawRtspPipes ensures Within(RtspPipeStep((), v, x).w, w0) {
      var p := Pipeline(x.0);
      MembersStayWithin(p, v.(rtspPipes := v.rtspPipes[x.0 := p], bins := v.bins[p := {}]), x.1, w0);
    }
    SeqnKeeps((), w, RawRtspPipes, RtspPipeStep, (v: World) => Within(v, w0));
  }

  /** A link looks up its two ends and changes no registry otherwise. */
  lemma LinkWithKeys(o: Oracle, w: World, a: string, b: string, filter: Option<Caps>)
    ensures var r := LinkWith(o, w, a, b, filter).w;
      r.elements.Keys == w.elements.Keys + {a, b} && r.pipes == w.pipes && r.rtspPipes == w.rtspPipes
  {
    var r := LinkWith(o, w, a, b, filter);
  }

  /** Plain links stay within the tables. */
  lemma LinksStayWithin(o: Oracle, w: World, w0: World)
    requires Within(w, w0)
    ensures Within(Seqn(o, w, RawLinks, LinkStep).w, w0)
  {
    LinkTablesDeclared();
    forall v, x | Within(v, w0) && x in RawLinks ensures Within(LinkStep(o, v, x).w, w0) {
      LinkWithKeys(o, v, x.0, x.1, None);
    }
    SeqnKeeps(o, w, RawLinks, LinkStep, (v: World) => Within(v, w0));
  }

  /** Caps links stay within the tables. */
  lemma CapLinksStayWithin(o: Oracle, w: World, w0: World)
    requires Within(w, w0)
    ensures Within(Seqn(o, w, RawCapLinks, CapLinkStep).w, w0)
  {
    LinkTablesDeclared();
    forall v, x | Within(v, w0) && x in RawCapLinks ensures Within(CapLinkStep(o, v, x).w, w0) {
      LinkWithKeys(o, v, x.0, x.1, Some(x.2));
    }
    SeqnKeeps(o, w, RawCapLinks, CapLinkStep, (v: World) => Within(v, w0));
  }

  /** Gateways stay within the tables. */
  lemma GatewaysStayWithin(o: Oracle, w: World, w0: World)
    requires Within(w, w0)
    ensures Within(Seqn(o, w, RawRtspConnections, ConnectStep).w, w0)
  {
    GatewayTableDeclared();
    forall v, x | Within(v, w0) && x in RawRtspConnections ensures Within(ConnectStep(o, v, x).w, w0) {
      var (name, (dstPipe, dstLast, rtspFirst)) := x;
      var v1 := v.(rtspPipes := Touch(v.rtspPipes, name), pipes := Touch(v.pipes, dstPipe),
                   elements := Touch(Touch(v.elements, dstLast), rtspFirst));
      assert Within(v1, w0);
      ConnectKeepsRegistries(o, v1, Lookup(v.rtspPipes, name), Lookup(v.pipes, dstPipe),
                             Lookup(v.elements, dstLast), Lookup(v.elements, rtspFirst));
    }
    SeqnKeeps(o, w, RawRtspConnections, ConnectStep, (v: World) => Within(v, w0));
  }

  /** LoadJson registers no element, pipe or RTSP pipe name outside its
      tables, whether or not it succeeds. */
  lemma LoadStaysWithinTables(o: Oracle, w0: World)
    ensures Within(Load(o, w0).w, w0)
  {
    ElementsStayWithin(o, w0);
    var made := Seqn(o, w0.(caps := InitialCaps), RawElements, CreateStep);
    if !made.ok { return; }
    var piped := Seqn((), Tune(made.w), RawPipes, PipeStep);
    PipesStayWithin(Tune(made.w), w0);
    if !piped.ok { return; }
    var rtsp := Seqn((), piped.w, RawRtspPipes, RtspPipeStep);
    PipesStayWithin(piped.w, w0);
    if !rtsp.ok { return; }
    var links := Seqn(o, rtsp.w, RawLinks, LinkStep);
    LinksStayWithin(o, rtsp.w, w0);
    if !links.ok { return; }
    var capLinks := Seqn(o, links.w, RawCapLinks, CapLinkStep);
    CapLinksStayWithin(o, links.w, w0);
    if !capLinks.ok { return; }
    GatewaysStayWithin(o, capLinks.w, w0);
  }

  /** The names the keyboard handler of src/main.cpp looks up are none of
      the tables' names. */
  lemma KeyboardNamesOutsideTables(w: World)
    requires w.pipes.Keys <= PipeNames && w.elements.Keys <= DeclaredNames
    ensures "TestPipe" !in w.pipes && "MainPipe" !in w.pipes && "ViewPipe" !in w.pipes
    ensures "MainSource" !in w.elements
  {
  }

  /** On a fresh Topology, LoadJson never registers the names the keyboard
      handler looks up. */
  lemma KeyboardNamesNeverLoaded(o: Oracle, w0: World)
    requires w0.elements == map[] && w0.pipes == map[]
    ensures "TestPipe" !in Load(o, w0).w.pipes && "MainPipe" !in Load(o, w0).w.pipes
    ensures "ViewPipe" !in Load(o, w0).w.pipes
    ensures "MainSource" !in Load(o, w0).w.elements
  {
    var r := Load(o, w0);
    LoadStaysWithinTables(o, w0);
    assert Within(r.w, w0);
    KeyboardNamesOutsideTables(r.w);
  }
}
