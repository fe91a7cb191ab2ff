/**
 * Topology (src/topology.cpp): the name-keyed registries of elements,
 * pipes, RTSP pipes and caps, filled by LoadJson from hard-coded tables,
 * and the wiring of an RTSP pipe to another pipe through an intervideo
 * gateway. Every method is proved against the functions of RegistrySpec.
 */
module Registry {
  import opened Base
  import opened Gst
  import opened RegistrySpec
  import opened RegistryLaws

  class Topology {
    const engine: Engine
    var elements: map<string, Ref>
    var pipes: map<string, Ref>
    var rtspPipes: map<string, Ref>
    var caps: map<string, Caps>

    /** The registries together with the engine's state. */
    function Snapshot(): World
      reads this, engine
    {
      World(elements, pipes, rtspPipes, caps, engine.bins, engine.edges, engine.props,
            engine.requestedPads, engine.states, engine.released)
    }

    constructor(engine: Engine)
      ensures this.engine == engine
      ensures elements == map[] && pipes == map[] && rtspPipes == map[] && caps == map[]
    {
      this.engine := engine;
      elements := map[];
      pipes := map[];
      rtspPipes := map[];
      caps := map[];
    }

    // ------------------------------------------------------------ getters

    /** GetElement: elements[name], which enters NULL for an unknown name. */
    method GetElement(name: string) returns (r: Ref)
      modifies this
      ensures r == Lookup(old(elements), name)
      ensures Snapshot() == Touched(old(Snapshot()), name)
    {
      r := Lookup(elements, name);
      elements := Touch(elements, name);
    }

    /** GetPipe: pipes[name], which enters NULL for an unknown name. */
    method GetPipe(name: string) returns (r: Ref)
      modifies this
      ensures r == Lookup(old(pipes), name)
      ensures Snapshot() == old(Snapshot()).(pipes := Touch(old(pipes), name))
    {
      r := Lookup(pipes, name);
      pipes := Touch(pipes, name);
    }

    /** GetRtspPipe: rtsp_pipes[name], which enters NULL for an unknown name. */
    method GetRtspPipe(name: string) returns (r: Ref)
      modifies this
      ensures r == Lookup(old(rtspPipes), name)
      ensures Snapshot() == old(Snapshot()).(rtspPipes := Touch(old(rtspPipes), name))
    {
      r := Lookup(rtspPipes, name);
      rtspPipes := Touch(rtspPipes, name);
    }

    // ----------------------------------------------------------- elements

    /** One turn of the element loop. */
    method CreateOne(entry: (string, string)) returns (ok: bool)
      modifies this
      ensures Snapshot() == CreateStep(engine.oracle, old(Snapshot()), entry).w
      ensures ok == CreateStep(engine.oracle, old(Snapshot()), entry).ok
    {
      var r := engine.Make(entry.1, entry.0);
      elements := elements[entry.0 := r];
      ok := r.IsElement();
    }

    /** Create and save every element of tbl; stop at the first NULL. */
    method CreateElements(tbl: seq<(string, string)>) returns (ok: bool)
      modifies this
      ensures Snapshot() == Seqn(engine.oracle, old(Snapshot()), tbl, CreateStep).w
      ensures ok == Seqn(engine.oracle, old(Snapshot()), tbl, CreateStep).ok
    {
      var i := 0;
      while i < |tbl|
        invariant 0 <= i <= |tbl|
        invariant Seqn(engine.oracle, old(Snapshot()), tbl[..i], CreateStep).ok
        invariant Snapshot() == Seqn(engine.oracle, old(Snapshot()), tbl[..i], CreateStep).w
      {
        ok := CreateOne(tbl[i]);
        SeqnNext(engine.oracle, old(Snapshot()), tbl, CreateStep, i);
        if !ok {
          return;
        }
        i := i + 1;
      }
      assert tbl[..i] == tbl;
      return true;
    }

    /** g_object_set(GetElement(name), key, value) */
    method SetOn(name: string, key: string, value: string)
      modifies this, engine
      ensures Snapshot() == RegistrySpec.SetOn(old(Snapshot()), name, key, value)
    {
      var e := GetElement(name);
      engine.Set(e, key, value);
    }

    /** The properties set before the pipes are built. */
    method TuneElements()
      modifies this, engine
      ensures Snapshot() == Tune(old(Snapshot()))
    {
      SetOn("h264pay1", "pt", "96");
      SetOn("h264pay1", "name", "pay0");
      SetOn("theorapay2", "pt", "96");
      SetOn("theorapay2", "name", "pay0");
      SetOn("pay_test", "pt", "96");
      SetOn("pay_test", "name", "pay0");
      SetOn("source_test", "pattern", "18");
      SetOn("source_test", "is-live", "TRUE");
    }

    // -------------------------------------------------------------- pipes

    /** One element of a pipe: check it is an element, then add it. */
    method AddMember(pipe: Ref, name: string) returns (ok: bool)
      modifies this, engine
      ensures Snapshot() == MemberStep(pipe, old(Snapshot()), name).w
      ensures ok == MemberStep(pipe, old(Snapshot()), name).ok
    {
      var e := GetElement(name);
      if !e.IsElement() {
        return false;
      }
      e := GetElement(name);
      engine.BinAdd(pipe, e);
      return true;
    }

    /** The inner loop: every name of a pipe's list, into the pipe. */
    method AddMembers(pipe: Ref, names: seq<string>) returns (ok: bool)
      modifies this, engine
      ensures Snapshot() == Seqn(pipe, old(Snapshot()), names, MemberStep).w
      ensures ok == Seqn(pipe, old(Snapshot()), names, MemberStep).ok
    {
      var i := 0;
      while i < |names|
        invariant 0 <= i <= |names|
        invariant Seqn(pipe, old(Snapshot()), names[..i], MemberStep).ok
        invariant Snapshot() == Seqn(pipe, old(Snapshot()), names[..i], MemberStep).w
      {
        ok := AddMember(pipe, names[i]);
        SeqnNext(pipe, old(Snapshot()), names, MemberStep, i);
        if !ok {
          return;
        }
        i := i + 1;
      }
      assert names[..i] == names;
      return true;
    }

    /** One turn of the pipe loop: create the pipeline, save it, fill it. */
    method BuildPipe(entry: (string, seq<string>)) returns (ok: bool)
      modifies this, engine
      ensures Snapshot() == PipeStep((), old(Snapshot()), entry).w
      ensures ok == PipeStep((), old(Snapshot()), entry).ok
    {
      var p := engine.NewPipeline(entry.0);
      pipes := pipes[entry.0 := p];
      ok := AddMembers(p, entry.1);
    }

    method BuildPipes(tbl: seq<(string, seq<string>)>) returns (ok: bool)
      modifies this, engine
      ensures Snapshot() == Seqn((), old(Snapshot()), tbl, PipeStep).w
      ensures ok == Seqn((), old(Snapshot()), tbl, PipeStep).ok
    {
      var i := 0;
      while i < |tbl|
        invariant 0 <= i <= |tbl|
        invariant Seqn((), old(Snapshot()), tbl[..i], PipeStep).ok
        invariant Snapshot() == Seqn((), old(Snapshot()), tbl[..i], PipeStep).w
      {
        ok := BuildPipe(tbl[i]);
        SeqnNext((), old(Snapshot()), tbl, PipeStep, i);
        if !ok {
          return;
        }
        i := i + 1;
      }
      assert tbl[..i] == tbl;
      return true;
    }

    /** One turn of the RTSP pipe loop. */
    method BuildRtspPipe(entry: (string, seq<string>)) returns (ok: bool)
      modifies this, engine
      ensures Snapshot() == RtspPipeStep((), old(Snapshot()), entry).w
      ensures ok == RtspPipeStep((), old(Snapshot()), entry).ok
    {
      var p := engine.NewPipeline(entry.0);
      rtspPipes := rtspPipes[entry.0 := p];
      ok := AddMembers(p, entry.1);
    }

    method BuildRtspPipes(tbl: seq<(string, seq<string>)>) returns (ok: bool)
      modifies this, engine
      ensures Snapshot() == Seqn((), old(Snapshot()), tbl, RtspPipeStep).w
      ensures ok == Seqn((), old(Snapshot()), tbl, RtspPipeStep).ok
    {
      var i := 0;
      while i < |tbl|
        invariant 0 <= i <= |tbl|
        invariant Seqn((), old(Snapshot()), tbl[..i], RtspPipeStep).ok
        invariant Snapshot() == Seqn((), old(Snapshot()), tbl[..i], RtspPipeStep).w
      {
        ok := BuildRtspPipe(tbl[i]);
        SeqnNext((), old(Snapshot()), tbl, RtspPipeStep, i);
        if !ok {
          return;
        }
        i := i + 1;
      }
      assert tbl[..i] == tbl;
      return true;
    }

    // -------------------------------------------------------------- links

    /** Link GetElement(a) to GetElement(b), through filter if given. */
    method LinkOne(a: string, b: string, filter: Option<Caps>) returns (ok: bool)
      modifies this, engine
      ensures Snapshot() == LinkWith(engine.oracle, old(Snapshot()), a, b, filter).w
      ensures ok == LinkWith(engine.oracle, old(Snapshot()), a, b, filter).ok
    {
      var ea := GetElement(a);
      var eb := GetElement(b);
      ok := engine.Link(ea, eb, filter);
    }

    method LinkAll(tbl: seq<(string, string)>) returns (ok: bool)
      modifies this, engine
      ensures Snapshot() == Seqn(engine.oracle, old(Snapshot()), tbl, LinkStep).w
      ensures ok == Seqn(engine.oracle, old(Snapshot()), tbl, LinkStep).ok
    {
      var i := 0;
      while i < |tbl|
        invariant 0 <= i <= |tbl|
        invariant Seqn(engine.oracle, old(Snapshot()), tbl[..i], LinkStep).ok
        invariant Snapshot() == Seqn(engine.oracle, old(Snapshot()), tbl[..i], LinkStep).w
      {
        ok := LinkOne(tbl[i].0, tbl[i].1, None);
        SeqnNext(engine.oracle, old(Snapshot()), tbl, LinkStep, i);
        if !ok {
          return;
        }
        i := i + 1;
      }
      assert tbl[..i] == tbl;
      return true;
    }

    method LinkAllFiltered(tbl: seq<(string, string, Caps)>) returns (ok: bool)
      modifies this, engine
      ensures Snapshot() == Seqn(engine.oracle, old(Snapshot()), tbl, CapLinkStep).w
      ensures ok == Seqn(engine.oracle, old(Snapshot()), tbl, CapLinkStep).ok
    {
      var i := 0;
      while i < |tbl|
        invariant 0 <= i <= |tbl|
        invariant Seqn(engine.oracle, old(Snapshot()), tbl[..i], CapLinkStep).ok
        invariant Snapshot() == Seqn(engine.oracle, old(Snapshot()), tbl[..i], CapLinkStep).w
      {
        ok := LinkOne(tbl[i].0, tbl[i].1, Some(tbl[i].2));
        SeqnNext(engine.oracle, old(Snapshot()), tbl, CapLinkStep, i);
        if !ok {
          return;
        }
        i := i + 1;
      }
      assert tbl[..i] == tbl;
      return true;
    }

    // ---------------------------------------------------------- gateways

    /** ConnectRtspPipe, with the pipeline check made before the RTSP
        pipe's name is read. */
    method ConnectRtspPipe(rtspPipe: Ref, sourcePipe: Ref, sourceEnd: Ref, rtspStart: Ref)
      returns (ok: bool)
      modifies engine
      ensures Snapshot() == Connect(engine.oracle, old(Snapshot()), rtspPipe, sourcePipe, sourceEnd, rtspStart).w
      ensures ok == Connect(engine.oracle, old(Snapshot()), rtspPipe, sourcePipe, sourceEnd, rtspStart).ok
    {
      if !rtspPipe.IsPipeline() || !sourcePipe.IsPipeline() {
        return false;
      }
      var p := rtspPipe.name;
      var sink := engine.Make("intervideosink", SinkName(p));
      var src := engine.Make("intervideosrc", SourceName(p));
      if !sink.IsElement() || !src.IsElement() {
        return false;
      }
      engine.Set(sink, "channel", Channel(p));
      engine.Set(src, "channel", Channel(p));
      engine.BinAdd(sourcePipe, sink);
      engine.BinAdd(rtspPipe, src);
      ok := engine.Link(sourceEnd, sink, None);
      if !ok {
        return;
      }
      ok := engine.Link(src, rtspStart, None);
    }

    /** One turn of the gateway loop. */
    method ConnectOne(c: (string, (string, string, string))) returns (ok: bool)
      modifies this, engine
      ensures Snapshot() == ConnectStep(engine.oracle, old(Snapshot()), c).w
      ensures ok == ConnectStep(engine.oracle, old(Snapshot()), c).ok
    {
      var (name, (dstPipe, dstLast, rtspFirst)) := c;
      var rtspPipe := GetRtspPipe(name);
      var sourcePipe := GetPipe(dstPipe);
      var sourceEnd := GetElement(dstLast);
      var rtspStart := GetElement(rtspFirst);
      ok := ConnectRtspPipe(rtspPipe, sourcePipe, sourceEnd, rtspStart);
    }

    method ConnectAll(tbl: seq<(string, (string, string, string))>) returns (ok: bool)
      modifies this, engine
      ensures Snapshot() == Seqn(engine.oracle, old(Snapshot()), tbl, ConnectStep).w
      ensures ok == Seqn(engine.oracle, old(Snapshot()), tbl, ConnectStep).ok
    {
      var i := 0;
      while i < |tbl|
        invariant 0 <= i <= |tbl|
        invariant Seqn(engine.oracle, old(Snapshot()), tbl[..i], ConnectStep).ok
        invariant Snapshot() == Seqn(engine.oracle, old(Snapshot()), tbl[..i], ConnectStep).w
      {
        ok := ConnectOne(tbl[i]);
        SeqnNext(engine.oracle, old(Snapshot()), tbl, ConnectStep, i);
        if !ok {
          return;
        }
        i := i + 1;
      }
      assert tbl[..i] == tbl;
      return true;
    }

    // ----------------------------------------------------------- LoadJson

    /** LoadJson. Its argument is not read: the topology comes from the
        tables of RegistrySpec. */
    method LoadJson(json: string) returns (ok: bool)
      modifies this, engine
      ensures Snapshot() == Load(engine.oracle, old(Snapshot())).w
      ensures ok == Load(engine.oracle, old(Snapshot())).ok
    {
      caps := InitialCaps;
      ok := CreateElements(RawElements);
      if !ok {
        return;
      }
      TuneElements();
      ok := BuildPipes(RawPipes);
      if !ok {
        return;
      }
      ok := BuildRtspPipes(RawRtspPipes);
      if !ok {
        return;
      }
      ok := LinkAll(RawLinks);
      if !ok {
        return;
      }
      ok := LinkAllFiltered(RawCapLinks);
      if !ok {
        return;
      }
      ok := ConnectAll(RawRtspConnections);
    }

    // ---------------------------------------------------------- LinkToTee

    /** LinkToTee: a new request pad of tee is linked to element's sink
        pad. The request pad stays even when the link fails. A NULL tee is
        dereferenced by the source, so it is excluded. */
    static method LinkToTee(engine: Engine, tee: Ref, element: Ref) returns (ok: bool)
      requires tee.IsElement()
      modifies engine
      ensures ok <==> engine.oracle.hasTemplate(tee, "src_%u") && element.IsElement()
                      && engine.oracle.padLinkOk(tee, element)
      ensures engine.requestedPads ==
        if engine.oracle.hasTemplate(tee, "src_%u")
        then old(engine.requestedPads)[tee := (if tee in old(engine.requestedPads) then old(engine.requestedPads)[tee] else 0) + 1]
        else old(engine.requestedPads)
      ensures engine.edges == if ok then old(engine.edges) + {Edge(tee, element, None)} else old(engine.edges)
      ensures engine.bins == old(engine.bins) && engine.props == old(engine.props)
      ensures engine.states == old(engine.states) && engine.released == old(engine.released)
    {
      if !engine.oracle.hasTemplate(tee, "src_%u") {
        return false;
      }
      engine.RequestPad(tee);
      ok := engine.PadLink(tee, element);
    }

    // ----------------------------------------------------------- teardown

    /** The destructor: every entry of pipes that is an element is set to
        the NULL state and released; RTSP pipes are left alone. */
    method Destroy()
      modifies engine
      ensures Snapshot() == Teardown(old(Snapshot()))
    {
      var todo := pipes.Keys;
      ghost var done: set<string> := {};
      while todo != {}
        invariant todo + done == pipes.Keys && todo !! done
        invariant engine.states == Stopped(old(engine.states), TornDown(Restrict(pipes, done)))
        invariant engine.released == old(engine.released) + TornDown(Restrict(pipes, done))
        invariant engine.bins == old(engine.bins) && engine.edges == old(engine.edges)
        invariant engine.props == old(engine.props) && engine.requestedPads == old(engine.requestedPads)
        decreases todo
      {
        var k :| k in todo;
        var r := pipes[k];
        if r.IsElement() {
          engine.SetState(r, StateNull);
          engine.Unref(r);
        }
        TornDownGrows(pipes, done, k);
        if r.IsElement() {
          StopOneMore(old(engine.states), TornDown(Restrict(pipes, done)), r);
        }
        todo := todo - {k};
        done := done + {k};
      }
      assert Restrict(pipes, done) == pipes;
    }
  }

  /** Looking at one more pipe adds it to those torn down, if it is an
      element. */
  lemma TornDownGrows(pipes: map<string, Ref>, done: set<string>, k: string)
    requires k in pipes
    ensures TornDown(Restrict(pipes, done + {k}))
         == TornDown(Restrict(pipes, done)) + (if pipes[k].IsElement() then {pipes[k]} else {})
  {
    var before := Restrict(pipes, done);
    var after := Restrict(pipes, done + {k});
    assert after.Keys == before.Keys + {k};
    forall x | x in TornDown(after)
      ensures x in TornDown(before) + (if pipes[k].IsElement() then {pipes[k]} else {})
    {
      var j :| j in after && after[j].IsElement() && after[j] == x;
      if j != k {
        assert j in before && before[j] == x;
      }
    }
    forall x | x in TornDown(before) ensures x in TornDown(after) {
      var j :| j in before && before[j].IsElement() && before[j] == x;
      assert j in after && after[j] == x;
    }
    if pipes[k].IsElement() {
      assert k in after && after[k] == pipes[k];
    }
  }

  /** Stopping one more pipe. */
  lemma StopOneMore(states: map<Ref, GstState>, refs: set<Ref>, r: Ref)
    ensures Stopped(states, refs)[r := StateNull] == Stopped(states, refs + {r})
  {
  }
}
