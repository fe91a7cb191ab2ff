/**
 * The loader of src/json.cpp as the loops it is: a Json object holding the
 * parsed document walks each section and calls the Topology one command at
 * a time. Every method is proved to issue exactly the commands of the
 * matching stage of JsonSpec and to stop with the same error.
 */
module JsonLoader {
  import opened Base
  import opened JsonSpec
  import opened JsonLaws

  /** The Topology as json.cpp uses it: every call it receives is recorded,
      in order. The bodies of these Topology methods are not part of this
      model; the log is what the loader is responsible for. */
  class TopologySink {
    var log: seq<Command>

    constructor()
      ensures log == []
    {
      log := [];
    }

    method CreateCap(cap: string, definition: string)
      modifies this
      ensures log == old(log) + [Command.CreateCap(cap, definition)]
    {
      log := log + [Command.CreateCap(cap, definition)];
    }

    method CreatePipeline(pipe: string)
      modifies this
      ensures log == old(log) + [Command.CreatePipeline(pipe)]
    {
      log := log + [Command.CreatePipeline(pipe)];
    }

    method CreateElement(element: string, factory: string)
      modifies this
      ensures log == old(log) + [Command.CreateElement(element, factory)]
    {
      log := log + [Command.CreateElement(element, factory)];
    }

    method SetProperty(element: string, property: string, value: string)
      modifies this
      ensures log == old(log) + [Command.SetProperty(element, property, value)]
    {
      log := log + [Command.SetProperty(element, property, value)];
    }

    method AssignCap(element: string, filter: string)
      modifies this
      ensures log == old(log) + [Command.AssignCap(element, filter)]
    {
      log := log + [Command.AssignCap(element, filter)];
    }

    method AddElementToBin(element: string, bin: string)
      modifies this
      ensures log == old(log) + [Command.AddElementToBin(element, bin)]
    {
      log := log + [Command.AddElementToBin(element, bin)];
    }

    /** SetRtspPipe(name, GetPipe(name)): the pipe handed over is the one
        registered under pipeOf. */
    method SetRtspPipe(rtspPipe: string, pipeOf: string)
      modifies this
      ensures log == old(log) + [Command.SetRtspPipe(rtspPipe, pipeOf)]
    {
      log := log + [Command.SetRtspPipe(rtspPipe, pipeOf)];
    }

    method ConnectPipe(pipe: string, firstElem: string, srcPipe: string, srcLastElem: string)
      modifies this
      ensures log == old(log) + [Command.ConnectPipe(pipe, firstElem, srcPipe, srcLastElem)]
    {
      log := log + [Command.ConnectPipe(pipe, firstElem, srcPipe, srcLastElem)];
    }

    method ConnectElements(src: string, dst: string)
      modifies this
      ensures log == old(log) + [Command.ConnectElements(src, dst)]
    {
      log := log + [Command.ConnectElements(src, dst)];
    }
  }

  /** Json: the parsed document and the five section readers. A method that
      returns Some(e) has thrown e; the calls made before it stay made. */
  class Json {
    const src: seq<Member>

    /** Reading and parsing the file is not modelled: the document is
        handed over already parsed. */
    constructor(root: seq<Member>)
      ensures src == root
    {
      src := root;
    }

    /** Json::GetCaps */
    method GetCaps(topology: TopologySink) returns (err: Option<LoadError>)
      modifies topology
      ensures topology.log == old(topology.log) + CapsStage(src).cmds
      ensures err == CapsStage(src).err
    {
      var section := Find(src, "caps");
      if section.None? {
        return None;
      }
      if !section.value.Object? {
        return Some(CapsNotObject);
      }
      var caps := section.value.members;
      var i := 0;
      while i < |caps|
        invariant 0 <= i <= |caps|
        invariant Fold((), caps[..i], CapStep).err.None?
        invariant topology.log == old(topology.log) + Fold((), caps[..i], CapStep).cmds
      {
        if !caps[i].value.Str? {
          FoldFailsAt((), caps, CapStep, i);
          return Some(InvalidCap);
        }
        topology.CreateCap(caps[i].name, caps[i].value.s);
        FoldPrefix((), caps, CapStep, i);
        i := i + 1;
      }
      assert caps[..i] == caps;
      return None;
    }

    /** One property loop of GetPipelineStructure, for element. */
    method SetProperties(topology: TopologySink, element: string, props: seq<Member>)
      returns (err: Option<LoadError>)
      modifies topology
      ensures topology.log == old(topology.log) + Fold(element, props, PropertyStep).cmds
      ensures err == Fold(element, props, PropertyStep).err
    {
      var i := 0;
      while i < |props|
        invariant 0 <= i <= |props|
        invariant Fold(element, props[..i], PropertyStep).err.None?
        invariant topology.log == old(topology.log) + Fold(element, props[..i], PropertyStep).cmds
      {
        var p := props[i];
        if !p.value.Str? {
          FoldFailsAt(element, props, PropertyStep, i);
          return Some(InvalidProperties(element));
        }
        if p.name == "type" {
          // already handled
        } else if p.name == "filter" {
          topology.AssignCap(element, p.value.s);
        } else {
          topology.SetProperty(element, p.name, p.value.s);
        }
        FoldPrefix(element, props, PropertyStep, i);
        i := i + 1;
      }
      assert props[..i] == props;
      return None;
    }

    /** One element of a pipe: check its body and type, create it, set its
        properties, add it to the pipe. */
    method LoadElement(topology: TopologySink, pipe: string, m: Member) returns (err: Option<LoadError>)
      modifies topology
      ensures topology.log == old(topology.log) + ElementStep(pipe, m).cmds
      ensures err == ElementStep(pipe, m).err
    {
      if !m.value.Object? {
        return Some(ElementBodyNotObject(m.name));
      }
      var t := Find(m.value.members, "type");
      if t.None? {
        return Some(MissingType(m.name, pipe));
      }
      if !t.value.Str? {
        return Some(TypeNotString(m.name));
      }
      topology.CreateElement(m.name, t.value.s);
      err := SetProperties(topology, m.name, m.value.members);
      if err.Some? {
        return;
      }
      topology.AddElementToBin(m.name, pipe);
    }

    /** The element loop of one pipe of GetPipelineStructure. */
    method LoadElements(topology: TopologySink, pipe: string, elements: seq<Member>)
      returns (err: Option<LoadError>)
      modifies topology
      ensures topology.log == old(topology.log) + Fold(pipe, elements, ElementStep).cmds
      ensures err == Fold(pipe, elements, ElementStep).err
    {
      var i := 0;
      while i < |elements|
        invariant 0 <= i <= |elements|
        invariant Fold(pipe, elements[..i], ElementStep).err.None?
        invariant topology.log == old(topology.log) + Fold(pipe, elements[..i], ElementStep).cmds
      {
        ghost var before := topology.log;
        err := LoadElement(topology, pipe, elements[i]);
        LogNext(pipe, elements, ElementStep, i, old(topology.log), before, topology.log);
        FoldNext(pipe, elements, ElementStep, i);
        if err.Some? {
          return;
        }
        i := i + 1;
      }
      assert elements[..i] == elements;
      return None;
    }

    /** One pipe: create it, then check its body and load its elements. */
    method LoadPipe(topology: TopologySink, m: Member) returns (err: Option<LoadError>)
      modifies topology
      ensures topology.log == old(topology.log) + PipeStep((), m).cmds
      ensures err == PipeStep((), m).err
    {
      topology.CreatePipeline(m.name);
      if !m.value.Object? {
        return Some(PipeBodyNotObject);
      }
      err := LoadElements(topology, m.name, m.value.members);
    }

    /** Json::GetPipelineStructure */
    method GetPipelineStructure(topology: TopologySink) returns (err: Option<LoadError>)
      modifies topology
      ensures topology.log == old(topology.log) + PipesStage(src).cmds
      ensures err == PipesStage(src).err
    {
      var section := Find(src, "pipes");
      if section.None? {
        return None;
      }
      if !section.value.Object? {
        return Some(PipesNotObject);
      }
      var pipes := section.value.members;
      var i := 0;
      while i < |pipes|
        invariant 0 <= i <= |pipes|
        invariant Fold((), pipes[..i], PipeStep).err.None?
        invariant topology.log == old(topology.log) + Fold((), pipes[..i], PipeStep).cmds
      {
        ghost var before := topology.log;
        err := LoadPipe(topology, pipes[i]);
        LogNext((), pipes, PipeStep, i, old(topology.log), before, topology.log);
        FoldNext((), pipes, PipeStep, i);
        if err.Some? {
          return;
        }
        i := i + 1;
      }
      assert pipes[..i] == pipes;
      return None;
    }

    /** Json::GetRtspPipes */
    method GetRtspPipes(topology: TopologySink) returns (err: Option<LoadError>)
      modifies topology
      ensures topology.log == old(topology.log) + RtspStage(src).cmds
      ensures err == RtspStage(src).err
    {
      var section := Find(src, "rtsp");
      if section.None? {
        return None;
      }
      if !section.value.Array? {
        return Some(RtspNotArray);
      }
      var names := section.value.items;
      var i := 0;
      while i < |names|
        invariant 0 <= i <= |names|
        invariant Fold((), names[..i], RtspStep).err.None?
        invariant topology.log == old(topology.log) + Fold((), names[..i], RtspStep).cmds
      {
        if !names[i].Str? {
          FoldFailsAt((), names, RtspStep, i);
          return Some(RtspNameNotString);
        }
        var pipeName := names[i].s;
        topology.SetRtspPipe(pipeName, pipeName);
        FoldPrefix((), names, RtspStep, i);
        i := i + 1;
      }
      assert names[..i] == names;
      return None;
    }

    /** Json::GetInterConnections */
    method GetInterConnections(topology: TopologySink) returns (err: Option<LoadError>)
      modifies topology
      ensures topology.log == old(topology.log) + ConnectionsStage(src).cmds
      ensures err == ConnectionsStage(src).err
    {
      var section := Find(src, "connections");
      if section.None? {
        return None;
      }
      if !section.value.Object? {
        return Some(ConnectionsNotObject);
      }
      var conns := section.value.members;
      var i := 0;
      while i < |conns|
        invariant 0 <= i <= |conns|
        invariant Fold((), conns[..i], ConnectionStep).err.None?
        invariant topology.log == old(topology.log) + Fold((), conns[..i], ConnectionStep).cmds
      {
        var m := conns[i];
        var failure := None;
        if !m.value.Object? {
          failure := Some(ConnectionNotObject(m.name));
        } else {
          var first := Find(m.value.members, "first_elem");
          var srcPipe := Find(m.value.members, "src_pipe");
          var srcLast := Find(m.value.members, "src_last_elem");
          if !(first.Some? && first.value.Str?) {
            failure := Some(InvalidFirstElem(m.name));
          } else if !(srcPipe.Some? && srcPipe.value.Str?) {
            failure := Some(InvalidSrcPipe(m.name));
          } else if !(srcLast.Some? && srcLast.value.Str?) {
            failure := Some(InvalidSrcLastElem(m.name));
          } else {
            topology.ConnectPipe(m.name, first.value.s, srcPipe.value.s, srcLast.value.s);
          }
        }
        if failure.Some? {
          FoldFailsAt((), conns, ConnectionStep, i);
          return failure;
        }
        FoldPrefix((), conns, ConnectionStep, i);
        i := i + 1;
      }
      assert conns[..i] == conns;
      return None;
    }

    /** The while loop of GetConnections over one chain: the element under
        the iterator is linked to the one after it, if there is one. */
    method LinkChain(topology: TopologySink, items: seq<Value>) returns (err: Option<LoadError>)
      modifies topology
      ensures topology.log == old(topology.log) + Fold((), Slots(items), SlotStep).cmds
      ensures err == Fold((), Slots(items), SlotStep).err
    {
      var slots := Slots(items);
      var j := 0;
      while j < |items|
        invariant 0 <= j <= |items|
        invariant Fold((), slots[..j], SlotStep).err.None?
        invariant topology.log == old(topology.log) + Fold((), slots[..j], SlotStep).cmds
      {
        if !items[j].Str? {
          FoldFailsAt((), slots, SlotStep, j);
          return Some(LinkEntryNotString);
        }
        var srcName := items[j].s;
        FoldPrefix((), slots, SlotStep, j);
        j := j + 1;
        if j < |items| {
          if !items[j].Str? {
            FoldFailsAt((), slots, SlotStep, j - 1);
            return Some(LinkTargetNotString(srcName));
          }
          topology.ConnectElements(srcName, items[j].s);
        }
      }
      assert slots[..j] == slots;
      return None;
    }

    /** Json::GetConnections */
    method GetConnections(topology: TopologySink) returns (err: Option<LoadError>)
      modifies topology
      ensures topology.log == old(topology.log) + LinksStage(src).cmds
      ensures err == LinksStage(src).err
    {
      var section := Find(src, "links");
      if section.None? {
        return None;
      }
      if !section.value.Array? {
        return Some(LinksNotArray);
      }
      var chains := section.value.items;
      var i := 0;
      while i < |chains|
        invariant 0 <= i <= |chains|
        invariant Fold((), chains[..i], ChainStep).err.None?
        invariant topology.log == old(topology.log) + Fold((), chains[..i], ChainStep).cmds
      {
        if !chains[i].Array? {
          FoldFailsAt((), chains, ChainStep, i);
          return Some(ChainNotArray);
        }
        ghost var before := topology.log;
        err := LinkChain(topology, chains[i].items);
        LogNext((), chains, ChainStep, i, old(topology.log), before, topology.log);
        FoldNext((), chains, ChainStep, i);
        if err.Some? {
          return;
        }
        i := i + 1;
      }
      assert chains[..i] == chains;
      return None;
    }

    /** Json::CreateTopology: the five stages in order; the first that
        throws ends loading. */
    method CreateTopology(topology: TopologySink) returns (err: Option<LoadError>)
      modifies topology
      ensures topology.log == old(topology.log) + Translate(src).cmds
      ensures err == Translate(src).err
    {
      ghost var base := old(topology.log);
      ghost var caps := CapsStage(src);
      ghost var pipes := PipesStage(src);
      ghost var rtsp := RtspStage(src);
      ghost var conns := ConnectionsStage(src);
      ghost var links := LinksStage(src);
      err := GetCaps(topology);
      if err.Some? {
        return;
      }
      ghost var before := topology.log;
      err := GetPipelineStructure(topology);
      LogThen(caps, pipes, base, before, topology.log);
      if err.Some? {
        return;
      }
      before := topology.log;
      err := GetRtspPipes(topology);
      LogThen(Then(caps, pipes), rtsp, base, before, topology.log);
      if err.Some? {
        return;
      }
      before := topology.log;
      err := GetInterConnections(topology);
      LogThen(Then(Then(caps, pipes), rtsp), conns, base, before, topology.log);
      if err.Some? {
        return;
      }
      before := topology.log;
      err := GetConnections(topology);
      LogThen(Then(Then(Then(caps, pipes), rtsp), conns), links, base, before, topology.log);
    }
  }
}
