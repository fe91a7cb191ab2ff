/**
 * What Topology (src/topology.cpp) does to its registries and to the
 * engine, stated as functions on a snapshot of both. Each loop of LoadJson
 * is a run of one step function over a hard-coded table that stops at the
 * first step that fails.
 */
module RegistrySpec {
  import opened Base
  import opened Gst

  /** The Topology's four maps and the engine's state, at one moment. */
  datatype World = World(
    elements: map<string, Ref>,
    pipes: map<string, Ref>,
    rtspPipes: map<string, Ref>,
    caps: map<string, Caps>,
    bins: map<Ref, set<Ref>>,
    edges: set<Edge>,
    props: map<(Ref, string), string>,
    requestedPads: map<Ref, nat>,
    states: map<Ref, GstState>,
    released: set<Ref>)

  /** The state after some steps, and whether all of them succeeded. */
  datatype Run = Run(w: World, ok: bool)

  /** A for loop with an early `return false`: step on every item in order
      until one fails. */
  function Seqn<C, T>(ctx: C, w: World, xs: seq<T>, step: (C, World, T) -> Run): Run
    decreases |xs|
  {
    if xs == [] then Run(w, true)
    else
      var prev := Seqn(ctx, w, xs[..|xs| - 1], step);
      if !prev.ok then prev else step(ctx, prev.w, xs[|xs| - 1])
  }

  // ------------------------------------------------------- map operator[]

  /** What operator[] returns: the stored reference, or NULL. */
  function Lookup(m: map<string, Ref>, name: string): Ref
  {
    if name in m then m[name] else Null
  }

  /** What operator[] leaves behind: an unknown name now maps to NULL. */
  function Touch(m: map<string, Ref>, name: string): (r: map<string, Ref>)
    ensures r.Keys == m.Keys + {name}
    ensures r[name] == Lookup(m, name)
    ensures forall k :: k in m ==> r[k] == m[k]
  {
    if name in m then m else m[name := Null]
  }

  /** The entries of m whose keys are in ks. */
  function Restrict(m: map<string, Ref>, ks: set<string>): map<string, Ref>
  {
    map k | k in m && k in ks :: m[k]
  }

  /** The World after GetElement(name). */
  function Touched(w: World, name: string): World
  {
    w.(elements := Touch(w.elements, name))
  }

  // ------------------------------------------------------------- tables

  const MainCaps := RawVideo(640, 480, 15, 1)
  const H264Caps := RawVideo(640, 480, 15, 1)
  const TheoraCaps := RawVideo(640, 480, 25, 2)

  const InitialCaps: map<string, Caps> :=
    map["main_caps" := MainCaps, "h264_caps" := H264Caps, "theora_caps" := TheoraCaps]

  /** Element name and factory, in the order written. */
  const RawElements: seq<(string, string)> := [
    ("source0", "v4l2src"), ("tee0", "tee"),
    ("queue0", "queue"), ("valve0", "valve"), ("convert0", "videoconvert"), ("sink0", "aasink"),
    ("queue1", "queue"), ("valve1", "valve"),
    ("scale1", "videoscale"), ("videorate1", "videorate"), ("vaapiproc1", "vaapipostproc"),
    ("vaapienc1", "vaapih264enc"), ("h264pay1", "rtph264pay"),
    ("queue2", "queue"), ("valve2", "valve"),
    ("scale2", "videoscale"), ("videorate2", "videorate"), ("convert2", "videoconvert"),
    ("theoraenc2", "theoraenc"), ("theorapay2", "rtptheorapay"),
    ("source_test", "videotestsrc"), ("sink_test", "queue"),
    ("source_rtsp", "valve"), ("conv_rtsp", "videoconvert"), ("encode_rtsp", "theoraenc"),
    ("pay_test", "rtptheorapay")]

  /** Pipe name and the elements put into it. */
  const RawPipes: seq<(string, seq<string>)> := [
    ("main_pipe", ["source0", "tee0", "queue0", "valve0", "convert0", "sink0",
                   "queue1", "valve1", "queue2", "valve2"]),
    ("pipe_test", ["source_test", "sink_test"])]

  const RawRtspPipes: seq<(string, seq<string>)> := [
    ("rtsp_h264", ["scale1", "videorate1", "vaapiproc1", "vaapienc1", "h264pay1"]),
    ("rtsp_theora", ["scale2", "videorate2", "convert2", "theoraenc2", "theorapay2"]),
    ("pipe_rtsp", ["source_rtsp", "conv_rtsp", "encode_rtsp", "pay_test"])]

  const RawLinks: seq<(string, string)> := [
    ("source_test", "sink_test"),
    ("source_rtsp", "conv_rtsp"), ("conv_rtsp", "encode_rtsp"), ("encode_rtsp", "pay_test"),
    ("tee0", "queue0"), ("queue0", "valve0"), ("valve0", "convert0"), ("convert0", "sink0"),
    ("tee0", "queue1"), ("queue1", "valve1"),
    ("scale1", "videorate1"), ("vaapiproc1", "vaapienc1"), ("vaapienc1", "h264pay1"),
    ("tee0", "queue2"), ("queue2", "valve2"),
    ("scale2", "videorate2"), ("videorate2", "convert2"), ("theoraenc2", "theorapay2")]

  const RawCapLinks: seq<(string, string, Caps)> := [
    ("source0", "tee0", MainCaps),
    ("videorate1", "vaapiproc1", H264Caps),
    ("convert2", "theoraenc2", TheoraCaps)]

  /** RTSP pipe, then (pipe it taps, last element tapped there, first
      element of the RTSP pipe). */
  const RawRtspConnections: seq<(string, (string, string, string))> := [
    ("pipe_rtsp", ("pipe_test", "sink_test", "source_rtsp")),
    ("rtsp_h264", ("main_pipe", "valve1", "scale1")),
    ("rtsp_theora", ("main_pipe", "valve2", "scale2"))]

  // ------------------------------------------------------------- steps

  /** elements[name] = gst_element_factory_make(factory, name), then stop
      if it is NULL: the NULL stays in the map. */
  function CreateStep(o: Oracle, w: World, entry: (string, string)): Run
  {
    var r := Made(o, entry.1, entry.0);
    Run(w.(elements := w.elements[entry.0 := r]), r.IsElement())
  }

  /** g_object_set(GetElement(name), key, value). */
  function SetOn(w: World, name: string, key: string, value: string): World
  {
    var e := Lookup(w.elements, name);
    var w1 := Touched(w, name);
    if e.IsElement() then w1.(props := w1.props[(e, key) := value]) else w1
  }

  /** The properties set between creating the elements and the pipes: the
      three payloaders get payload type 96 and are renamed "pay0", the test
      source gets pattern 18 and becomes live. */
  function Tune(w: World): World
  {
    var w1 := SetOn(SetOn(w, "h264pay1", "pt", "96"), "h264pay1", "name", "pay0");
    var w2 := SetOn(SetOn(w1, "theorapay2", "pt", "96"), "theorapay2", "name", "pay0");
    var w3 := SetOn(SetOn(w2, "pay_test", "pt", "96"), "pay_test", "name", "pay0");
    SetOn(SetOn(w3, "source_test", "pattern", "18"), "source_test", "is-live", "TRUE")
  }

  /** One element of a pipe: stop if GetElement(name) is not an element,
      otherwise add it to the pipe's bin. */
  function MemberStep(pipe: Ref, w: World, name: string): Run
  {
    var e := Lookup(w.elements, name);
    var w1 := Touched(w, name);
    if !e.IsElement() then Run(w1, false) else Run(w1.(bins := Added(w1.bins, pipe, e)), true)
  }

  /** pipes[name] = gst_pipeline_new(name), then fill it. */
  function PipeStep(ctx: (), w: World, entry: (string, seq<string>)): Run
  {
    var p := Pipeline(entry.0);
    Seqn(p, w.(pipes := w.pipes[entry.0 := p], bins := w.bins[p := {}]), entry.1, MemberStep)
  }

  /** rtsp_pipes[name] = gst_pipeline_new(name), then fill it. */
  function RtspPipeStep(ctx: (), w: World, entry: (string, seq<string>)): Run
  {
    var p := Pipeline(entry.0);
    Seqn(p, w.(rtspPipes := w.rtspPipes[entry.0 := p], bins := w.bins[p := {}]), entry.1, MemberStep)
  }

  /** Link GetElement(a) to GetElement(b), through filter if given. */
  function LinkWith(o: Oracle, w: World, a: string, b: string, filter: Option<Caps>): Run
  {
    var ea := Lookup(w.elements, a);
    var eb := Lookup(w.elements, b);
    var w1 := Touched(Touched(w, a), b);
    var ok := Linkable(o, ea, eb, filter);
    Run(if ok then w1.(edges := w1.edges + {Edge(ea, eb, filter)}) else w1, ok)
  }

  function LinkStep(o: Oracle, w: World, link: (string, string)): Run
  {
    LinkWith(o, w, link.0, link.1, None)
  }

  function CapLinkStep(o: Oracle, w: World, link: (string, string, Caps)): Run
  {
    LinkWith(o, w, link.0, link.1, Some(link.2))
  }

  // ----------------------------------------------------- ConnectRtspPipe

  /** How ConnectRtspPipe's opening lines end. */
  datatype Guard = Throws | Refuses | Proceeds

  /** As written: the RTSP pipe's name is turned into a std::string before
      the pipeline check, and gst_element_get_name(NULL) is NULL, from
      which std::string throws. */
  function ConnectGuardAsWritten(rtspPipe: Ref, sourcePipe: Ref): Guard
  {
    if rtspPipe.Null? then Throws
    else if !rtspPipe.IsPipeline() || !sourcePipe.IsPipeline() then Refuses
    else Proceeds
  }

  /** As intended: anything that is not a pipeline is refused. */
  function ConnectGuard(rtspPipe: Ref, sourcePipe: Ref): (g: Guard)
    ensures g != Throws
    ensures g == Proceeds <==> rtspPipe.IsPipeline() && sourcePipe.IsPipeline()
  {
    if !rtspPipe.IsPipeline() || !sourcePipe.IsPipeline() then Refuses else Proceeds
  }

  /** The gateway element names and channel derived from the RTSP pipe's
      name p. */
  function SinkName(p: string): string { "intersink_" + p }
  function SourceName(p: string): string { "intersrc_" + p }
  function Channel(p: string): string { "gateway_" + p }

  /** ConnectRtspPipe: an intervideosink in the source pipe and an
      intervideosrc in the RTSP pipe share a channel; the source pipe's
      end point feeds the sink and the source feeds the RTSP pipe's start
      point. Nothing is undone when a link fails. */
  function Connect(o: Oracle, w: World, rtspPipe: Ref, sourcePipe: Ref, sourceEnd: Ref, rtspStart: Ref): Run
  {
    if ConnectGuard(rtspPipe, sourcePipe) != Proceeds then Run(w, false)
    else
      var p := rtspPipe.name;
      var sink := Made(o, "intervideosink", SinkName(p));
      var src := Made(o, "intervideosrc", SourceName(p));
      if !sink.IsElement() || !src.IsElement() then Run(w, false)
      else
        var w1 := w.(props := w.props[(sink, "channel") := Channel(p)][(src, "channel") := Channel(p)]);
        var w2 := w1.(bins := Added(Added(w1.bins, sourcePipe, sink), rtspPipe, src));
        if !Linkable(o, sourceEnd, sink, None) then Run(w2, false)
        else
          var w3 := w2.(edges := w2.edges + {Edge(sourceEnd, sink, None)});
          if !Linkable(o, src, rtspStart, None) then Run(w3, false)
          else Run(w3.(edges := w3.edges + {Edge(src, rtspStart, None)}), true)
  }

  /** ConnectRtspPipe(rtsp_pipes[p], pipes[dst], elements[last], elements[first]):
      each operator[] leaves its name behind. */
  function ConnectStep(o: Oracle, w: World, c: (string, (string, string, string))): Run
  {
    var (name, (dstPipe, dstLast, rtspFirst)) := c;
    var w1 := w.(rtspPipes := Touch(w.rtspPipes, name), pipes := Touch(w.pipes, dstPipe),
                 elements := Touch(Touch(w.elements, dstLast), rtspFirst));
    Connect(o, w1, Lookup(w.rtspPipes, name), Lookup(w.pipes, dstPipe),
            Lookup(w.elements, dstLast), Lookup(w.elements, rtspFirst))
  }

  // ------------------------------------------------------------ LoadJson

  /** LoadJson: caps, elements, properties, pipes, RTSP pipes, links, caps
      links, gateways; the first failure returns false. */
  function Load(o: Oracle, w0: World): Run
  {
    var made := Seqn(o, w0.(caps := InitialCaps), RawElements, CreateStep);
    if !made.ok then made
    else
      var pipes := Seqn((), Tune(made.w), RawPipes, PipeStep);
      if !pipes.ok then pipes
      else
        var rtsp := Seqn((), pipes.w, RawRtspPipes, RtspPipeStep);
        if !rtsp.ok then rtsp
        else
          var links := Seqn(o, rtsp.w, RawLinks, LinkStep);
          if !links.ok then links
          else
            var capLinks := Seqn(o, links.w, RawCapLinks, CapLinkStep);
            if !capLinks.ok then capLinks
            else Seqn(o, capLinks.w, RawRtspConnections, ConnectStep)
  }

  // ------------------------------------------------------------ teardown

  /** The pipes the destructor stops and releases: the entries of pipes
      that are elements. */
  function TornDown(pipes: map<string, Ref>): set<Ref>
  {
    set k | k in pipes && pipes[k].IsElement() :: pipes[k]
  }

  /** Every torn-down pipe is set to the NULL state. */
  function Stopped(states: map<Ref, GstState>, refs: set<Ref>): map<Ref, GstState>
  {
    map r | r in states.Keys + refs :: if r in refs then StateNull else states[r]
  }

  function Teardown(w: World): World
  {
    var gone := TornDown(w.pipes);
    w.(states := Stopped(w.states, gone), released := w.released + gone)
  }
}
