/**
 * The part of GStreamer the application leans on, reduced to what its
 * bookkeeping needs: references to elements and pipelines, caps values,
 * and an engine that records bins, links, properties, requested pads,
 * states and released references. Whether the engine can build an element,
 * link two pads or find a pad template is not modelled: an Oracle answers.
 */
module Gst {
  import opened Base

  /** A GstElement* as the application holds it: NULL, an element or a
      pipeline (a pipeline is an element too), known by the name it was
      created with. */
  datatype Ref = Null | Element(name: string) | Pipeline(name: string)
  {
    /** GST_IS_ELEMENT */
    predicate IsElement() { !Null? }

    /** GST_IS_PIPELINE */
    predicate IsPipeline() { Pipeline? }
  }

  /** "video/x-raw" caps with a width, a height and a framerate fraction. */
  datatype Caps = RawVideo(width: int, height: int, fpsNum: int, fpsDen: int)

  datatype GstState = VoidPending | StateNull | Ready | Paused | Playing

  /** A link made by the engine; filter is the caps of a filtered link. */
  datatype Edge = Edge(src: Ref, dst: Ref, filter: Option<Caps>)

  /** A GstRTSPMediaFactory as the application configures it: its launch
      string (NULL when never set) and whether its media are shared. */
  datatype Factory = Factory(launch: Option<string>, shared: bool)

  /** What the engine would answer: whether a factory is installed, whether
      two elements (optionally through caps) can be linked, whether an
      element's class has a pad template of that name, and whether a
      request pad of the first element links to the sink pad of the second. */
  datatype Oracle = Oracle(
    canMake: string -> bool,
    canLink: (Ref, Ref) -> bool,
    canLinkFiltered: (Ref, Ref, Caps) -> bool,
    hasTemplate: (Ref, string) -> bool,
    padLinkOk: (Ref, Ref) -> bool)

  /** gst_element_factory_make(factory, name) */
  function Made(o: Oracle, factory: string, name: string): (r: Ref)
    ensures r.IsElement() <==> o.canMake(factory)
    ensures r.IsElement() ==> r == Element(name)
  {
    if o.canMake(factory) then Element(name) else Null
  }

  /** gst_element_link / gst_element_link_filtered: NULL never links. */
  predicate Linkable(o: Oracle, a: Ref, b: Ref, filter: Option<Caps>)
  {
    && a.IsElement() && b.IsElement()
    && match filter
       case None => o.canLink(a, b)
       case Some(c) => o.canLinkFiltered(a, b, c)
  }

  /** gst_bin_add: a NULL element or a bin that is not a pipeline is refused
      and nothing changes. */
  function Added(bins: map<Ref, set<Ref>>, bin: Ref, e: Ref): map<Ref, set<Ref>>
  {
    if bin.IsPipeline() && e.IsElement() then
      bins[bin := (if bin in bins then bins[bin] else {}) + {e}]
    else bins
  }

  /** gst_bin_add puts the element in the pipeline, keeps every earlier
      member, and adds nothing else. */
  lemma AddedMembers(bins: map<Ref, set<Ref>>, bin: Ref, e: Ref)
    ensures bin.IsPipeline() && e.IsElement() ==> bin in Added(bins, bin, e) && e in Added(bins, bin, e)[bin]
    ensures forall b :: b in bins ==> b in Added(bins, bin, e) && bins[b] <= Added(bins, bin, e)[b]
    ensures forall b, x :: b in Added(bins, bin, e) && x in Added(bins, bin, e)[b] ==>
              (b in bins && x in bins[b]) || (b == bin && x == e)
  {
  }

  class Engine {
    const oracle: Oracle
    var bins: map<Ref, set<Ref>>
    var edges: set<Edge>
    var props: map<(Ref, string), string>
    var requestedPads: map<Ref, nat>
    var states: map<Ref, GstState>
    var released: set<Ref>

    constructor(o: Oracle)
      ensures oracle == o
      ensures bins == map[] && edges == {} && props == map[]
      ensures requestedPads == map[] && states == map[] && released == {}
    {
      oracle := o;
      bins := map[];
      edges := {};
      props := map[];
      requestedPads := map[];
      states := map[];
      released := {};
    }

    /** gst_element_factory_make */
    method Make(factory: string, name: string) returns (r: Ref)
      ensures r == Made(oracle, factory, name)
    {
      r := if oracle.canMake(factory) then Element(name) else Null;
    }

    /** gst_pipeline_new: a new, empty pipeline. */
    method NewPipeline(name: string) returns (r: Ref)
      modifies this
      ensures r == Pipeline(name)
      ensures bins == old(bins)[r := {}]
      ensures edges == old(edges) && props == old(props) && requestedPads == old(requestedPads)
      ensures states == old(states) && released == old(released)
    {
      r := Pipeline(name);
      bins := bins[r := {}];
    }

    /** gst_bin_add */
    method BinAdd(bin: Ref, e: Ref)
      modifies this
      ensures bins == Added(old(bins), bin, e)
      ensures edges == old(edges) && props == old(props) && requestedPads == old(requestedPads)
      ensures states == old(states) && released == old(released)
    {
      bins := Added(bins, bin, e);
    }

    /** gst_element_link, or gst_element_link_filtered when filter is given. */
    method Link(a: Ref, b: Ref, filter: Option<Caps>) returns (ok: bool)
      modifies this
      ensures ok == Linkable(oracle, a, b, filter)
      ensures edges == if ok then old(edges) + {Edge(a, b, filter)} else old(edges)
      ensures bins == old(bins) && props == old(props) && requestedPads == old(requestedPads)
      ensures states == old(states) && released == old(released)
    {
      ok := Linkable(oracle, a, b, filter);
      if ok {
        edges := edges + {Edge(a, b, filter)};
      }
    }

    /** g_object_set with one property; NULL is refused. */
    method Set(e: Ref, key: string, value: string)
      modifies this
      ensures props == if e.IsElement() then old(props)[(e, key) := value] else old(props)
      ensures bins == old(bins) && edges == old(edges) && requestedPads == old(requestedPads)
      ensures states == old(states) && released == old(released)
    {
      if e.IsElement() {
        props := props[(e, key) := value];
      }
    }

    /** gst_element_request_pad: one more request pad on e. */
    method RequestPad(e: Ref)
      modifies this
      ensures requestedPads == old(requestedPads)[e := (if e in old(requestedPads) then old(requestedPads)[e] else 0) + 1]
      ensures bins == old(bins) && edges == old(edges) && props == old(props)
      ensures states == old(states) && released == old(released)
    {
      requestedPads := requestedPads[e := (if e in requestedPads then requestedPads[e] else 0) + 1];
    }

    /** gst_pad_link from a request pad of tee to the sink pad of e. */
    method PadLink(tee: Ref, e: Ref) returns (ok: bool)
      modifies this
      ensures ok == (e.IsElement() && oracle.padLinkOk(tee, e))
      ensures edges == if ok then old(edges) + {Edge(tee, e, None)} else old(edges)
      ensures bins == old(bins) && props == old(props) && requestedPads == old(requestedPads)
      ensures states == old(states) && released == old(released)
    {
      ok := e.IsElement() && oracle.padLinkOk(tee, e);
      if ok {
        edges := edges + {Edge(tee, e, None)};
      }
    }

    /** gst_element_set_state */
    method SetState(e: Ref, s: GstState)
      modifies this
      ensures states == if e.IsElement() then old(states)[e := s] else old(states)
      ensures bins == old(bins) && edges == old(edges) && props == old(props)
      ensures requestedPads == old(requestedPads) && released == old(released)
    {
      if e.IsElement() {
        states := states[e := s];
      }
    }

    /** gst_object_unref of the application's reference. */
    method Unref(e: Ref)
      modifies this
      ensures released == old(released) + {e}
      ensures bins == old(bins) && edges == old(edges) && props == old(props)
      ensures requestedPads == old(requestedPads) && states == old(states)
    {
      released := released + {e};
    }
  }
}
