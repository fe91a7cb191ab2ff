/**
 * Properties of Topology (src/topology.cpp), proved about the functions of
 * RegistrySpec.
 */
module RegistryLaws {
  import opened Base
  import opened Gst
  import opened RegistrySpec

  // ------------------------------------------- loops with early return

  /** One more item is one more step, if nothing has failed yet. */
  lemma SeqnPrefix<C, T>(ctx: C, w: World, xs: seq<T>, step: (C, World, T) -> Run, i: nat)
    requires i < |xs|
    requires Seqn(ctx, w, xs[..i], step).ok
    ensures Seqn(ctx, w, xs[..i + 1], step) == step(ctx, Seqn(ctx, w, xs[..i], step).w, xs[i])
  {
    assert xs[..i + 1][..i] == xs[..i];
  }

  /** After the first failure no later item is looked at. */
  lemma {:induction false} SeqnStops<C, T>(ctx: C, w: World, xs: seq<T>, step: (C, World, T) -> Run, k: nat)
    requires k <= |xs|
    requires !Seqn(ctx, w, xs[..k], step).ok
    ensures Seqn(ctx, w, xs, step) == Seqn(ctx, w, xs[..k], step)
    decreases |xs|
  {
    if k < |xs| {
      var n := |xs| - 1;
      assert xs[..n][..k] == xs[..k];
      SeqnStops(ctx, w, xs[..n], step, k);
    } else {
      assert xs[..k] == xs;
    }
  }

  /** One more turn of a loop that has not failed yet; if that turn fails,
      it is the loop's result. */
  lemma SeqnNext<C, T>(ctx: C, w: World, xs: seq<T>, step: (C, World, T) -> Run, i: nat)
    requires i < |xs|
    requires Seqn(ctx, w, xs[..i], step).ok
    ensures Seqn(ctx, w, xs[..i + 1], step) == step(ctx, Seqn(ctx, w, xs[..i], step).w, xs[i])
    ensures !step(ctx, Seqn(ctx, w, xs[..i], step).w, xs[i]).ok ==> Seqn(ctx, w, xs, step) == Seqn(ctx, w, xs[..i + 1], step)
  {
    SeqnPrefix(ctx, w, xs, step, i);
    if !Seqn(ctx, w, xs[..i + 1], step).ok {
      SeqnStops(ctx, w, xs, step, i + 1);
    }
  }

  /** Whatever every step keeps, the loop keeps. */
  lemma {:induction false} SeqnKeeps<C, T>(ctx: C, w: World, xs: seq<T>, step: (C, World, T) -> Run,
                                            p: World -> bool)
    requires p(w)
    requires forall v, x :: p(v) && x in xs ==> p(step(ctx, v, x).w)
    ensures p(Seqn(ctx, w, xs, step).w)
    decreases |xs|
  {
    if xs != [] {
      var n := |xs| - 1;
      assert forall x :: x in xs[..n] ==> x in xs;
      SeqnKeeps(ctx, w, xs[..n], step, p);
      assert xs[n] in xs;
    }
  }

  // ------------------------------------------------------ operator[]

  /** operator[] changes what no lookup returns, and a second lookup of the
      same name changes nothing more. */
  lemma TouchKeepsLookups(m: map<string, Ref>, x: string)
    ensures forall y :: Lookup(Touch(m, x), y) == Lookup(m, y)
    ensures Touch(Touch(m, x), x) == Touch(m, x)
    ensures x !in m ==> Touch(m, x) == m[x := Null]
  {
  }

  // -------------------------------------------------------- elements

  /** The names of the first k entries of a table. */
  function NamesOf(tbl: seq<(string, string)>, k: nat): set<string>
    requires k <= |tbl|
  {
    set i | 0 <= i < k :: tbl[i].0
  }

  /** Element creation succeeds exactly when every factory is installed;
      then every name of the table is registered as its element. */
  lemma {:induction false} CreateSucceedsIffAllFactories(o: Oracle, w: World, tbl: seq<(string, string)>)
    ensures Seqn(o, w, tbl, CreateStep).ok <==> forall i :: 0 <= i < |tbl| ==> o.canMake(tbl[i].1)
    ensures Seqn(o, w, tbl, CreateStep).ok ==>
              forall i :: 0 <= i < |tbl| ==>
                tbl[i].0 in Seqn(o, w, tbl, CreateStep).w.elements &&
                Seqn(o, w, tbl, CreateStep).w.elements[tbl[i].0] == Element(tbl[i].0)
    decreases |tbl|
  {
    if tbl != [] {
      var n := |tbl| - 1;
      CreateSucceedsIffAllFactories(o, w, tbl[..n]);
      assert forall i :: 0 <= i < n ==> tbl[..n][i] == tbl[i];
    }
  }

  /** The first missing factory stops element creation: the names up to
      and including the failing one are registered, the failing one as
      NULL, and no later entry is attempted. */
  lemma CreateStopsAtFirstMissingFactory(o: Oracle, w: World, tbl: seq<(string, string)>, k: nat)
    requires k < |tbl|
    requires forall i :: 0 <= i < k ==> o.canMake(tbl[i].1)
    requires !o.canMake(tbl[k].1)
    ensures !Seqn(o, w, tbl, CreateStep).ok
    ensures tbl[k].0 in Seqn(o, w, tbl, CreateStep).w.elements
    ensures Seqn(o, w, tbl, CreateStep).w.elements[tbl[k].0] == Null
    ensures Seqn(o, w, tbl, CreateStep).w.elements.Keys == w.elements.Keys + NamesOf(tbl, k + 1)
    ensures Seqn(o, w, tbl, CreateStep).w.(elements := w.elements) == w
  {
    CreateKeys(o, w, tbl, k);
    SeqnNext(o, w, tbl, CreateStep, k);
    assert NamesOf(tbl, k + 1) == NamesOf(tbl, k) + {tbl[k].0};
  }

  /** While every factory is installed, element creation registers
      exactly the names of the table and touches nothing but elements. */
  lemma {:induction false} CreateKeys(o: Oracle, w: World, tbl: seq<(string, string)>, k: nat)
    requires k <= |tbl|
    requires forall i :: 0 <= i < k ==> o.canMake(tbl[i].1)
    ensures Seqn(o, w, tbl[..k], CreateStep).ok
    ensures Seqn(o, w, tbl[..k], CreateStep).w.elements.Keys == w.elements.Keys + NamesOf(tbl, k)
    ensures Seqn(o, w, tbl[..k], CreateStep).w.(elements := w.elements) == w
    decreases k
  {
    if k > 0 {
      CreateKeys(o, w, tbl, k - 1);
      SeqnPrefix(o, w, tbl, CreateStep, k - 1);
      assert NamesOf(tbl, k) == NamesOf(tbl, k - 1) + {tbl[k - 1].0};
    } else {
      assert tbl[..0] == [];
    }
  }

  // ----------------------------------------------------------- pipes

  /** The elements the first k names of a pipe's list look up to. */
  function MembersOf(w: World, names: seq<string>, k: nat): set<Ref>
    requires k <= |names|
  {
    set i | 0 <= i < k :: Lookup(w.elements, names[i])
  }

  /** While every name is an element, the pipe's bin gains exactly their
      elements and nothing but elements and bins changes. */
  lemma {:induction false} MembersPrefix(pipe: Ref, w: World, names: seq<string>, k: nat)
    requires k <= |names|
    requires pipe.IsPipeline() && pipe in w.bins
    requires forall i :: 0 <= i < k ==> Lookup(w.elements, names[i]).IsElement()
    ensures Seqn(pipe, w, names[..k], MemberStep).ok
    ensures Seqn(pipe, w, names[..k], MemberStep).w.bins == w.bins[pipe := w.bins[pipe] + MembersOf(w, names, k)]
    ensures forall y :: Lookup(Seqn(pipe, w, names[..k], MemberStep).w.elements, y) == Lookup(w.elements, y)
    ensures Seqn(pipe, w, names[..k], MemberStep).w.(elements := w.elements, bins := w.bins) == w
    decreases k
  {
    if k > 0 {
      MembersPrefix(pipe, w, names, k - 1);
      SeqnPrefix(pipe, w, names, MemberStep, k - 1);
      var prev := Seqn(pipe, w, names[..k - 1], MemberStep).w;
      var next := Seqn(pipe, w, names[..k], MemberStep).w;
      var e := Lookup(w.elements, names[k - 1]);
      TouchKeepsLookups(prev.elements, names[k - 1]);
      assert Lookup(prev.elements, names[k - 1]) == e;
      assert next == Touched(prev, names[k - 1]).(bins := Added(prev.bins, pipe, e));
      assert next.bins == prev.bins[pipe := prev.bins[pipe] + {e}];
      var before := w.bins[pipe] + MembersOf(w, names, k - 1);
      assert prev.bins == w.bins[pipe := before];
      assert MembersOf(w, names, k) == MembersOf(w, names, k - 1) + {e};
      assert before + {e} == w.bins[pipe] + MembersOf(w, names, k);
      UpdateTwice(w.bins, pipe, before, before + {e});
    } else {
      assert names[..0] == [];
      assert MembersOf(w, names, 0) == {};
      assert w.bins[pipe] + {} == w.bins[pipe];
      assert w.bins[pipe := w.bins[pipe]] == w.bins;
    }
  }

  /** Filling a pipe succeeds exactly when every name of its list is an
      element, and then its bin holds exactly those elements. */
  lemma MembersSucceedIffDeclared(pipe: Ref, w: World, names: seq<string>)
    requires pipe.IsPipeline() && pipe in w.bins
    ensures Seqn(pipe, w, names, MemberStep).ok <==>
              forall i :: 0 <= i < |names| ==> Lookup(w.elements, names[i]).IsElement()
    ensures Seqn(pipe, w, names, MemberStep).ok ==>
              Seqn(pipe, w, names, MemberStep).w.bins == w.bins[pipe := w.bins[pipe] + MembersOf(w, names, |names|)]
  {
    if forall i :: 0 <= i < |names| ==> Lookup(w.elements, names[i]).IsElement() {
      MembersPrefix(pipe, w, names, |names|);
      assert names[..|names|] == names;
    } else {
      var k :| 0 <= k < |names| && !Lookup(w.elements, names[k]).IsElement();
      FirstUndeclared(pipe, w, names, k);
    }
  }

  /** The first name that is not an element makes filling fail: the names
      before it are already in the bin, the failing name is entered into
      elements as NULL, and no later name is looked at. */
  lemma UndeclaredMemberStops(pipe: Ref, w: World, names: seq<string>, k: nat)
    requires k < |names|
    requires pipe.IsPipeline() && pipe in w.bins
    requires forall i :: 0 <= i < k ==> Lookup(w.elements, names[i]).IsElement()
    requires !Lookup(w.elements, names[k]).IsElement()
    ensures !Seqn(pipe, w, names, MemberStep).ok
    ensures Seqn(pipe, w, names, MemberStep).w.bins == w.bins[pipe := w.bins[pipe] + MembersOf(w, names, k)]
    ensures names[k] in Seqn(pipe, w, names, MemberStep).w.elements
    ensures Seqn(pipe, w, names, MemberStep).w.elements[names[k]] == Null
  {
    MembersPrefix(pipe, w, names, k);
    SeqnNext(pipe, w, names, MemberStep, k);
  }

  lemma FirstUndeclared(pipe: Ref, w: World, names: seq<string>, k: nat)
    requires k < |names|
    requires pipe.IsPipeline() && pipe in w.bins
    requires !Lookup(w.elements, names[k]).IsElement()
    ensures !Seqn(pipe, w, names, MemberStep).ok
    decreases k
  {
    if exists j :: 0 <= j < k && !Lookup(w.elements, names[j]).IsElement() {
      var j :| 0 <= j < k && !Lookup(w.elements, names[j]).IsElement();
      FirstUndeclared(pipe, w, names, j);
    } else {
      UndeclaredMemberStops(pipe, w, names, k);
    }
  }

  /** A pipe is created and registered before its list is checked; it
      fills exactly when every name of the list is an element, and then
      its bin holds exactly those elements. */
  lemma PipeRegisteredThenFilled(w: World, entry: (string, seq<string>))
    ensures PipeStep((), w, entry).w.pipes == w.pipes[entry.0 := Pipeline(entry.0)]
    ensures PipeStep((), w, entry).ok <==>
              forall i :: 0 <= i < |entry.1| ==> Lookup(w.elements, entry.1[i]).IsElement()
    ensures PipeStep((), w, entry).ok ==>
              PipeStep((), w, entry).w.bins[Pipeline(entry.0)] == MembersOf(w, entry.1, |entry.1|)
  {
    var p := Pipeline(entry.0);
    var w1 := w.(pipes := w.pipes[entry.0 := p], bins := w.bins[p := {}]);
    MembersSucceedIffDeclared(p, w1, entry.1);
    PipesUntouched(p, w1, entry.1);
    assert MembersOf(w1, entry.1, |entry.1|) == MembersOf(w, entry.1, |entry.1|);
  }

  /** Filling a bin never changes the pipe registries. */
  lemma {:induction false} PipesUntouched(pipe: Ref, w: World, names: seq<string>)
    ensures Seqn(pipe, w, names, MemberStep).w.pipes == w.pipes
    ensures Seqn(pipe, w, names, MemberStep).w.rtspPipes == w.rtspPipes
  {
    SeqnKeeps(pipe, w, names, MemberStep, (v: World) => v.pipes == w.pipes && v.rtspPipes == w.rtspPipes);
  }

  lemma UpdateTwice<K, V>(m: map<K, V>, k: K, a: V, b: V)
    ensures m[k := a][k := b] == m[k := b]
  {
  }

  // ----------------------------------------------------------- links

  /** The two element names of a link entry and its filter. */
  type Ends<!T> = T -> (string, string, Option<Caps>)

  /** step is LinkWith on the ends of each entry. */
  ghost predicate LinksBy<T(!new)>(o: Oracle, step: (Oracle, World, T) -> Run, ends: Ends<T>)
  {
    forall v, x :: step(o, v, x) == LinkWith(o, v, ends(x).0, ends(x).1, ends(x).2)
  }

  /** Whether the engine links the elements an entry names, looked up in w. */
  predicate Links<T>(o: Oracle, w: World, ends: Ends<T>, x: T)
  {
    Linkable(o, Lookup(w.elements, ends(x).0), Lookup(w.elements, ends(x).1), ends(x).2)
  }

  /** The edges of the first k entries, their names looked up in w. */
  function EdgesOf<T>(w: World, tbl: seq<T>, ends: Ends<T>, k: nat): set<Edge>
    requires k <= |tbl|
  {
    set i | 0 <= i < k :: Edge(Lookup(w.elements, ends(tbl[i]).0), Lookup(w.elements, ends(tbl[i]).1), ends(tbl[i]).2)
  }

  /** While every link is made, each adds its edge and nothing else changes
      but elements (by operator[], which changes no lookup). */
  lemma {:induction false} LinksPrefix<T(!new)>(o: Oracle, w: World, tbl: seq<T>, step: (Oracle, World, T) -> Run,
                                          ends: Ends<T>, k: nat)
    requires k <= |tbl|
    requires LinksBy(o, step, ends)
    requires forall i :: 0 <= i < k ==> Links(o, w, ends, tbl[i])
    ensures Seqn(o, w, tbl[..k], step).ok
    ensures Seqn(o, w, tbl[..k], step).w.edges == w.edges + EdgesOf(w, tbl, ends, k)
    ensures forall y :: Lookup(Seqn(o, w, tbl[..k], step).w.elements, y) == Lookup(w.elements, y)
    ensures Seqn(o, w, tbl[..k], step).w.(elements := w.elements, edges := w.edges) == w
    decreases k
  {
    if k > 0 {
      LinksPrefix(o, w, tbl, step, ends, k - 1);
      SeqnPrefix(o, w, tbl, step, k - 1);
      var prev := Seqn(o, w, tbl[..k - 1], step).w;
      var x := tbl[k - 1];
      TouchKeepsLookups(prev.elements, ends(x).0);
      TouchKeepsLookups(Touch(prev.elements, ends(x).0), ends(x).1);
      var e := Edge(Lookup(w.elements, ends(x).0), Lookup(w.elements, ends(x).1), ends(x).2);
      var next := Seqn(o, w, tbl[..k], step).w;
      assert Links(o, w, ends, x);
      assert next == Touched(Touched(prev, ends(x).0), ends(x).1).(edges := prev.edges + {e});
      assert EdgesOf(w, tbl, ends, k) == EdgesOf(w, tbl, ends, k - 1) + {e};
      assert next.edges == w.edges + EdgesOf(w, tbl, ends, k);
    } else {
      assert tbl[..0] == [];
      assert EdgesOf(w, tbl, ends, 0) == {};
    }
  }

  /** The first link the engine refuses ends the loop with false: the links
      before it are made, no later link is attempted. */
  lemma FirstRefusedLinkStops<T(!new)>(o: Oracle, w: World, tbl: seq<T>, step: (Oracle, World, T) -> Run,
                                 ends: Ends<T>, k: nat)
    requires k < |tbl|
    requires LinksBy(o, step, ends)
    requires forall i :: 0 <= i < k ==> Links(o, w, ends, tbl[i])
    requires !Links(o, w, ends, tbl[k])
    ensures !Seqn(o, w, tbl, step).ok
    ensures Seqn(o, w, tbl, step).w.edges == w.edges + EdgesOf(w, tbl, ends, k)
  {
    LinksPrefix(o, w, tbl, step, ends, k);
    SeqnNext(o, w, tbl, step, k);
    var prev := Seqn(o, w, tbl[..k], step).w;
    var x := tbl[k];
    TouchKeepsLookups(prev.elements, ends(x).0);
  }

  /** A link loop succeeds exactly when the engine makes every link, and
      then it has added exactly their edges. */
  lemma LinksSucceedIffAllLink<T(!new)>(o: Oracle, w: World, tbl: seq<T>, step: (Oracle, World, T) -> Run,
                                  ends: Ends<T>)
    requires LinksBy(o, step, ends)
    ensures Seqn(o, w, tbl, step).ok <==> forall i :: 0 <= i < |tbl| ==> Links(o, w, ends, tbl[i])
    ensures Seqn(o, w, tbl, step).ok ==> Seqn(o, w, tbl, step).w.edges == w.edges + EdgesOf(w, tbl, ends, |tbl|)
  {
    if forall i :: 0 <= i < |tbl| ==> Links(o, w, ends, tbl[i]) {
      LinksPrefix(o, w, tbl, step, ends, |tbl|);
      assert tbl[..|tbl|] == tbl;
    } else {
      var k := FirstUnlinked(o, w, tbl, ends);
      FirstRefusedLinkStops(o, w, tbl, step, ends, k);
    }
  }

  /** The position of the first entry the engine does not link. */
  function FirstUnlinked<T>(o: Oracle, w: World, tbl: seq<T>, ends: Ends<T>): (k: nat)
    requires exists i :: 0 <= i < |tbl| && !Links(o, w, ends, tbl[i])
    ensures k < |tbl| && !Links(o, w, ends, tbl[k])
    ensures forall i :: 0 <= i < k ==> Links(o, w, ends, tbl[i])
  {
    if !Links(o, w, ends, tbl[0]) then 0
    else
      assert exists i :: 0 <= i < |tbl[1..]| && !Links(o, w, ends, tbl[1..][i]) by {
        var i :| 0 <= i < |tbl| && !Links(o, w, ends, tbl[i]);
        assert tbl[1..][i - 1] == tbl[i];
      }
      1 + FirstUnlinked(o, w, tbl[1..], ends)
  }

  /** The plain link table and the caps link table are both link loops. */
  lemma LinkTablesAreLinkLoops(o: Oracle)
    ensures LinksBy(o, LinkStep, (l: (string, string)) => (l.0, l.1, None))
    ensures LinksBy(o, CapLinkStep, (l: (string, string, Caps)) => (l.0, l.1, Some(l.2)))
  {
  }

  // -------------------------------------------------------- gateways

  /** ConnectRtspPipe refuses anything that is not a pipeline, and then
      changes nothing. */
  lemma ConnectRefusesNonPipelines(o: Oracle, w: World, rtspPipe: Ref, sourcePipe: Ref, sourceEnd: Ref, rtspStart: Ref)
    requires !rtspPipe.IsPipeline() || !sourcePipe.IsPipeline()
    ensures Connect(o, w, rtspPipe, sourcePipe, sourceEnd, rtspStart) == Run(w, false)
  {
  }

  /** Between two pipelines a gateway is made exactly when both intervideo
      factories are installed and both links are made. Then the sink
      "intersink_"+p sits in the source pipe fed by its end point, the
      source "intersrc_"+p sits in the RTSP pipe feeding its start point,
      both share the channel "gateway_"+p, and the registries are as they
      were. */
  lemma GatewayWiring(o: Oracle, w: World, rtspPipe: Ref, sourcePipe: Ref, sourceEnd: Ref, rtspStart: Ref)
    requires rtspPipe.IsPipeline() && sourcePipe.IsPipeline()
    ensures var r := Connect(o, w, rtspPipe, sourcePipe, sourceEnd, rtspStart);
      var p := rtspPipe.name;
      var sink := Element(SinkName(p));
      var src := Element(SourceName(p));
      && (r.ok <==>
            && o.canMake("intervideosink") && o.canMake("intervideosrc")
            && Linkable(o, sourceEnd, sink, None) && Linkable(o, src, rtspStart, None))
      && (r.ok ==>
            && r.w.edges == w.edges + {Edge(sourceEnd, sink, None), Edge(src, rtspStart, None)}
            && r.w.props[(sink, "channel")] == Channel(p)
            && r.w.props[(src, "channel")] == Channel(p)
            && sourcePipe in r.w.bins && sink in r.w.bins[sourcePipe]
            && rtspPipe in r.w.bins && src in r.w.bins[rtspPipe]
            && r.w.elements == w.elements && r.w.pipes == w.pipes && r.w.rtspPipes == w.rtspPipes)
  {
  }

  /** A gateway changes bins, edges and properties only. */
  lemma ConnectKeepsRegistries(o: Oracle, w: World, rtspPipe: Ref, sourcePipe: Ref, sourceEnd: Ref, rtspStart: Ref)
    ensures var r := Connect(o, w, rtspPipe, sourcePipe, sourceEnd, rtspStart).w;
      r.elements == w.elements && r.pipes == w.pipes && r.rtspPipes == w.rtspPipes
  {
  }

  /** Not all or nothing: when the source pipe's end point cannot feed the
      gateway sink, both gateway elements stay in their pipes and false is
      returned. */
  lemma GatewayNotUndone(o: Oracle, w: World, rtspPipe: Ref, sourcePipe: Ref, sourceEnd: Ref, rtspStart: Ref)
    requires rtspPipe.IsPipeline() && sourcePipe.IsPipeline()
    requires o.canMake("intervideosink") && o.canMake("intervideosrc")
    requires !Linkable(o, sourceEnd, Element(SinkName(rtspPipe.name)), None)
    ensures var r := Connect(o, w, rtspPipe, sourcePipe, sourceEnd, rtspStart);
      && !r.ok
      && sourcePipe in r.w.bins && Element(SinkName(rtspPipe.name)) in r.w.bins[sourcePipe]
      && rtspPipe in r.w.bins && Element(SourceName(rtspPipe.name)) in r.w.bins[rtspPipe]
      && r.w.edges == w.edges
  {
  }

  /** The gateway names tell the two ends apart and tell which RTSP pipe
      they serve. */
  lemma GatewayNamesDistinct(p: string, q: string)
    ensures SinkName(p) != SourceName(q)
    ensures SinkName(p) == SinkName(q) ==> p == q
    ensures SourceName(p) == SourceName(q) ==> p == q
    ensures Channel(p) == Channel(q) ==> p == q
  {
    assert SinkName(p)[6] == 'i' && SourceName(q)[6] == 'r';
    if SinkName(p) == SinkName(q) {
      assert p == SinkName(p)[10..] && q == SinkName(q)[10..];
    }
    if SourceName(p) == SourceName(q) {
      assert p == SourceName(p)[9..] && q == SourceName(q)[9..];
    }
    if Channel(p) == Channel(q) {
      assert p == Channel(p)[8..] && q == Channel(q)[8..];
    }
  }

  /** As written, a NULL RTSP pipe makes ConnectRtspPipe throw while
      building the name, where the pipeline check was meant to refuse it. */
  lemma NullRtspPipeThrows(sourcePipe: Ref)
    ensures ConnectGuardAsWritten(Null, sourcePipe) == Throws
    ensures ConnectGuard(Null, sourcePipe) == Refuses
  {
  }

  /** For any RTSP pipe other than NULL the check as written and as
      intended agree. */
  lemma GuardsAgreeOtherwise(rtspPipe: Ref, sourcePipe: Ref)
    requires !rtspPipe.Null?
    ensures ConnectGuardAsWritten(rtspPipe, sourcePipe) == ConnectGuard(rtspPipe, sourcePipe)
  {
  }

  // -------------------------------------------------------- teardown

  /** The destructor stops and releases exactly the pipes entries that are
      elements; NULL entries, RTSP pipes that are not also pipes entries,
      and the registries are left alone. */
  lemma TeardownStopsExactlyPipes(w: World)
    ensures forall k :: k in w.pipes && w.pipes[k].IsElement() ==>
              w.pipes[k] in Teardown(w).states && Teardown(w).states[w.pipes[k]] == StateNull
              && w.pipes[k] in Teardown(w).released
    ensures forall r :: r in Teardown(w).released && r !in w.released ==>
              r.IsElement() && exists k :: k in w.pipes && w.pipes[k] == r
    ensures forall r :: r in w.states && r !in w.pipes.Values ==> Teardown(w).states[r] == w.states[r]
    ensures forall k :: k in w.rtspPipes && w.rtspPipes[k] !in w.pipes.Values && w.rtspPipes[k] !in w.released ==>
              w.rtspPipes[k] !in Teardown(w).released
    ensures Teardown(w).(states := w.states, released := w.released) == w
  {
  }
}
