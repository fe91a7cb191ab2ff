/**
 * RtspServer (src/server.cpp): the RTSP front of the application.
 * RegisterRtspPipes mounts one shared media factory per RTSP pipe at
 * "/" + name and records the pipe in a name-keyed table that every server
 * shares (a static member in the source). The factory's launch string
 * carries the pipe's name, and ImportPipeline reads it back to find the
 * pipe. CreateMediaPipe gives each media a reusable pipeline named
 * "e_" + name.
 */
module Bridge {
  import opened Base
  import opened Gst
  import opened RegistrySpec

  /** The port the server listens on. */
  const Service := "8554"

  /** Seconds between two sweeps of the session pool. */
  const CleanupPeriod := 2

  /** The mount path of a pipe. */
  function MountPath(name: string): (p: string)
    ensures |p| == |name| + 1 && p[0] == '/' && p[1..] == name
  {
    "/" + name
  }

  /** The factory RegisterRtspPipes mounts for a pipe. */
  function RegisteredFactory(name: string): (f: Factory)
    ensures f.launch == Some(name) && f.shared
  {
    Factory(Some(name), true)
  }

  /** p is the mount path of one of the pipes. */
  predicate MountOf(p: string, pipes: map<string, Ref>)
  {
    |p| >= 1 && p[0] == '/' && p[1..] in pipes
  }

  function MountPaths(pipes: map<string, Ref>): set<string>
  {
    set k | k in pipes :: MountPath(k)
  }

  /** The mount points after the pipes are registered on top of mounts: a
      registered pipe's path gets its factory, and every other path keeps
      the factory it had. */
  function Mounts(mounts: map<string, Factory>, pipes: map<string, Ref>): map<string, Factory>
  {
    map p | p in mounts.Keys + MountPaths(pipes) ::
      if MountOf(p, pipes) then RegisteredFactory(p[1..]) else mounts[p]
  }

  /** The name of the pipeline CreateMediaPipe builds. */
  function MediaPipeName(launch: string): (r: string)
    ensures |r| == |launch| + 2 && r[..2] == "e_" && r[2..] == launch
  {
    "e_" + launch
  }

  /** The static name-to-pipeline table behind every RtspServer. */
  class PipeTable {
    var pipes: map<string, Ref>

    constructor()
      ensures pipes == map[]
    {
      pipes := map[];
    }
  }

  /** A GstRTSPMedia as CreateMediaPipe leaves it. */
  class Media {
    var pipeline: Ref
    var reusable: bool
    var stateWatched: bool

    constructor()
      ensures pipeline == Null && !reusable && !stateWatched
    {
      pipeline := Null;
      reusable := false;
      stateWatched := false;
    }
  }

  class RtspServer {
    const table: PipeTable
    var service: string
    var source: nat
    var mounts: map<string, Factory>
    var cleanupPeriod: nat

    /** A new server on port 8554, not attached yet, with a session cleanup
        every two seconds. */
    constructor(table: PipeTable)
      ensures this.table == table
      ensures service == Service && source == 0 && mounts == map[]
      ensures cleanupPeriod == CleanupPeriod
    {
      this.table := table;
      service := Service;
      source := 0;
      mounts := map[];
      cleanupPeriod := CleanupPeriod;
    }

    /** Start: attachId is the source id gst_rtsp_server_attach hands out,
        0 when attaching failed. */
    method Start(attachId: nat) returns (ok: bool)
      modifies this
      ensures ok <==> attachId != 0
      ensures source == attachId
      ensures service == old(service) && mounts == old(mounts)
      ensures cleanupPeriod == old(cleanupPeriod)
    {
      source := attachId;
      if source == 0 {
        return false;
      }
      return true;
    }

    /** RegisterRtspPipes: every pipe is mounted at "/" + name with a
        shared factory whose launch string is the name, and is entered in
        the table, replacing an earlier entry of that name. It never
        fails. */
    method RegisterRtspPipes(pipes: map<string, Ref>) returns (ok: bool)
      modifies this, table
      ensures ok
      ensures mounts == Mounts(old(mounts), pipes)
      ensures table.pipes == old(table.pipes) + pipes
      ensures service == old(service) && source == old(source)
      ensures cleanupPeriod == old(cleanupPeriod)
    {
      var todo := pipes.Keys;
      ghost var done: set<string> := {};
      while todo != {}
        invariant todo + done == pipes.Keys && todo !! done
        invariant mounts == Mounts(old(mounts), Restrict(pipes, done))
        invariant table.pipes == old(table.pipes) + Restrict(pipes, done)
        invariant service == old(service) && source == old(source)
        invariant cleanupPeriod == old(cleanupPeriod)
        decreases todo
      {
        var name :| name in todo;
        MountOneMore(old(mounts), pipes, done, name);
        TableOneMore(old(table.pipes), pipes, done, name);
        mounts := mounts[MountPath(name) := RegisteredFactory(name)];
        table.pipes := table.pipes[name := pipes[name]];
        todo := todo - {name};
        done := done + {name};
      }
      assert Restrict(pipes, done) == pipes;
      return true;
    }

    /** ImportPipeline: the pipe registered under the factory's launch
        string (rtsp_pipes[name], which enters NULL for an unknown name).
        The source builds a std::string from the launch string, so a
        factory without one is excluded. */
    static method ImportPipeline(table: PipeTable, factory: Factory) returns (r: Ref)
      requires factory.launch.Some?
      modifies table
      ensures r == Lookup(old(table.pipes), factory.launch.value)
      ensures table.pipes == Touch(old(table.pipes), factory.launch.value)
    {
      var name := factory.launch.value;
      r := Lookup(table.pipes, name);
      table.pipes := Touch(table.pipes, name);
    }

    /** CreateMediaPipe: NULL for a factory without launch string; otherwise
        a new pipeline "e_" + launch, handed to the media, which is made
        reusable and has its state changes watched. */
    static method CreateMediaPipe(engine: Engine, factory: Factory, media: Media) returns (r: Ref)
      modifies engine, media
      ensures factory.launch.None? ==> r == Null && unchanged(engine, media)
      ensures factory.launch.Some? ==>
        && r == Pipeline(MediaPipeName(factory.launch.value))
        && media.pipeline == r && media.reusable && media.stateWatched
        && engine.bins == old(engine.bins)[r := {}]
        && engine.edges == old(engine.edges) && engine.props == old(engine.props)
        && engine.requestedPads == old(engine.requestedPads)
        && engine.states == old(engine.states) && engine.released == old(engine.released)
    {
      if factory.launch.None? {
        return Null;
      }
      r := engine.NewPipeline(MediaPipeName(factory.launch.value));
      media.pipeline := r;
      media.reusable := true;
      media.stateWatched := true;
    }
  }

  /** SessionPoolTimeout: after the sweep it asks to be called again, so
      the cleanup timer never stops. */
  function SessionPoolTimeout(): (keepTimer: bool)
    ensures keepTimer
  {
    true
  }

  // ------------------------------------------------------------ lemmas

  lemma MountPathIsMount(pipes: map<string, Ref>, k: string)
    requires k in pipes
    ensures MountOf(MountPath(k), pipes) && MountPath(k)[1..] == k
  {
  }

  /** Registering one more pipe sets its mount path and nothing else. */
  lemma MountOneMore(mounts: map<string, Factory>, pipes: map<string, Ref>, done: set<string>, k: string)
    requires k in pipes
    ensures Mounts(mounts, Restrict(pipes, done))[MountPath(k) := RegisteredFactory(k)]
         == Mounts(mounts, Restrict(pipes, done + {k}))
  {
    assert Restrict(pipes, done + {k}) == Restrict(pipes, done)[k := pipes[k]];
    MountAdded(mounts, Restrict(pipes, done), k, pipes[k]);
  }

  /** Adding a pipe to the registered ones adds its mount path only. */
  lemma MountAdded(mounts: map<string, Factory>, pipes: map<string, Ref>, k: string, v: Ref)
    ensures Mounts(mounts, pipes)[MountPath(k) := RegisteredFactory(k)] == Mounts(mounts, pipes[k := v])
  {
    var next := Mounts(mounts, pipes)[MountPath(k) := RegisteredFactory(k)];
    var after := Mounts(mounts, pipes[k := v]);
    MountPathsAdded(pipes, k, v);
    assert next.Keys == after.Keys;
    forall p | p in next.Keys ensures next[p] == after[p] {
      if p != MountPath(k) {
        MountOfOther(p, pipes, k, v);
      }
    }
  }

  lemma MountPathsAdded(pipes: map<string, Ref>, k: string, v: Ref)
    ensures MountPaths(pipes[k := v]) == MountPaths(pipes) + {MountPath(k)}
  {
    forall p | p in MountPaths(pipes[k := v]) ensures p in MountPaths(pipes) + {MountPath(k)} {
      var j :| j in pipes[k := v] && p == MountPath(j);
    }
  }

  /** A path other than k's mount path is a mount path with k or without. */
  lemma MountOfOther(p: string, pipes: map<string, Ref>, k: string, v: Ref)
    requires p != MountPath(k)
    ensures MountOf(p, pipes[k := v]) == MountOf(p, pipes)
  {
  }

  /** Entering one more pipe in the table. */
  lemma TableOneMore(table: map<string, Ref>, pipes: map<string, Ref>, done: set<string>, k: string)
    requires k in pipes
    ensures (table + Restrict(pipes, done))[k := pipes[k]] == table + Restrict(pipes, done + {k})
  {
    assert Restrict(pipes, done + {k}) == Restrict(pipes, done)[k := pipes[k]];
  }

  /** After RegisterRtspPipes(pipes), every pipe is mounted at "/" + its
      name, with a shared factory; ImportPipeline on that factory finds
      the pipe again (the launch string is the round trip). */
  lemma MountedPipeImportsBack(table: map<string, Ref>, mounts: map<string, Factory>,
                               pipes: map<string, Ref>, k: string)
    requires k in pipes
    ensures MountPath(k) in Mounts(mounts, pipes)
    ensures Mounts(mounts, pipes)[MountPath(k)] == RegisteredFactory(k)
    ensures Lookup(table + pipes, Mounts(mounts, pipes)[MountPath(k)].launch.value) == pipes[k]
  {
    MountPathIsMount(pipes, k);
    assert MountPath(k) in MountPaths(pipes);
  }

  /** Registering touches no path other than the pipes' own mount paths. */
  lemma MountsKeepOthers(mounts: map<string, Factory>, pipes: map<string, Ref>, p: string)
    requires !MountOf(p, pipes)
    ensures p in Mounts(mounts, pipes) <==> p in mounts
    ensures p in mounts ==> Mounts(mounts, pipes)[p] == mounts[p]
  {
    forall j | j in pipes ensures MountPath(j) != p {
      MountPathIsMount(pipes, j);
    }
  }

  /** Every factory registered is shared, so no mount point that was
      shared stops being shared. */
  lemma RegisteredFactoriesShared(mounts: map<string, Factory>, pipes: map<string, Ref>)
    requires forall p :: p in mounts ==> mounts[p].shared
    ensures forall p :: p in Mounts(mounts, pipes) ==> Mounts(mounts, pipes)[p].shared
  {
  }

  /** Registering the same pipes twice is the same as registering them once. */
  lemma RegisterTwice(mounts: map<string, Factory>, pipes: map<string, Ref>)
    ensures Mounts(Mounts(mounts, pipes), pipes) == Mounts(mounts, pipes)
  {
    var once := Mounts(mounts, pipes);
    var twice := Mounts(once, pipes);
    assert twice.Keys == once.Keys;
  }

  /** Distinct launch strings give distinct media pipeline names. */
  lemma MediaPipeNamesDistinct(a: string, b: string)
    ensures MediaPipeName(a) == MediaPipeName(b) <==> a == b
  {
    if MediaPipeName(a) == MediaPipeName(b) {
      assert a == MediaPipeName(a)[2..];
    }
  }
}
