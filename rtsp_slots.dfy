/**
 * The stand-alone RTSP server of src/rtsp-server.c: a fixed table of
 * eight pipeline slots, filled in place by use_rtsp_pipeline, swept by
 * rtsp_server_deinit, and read by a media factory whose launch string is
 * the slot index written in base 2.
 */
module SlotServer {
  import opened Base
  import opened Gst

  /** MAX_RTSP_PIPES */
  const MaxRtspPipes := 8

  /** LONG_MAX and LONG_MIN of a 64-bit long. */
  const LongMax := 0x7FFF_FFFF_FFFF_FFFF
  const LongMin := -0x8000_0000_0000_0000

  /** The name use_rtsp_pipeline gives slot i: "rtsppipe%d". */
  function SlotName(i: int): (r: string)
    requires 0 <= i < MaxRtspPipes
    ensures |r| == 9 && r[..8] == "rtsppipe" && r[8] == ('0' as int + i) as char
  {
    "rtsppipe" + [('0' as int + i) as char]
  }

  // ---------------------------------------------------- strtol, base 2

  /** isspace in the C locale. */
  predicate IsSpace(c: char)
  {
    c == ' ' || c == '\t' || c == '\n' || c == '\U{B}' || c == '\U{C}' || c == '\r'
  }

  predicate IsBit(c: char)
  {
    c == '0' || c == '1'
  }

  /** The length of the leading white space of s. */
  function SpaceLen(s: string): (n: nat)
    ensures n <= |s|
    ensures forall i :: 0 <= i < n ==> IsSpace(s[i])
    ensures n < |s| ==> !IsSpace(s[n])
  {
    if |s| > 0 && IsSpace(s[0]) then 1 + SpaceLen(s[1..]) else 0
  }

  /** The length of the leading binary digits of s. */
  function BitsLen(s: string): (n: nat)
    ensures n <= |s|
    ensures forall i :: 0 <= i < n ==> IsBit(s[i])
    ensures n < |s| ==> !IsBit(s[n])
  {
    if |s| > 0 && IsBit(s[0]) then 1 + BitsLen(s[1..]) else 0
  }

  /** The value of binary digits, most significant first. */
  function BitsValue(ds: string): nat
  {
    if |ds| == 0 then 0
    else 2 * BitsValue(ds[..|ds| - 1]) + (if ds[|ds| - 1] == '1' then 1 else 0)
  }

  /** The magnitude after white space and an optional sign. */
  function Magnitude(s: string): nat
  {
    var t := s[SpaceLen(s)..];
    var u := if |t| > 0 && (t[0] == '-' || t[0] == '+') then t[1..] else t;
    BitsValue(u[..BitsLen(u)])
  }

  predicate Negative(s: string)
  {
    var t := s[SpaceLen(s)..];
    |t| > 0 && t[0] == '-'
  }

  /** strtol(s, &end, 2): white space, an optional sign, then binary
      digits up to the first other character; 0 when there are none; an
      out-of-range value is clamped to LONG_MIN or LONG_MAX. */
  function StrtolBase2(s: string): (r: int)
    ensures LongMin <= r <= LongMax
    ensures !Negative(s) && Magnitude(s) <= LongMax ==> r == Magnitude(s)
    ensures Negative(s) && Magnitude(s) <= -LongMin ==> r == -(Magnitude(s) as int)
  {
    var v := Magnitude(s);
    if Negative(s) then (if v > -LongMin then LongMin else -(v as int))
    else (if v > LongMax then LongMax else v)
  }

  /** n in base 2, without leading zeros. */
  function ToBinary(n: nat): (r: string)
    ensures |r| > 0 && forall i :: 0 <= i < |r| ==> IsBit(r[i])
  {
    if n < 2 then [if n == 1 then '1' else '0']
    else ToBinary(n / 2) + [if n % 2 == 1 then '1' else '0']
  }

  lemma {:induction false} BitsValueOfBinary(n: nat)
    ensures BitsValue(ToBinary(n)) == n
  {
    if n >= 2 {
      var r := ToBinary(n);
      assert r[..|r| - 1] == ToBinary(n / 2);
      BitsValueOfBinary(n / 2);
    }
  }

  /** The digits stop at the first character that is not a digit. */
  lemma {:induction false} BitsLenOfDigits(ds: string, tail: string)
    requires forall i :: 0 <= i < |ds| ==> IsBit(ds[i])
    requires |tail| == 0 || !IsBit(tail[0])
    ensures BitsLen(ds + tail) == |ds|
  {
    if |ds| > 0 {
      assert (ds + tail)[1..] == ds[1..] + tail;
      BitsLenOfDigits(ds[1..], tail);
    }
  }

  /** Round trip: a number written in base 2, followed by anything that
      does not continue the digits, parses back to itself. */
  lemma StrtolOfBinary(n: nat, tail: string)
    requires n <= LongMax
    requires |tail| == 0 || !IsBit(tail[0])
    ensures StrtolBase2(ToBinary(n) + tail) == n
  {
    var s := ToBinary(n) + tail;
    assert s[0] == ToBinary(n)[0];
    assert SpaceLen(s) == 0;
    assert s[SpaceLen(s)..] == s;
    BitsLenOfDigits(ToBinary(n), tail);
    assert s[..BitsLen(s)] == ToBinary(n);
    BitsValueOfBinary(n);
  }

  /** Leading white space does not change the value. */
  lemma SpaceIgnored(c: char, s: string)
    requires IsSpace(c)
    ensures StrtolBase2([c] + s) == StrtolBase2(s)
  {
    assert ([c] + s)[1..] == s;
    assert ([c] + s)[SpaceLen([c] + s)..] == s[SpaceLen(s)..];
  }

  /** A negative number parses to its negation. */
  lemma StrtolOfNegative(n: nat, tail: string)
    requires n <= LongMax
    requires |tail| == 0 || !IsBit(tail[0])
    ensures StrtolBase2("-" + ToBinary(n) + tail) == -(n as int)
  {
    var s := "-" + ToBinary(n) + tail;
    assert SpaceLen(s) == 0;
    assert s[SpaceLen(s)..] == s;
    assert s[1..] == ToBinary(n) + tail;
    BitsLenOfDigits(ToBinary(n), tail);
    assert (ToBinary(n) + tail)[..|ToBinary(n)|] == ToBinary(n);
    BitsValueOfBinary(n);
  }

  /** create_element: the slot the launch string names. The source indexes
      the table without a bounds check, so the index must be in range. */
  function Pick(slots: seq<Ref>, launch: string): (r: Ref)
    requires 0 <= StrtolBase2(launch) < |slots|
    ensures r in slots
  {
    slots[StrtolBase2(launch)]
  }

  /** The entries of a slot table that are not NULL. */
  function NonNull(s: seq<Ref>): set<Ref>
  {
    if |s| == 0 then {}
    else NonNull(s[..|s| - 1]) + (if s[|s| - 1] != Null then {s[|s| - 1]} else {})
  }

  lemma {:induction false} NonNullExactly(s: seq<Ref>)
    ensures forall r :: r in NonNull(s) <==> r in s && r != Null
  {
    if |s| > 0 {
      NonNullExactly(s[..|s| - 1]);
      assert s == s[..|s| - 1] + [s[|s| - 1]];
    }
  }

  /** What rtsp_server_init hands back, as written: FALSE when attaching
      fails, and on success whatever the return register holds, since the
      function ends without a return statement. */
  datatype Returned = Value(b: bool) | Indeterminate

  function InitReturnAsWritten(attachId: nat): (r: Returned)
    ensures r == Indeterminate <==> attachId != 0
    ensures r.Value? ==> !r.b
  {
    if attachId == 0 then Value(false) else Indeterminate
  }

  /** The global state of src/rtsp-server.c, with the server that
      rtsp_server_init builds. */
  class PipeSlots {
    const slots: array<Ref>
    var service: string
    var mounts: map<string, Factory>
    var cleanupPeriod: nat
    /** rtsp_thread is running rtsp_thread_loop's main loop. */
    var threadRunning: bool

    predicate Valid()
      reads this
    {
      slots.Length == MaxRtspPipes
    }

    /** The zero-initialised globals. */
    constructor()
      ensures Valid() && fresh(slots)
      ensures forall i :: 0 <= i < slots.Length ==> slots[i] == Null
      ensures service == "" && mounts == map[]
      ensures cleanupPeriod == 0 && !threadRunning
    {
      slots := new Ref[MaxRtspPipes](_ => Null);
      service := "";
      mounts := map[];
      cleanupPeriod := 0;
      threadRunning := false;
    }

    /** use_rtsp_pipeline: out of range, NULL and nothing changes; in range,
        slot i, and only slot i, gets a new pipeline "rtsppipe" + i. */
    method UseRtspPipeline(engine: Engine, i: int) returns (r: Ref)
      requires Valid()
      modifies slots, engine
      ensures !(0 <= i < MaxRtspPipes) ==> r == Null && slots[..] == old(slots[..]) && unchanged(engine)
      ensures 0 <= i < MaxRtspPipes ==>
        && r == Pipeline(SlotName(i))
        && slots[..] == old(slots[..])[i := r]
        && engine.bins == old(engine.bins)[r := {}]
        && engine.edges == old(engine.edges) && engine.props == old(engine.props)
        && engine.requestedPads == old(engine.requestedPads)
        && engine.states == old(engine.states) && engine.released == old(engine.released)
    {
      if i < 0 || i >= MaxRtspPipes {
        return Null;
      }
      var p := engine.NewPipeline(SlotName(i));
      slots[i] := p;
      if slots[i] == Null {
        return Null;
      }
      return slots[i];
    }

    /** create_element */
    function CreateElement(factory: Factory): (r: Ref)
      reads this, slots
      requires factory.launch.Some? && 0 <= StrtolBase2(factory.launch.value) < slots.Length
      ensures r in slots[..]
    {
      Pick(slots[..], factory.launch.value)
    }

    /** rtsp_server_init, returning TRUE on success: it mounts one shared
        factory with launch string "0" at "/test" on port 8554, attaches
        the server, and only then starts the one-second cleanup and the
        server thread. */
    method Init(attachId: nat) returns (ok: bool)
      modifies this
      ensures ok <==> attachId != 0
      ensures service == "8554" && mounts == map["/test" := Factory(Some("0"), true)]
      ensures cleanupPeriod == (if ok then 1 else old(cleanupPeriod))
      ensures threadRunning == (ok || old(threadRunning))
    {
      service := "8554";
      mounts := map["/test" := Factory(Some("0"), true)];
      if attachId == 0 {
        return false;
      }
      cleanupPeriod := 1;
      threadRunning := true;
      return true;
    }

    /** The sweep of rtsp_server_deinit: every slot that holds a pipeline
        is released, the NULL ones are skipped. */
    method ReleaseSlots(engine: Engine)
      requires Valid()
      modifies engine
      ensures engine.released == old(engine.released) + NonNull(slots[..])
      ensures engine.bins == old(engine.bins) && engine.edges == old(engine.edges)
      ensures engine.props == old(engine.props) && engine.requestedPads == old(engine.requestedPads)
      ensures engine.states == old(engine.states)
    {
      for i := 0 to MaxRtspPipes
        invariant engine.released == old(engine.released) + NonNull(slots[..i])
        invariant engine.bins == old(engine.bins) && engine.edges == old(engine.edges)
        invariant engine.props == old(engine.props) && engine.requestedPads == old(engine.requestedPads)
        invariant engine.states == old(engine.states)
      {
        assert slots[..i + 1][..i] == slots[..i];
        if slots[i] != Null {
          engine.Unref(slots[i]);
        }
      }
      assert slots[..MaxRtspPipes] == slots[..];
    }

    /** rtsp_server_deinit as written: it joins rtsp_thread before the
        sweep, but the thread runs a main loop that nothing can quit, so
        once rtsp_server_init has started it the join never returns and
        nothing is released. `swept` tells whether the call got past the
        join; without a thread, g_thread_join(NULL) returns at once. */
    method DeinitAsWritten(engine: Engine) returns (swept: bool)
      requires Valid()
      modifies engine
      ensures swept <==> !threadRunning
      ensures swept ==> engine.released == old(engine.released) + NonNull(slots[..])
      ensures !swept ==> engine.released == old(engine.released)
      ensures engine.bins == old(engine.bins) && engine.edges == old(engine.edges)
      ensures engine.props == old(engine.props) && engine.requestedPads == old(engine.requestedPads)
      ensures engine.states == old(engine.states)
    {
      if threadRunning {
        return false;
      }
      ReleaseSlots(engine);
      return true;
    }

    /** rtsp_server_deinit as intended: the thread's main loop is quit
        first, so the join returns, and then every slot that holds a
        pipeline is released. */
    method Deinit(engine: Engine)
      requires Valid()
      modifies this, engine
      ensures !threadRunning
      ensures service == old(service) && mounts == old(mounts) && cleanupPeriod == old(cleanupPeriod)
      ensures engine.released == old(engine.released) + NonNull(slots[..])
      ensures engine.bins == old(engine.bins) && engine.edges == old(engine.edges)
      ensures engine.props == old(engine.props) && engine.requestedPads == old(engine.requestedPads)
      ensures engine.states == old(engine.states)
    {
      threadRunning := false;
      ReleaseSlots(engine);
    }
  }

  /** A successful rtsp_server_init followed by rtsp_server_deinit as
      written never reaches the sweep, while the intended deinit releases
      the pipeline the slot holds. */
  method DeinitAfterInit(engine: Engine) returns (sweptAsWritten: bool)
    modifies engine
    ensures !sweptAsWritten
    ensures Pipeline(SlotName(0)) in engine.released
  {
    var server := new PipeSlots();
    var p := server.UseRtspPipeline(engine, 0);
    var ok := server.Init(1);
    sweptAsWritten := server.DeinitAsWritten(engine);
    server.Deinit(engine);
    assert server.slots[..][0] == p;
    NonNullExactly(server.slots[..]);
  }

  // ------------------------------------------------------------ lemmas

  /** Distinct slots get distinct pipeline names. */
  lemma SlotNamesDistinct(i: int, j: int)
    requires 0 <= i < MaxRtspPipes && 0 <= j < MaxRtspPipes
    ensures SlotName(i) == SlotName(j) <==> i == j
  {
    if SlotName(i) == SlotName(j) {
      assert SlotName(i)[8] == SlotName(j)[8];
    }
  }

  /** A slot filled by use_rtsp_pipeline(i) is what create_element hands
      out for the launch string i written in base 2. */
  lemma PickAfterUse(slots: seq<Ref>, i: int, r: Ref, tail: string)
    requires 0 <= i < |slots| == MaxRtspPipes
    requires |tail| == 0 || !IsBit(tail[0])
    ensures 0 <= StrtolBase2(ToBinary(i) + tail) < |slots|
    ensures Pick(slots[i := r], ToBinary(i) + tail) == r
  {
    StrtolOfBinary(i, tail);
  }

  /** The "/test" mount serves slot 0. */
  lemma TestMountServesSlotZero()
    ensures StrtolBase2("0") == 0
  {
    StrtolOfBinary(0, "");
    assert ToBinary(0) + "" == "0";
  }

  /** The sweep releases no NULL slot, and releases every pipeline in a
      slot. */
  lemma SweepReleasesPipelinesOnly(slots: seq<Ref>)
    ensures Null !in NonNull(slots)
    ensures forall k :: 0 <= k < |slots| && slots[k] != Null ==> slots[k] in NonNull(slots)
  {
    NonNullExactly(slots);
  }

  /** The finding: on success rtsp_server_init hands back no value, where
      TRUE is meant; on failure both agree on FALSE. */
  lemma InitSuccessReturnsNothing()
    ensures InitReturnAsWritten(1) == Indeterminate
    ensures InitReturnAsWritten(0) == Value(false)
  {
  }
}
