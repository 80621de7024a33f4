/** One LRPT satellite pass (`ru.r2cloud.satellite.LRPTObservation`):
    capture with rtl_sdr piped into sox, register the recording, decode it.

    The Java object's two mutable fields (`rtlSdr`, `wavPath`) live in an
    immutable `Observation`; each of `start`, `stop` and `decode` returns the
    new observation with the effects it had. Temp-file creation, process
    spawning, the tuner's output and the signal-processing chain are inputs. */
module LRPTObservation {
  import opened Wrappers
  import opened JavaLong
  import opened CapturePipe
  import opened ObservationStore

  /** How long each process is given to exit when it is shut down. */
  const ShutdownTimeoutMillis: int := 10000

  /** The channel tag under which the decoded image is saved. */
  const ImageChannel: string := "a"

  /** A predicted pass: start and end in milliseconds since the epoch. */
  datatype Pass = Pass(start: Long, end: Long)

  /** A child process handle; `shutDown` once `Util.shutdown` was called on it. */
  datatype Proc = Proc(pid: nat, shutDown: bool)

  datatype Role = RtlSdr | Sox

  /** A call to `Util.shutdown` on the handle the named field or variable
      held at that moment (`None` for null). */
  datatype ShutdownCall = ShutdownCall(role: Role, handle: Option<Proc>, timeoutMillis: int)

  datatype Observation = Observation(
    satelliteId: string,
    pass: Pass,
    observationId: string,
    wavPath: Option<Path>,
    rtlSdr: Option<Proc>)

  /** The constructor: the id is the decimal text of the pass start. */
  function Create(satelliteId: string, pass: Pass): (o: Observation)
    ensures o.observationId == ToString(pass.start)
    ensures Parse(o.observationId) == Some(pass.start)
    ensures o.satelliteId == satelliteId && o.pass == pass
    ensures o.wavPath == None && o.rtlSdr == None
  {
    ParseToString(pass.start);
    Observation(satelliteId, pass, ToString(pass.start), None, None)
  }

  function GetStart(o: Observation): Long {
    o.pass.start
  }

  function GetEnd(o: Observation): Long {
    o.pass.end
  }

  function GetId(o: Observation): string {
    o.observationId
  }

  /** Two observations built for passes that start at different times have
      different ids, and the id gives back the start. */
  lemma IdIdentifiesPass(sat1: string, pass1: Pass, sat2: string, pass2: Pass)
    ensures Parse(GetId(Create(sat1, pass1))) == Some(GetStart(Create(sat1, pass1)))
    ensures GetId(Create(sat1, pass1)) == GetId(Create(sat2, pass2)) <==> pass1.start == pass2.start
  {
    if GetId(Create(sat1, pass1)) == GetId(Create(sat2, pass2)) {
      ToStringInjective(pass1.start, pass2.start);
    }
  }

  /** `Util.shutdown` as far as this model sees it: a present handle is
      marked shut down; nothing is assumed for null. */
  function ShutDown(h: Option<Proc>): (r: Option<Proc>)
    ensures r.Some? <==> h.Some?
    ensures r.Some? ==> r.value == h.value.(shutDown := true)
  {
    match h
    case Some(p) => Some(p.(shutDown := true))
    case None => None
  }

  /** What `start` meets: the temp file it gets (or the `IOException`), the
      process each spawn yields (or the `IOException`), and the loop's
      observations. */
  datatype StartEnv = StartEnv(
    tempFile: Option<Path>,
    soxPid: Option<nat>,
    rtlSdrPid: Option<nat>,
    events: seq<ReadEvent>)

  /** The effect of `start`: the observation's new fields, the sox handle
      as it was left, the spawns attempted in order, the bytes written to sox,
      whether sox's input was flushed, and the shutdown calls in order. */
  datatype StartResult = StartResult(
    obs: Observation,
    sox: Option<Proc>,
    attempted: seq<Role>,
    toSox: seq<Byte>,
    flushed: bool,
    shutdowns: seq<ShutdownCall>)

  /** Both spawns succeeded, so the copy loop runs. */
  predicate Captures(env: StartEnv) {
    env.tempFile.Some? && env.soxPid.Some? && env.rtlSdrPid.Some?
  }

  function Start(o: Observation, env: StartEnv): (r: StartResult)
    requires Captures(env) ==> Ends(env.events)
    // identity never changes
    ensures r.obs.satelliteId == o.satelliteId && r.obs.pass == o.pass && r.obs.observationId == o.observationId
    // no temp file: nothing spawned, nothing changed
    ensures env.tempFile.None? ==>
      r.obs == o && r.sox == None && r.attempted == [] && r.toSox == [] && r.shutdowns == []
    // with a temp file, sox is spawned first and rtl_sdr only if that worked
    ensures env.tempFile.Some? ==>
      r.obs.wavPath == env.tempFile &&
      r.attempted == (if env.soxPid.Some? then [Sox, RtlSdr] else [Sox])
    // every exit path shuts down both, rtl_sdr first, with the fixed timeout
    ensures env.tempFile.Some? ==>
      |r.shutdowns| == 2 &&
      r.shutdowns[0].role == RtlSdr && r.shutdowns[1].role == Sox &&
      r.shutdowns[0].timeoutMillis == ShutdownTimeoutMillis && r.shutdowns[1].timeoutMillis == ShutdownTimeoutMillis &&
      r.obs.rtlSdr == ShutDown(r.shutdowns[0].handle) && r.sox == ShutDown(r.shutdowns[1].handle)
    ensures env.tempFile.Some? ==>
      (r.obs.rtlSdr.Some? ==> r.obs.rtlSdr.value.shutDown) && (r.sox.Some? ==> r.sox.value.shutDown)
    // every process spawned by this call is among those shut down
    ensures env.tempFile.Some? && env.soxPid.Some? ==> r.sox == Some(Proc(env.soxPid.value, true))
    ensures Captures(env) ==> r.obs.rtlSdr == Some(Proc(env.rtlSdrPid.value, true))
    // a failed rtl_sdr spawn leaves the field as it was, and that handle is shut down
    ensures env.tempFile.Some? && !Captures(env) ==> r.shutdowns[0].handle == o.rtlSdr
    // a failed sox spawn leaves `sox` null, and null is what is passed to the shutdown
    ensures env.tempFile.Some? && env.soxPid.None? ==> r.shutdowns[1].handle == None && r.sox == None
    // sox receives exactly the chunks read before the loop ended
    ensures r.toSox == (if Captures(env) then Forwarded(env.events) else [])
    ensures r.flushed <==> Captures(env) && ExitAt(env.events, DataPrefix(env.events)) != Failed
  {
    if env.tempFile.None? then StartResult(o, None, [], [], false, [])
    else
      var withWav := o.(wavPath := env.tempFile);
      var sox := if env.soxPid.Some? then Some(Proc(env.soxPid.value, false)) else None;
      var rtl := if Captures(env) then Some(Proc(env.rtlSdrPid.value, false)) else o.rtlSdr;
      var attempted := if sox.Some? then [Sox, RtlSdr] else [Sox];
      var toSox := if Captures(env) then Forwarded(env.events) else [];
      var flushed := Captures(env) && ExitAt(env.events, DataPrefix(env.events)) != Failed;
      StartResult(withWav.(rtlSdr := ShutDown(rtl)), ShutDown(sox), attempted, toSox, flushed,
                  [ShutdownCall(RtlSdr, rtl, ShutdownTimeoutMillis), ShutdownCall(Sox, sox, ShutdownTimeoutMillis)])
  }

  /** `start` written as the Java method is: the early return, the spawns,
      the copy loop and the `finally` block. */
  method RunStart(o: Observation, env: StartEnv) returns (r: StartResult)
    requires Captures(env) ==> Ends(env.events)
    ensures r == Start(o, env)
  {
    if env.tempFile.None? {
      return StartResult(o, None, [], [], false, []);
    }
    var obs := o.(wavPath := env.tempFile);
    var sox: Option<Proc> := None;
    var attempted: seq<Role> := [];
    var toSox: seq<Byte> := [];
    var flushed := false;
    // try
    attempted := attempted + [Sox];
    if env.soxPid.Some? {
      sox := Some(Proc(env.soxPid.value, false));
      attempted := attempted + [RtlSdr];
      if env.rtlSdrPid.Some? {
        obs := obs.(rtlSdr := Some(Proc(env.rtlSdrPid.value, false)));
        var exit;
        toSox, exit := CopyLoop(env.events);
        flushed := exit != Failed;
      }
    }
    // finally
    var shutdowns := [ShutdownCall(RtlSdr, obs.rtlSdr, ShutdownTimeoutMillis), ShutdownCall(Sox, sox, ShutdownTimeoutMillis)];
    obs := obs.(rtlSdr := ShutDown(obs.rtlSdr));
    r := StartResult(obs, ShutDown(sox), attempted, toSox, flushed, shutdowns);
  }

  /** The effect of `stop`: the observation with `rtlSdr` cleared, the
      shutdown call on the old handle, and the store calls made. */
  datatype StopResult = StopResult(obs: Observation, shutdown: ShutdownCall, calls: seq<Call>)

  /** `stop`, given whether the recording exists on disk. It dereferences
      `wavPath`, so `start` must have got a temp file first. */
  function Stop(o: Observation, wavExists: bool): (r: StopResult)
    requires o.wavPath.Some?
    ensures r.obs == o.(rtlSdr := None)
    ensures r.shutdown == ShutdownCall(RtlSdr, o.rtlSdr, ShutdownTimeoutMillis)
    ensures !wavExists ==> r.calls == []
    ensures wavExists ==> r.calls == [CreateObservation(o.satelliteId, o.observationId, o.wavPath.value)]
  {
    var shutdown := ShutdownCall(RtlSdr, o.rtlSdr, ShutdownTimeoutMillis);
    if !wavExists then StopResult(o.(rtlSdr := None), shutdown, [])
    else StopResult(o.(rtlSdr := None), shutdown, [CreateObservation(o.satelliteId, o.observationId, o.wavPath.value)])
  }

  /** What the signal-processing chain and image writing did with the
      recording, and how many packets the LRPT decoder counted meanwhile:
      an image written to `file`, no image, or an exception. */
  datatype DspOutcome =
    | Image(file: Path, packets: nat)
    | NoImage(packets: nat)
    | Fault(packets: nat)

  /** The effect of `decode`: the store calls in order and the process-wide
      decoded-packet counter afterwards. */
  datatype DecodeResult = DecodeResult(calls: seq<Call>, counter: nat)

  /** The metadata `decode` saves: the found record with the pass bounds and
      the counter's value. */
  function Meta(o: Observation, found: Record, count: nat): Record {
    found.(start := Some(o.pass.start), end := Some(o.pass.end), decodedPackets := Some(count))
  }

  /** `decode`, given the store, the counter's value on entry and the
      outcome of the signal-processing chain. */
  function Decode(o: Observation, store: Store, counter: nat, dsp: DspOutcome): (r: DecodeResult)
    // nothing registered: no-op
    ensures Find(store, o.satelliteId, o.observationId).None? ==> r.calls == [] && r.counter == counter
    // registered: the image only if produced, the metadata always, then the counter is reset
    ensures Find(store, o.satelliteId, o.observationId).Some? ==>
      var found := Find(store, o.satelliteId, o.observationId).value;
      && r.counter == 0
      && |r.calls| == (if dsp.Image? then 2 else 1)
      && r.calls[|r.calls| - 1] == SaveMeta(o.satelliteId, Meta(o, found, counter + dsp.packets))
      && (dsp.Image? ==> r.calls[0] == SaveChannel(o.satelliteId, o.observationId, dsp.file, ImageChannel))
  {
    match Find(store, o.satelliteId, o.observationId)
    case None => DecodeResult([], counter)
    case Some(found) =>
      var channel := if dsp.Image? then [SaveChannel(o.satelliteId, o.observationId, dsp.file, ImageChannel)] else [];
      var count := counter + dsp.packets;
      // the counter is decreased by its own value, which leaves it at zero
      DecodeResult(channel + [SaveMeta(o.satelliteId, Meta(o, found, count))], count - count)
  }
}
