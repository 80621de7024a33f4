/** Properties of a whole pass: `start`, then `stop`, then `decode`, with the
    store calls applied in between. */
module LRPTLifecycle {
  import opened Wrappers
  import opened CapturePipe
  import opened ObservationStore
  import opened LRPTObservation

  /** Every record sits under its own observation id. */
  predicate WellKeyed(store: Store) {
    forall k :: k in store ==> store[k].id == k.observationId
  }

  lemma ApplyKeepsWellKeyed(store: Store, call: Call)
    requires WellKeyed(store)
    ensures WellKeyed(Apply(store, call))
  {
  }

  lemma {:induction false} ApplyAllKeepsWellKeyed(store: Store, calls: seq<Call>)
    requires WellKeyed(store)
    ensures WellKeyed(ApplyAll(store, calls))
    decreases |calls|
  {
    if |calls| > 0 {
      ApplyKeepsWellKeyed(store, calls[0]);
      ApplyAllKeepsWellKeyed(Apply(store, calls[0]), calls[1..]);
    }
  }

  lemma ApplyAllOne(store: Store, a: Call)
    ensures ApplyAll(store, [a]) == Apply(store, a)
  {
    assert [a][1..] == [];
  }

  lemma ApplyAllTwo(store: Store, a: Call, b: Call)
    ensures ApplyAll(store, [a, b]) == Apply(Apply(store, a), b)
  {
    assert [a, b][1..] == [b];
    ApplyAllOne(Apply(store, a), b);
  }

  /** A pass that recorded something ends with one record holding the
      recording, the pass bounds, the packet count and the image channel
      exactly when an image was produced; the counter is back at zero, no
      tuner handle is kept, and a store whose records sit under their own ids
      stays that way. */
  lemma WholePass(sat: string, pass: Pass, env: StartEnv, store: Store, counter: nat, dsp: DspOutcome)
    requires env.tempFile.Some?
    requires Captures(env) ==> Ends(env.events)
    ensures
      var o := Create(sat, pass);
      var started := Start(o, env);
      var stopped := Stop(started.obs, true);
      var registered := ApplyAll(store, stopped.calls);
      var decoded := Decode(stopped.obs, registered, counter, dsp);
      var final := ApplyAll(registered, decoded.calls);
      var k := Key(sat, GetId(o));
      && k in final
      && final[k].wavPath == env.tempFile.value
      && final[k].start == Some(GetStart(o)) && final[k].end == Some(GetEnd(o))
      && final[k].decodedPackets == Some(counter + dsp.packets)
      && (ImageChannel in final[k].channels <==> dsp.Image?)
      && (dsp.Image? ==> final[k].channels[ImageChannel] == dsp.file)
      && decoded.counter == 0
      && stopped.obs.rtlSdr == None
      && (WellKeyed(store) ==> WellKeyed(final))
  {
    var o := Create(sat, pass);
    var started := Start(o, env);
    var stopped := Stop(started.obs, true);
    var k := Key(sat, GetId(o));
    var create := CreateObservation(sat, GetId(o), env.tempFile.value);
    ApplyAllOne(store, create);
    var registered := ApplyAll(store, stopped.calls);
    assert registered[k] == Record(GetId(o), env.tempFile.value, None, None, None, map[]);
    var decoded := Decode(stopped.obs, registered, counter, dsp);
    var meta := Meta(stopped.obs, registered[k], counter + dsp.packets);
    assert KeyOf(SaveMeta(sat, meta)) == k;
    if dsp.Image? {
      ApplyAllTwo(registered, decoded.calls[0], decoded.calls[1]);
    } else {
      ApplyAllOne(registered, decoded.calls[0]);
    }
    if WellKeyed(store) {
      ApplyAllKeepsWellKeyed(store, stopped.calls);
      ApplyAllKeepsWellKeyed(registered, decoded.calls);
    }
  }

  /** When `stop` found no recording and the store holds nothing for the
      pass, `decode` writes nothing and leaves the counter alone. */
  lemma NothingRecordedNothingDecoded(o: Observation, store: Store, counter: nat, dsp: DspOutcome)
    requires o.wavPath.Some?
    requires Key(o.satelliteId, o.observationId) !in store
    ensures
      var stopped := Stop(o, false);
      var registered := ApplyAll(store, stopped.calls);
      var decoded := Decode(stopped.obs, registered, counter, dsp);
      decoded.calls == [] && decoded.counter == counter && registered == store
  {
  }

  /** Because `decode` resets the shared counter, the count saved for the
      next decoded pass is that pass's own packets only. */
  lemma CountsDoNotLeak(o1: Observation, o2: Observation, store1: Store, store2: Store,
                        counter: nat, dsp1: DspOutcome, dsp2: DspOutcome)
    requires Find(store1, o1.satelliteId, o1.observationId).Some?
    requires Find(store2, o2.satelliteId, o2.observationId).Some?
    ensures
      var first := Decode(o1, store1, counter, dsp1);
      var second := Decode(o2, store2, first.counter, dsp2);
      var last := second.calls[|second.calls| - 1];
      last.SaveMeta? && last.record.decodedPackets == Some(dsp2.packets)
  {
  }
}
