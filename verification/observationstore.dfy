/** The observation result store (`ObservationResultDao`) as a map keyed by
    satellite id and observation id. The calls the observation makes are its
    effects; `Apply` gives the meaning this model assumes for each call. */
module ObservationStore {
  import opened Wrappers

  type Path = string

  datatype Key = Key(satelliteId: string, observationId: string)

  /** What the store keeps per observation (`ObservationResult`). */
  datatype Record = Record(
    id: string,
    wavPath: Path,
    start: Option<int>,
    end: Option<int>,
    decodedPackets: Option<int>,
    channels: map<string, Path>)

  /** One call on the store. */
  datatype Call =
    | CreateObservation(satelliteId: string, observationId: string, wavPath: Path)
    | SaveChannel(satelliteId: string, observationId: string, file: Path, channel: string)
    | SaveMeta(satelliteId: string, record: Record)

  type Store = map<Key, Record>

  /** `dao.find(satelliteId, observationId)`; `None` is the Java null. */
  function Find(store: Store, satelliteId: string, observationId: string): (r: Option<Record>)
    ensures r.Some? <==> Key(satelliteId, observationId) in store
    ensures r.Some? ==> r.value == store[Key(satelliteId, observationId)]
  {
    var k := Key(satelliteId, observationId);
    if k in store then Some(store[k]) else None
  }

  /** The key a call touches. */
  function KeyOf(call: Call): Key {
    match call
    case CreateObservation(sat, id, _) => Key(sat, id)
    case SaveChannel(sat, id, _, _) => Key(sat, id)
    case SaveMeta(sat, rec) => Key(sat, rec.id)
  }

  /** A call changes at most the record of its own key. */
  function Apply(store: Store, call: Call): (r: Store)
    ensures forall k :: k != KeyOf(call) ==> (k in r <==> k in store)
    ensures forall k :: k != KeyOf(call) && k in r ==> r[k] == store[k]
    ensures KeyOf(call) in store ==> KeyOf(call) in r
  {
    var k := KeyOf(call);
    match call
    case CreateObservation(_, id, wav) =>
      store[k := Record(id, wav, None, None, None, map[])]
    case SaveChannel(_, _, file, channel) =>
      if k in store then store[k := store[k].(channels := store[k].channels[channel := file])] else store
    case SaveMeta(_, rec) =>
      if k in store
      then store[k := store[k].(start := rec.start, end := rec.end, decodedPackets := rec.decodedPackets)]
      else store[k := rec]
  }

  function ApplyAll(store: Store, calls: seq<Call>): Store
    decreases |calls|
  {
    if |calls| == 0 then store else ApplyAll(Apply(store, calls[0]), calls[1..])
  }
}
