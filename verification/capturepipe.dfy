/** The capture copy loop of `LRPTObservation.start`: bytes read from the
    tuner process (rtl_sdr) are written to the converter process (sox) until
    the tuner's output ends, the thread is interrupted, or an I/O error. */
module CapturePipe {

  type Byte = x: int | 0 <= x < 256

  /** What one turn of the loop observes: the interrupt flag at the loop
      head, or else the result of one `read` (a chunk of bytes, the
      end-of-stream value -1, or an `IOException` from the read or from the
      write of that chunk). */
  datatype ReadEvent = Interrupted | Chunk(bytes: seq<Byte>) | EndOfStream | IoError

  /** Why the loop stopped; `Pending` when the observed events ran out while
      the loop would still be copying. */
  datatype Exit = StreamEnded | WasInterrupted | Failed | Pending

  /** The number of leading chunks: the turns that forwarded data. */
  function DataPrefix(events: seq<ReadEvent>): (k: nat)
    ensures k <= |events|
    ensures forall i :: 0 <= i < k ==> events[i].Chunk?
    ensures k < |events| ==> !events[k].Chunk?
  {
    if |events| == 0 || !events[0].Chunk? then 0 else 1 + DataPrefix(events[1..])
  }

  /** The bytes of all chunks among `events`, in order. */
  function Concat(events: seq<ReadEvent>): seq<Byte> {
    if |events| == 0 then []
    else Concat(events[..|events| - 1]) + BytesOf(events[|events| - 1])
  }

  function BytesOf(e: ReadEvent): seq<Byte> {
    if e.Chunk? then e.bytes else []
  }

  /** How the loop ends after `k` forwarding turns. */
  function ExitAt(events: seq<ReadEvent>, k: nat): Exit
    requires k <= |events|
  {
    if k == |events| then Pending
    else match events[k]
      case Interrupted => WasInterrupted
      case EndOfStream => StreamEnded
      case IoError => Failed
      case Chunk(_) => Pending
  }

  /** The loop stops within the observed events. */
  predicate Ends(events: seq<ReadEvent>) {
    DataPrefix(events) < |events|
  }

  /** Everything the loop writes to the converter. */
  function Forwarded(events: seq<ReadEvent>): seq<Byte> {
    Concat(events[..DataPrefix(events)])
  }

  lemma {:induction false} ConcatAppend(a: seq<ReadEvent>, b: seq<ReadEvent>)
    ensures Concat(a + b) == Concat(a) + Concat(b)
    decreases |b|
  {
    if |b| == 0 {
      assert a + b == a;
    } else {
      var b' := b[..|b| - 1];
      assert (a + b)[..|a + b| - 1] == a + b';
      ConcatAppend(a, b');
    }
  }

  /** The copy loop: `toSox` is what was written to the converter. */
  method CopyLoop(events: seq<ReadEvent>) returns (toSox: seq<Byte>, exit: Exit)
    ensures toSox == Forwarded(events)
    ensures exit == ExitAt(events, DataPrefix(events))
  {
    toSox := [];
    exit := Pending;
    var i := 0;
    while i < |events|
      invariant 0 <= i <= |events|
      invariant forall j :: 0 <= j < i ==> events[j].Chunk?
      invariant toSox == Concat(events[..i])
      invariant exit == Pending
      decreases |events| - i
    {
      var e := events[i];
      if e.Interrupted? {
        exit := WasInterrupted;
        break;
      }
      if e.EndOfStream? {
        exit := StreamEnded;
        break;
      }
      if e.IoError? {
        exit := Failed;
        break;
      }
      assert events[..i + 1][..i] == events[..i];
      toSox := toSox + e.bytes;
      i := i + 1;
    }
    assert i == DataPrefix(events);
  }

  /** The converter receives exactly the chunks before the first event that
      ends the loop, in order; whatever the tuner would produce afterwards is
      never read. */
  lemma {:induction false} ForwardedStopsAtFirstEnd(chunks: seq<ReadEvent>, last: ReadEvent, rest: seq<ReadEvent>)
    requires forall i :: 0 <= i < |chunks| ==> chunks[i].Chunk?
    requires !last.Chunk?
    ensures Forwarded(chunks + [last] + rest) == Concat(chunks)
    ensures Ends(chunks + [last] + rest)
    ensures ExitAt(chunks + [last] + rest, |chunks|) != Pending
  {
    var events := chunks + [last] + rest;
    var k := DataPrefix(events);
    assert events[|chunks|] == last;
    assert forall i :: 0 <= i < |chunks| ==> events[i] == chunks[i];
    assert k == |chunks|;
    assert events[..k] == chunks;
  }

  /** Each turn's chunk is appended whole: the bytes of every chunk appear in
      the output at the offset given by the chunks before it. */
  lemma ForwardedContainsEachChunk(events: seq<ReadEvent>, i: nat)
    requires i < DataPrefix(events)
    ensures var before := |Concat(events[..i])|;
      before + |events[i].bytes| <= |Forwarded(events)|
      && Forwarded(events)[before..before + |events[i].bytes|] == events[i].bytes
  {
    var k := DataPrefix(events);
    var pre := events[..k];
    assert pre == events[..i] + [events[i]] + pre[i + 1..];
    ConcatAppend(events[..i] + [events[i]], pre[i + 1..]);
    ConcatAppend(events[..i], [events[i]]);
    assert Concat([events[i]]) == events[i].bytes by {
      assert [events[i]][..0] == [];
    }
  }
}
