# r2cloud ground-station control logic in Dafny

This project models two pieces of control logic from the r2cloud ground station.

- **The no-ip.com dynamic-DNS updater** (`NoIPTask`). The task runs on a schedule. It keeps a fatal latch, a retry deadline and the last external IP the service confirmed. The last two are mirrored in the key-value configuration. One invocation of `doRun` is the pure function `NoIPTask.Run`. It takes the state, the clock, the external IP that was looked up, and the outcome of the HTTP update request. It returns the new state, the configuration calls it made in order, and whether the request was sent. Replies are read against the no-ip.com update protocol:
  - `good` or `nochg` as a prefix means success; the IP is the text after the first space.
  - `nohost`, `badauth`, `badagent`, `!donator` and `abuse`, matched exactly, are fatal.
  - `911`, matched exactly, starts a 30-minute back-off.
  - Any other line is ignored.
- **One LRPT satellite pass** (`LRPTObservation`).
  - The observation id is the decimal text of the pass start in milliseconds.
  - `start` gets a temp file and spawns sox, then rtl_sdr. It copies rtl_sdr's output into sox until end of stream, an interrupt or an I/O error. It then shuts both processes down with a 10 000 ms timeout.
  - `stop` shuts the tuner down. It registers the recording with the result store if the file exists.
  - `decode` looks the recording up. If it is found, `decode` saves the image (channel `a`) only when one was produced. It always saves the metadata: pass bounds and the decoded-packet count. Then it resets the process-wide packet counter.

The modules follow the source:

- `Wrappers` gives Option and Result; `None` stands for Java's null.
- `JavaLong` covers the `long` range, two's-complement wrap-around, and `String.valueOf(long)` with its inverse.
- `JavaText` covers `startsWith`, `indexOf` and `trim`.
- `Configuration` holds the key-value configuration and its persisted copy.
- `NoIPTask` and `NoIPProperties` model the updater.
- `CapturePipe` is the copy loop.
- `ObservationStore` is the result store, as a map keyed by satellite id and observation id.
- `LRPTObservation` and `LRPTLifecycle` model the pass.

Clocks, the network, process spawning, the tuner's byte stream and the signal-processing chain are all parameters of the model. The model contains nothing that performs them.

## Model

| member | source | states |
|---|---|---|
| NoIPTask.GetAndValidate | src/main/java/ru/r2cloud/ddns/NoIPTask.java:104-110 | a credential is accepted exactly when the key is present and its value is not blank after `trim()`; otherwise the error is `<key> cannot be empty` |
| NoIPTask.New | src/main/java/ru/r2cloud/ddns/NoIPTask.java:32-39 | construction succeeds exactly when username, password and domain are all valid, and otherwise reports the first invalid one in that order; the initial state is not latched, and it takes the IP and the retry deadline from the configuration |
| NoIPTask.Classify | src/main/java/ru/r2cloud/ddns/NoIPTask.java:75-95 | a success reply is exactly one that starts with `good` or `nochg`; a fatal reply is exactly one of the five listed words; back-off is exactly `911`; a success reply carries an IP exactly when it has a space, and the IP is the text after the first space |
| NoIPTask.Run | src/main/java/ru/r2cloud/ddns/NoIPTask.java:41-102 | the fatal latch and a pending deadline make the run a no-op; a reached deadline is removed and written out first; the request is sent exactly when no latch, no deadline and no equal known IP stop it; the latch is set only by a fatal reply; a deadline of now + 1 800 000 ms, wrapped as a Java `long`, comes only from `911`; the IP changes only on a success reply with an IP; the configuration calls are exactly the deadline clearing, followed by setting and writing the new deadline or IP in those two cases only |
| NoIPTask.Respond | src/main/java/ru/r2cloud/ddns/NoIPTask.java:68-96 | a fatal reply sets the latch and writes nothing; `911` sets and saves the wrapped deadline; a success reply naming an IP sets and saves it; a non-200 code, a missing line, an exception, a success reply without a space and an unrecognised line change nothing and write nothing |
| JavaLong.Wrap | src/main/java/ru/r2cloud/ddns/NoIPTask.java:87 | the deadline sum is the unique Java `long` congruent to the mathematical sum, and equals it whenever that is in range |
| NoIPProperties.FatalIsPermanent | src/main/java/ru/r2cloud/ddns/NoIPTask.java:43-45 | once latched, any number of further runs changes no state, writes nothing and sends no request |
| NoIPProperties.NewMirrors | src/main/java/ru/r2cloud/ddns/NoIPTask.java:37-38 | a task built from a saved configuration has its deadline and IP equal to what the configuration holds |
| NoIPProperties.RunKeepsMirror | src/main/java/ru/r2cloud/ddns/NoIPTask.java:48-90 | after one run the saved configuration still holds the state's deadline (as decimal text that reads back to it) and its IP, with nothing left unwritten |
| NoIPProperties.RunAllKeepsMirror | src/main/java/ru/r2cloud/ddns/NoIPTask.java:41-102 | the same holds over any series of runs |
| NoIPProperties.RestartRestoresState | src/main/java/ru/r2cloud/ddns/NoIPTask.java:28-39 | a restart from the saved configuration gets back the deadline and the IP, but not the fatal latch, which lived only in memory |
| NoIPProperties.ServerErrorBacksOff | src/main/java/ru/r2cloud/ddns/NoIPTask.java:85-90 | a `911` reply sets the deadline to now + 30 minutes; every run before that deadline is a no-op, and the deadline survives a restart |
| NoIPProperties.DeadlineReachedRetries | src/main/java/ru/r2cloud/ddns/NoIPTask.java:48-56 | at or after the deadline the run first removes the key and writes it out, and then sends the update request when the IP is not known to be the same |
| NoIPProperties.GoodReplyThenQuiet | src/main/java/ru/r2cloud/ddns/NoIPTask.java:58-81 | `good <ip>` records and saves the IP; the next run that sees the same IP sends nothing and changes nothing |
| JavaText.IndexOf | src/main/java/ru/r2cloud/ddns/NoIPTask.java:76-77 | the result is -1 exactly when the character is absent; otherwise it is the position of the first occurrence |
| JavaText.Trim | src/main/java/ru/r2cloud/ddns/NoIPTask.java:106 | `trim()` leaves nothing exactly when every character is at most U+0020 |
| JavaLong.ToString | src/main/java/ru/r2cloud/satellite/LRPTObservation.java:70 | a non-negative value is written as canonical digits for that value; a negative value is written as `-` followed by the canonical digits of its magnitude |
| JavaLong.ParseToString | src/main/java/ru/r2cloud/satellite/LRPTObservation.java:70 | the decimal text of every `long` reads back as that `long` |
| JavaLong.ToStringInjective | src/main/java/ru/r2cloud/satellite/LRPTObservation.java:70 | distinct `long` values have distinct decimal texts |
| JavaLong.NatToDecimalOfDecimalValue | src/main/java/ru/r2cloud/satellite/LRPTObservation.java:70 | every canonical digit string (no leading zero) is exactly the text written for the number it denotes |
| LRPTObservation.Create | src/main/java/ru/r2cloud/satellite/LRPTObservation.java:64-71 | the id is `String.valueOf` of the pass start (canonical digits, a minus sign for negative values) and reads back as it; no recording and no tuner handle exist yet |
| LRPTObservation.IdIdentifiesPass | src/main/java/ru/r2cloud/satellite/LRPTObservation.java:183-196 | `getId` gives back `getStart`, and two observations have the same id exactly when their passes start at the same millisecond |
| CapturePipe.CopyLoop | src/main/java/ru/r2cloud/satellite/LRPTObservation.java:89-96 | sox receives exactly the concatenation, in order, of the chunks read before the first interrupt, end of stream or I/O error, and the exit reason is that event |
| CapturePipe.ForwardedStopsAtFirstEnd | src/main/java/ru/r2cloud/satellite/LRPTObservation.java:90-94 | after chunks and then a stopping event, the output is those chunks and nothing the tuner would produce later |
| CapturePipe.ForwardedContainsEachChunk | src/main/java/ru/r2cloud/satellite/LRPTObservation.java:91-95 | each chunk read appears whole in the output, at the offset given by the bytes before it |
| LRPTObservation.Start | src/main/java/ru/r2cloud/satellite/LRPTObservation.java:73-105 | without a temp file nothing is spawned or changed; otherwise sox is spawned first and rtl_sdr only after it; every exit path shuts down rtl_sdr and then sox with 10 000 ms; every process spawned is left shut down; sox receives exactly the forwarded bytes and is flushed unless the loop failed |
| LRPTObservation.RunStart | src/main/java/ru/r2cloud/satellite/LRPTObservation.java:73-105 | the imperative early return, spawns, copy loop and `finally` block have exactly the effect `Start` describes |
| LRPTObservation.Stop | src/main/java/ru/r2cloud/satellite/LRPTObservation.java:107-121 | the tuner is shut down and its handle cleared; the recording is registered exactly when the file exists |
| LRPTObservation.Decode | src/main/java/ru/r2cloud/satellite/LRPTObservation.java:123-181 | with no record it makes no call and leaves the counter alone; otherwise it saves channel `a` only when an image was produced, always saves the pass bounds and the counter's value before the reset, and leaves the counter at zero |
| LRPTLifecycle.WholePass | src/main/java/ru/r2cloud/satellite/LRPTObservation.java:73-181 | a pass that recorded something ends with one record holding the recording, the pass bounds and the packet count; it has channel `a` exactly when an image was produced; the counter is zero, no tuner handle is kept, and a store with every record under its own id stays so |
| LRPTLifecycle.NothingRecordedNothingDecoded | src/main/java/ru/r2cloud/satellite/LRPTObservation.java:112-128 | when `stop` found no file and the store holds no record for the pass, decoding it writes nothing and leaves the counter alone |
| LRPTLifecycle.CountsDoNotLeak | src/main/java/ru/r2cloud/satellite/LRPTObservation.java:172-180 | because of the reset, the count saved by the next decode is that pass's own packets only |
| LRPTLifecycle.ApplyAllKeepsWellKeyed | src/main/java/ru/r2cloud/satellite/LRPTObservation.java:117 | an invariant of the assumed map semantics of the store: any series of calls keeps every record under its own observation id; `WholePass` uses it for the calls `stop` and `decode` make |

## Left out

- HTTP request construction is not modelled. This covers the URL, the User-Agent and Basic-auth headers, and `disconnect`. The whole exchange is the `HttpOutcome` input: an exception, or a status code with the first body line. A null line is an exception, because `startsWith` on null throws.
- `ExternalIpUtil.getExternalIp` and all logging are not part of this model. The looked-up IP is an input.
- NoIPTask.Run: one `now` stands for both clock reads, at line 49 and at line 87. The source reads the clock again before computing the deadline, so the real deadline can be slightly later.
- The `Configuration` class is not part of this model. `setProperty(key, Long)` is assumed to store decimal text. `getLong` is assumed to read it back with an optional minus sign. A stored value that is not a number in `long` range reads as absent. The source's behaviour for such a value is not visible.
- `SafeRunnable`, `NoIPTask`'s base class, is not shown and not modelled. `Run` already covers every exception the source catches itself.
- The signal-processing chain in `decode` is one `DspOutcome` input: image written, no image, or fault, with the packets counted meanwhile. This covers the filters, clock recovery, LRPT framing, image building and JPEG writing, and closing the LRPT source. It is floating-point and library code.
- Process spawning and temp-file creation are inputs. The process ids come from the spawns; `None` means an `IOException`.
- The sox and rtl_sdr command lines are not modelled. The `ppm.current` lookup only shapes the rtl_sdr command line and is not modelled either, nor any exception it might throw. The sample-rate constants only appear in those command lines and in the signal chain.
- `Util.shutdown` is not part of this model. A call is recorded with the handle it received, and a present handle is marked shut down. Nothing is assumed for a null handle.
- `ObservationResultDao` is not part of this model. `decode` and `stop` are stated in terms of the calls they make. `ObservationStore.Apply` gives an assumed meaning, used only by the whole-pass lemmas:
  - create inserts a fresh record;
  - save-channel adds a channel;
  - save-metadata sets the bounds and the count.
- The return value of `createObservation` is not modelled, because both of its branches in `stop` return.
- CapturePipe.CopyLoop: an `IOException` forwards nothing of the chunk in that iteration. The source may have written part of it before the exception.
- The 4 KiB bound on each read is not modelled. The loop forwards chunks of any length.
- An exception from the final `flush` is not modelled.
- Thread interruption is an event checked once per iteration at the loop head. Scheduler concurrency is not modelled.
- LRPTObservation.Start requires the observed events to end the loop whenever both processes were spawned. The source's loop can block for ever, and a function cannot describe that. `CopyLoop` itself has no such requirement; it reports `Pending` when the events run out.
- LRPTObservation.Stop requires that `start` obtained a temp file. The source dereferences `wavPath` there and would throw a `NullPointerException` otherwise.
- LRPTObservation.Decode keeps the packet counter as an unbounded natural number. The source's `long` counter could in principle overflow.
- The satellite descriptor is reduced to its id. Its frequency only appears in the rtl_sdr command line.
- `Jy1satDecoder` and decoder dispatch are not modelled. The decoder is a parameter wrapper around an external demodulator, with no logic of its own.
- Pass prediction (`PredictTest`) is not modelled. It is floating-point orbital mechanics from an external library.
- The source keeps no status for an observation; the model has none either.
- What `Util.shutdown` does once its timeout expires is not modelled.
