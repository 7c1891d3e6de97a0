# NeuroSky acquisition and processing core, in Dafny

This project models the two sequential components of the NeuroSky EEG
client.

- `Processing` (`processor.dfy`) models the spectral analyser `Processor`.
  It appends raw samples to a batch. When the batch holds 250 samples, it
  takes the batch, clears it and runs the blink/artifact gate. For a batch
  that passes, it publishes the retained DFT bins 2..49 and sets
  `is_available`.
- `Connection` (`connector.dfy`) models the stream client `Connector`:
  - it splits each received chunk (`str(raw_bytes)[2:-3].split(r'\r')`);
  - it decodes each record through the fallback chain `rawEeg`, then
    `eSense.poorSignalLevel` (objects with more than three keys), then
    `poorSignalLevel`;
  - it counts every piece for the sampling-rate monitor;
  - it has the synthetic (debug) source and the idempotent `close`.

Both objects are Dafny classes. Their methods update the fields in place,
and their `ensures` clauses tie the new fields to pure functions of the old
ones: `Accepted`, `Freqs`, `Pieces`, `Decode`, `Apply` and `Replay`. The
properties of the code are lemmas about those functions:

- the gate's exact acceptance condition;
- 48 bins at strictly increasing frequencies `k * 512 / (2 * n)`;
- split/join round trip and the piece count;
- decode/encode round trips for the three record shapes;
- composition of record runs.

Behaviour of the code worth knowing, which the model keeps as written:

- The blink gate. `_processor.py:29` accepts a non-empty batch when
  `max < 150` OR `min > -150`, so it rejects only when both extremes reach
  the threshold, not when either does. `Accepted` is this gate.
  `GateIsWeakerThanBothBounds` shows that it passes the batch `[150, 0]`.
- Empty reads. An empty read (`b''`) gives one empty piece: the counter
  rises and the client stays open. The code never closes on a peer
  disconnect (`ChunkExamples`).
- Record framing. Records are not buffered across chunks. The last three
  characters of every chunk's repr are dropped, whatever they are (`Trim`).
- The quality draw. numpy's `random.randint(0, 100)` excludes 100, so the
  synthetic quality lies in 0..99.
- Record values. Python stores whatever value the key holds, so
  `raw_data` and `poor_signal_level` hold a `Json` value, not only an
  integer.

## Model

| member | source | states |
|---|---|---|
| Processing.Max | _processor.py:29 | `amax`: the result is an element of the non-empty batch and no sample exceeds it |
| Processing.Min | _processor.py:29 | `amin`: the result is an element of the non-empty batch and no sample is below it |
| Processing.Accepted | _processor.py:11-29 | the gate as written: a batch passes iff it is non-empty and NOT (some sample is >= 150 AND some sample is <= -150) |
| Processing.GateIsWeakerThanBothBounds | _processor.py:11-29 | every batch strictly inside (-150, 150) passes the gate, and `[150, 0]` passes it although it touches the bound |
| Processing.BinFrequency | _processor.py:28-30 | with `d = 2 * (1 / fs)` and fs = 512, bin k of an n-sample window lies at exactly `k * 512 / (2 * n)` |
| Processing.BinFrequencyIncreasing | _processor.py:30 | a higher bin index lies at a strictly higher frequency |
| Processing.RfftFreq | _processor.py:30 | `rfftfreq(n, d)` has `n // 2 + 1` entries, starts at 0 Hz, entry k is bin k's frequency, strictly increasing |
| Processing.RetainedBins | _processor.py:30-31 | the slice `[2:50]`: at most 48 entries, entry i is entry i + 2 of the input, empty when the input has two entries or fewer (clamped like a Python slice) |
| Processing.Freqs | _processor.py:30 | the published axis keeps bins 2, 3, ... of `rfftfreq`, each at its bin frequency, strictly increasing |
| Processing.FullBatchSpectrum | _processor.py:8-30 | a 250-sample window yields exactly 48 frequencies, bins 2..49, at `k * 512 / 500`, strictly increasing |
| Processing.Processor.constructor | _processor.py:7-13 | the batch is empty, no spectrum is published, `is_available` is false |
| Processing.Processor.AppendData | _processor.py:19-22 | the sample goes to the end of the batch with the earlier samples kept in order; at the 250th sample the batch is analysed and emptied; the gate decides the spectrum; `is_available` is never reset |
| Processing.Processor.Fft | _processor.py:24-33 | the live batch becomes empty; an accepted batch publishes its frequency axis together with the window, in arrival order, and sets `is_available`; a rejected or empty batch leaves the spectrum and flag unchanged |
| Connection.Split | _connector.py:73 | `split(r'\r')` always yields at least one piece, and the first piece is a prefix of the text |
| Connection.JoinSplit | _connector.py:73 | joining the pieces with `\r` gives the split text back |
| Connection.SplitPiecesHaveNoSeparator | _connector.py:73 | no piece contains the two-character separator |
| Connection.SplitCount | _connector.py:73 | there is one piece more than there are separators |
| Connection.Trim | _connector.py:73 | `[2:-3]`: texts of five characters or fewer give the empty string; longer ones lose exactly their first two and last three characters |
| Connection.Pieces | _connector.py:73 | `str(raw_bytes)[2:-3].split(r'\r')`: one more piece than separators in the trimmed text, no piece holds a separator, and joined back they give the trimmed text |
| Connection.ChunkExamples | _connector.py:72-73 | the chunk `b'A\rB\r'` gives the records `A` and `B`; an empty read `b''` still gives one empty piece |
| Connection.Decode | _connector.py:76-86 | only a parsed JSON object can change anything; the raw-only update happens iff the object has `rawEeg`, and then carries its value |
| Connection.DecodeEncode | _connector.py:76-86 | a `rawEeg` record sets the raw value only; an `eSense` record with more than three keys, or a flat `poorSignalLevel` record with at most three, sets both fields to the level |
| Connection.DecodedIsEncoded | _connector.py:76-86 | every value the decoder does not skip is one of those three record shapes, so anything else (no JSON, no object, a missing key) is skipped |
| Connection.Apply | _connector.py:79-84 | a skipped record changes nothing; `rawEeg` sets only the raw value; a quality record sets both the raw value and the quality to the level (nothing half-written) |
| Connection.Replay | _connector.py:74-86 | decoding the pieces in order: the raw value afterwards is the old one or the value some record of the run writes |
| Connection.ReplayAppend | _connector.py:74-86 | decoding two runs of records in turn is decoding their concatenation |
| Connection.ReplayQualitySource | _connector.py:74-86 | the quality after a run is the old one or the level of a record of the run; a run of skipped records changes neither field |
| Connection.AllPieces | _connector.py:71-75 | the records of successive chunks in order; every chunk gives at least one record, so each receive counts at least once |
| Connection.Connector.constructor | _connector.py:14-25 | `raw_data` and `poor_signal_level` are 0, `fft_data` is empty, both rate counters are 0, `is_open` is true |
| Connection.Connector.HandleRecord | _connector.py:75-86 | the counter rises by one before the parse; the fields change only as the record's decoded update says |
| Connection.Connector.ReceiveChunk | _connector.py:73-86 | the counter rises by the number of pieces, parsed or not; the fields are those of decoding the pieces in order; the client stays open |
| Connection.Connector.ReceiveStep | _connector.py:63-91 | in network mode, while open: a failed receive closes the client and changes nothing else; a received chunk is handled as `ReceiveChunk` says |
| Connection.Connector.SyntheticStep | _connector.py:53-61 | in debug mode, while open, a draw strictly inside (-150, 150) is published with a quality in 0..99 and counted; any other draw changes nothing; the synthetic range is preserved |
| Connection.Connector.BeginRatePeriod | _connector.py:46 | the period starts by resetting the counter to 0 |
| Connection.Connector.EndRatePeriod | _connector.py:48 | the period ends by publishing the counter as the sampling rate |
| Connection.Connector.RatePeriod | _connector.py:44-48 | after a reset, the chunks received during the sleep and the publish, the rate equals the number of records in those chunks |
| Connection.Connector.Close | _connector.py:93-94 | `is_open` becomes false and nothing else changes, so a second call keeps it false |

## Left out

- Sockets: connect, `sendall` of the enable-raw-output message, `recv` and
  `client_socket.close` are I/O. A received chunk enters the model as the
  text of `str(raw_bytes)`. A failed receive enters as `None`, and a failed
  connect takes the same `except` path (close).
- Threads and `sleep` are not modelled. Each `while self.is_open` loop is
  modelled as one sequential step: `ReceiveStep`, `SyntheticStep` and
  `RatePeriod`. The batch analysis runs synchronously, so the race in which
  the batch briefly overfills before the analysis thread clears it is not
  captured.
- `json.loads` is a parameter of type `string -> Option<Json>`. JSON text
  parsing is not part of this model. `Json` keeps objects and integers
  apart and folds every other value into `JOther`.
- `numpy.random.normal` and `randint` are not modelled. Their draws are the
  inputs of `SyntheticStep`.
- FFT magnitudes (`absolute(real(fft.rfft(...)))`) are floating-point
  numerics. The published spectrum keeps the window they are computed from
  instead of the values. Frequencies are exact reals, not float64.
- Verbose and diagnostic `print` calls are not modelled. This includes the
  message for a poor-signal level of 200 and the one printed on close.
- The keyboard handler, the `__main__` blocks and the GUI
  (`application.py`) are not part of this model.
- `Connector.fft_data` is only initialised. The connector never writes to it.
