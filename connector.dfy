/** The stream client: it splits each received chunk into records, decodes
    each record into the published raw sample and signal quality, counts
    records for the sampling-rate monitor, and offers a synthetic source and
    an idempotent close. Socket I/O, threads and `json.loads` are outside the
    model: a received chunk arrives as its text, and the JSON parser is a
    parameter. */
module Connection {

  datatype Option<T> = None | Some(value: T)

  /** A parsed JSON value, as far as the decoder tells values apart: objects
      and integers; every other value (string, list, float, ...) is `JOther`. */
  datatype Json = JInt(n: int) | JObject(fields: map<string, Json>) | JOther

  /** `json.loads`: `None` when the text is not JSON. */
  type Loads = string -> Option<Json>

  const RawEegKey: string := "rawEeg"
  const ESenseKey: string := "eSense"
  const PoorSignalKey: string := "poorSignalLevel"
  /** An object with more than this many top-level keys carries `eSense`. */
  const FlatRecordKeys: nat := 3
  /** Synthetic draws are kept only strictly inside (-150, 150). */
  const SyntheticBound: int := 150
  /** `randint(0, 100)` draws from 0 ..= 99. */
  const QualityDrawEnd: int := 100

  // ---------------------------------------------------------------------
  // Splitting a chunk into records

  /** True when `s` has the two characters backslash, 'r' at position `i`. */
  predicate SeparatorAt(s: string, i: int)
  {
    0 <= i && i + 1 < |s| && s[i] == '\\' && s[i + 1] == 'r'
  }

  /** Python's `s.split(r'\r')`: the pieces between occurrences of the
      two-character separator, scanning from the left. */
  function Split(s: string): (r: seq<string>)
    ensures |r| >= 1 && r[0] <= s
    decreases |s|
  {
    if |s| < 2 then [s]
    else if SeparatorAt(s, 0) then [""] + Split(s[2..])
    else
      var rest := Split(s[1..]);
      [[s[0]] + rest[0]] + rest[1..]
  }

  /** `sep.join(pieces)` with the same separator. */
  function Join(pieces: seq<string>): string
    requires |pieces| >= 1
  {
    if |pieces| == 1 then pieces[0] else pieces[0] + "\\r" + Join(pieces[1..])
  }

  /** Splitting loses nothing: joining the pieces gives the text back. */
  lemma {:induction false} JoinSplit(s: string)
    ensures Join(Split(s)) == s
    decreases |s|
  {
    if |s| < 2 {
    } else if SeparatorAt(s, 0) {
      var tail := Split(s[2..]);
      JoinSplit(s[2..]);
      assert Split(s) == [""] + tail;
      assert Join(Split(s)) == "" + "\\r" + Join(tail);
      assert s == "\\r" + s[2..];
    } else {
      var rest := Split(s[1..]);
      JoinSplit(s[1..]);
      var first := [s[0]] + rest[0];
      assert Split(s) == [first] + rest[1..];
      if |rest| == 1 {
        assert Join(Split(s)) == first;
      } else {
        assert Join(Split(s)) == first + "\\r" + Join(rest[1..]);
        assert Join(rest) == rest[0] + "\\r" + Join(rest[1..]);
        assert Join(Split(s)) == [s[0]] + Join(rest);
      }
      assert s == [s[0]] + s[1..];
    }
  }

  /** No piece contains the separator. */
  lemma {:induction false} SplitPiecesHaveNoSeparator(s: string)
    ensures forall p, i :: p in Split(s) ==> !SeparatorAt(p, i)
    decreases |s|
  {
    if |s| < 2 {
    } else if SeparatorAt(s, 0) {
      SplitPiecesHaveNoSeparator(s[2..]);
    } else {
      var rest := Split(s[1..]);
      SplitPiecesHaveNoSeparator(s[1..]);
      var first := [s[0]] + rest[0];
      forall i
        ensures !SeparatorAt(first, i)
      {
        if i == 0 && 1 < |first| {
          assert rest[0][0] == s[1];
        } else if 0 < i {
          assert !SeparatorAt(rest[0], i - 1);
        }
      }
      forall p | p in Split(s)
        ensures p == first || p in rest
      {
      }
    }
  }

  /** Number of separators in `s`, counted from the left. */
  function SeparatorCount(s: string): nat
    decreases |s|
  {
    if |s| < 2 then 0
    else if SeparatorAt(s, 0) then 1 + SeparatorCount(s[2..])
    else SeparatorCount(s[1..])
  }

  /** Split yields one piece more than there are separators. */
  lemma {:induction false} SplitCount(s: string)
    ensures |Split(s)| == SeparatorCount(s) + 1
    decreases |s|
  {
    if |s| < 2 {
    } else if SeparatorAt(s, 0) {
      SplitCount(s[2..]);
    } else {
      SplitCount(s[1..]);
    }
  }

  /** Python's `text[2:-3]`: drops the `b'` prefix and the final `\r'` of a
      bytes repr; the empty string when nothing lies between. */
  function Trim(text: string): (t: string)
    ensures |text| <= 5 ==> t == ""
    ensures 5 < |text| ==> |t| == |text| - 5 && text == text[..2] + t + text[|text| - 3..]
  {
    if |text| <= 5 then "" else text[2..|text| - 3]
  }

  /** The records of one chunk, given `str(raw_bytes)`: one more piece than
      there are separators in the trimmed text, none holding a separator,
      and joined back they give the trimmed text. */
  function Pieces(text: string): (ps: seq<string>)
    ensures |ps| == SeparatorCount(Trim(text)) + 1
    ensures Join(ps) == Trim(text)
    ensures forall p, i :: p in ps ==> !SeparatorAt(p, i)
  {
    var t := Trim(text);
    JoinSplit(t);
    SplitPiecesHaveNoSeparator(t);
    SplitCount(t);
    Split(t)
  }

  /** A chunk with two records, each ending in `\r`, gives exactly those two
      records; an empty read, `b''`, still gives one (empty) piece. */
  lemma ChunkExamples()
    ensures Pieces("b'A\\rB\\r'") == ["A", "B"]
    ensures Pieces("b''") == [""]
  {
    var text := "b'A\\rB\\r'";
    var t := Trim(text);
    assert t == "A\\rB";
    assert !SeparatorAt(t, 0);
    assert t[1..] == "\\rB";
    assert SeparatorAt(t[1..], 0);
    assert t[1..][2..] == "B";
    assert Split("B") == ["B"];
    assert Split(t[1..]) == ["", "B"];
    assert [t[0]] + "" == "A";
    assert Split(t) == ["A", "B"];
    assert Pieces(text) == Split(t);
  }

  // ---------------------------------------------------------------------
  // Decoding one record

  /** What one record does to the published fields. */
  datatype Update = SetRaw(raw: Json) | SetBoth(level: Json) | Skip

  /** The fallback chain of the record decoder: `rawEeg` first; else, for
      an object with more than three keys, `eSense.poorSignalLevel`; else
      `poorSignalLevel`. Anything that fails (no JSON, not an object, a key
      missing, a non-object under `eSense`) is skipped. */
  function Decode(parsed: Option<Json>): (u: Update)
    ensures u != Skip ==> parsed.Some? && parsed.value.JObject?
    ensures u.SetRaw? <==> parsed.Some? && parsed.value.JObject? && RawEegKey in parsed.value.fields
    ensures u.SetRaw? ==> u.raw == parsed.value.fields[RawEegKey]
  {
    match parsed
    case Some(JObject(f)) =>
      if RawEegKey in f then SetRaw(f[RawEegKey])
      else if |f| > FlatRecordKeys then
        if ESenseKey in f && f[ESenseKey].JObject? && PoorSignalKey in f[ESenseKey].fields
        then SetBoth(f[ESenseKey].fields[PoorSignalKey])
        else Skip
      else if PoorSignalKey in f then SetBoth(f[PoorSignalKey])
      else Skip
    case _ => Skip
  }

  /** The three record shapes of the wire protocol, with whatever other
      keys they carry. */
  datatype Record =
    | RawEegRecord(raw: Json, others: map<string, Json>)
    | ESenseRecord(level: Json, sense: map<string, Json>, others: map<string, Json>)
    | PoorSignalRecord(level: Json, others: map<string, Json>)

  /** A record of each shape as the protocol defines it: the raw-sample key
      is absent from the quality records, an `eSense` record has at least
      four top-level keys and a flat quality record at most three. */
  predicate WellFormed(rec: Record)
  {
    match rec
    case RawEegRecord(_, others) => RawEegKey !in others
    case ESenseRecord(_, _, others) =>
      RawEegKey !in others && ESenseKey !in others && |others| >= FlatRecordKeys
    case PoorSignalRecord(_, others) =>
      RawEegKey !in others && PoorSignalKey !in others && |others| < FlatRecordKeys
  }

  /** The JSON object a record is sent as. */
  function Encode(rec: Record): Json
  {
    match rec
    case RawEegRecord(raw, others) => JObject(others[RawEegKey := raw])
    case ESenseRecord(level, sense, others) =>
      JObject(others[ESenseKey := JObject(sense[PoorSignalKey := level])])
    case PoorSignalRecord(level, others) => JObject(others[PoorSignalKey := level])
  }

  /** What a record is meant to do: a raw sample sets the raw value; a
      quality report sets both fields. */
  function Effect(rec: Record): Update
  {
    match rec
    case RawEegRecord(raw, _) => SetRaw(raw)
    case ESenseRecord(level, _, _) => SetBoth(level)
    case PoorSignalRecord(level, _) => SetBoth(level)
  }

  /** Every well-formed record decodes to its effect. */
  lemma DecodeEncode(rec: Record)
    requires WellFormed(rec)
    ensures Decode(Some(Encode(rec))) == Effect(rec)
  {
    match rec
    case RawEegRecord(_, _) =>
    case ESenseRecord(level, sense, others) =>
      var f := others[ESenseKey := JObject(sense[PoorSignalKey := level])];
      assert f.Keys == others.Keys + {ESenseKey};
      assert |f| == |others| + 1;
    case PoorSignalRecord(level, others) =>
      var f := others[PoorSignalKey := level];
      assert f.Keys == others.Keys + {PoorSignalKey};
      assert |f| == |others| + 1;
  }

  /** Conversely, every JSON value the decoder does not skip is the
      encoding of a well-formed record with that effect. */
  lemma DecodedIsEncoded(j: Json)
    requires Decode(Some(j)) != Skip
    ensures exists rec :: WellFormed(rec) && Encode(rec) == j && Effect(rec) == Decode(Some(j))
  {
    var f := j.fields;
    if RawEegKey in f {
      var rec := RawEegRecord(f[RawEegKey], f - {RawEegKey});
      assert Encode(rec).fields == f;
      assert WellFormed(rec) && Encode(rec) == j;
    } else if |f| > FlatRecordKeys {
      var others := f - {ESenseKey};
      assert others.Keys == f.Keys - {ESenseKey};
      assert |others| == |f| - 1;
      var sense := f[ESenseKey].fields;
      var rec := ESenseRecord(sense[PoorSignalKey], sense - {PoorSignalKey}, others);
      assert (sense - {PoorSignalKey})[PoorSignalKey := sense[PoorSignalKey]] == sense;
      assert Encode(rec).fields == f;
      assert WellFormed(rec) && Encode(rec) == j;
    } else {
      var others := f - {PoorSignalKey};
      assert others.Keys == f.Keys - {PoorSignalKey};
      assert |others| == |f| - 1;
      var rec := PoorSignalRecord(f[PoorSignalKey], others);
      assert Encode(rec).fields == f;
      assert WellFormed(rec) && Encode(rec) == j;
    }
  }

  /** The two fields the decoder writes. */
  datatype Reading = Reading(raw: Json, poorSignal: Json)

  /** Applies one record; both right-hand sides are read before either
      field is written, so a failing record writes nothing. */
  function Apply(r: Reading, u: Update): (s: Reading)
    ensures u.Skip? ==> s == r
    ensures s.poorSignal == r.poorSignal || s.poorSignal == s.raw
    ensures u.SetRaw? ==> s.raw == u.raw && s.poorSignal == r.poorSignal
    ensures u.SetBoth? ==> s == Reading(u.level, u.level)
  {
    match u
    case SetRaw(v) => r.(raw := v)
    case SetBoth(v) => Reading(v, v)
    case Skip => r
  }

  /** True when update `u` writes `v` into the raw field. */
  predicate WritesRaw(u: Update, v: Json)
  {
    u == SetRaw(v) || u == SetBoth(v)
  }

  /** The fields after decoding `pieces` in order, starting from `r`: the
      raw value is the one before the run or one that some record of the run
      writes. */
  function Replay(r: Reading, pieces: seq<string>, loads: Loads): (s: Reading)
    ensures s.raw == r.raw ||
      exists i :: 0 <= i < |pieces| && WritesRaw(Decode(loads(pieces[i])), s.raw)
    decreases |pieces|
  {
    if pieces == [] then r
    else
      var last := |pieces| - 1;
      var init := pieces[..last];
      var prev := Replay(r, init, loads);
      var u := Decode(loads(pieces[last]));
      assert forall i :: 0 <= i < |init| ==> init[i] == pieces[i];
      assert u.SetRaw? ==> WritesRaw(u, u.raw);
      assert u.SetBoth? ==> WritesRaw(u, u.level);
      Apply(prev, u)
  }

  /** Decoding two runs of records one after the other is decoding the
      concatenation. */
  lemma {:induction false} ReplayAppend(r: Reading, a: seq<string>, b: seq<string>, loads: Loads)
    ensures Replay(r, a + b, loads) == Replay(Replay(r, a, loads), b, loads)
    decreases |b|
  {
    if b == [] {
      assert a + b == a;
    } else {
      var last := |b| - 1;
      var ab := a + b;
      assert ab[..|ab| - 1] == a + b[..last];
      assert ab[|ab| - 1] == b[last];
      ReplayAppend(r, a, b[..last], loads);
      assert Replay(r, ab, loads) == Apply(Replay(r, a + b[..last], loads), Decode(loads(b[last])));
      var ra := Replay(r, a, loads);
      assert Replay(ra, b, loads) == Apply(Replay(ra, b[..last], loads), Decode(loads(b[last])));
    }
  }

  /** The published quality is either the one before the run or the level
      of some record of the run that sets both fields; a run of records that
      are all skipped changes nothing. */
  lemma {:induction false} ReplayQualitySource(r: Reading, pieces: seq<string>, loads: Loads)
    ensures var q := Replay(r, pieces, loads).poorSignal;
      q == r.poorSignal ||
      exists i :: 0 <= i < |pieces| && Decode(loads(pieces[i])) == SetBoth(q)
    ensures (forall i :: 0 <= i < |pieces| ==> Decode(loads(pieces[i])) == Skip) ==>
      Replay(r, pieces, loads) == r
    decreases |pieces|
  {
    if pieces != [] {
      var init := pieces[..|pieces| - 1];
      ReplayQualitySource(r, init, loads);
      var q := Replay(r, init, loads).poorSignal;
      if q != r.poorSignal {
        var i :| 0 <= i < |init| && Decode(loads(init[i])) == SetBoth(q);
        assert pieces[i] == init[i];
      }
      if forall i :: 0 <= i < |pieces| ==> Decode(loads(pieces[i])) == Skip {
        assert forall i :: 0 <= i < |init| ==> init[i] == pieces[i];
      }
    }
  }

  /** All records of a run of chunks, in order; every chunk gives at least
      one. */
  function AllPieces(chunks: seq<string>): (ps: seq<string>)
    ensures |ps| >= |chunks|
    decreases |chunks|
  {
    if chunks == [] then []
    else AllPieces(chunks[..|chunks| - 1]) + Pieces(chunks[|chunks| - 1])
  }

  /** One more chunk adds its pieces at the end. */
  lemma AllPiecesStep(chunks: seq<string>, i: nat)
    requires i < |chunks|
    ensures AllPieces(chunks[..i + 1]) == AllPieces(chunks[..i]) + Pieces(chunks[i])
  {
    assert chunks[..i + 1][..i] == chunks[..i];
  }

  // ---------------------------------------------------------------------
  // The client

  class Connector {
    const debug: bool
    const verbose: bool
    /** Latest raw sample (whatever value the record carried). */
    var rawData: Json
    var fftData: seq<real>
    /** Latest signal quality (whatever value the record carried). */
    var poorSignalLevel: Json
    /** Records seen since the rate monitor last reset it. */
    var samplingRateCounter: nat
    /** Records seen in the last completed rate period. */
    var samplingRate: nat
    var isOpen: bool

    constructor (debug: bool, verbose: bool)
      ensures this.debug == debug && this.verbose == verbose
      ensures rawData == JInt(0) && poorSignalLevel == JInt(0) && fftData == []
      ensures samplingRateCounter == 0 && samplingRate == 0 && isOpen
    {
      this.debug := debug;
      this.verbose := verbose;
      rawData := JInt(0);
      fftData := [];
      poorSignalLevel := JInt(0);
      samplingRateCounter := 0;
      samplingRate := 0;
      isOpen := true;
    }

    function Published(): Reading
      reads this
    {
      Reading(rawData, poorSignalLevel)
    }

    /** Every synthetic value lies in its drawn range. */
    ghost predicate SyntheticRange()
      reads this
    {
      rawData.JInt? && -SyntheticBound < rawData.n < SyntheticBound &&
      poorSignalLevel.JInt? && 0 <= poorSignalLevel.n < QualityDrawEnd
    }

    /** One iteration of the record loop: count the record, then decode it. */
    method HandleRecord(data: string, loads: Loads)
      modifies this
      ensures samplingRateCounter == old(samplingRateCounter) + 1
      ensures Published() == Apply(old(Published()), Decode(loads(data)))
      ensures samplingRate == old(samplingRate) && isOpen == old(isOpen) && fftData == old(fftData)
    {
      samplingRateCounter := samplingRateCounter + 1;
      match Decode(loads(data))
      case SetRaw(v) =>
        rawData := v;
      case SetBoth(v) =>
        poorSignalLevel, rawData := v, v;
      case Skip =>
    }

    /** Handles one received chunk, given as `str(raw_bytes)`: every piece
      is counted, parsed or not, and decoded in order. */
    method ReceiveChunk(text: string, loads: Loads)
      modifies this
      ensures samplingRateCounter == old(samplingRateCounter) + |Pieces(text)|
      ensures Published() == Replay(old(Published()), Pieces(text), loads)
      ensures samplingRate == old(samplingRate) && isOpen == old(isOpen) && fftData == old(fftData)
    {
      var dataSet := Pieces(text);
      var i := 0;
      while i < |dataSet|
        invariant 0 <= i <= |dataSet|
        invariant samplingRateCounter == old(samplingRateCounter) + i
        invariant Published() == Replay(old(Published()), dataSet[..i], loads)
        invariant samplingRate == old(samplingRate) && isOpen == old(isOpen) && fftData == old(fftData)
      {
        HandleRecord(dataSet[i], loads);
        assert dataSet[..i + 1][..i] == dataSet[..i];
        i := i + 1;
      }
      assert dataSet[..i] == dataSet;
    }

    /** One pass of the network acquisition loop: `None` stands for a
        receive that raised, which closes the client. */
    method ReceiveStep(received: Option<string>, loads: Loads)
      requires !debug && isOpen
      modifies this
      ensures received.None? ==>
        !isOpen && Published() == old(Published()) &&
        samplingRateCounter == old(samplingRateCounter)
      ensures received.Some? ==>
        isOpen == old(isOpen) &&
        samplingRateCounter == old(samplingRateCounter) + |Pieces(received.value)| &&
        Published() == Replay(old(Published()), Pieces(received.value), loads)
      ensures samplingRate == old(samplingRate) && fftData == old(fftData)
    {
      match received
      case None =>
        Close();
      case Some(text) =>
        ReceiveChunk(text, loads);
    }

    /** One pass of the synthetic acquisition loop, given the floored
        Gaussian draw and the quality draw of `randint(0, 100)`. A draw
        outside (-150, 150) changes nothing. */
    method SyntheticStep(gaussianNum: int, level: int)
      requires debug && isOpen && 0 <= level < QualityDrawEnd
      modifies this
      ensures -SyntheticBound < gaussianNum < SyntheticBound ==>
        rawData == JInt(gaussianNum) && poorSignalLevel == JInt(level) &&
        samplingRateCounter == old(samplingRateCounter) + 1
      ensures !(-SyntheticBound < gaussianNum < SyntheticBound) ==>
        rawData == old(rawData) && poorSignalLevel == old(poorSignalLevel) &&
        samplingRateCounter == old(samplingRateCounter)
      ensures old(SyntheticRange()) ==> SyntheticRange()
      ensures samplingRate == old(samplingRate) && isOpen == old(isOpen) && fftData == old(fftData)
    {
      if -SyntheticBound < gaussianNum < SyntheticBound {
        rawData := JInt(gaussianNum);
        poorSignalLevel := JInt(level);
        samplingRateCounter := samplingRateCounter + 1;
      }
    }

    /** Start of a rate period: the counter is reset. */
    method BeginRatePeriod()
      modifies this
      ensures samplingRateCounter == 0
      ensures samplingRate == old(samplingRate) && Published() == old(Published())
      ensures isOpen == old(isOpen) && fftData == old(fftData)
    {
      samplingRateCounter := 0;
    }

    /** End of a rate period: the count seen since the reset is published. */
    method EndRatePeriod()
      modifies this
      ensures samplingRate == old(samplingRateCounter)
      ensures samplingRateCounter == old(samplingRateCounter) && Published() == old(Published())
      ensures isOpen == old(isOpen) && fftData == old(fftData)
    {
      samplingRate := samplingRateCounter;
    }

    /** One period of the rate monitor with the chunks received during its
        one-second sleep: the rate it publishes is the number of records in
        those chunks, and the fields hold what decoding them gives. */
    method RatePeriod(chunks: seq<string>, loads: Loads)
      modifies this
      ensures samplingRate == |AllPieces(chunks)| && samplingRateCounter == samplingRate
      ensures Published() == Replay(old(Published()), AllPieces(chunks), loads)
      ensures isOpen == old(isOpen) && fftData == old(fftData)
    {
      ghost var start := Published();
      BeginRatePeriod();
      var i := 0;
      while i < |chunks|
        invariant 0 <= i <= |chunks|
        invariant samplingRateCounter == |AllPieces(chunks[..i])|
        invariant Published() == Replay(start, AllPieces(chunks[..i]), loads)
        invariant isOpen == old(isOpen) && fftData == old(fftData)
      {
        ghost var before := AllPieces(chunks[..i]);
        ReceiveChunk(chunks[i], loads);
        AllPiecesStep(chunks, i);
        ReplayAppend(start, before, Pieces(chunks[i]), loads);
        i := i + 1;
      }
      assert chunks[..i] == chunks;
      EndRatePeriod();
    }

    /** Marks the client closed; closing again keeps it closed. */
    method Close()
      modifies this
      ensures !isOpen
      ensures Published() == old(Published()) && fftData == old(fftData)
      ensures samplingRateCounter == old(samplingRateCounter) && samplingRate == old(samplingRate)
    {
      isOpen := false;
    }
  }
}
