/** A simulated gateway (src/publisher/gateway/init.go): the JetStream stream
    it declares for its tenant and the two messages it publishes on each turn
    of its endless loop. Publishing is an abstract operation that may fail;
    a failure ends the process (`log.Fatalf`). The earlier gateway
    (publisher/gateway/init.go) runs the same loop, with the same subjects and
    order, over a core NATS connection and declares no stream; the loop below
    stands for both. */
module Gateway {
  import opened Text
  import opened SensorData

  /** `time.Hour` in nanoseconds, the unit of `time.Duration`. */
  const Hour: int := 3_600_000_000_000

  const OneMonth: int := 30 * 24 * Hour

  /** `int32(1024 * 1024)`; it fits the 32-bit field. */
  const OneMB: int := 1024 * 1024

  datatype Storage = FileStorage
  datatype Retention = LimitsPolicy

  datatype StreamConfig = StreamConfig(name: string, subjects: seq<string>, storage: Storage,
                                       replicas: int, retention: Retention, maxAge: int, maxMsgSize: int)

  function StreamName(tenantId: string): (n: string)
    ensures StartsWith(n, "sensors_") && n[8..] == tenantId
  {
    "sensors_" + tenantId
  }

  /** The stream's subject filter: everything below `sensors.<tenant>`. */
  function StreamSubject(tenantId: string): (f: string)
    ensures StartsWith(f, "sensors." + tenantId + ".") && EndsWith(f, ".>")
  {
    "sensors." + tenantId + ".>"
  }

  /** The `nats.StreamConfig` that `configStreams` adds. */
  function StreamConfigFor(tenantId: string): (c: StreamConfig)
    ensures c.name == "sensors_" + tenantId
    ensures c.subjects == ["sensors." + tenantId + ".>"]
    ensures c.maxAge == 720 * Hour && c.maxMsgSize == 1048576
    ensures 0 < c.maxMsgSize < 0x8000_0000
    ensures c.replicas == 1 && c.storage == FileStorage && c.retention == LimitsPolicy
  {
    StreamConfig(StreamName(tenantId), [StreamSubject(tenantId)], FileStorage, 1, LimitsPolicy, OneMonth, OneMB)
  }

  function HeartRateSubject(tenantId: string, gatewayId: string): (s: string)
    ensures StartsWith(s, "sensors." + tenantId + ".") && EndsWith(s, "." + gatewayId + ".heart_rate")
  {
    "sensors." + tenantId + "." + gatewayId + ".heart_rate"
  }

  function SpO2Subject(tenantId: string, gatewayId: string): (s: string)
    ensures StartsWith(s, "sensors." + tenantId + ".") && EndsWith(s, "." + gatewayId + ".blood_oxygen")
  {
    "sensors." + tenantId + "." + gatewayId + ".blood_oxygen"
  }

  datatype Publish = Publish(subject: string, data: Bytes)

  /** One turn of the loop: the messages it tried to publish, in order, and
      whether the loop goes on (both publishes succeeded). */
  datatype Turn = Turn(published: seq<Publish>, continues: bool)

  /** One turn of `start`'s loop for the samples `hr` and `spO2`. */
  function LoopTurn(tenantId: string, gatewayId: string, hr: HeartRateData, spO2: PulseOxData,
                    codec: JsonCodec, accepted: Publish -> bool): (t: Turn)
    ensures 1 <= |t.published| <= 2
    ensures t.published[0] == Publish(HeartRateSubject(tenantId, gatewayId), MarshalHeartRate(codec, hr))
    ensures |t.published| == 2 ==>
              t.published[1] == Publish(SpO2Subject(tenantId, gatewayId), MarshalPulseOx(codec, spO2))
    ensures |t.published| == 2 <==> accepted(t.published[0])
    ensures t.continues <==> forall i :: 0 <= i < |t.published| ==> accepted(t.published[i])
    ensures t.continues ==> |t.published| == 2
  {
    var hrMsg := Publish(HeartRateSubject(tenantId, gatewayId), MarshalHeartRate(codec, hr));
    var spO2Msg := Publish(SpO2Subject(tenantId, gatewayId), MarshalPulseOx(codec, spO2));
    if !accepted(hrMsg) then Turn([hrMsg], false)
    else if !accepted(spO2Msg) then Turn([hrMsg, spO2Msg], false)
    else Turn([hrMsg, spO2Msg], true)
  }

  /** A pair of samples for one turn. */
  datatype Sample = Sample(hr: HeartRateData, spO2: PulseOxData)

  /** The first `|samples|` turns of the loop, or fewer if a publish fails. */
  function Run(tenantId: string, gatewayId: string, samples: seq<Sample>,
               codec: JsonCodec, accepted: Publish -> bool): (out: seq<Publish>)
    ensures |out| <= 2 * |samples|
  {
    if samples == [] then []
    else
      var t := LoopTurn(tenantId, gatewayId, samples[0].hr, samples[0].spO2, codec, accepted);
      if t.continues then t.published + Run(tenantId, gatewayId, samples[1..], codec, accepted)
      else t.published
  }

  /** The subjects of `out` alternate heart_rate, blood_oxygen, heart_rate, ... */
  predicate Alternates(out: seq<Publish>, tenantId: string, gatewayId: string) {
    forall i :: 0 <= i < |out| ==>
      out[i].subject == if i % 2 == 0 then HeartRateSubject(tenantId, gatewayId) else SpO2Subject(tenantId, gatewayId)
  }

  /** Heart rate always goes first: over any number of turns, with failures
      or without, the published subjects alternate. */
  lemma {:induction false} RunAlternates(tenantId: string, gatewayId: string, samples: seq<Sample>,
                                         codec: JsonCodec, accepted: Publish -> bool)
    ensures Alternates(Run(tenantId, gatewayId, samples, codec, accepted), tenantId, gatewayId)
  {
    if samples != [] {
      var t := LoopTurn(tenantId, gatewayId, samples[0].hr, samples[0].spO2, codec, accepted);
      if t.continues {
        RunAlternates(tenantId, gatewayId, samples[1..], codec, accepted);
        var rest := Run(tenantId, gatewayId, samples[1..], codec, accepted);
        var out := t.published + rest;
        forall i | 2 <= i < |out|
          ensures out[i].subject == if i % 2 == 0 then HeartRateSubject(tenantId, gatewayId)
                                    else SpO2Subject(tenantId, gatewayId)
        {
          assert out[i] == rest[i - 2];
          assert (i - 2) % 2 == i % 2;
        }
      }
    }
  }

  /** `Run` from the `i`-th sample on is that sample's turn, followed by the
      rest when the turn goes on. */
  lemma RunAt(tenantId: string, gatewayId: string, samples: seq<Sample>, i: nat,
              codec: JsonCodec, accepted: Publish -> bool)
    requires i < |samples|
    ensures var t := LoopTurn(tenantId, gatewayId, samples[i].hr, samples[i].spO2, codec, accepted);
            Run(tenantId, gatewayId, samples[i..], codec, accepted)
            == if t.continues then t.published + Run(tenantId, gatewayId, samples[i + 1..], codec, accepted)
               else t.published
  {
    assert samples[i..][0] == samples[i] && samples[i..][1..] == samples[i + 1..];
  }

  /** One turn of `start`'s loop, appended to what was published before it:
      the three ways it can end, as `Run` sees them. */
  lemma TurnStep(tenantId: string, gatewayId: string, samples: seq<Sample>, i: nat,
                 codec: JsonCodec, accepted: Publish -> bool, before: seq<Publish>)
    requires i < |samples|
    ensures var hrMsg := Publish(HeartRateSubject(tenantId, gatewayId), MarshalHeartRate(codec, samples[i].hr));
            var spO2Msg := Publish(SpO2Subject(tenantId, gatewayId), MarshalPulseOx(codec, samples[i].spO2));
            var whole := before + Run(tenantId, gatewayId, samples[i..], codec, accepted);
            && (!accepted(hrMsg) ==> before + [hrMsg] == whole)
            && (accepted(hrMsg) && !accepted(spO2Msg) ==> before + [hrMsg] + [spO2Msg] == whole)
            && (accepted(hrMsg) && accepted(spO2Msg) ==>
                  before + [hrMsg] + [spO2Msg] + Run(tenantId, gatewayId, samples[i + 1..], codec, accepted) == whole)
  {
    RunAt(tenantId, gatewayId, samples, i, codec, accepted);
    var hrMsg := Publish(HeartRateSubject(tenantId, gatewayId), MarshalHeartRate(codec, samples[i].hr));
    var spO2Msg := Publish(SpO2Subject(tenantId, gatewayId), MarshalPulseOx(codec, samples[i].spO2));
    assert before + [hrMsg] + [spO2Msg] == before + [hrMsg, spO2Msg];
    AppendAssoc(before, [hrMsg, spO2Msg], Run(tenantId, gatewayId, samples[i + 1..], codec, accepted));
  }

  /** `start`'s loop run over the first `|samples|` turns: each turn
      publishes heart rate, then SpO2, and a failed publish stops everything. */
  method Start(tenantId: string, gatewayId: string, samples: seq<Sample>,
               codec: JsonCodec, accepted: Publish -> bool) returns (published: seq<Publish>)
    ensures published == Run(tenantId, gatewayId, samples, codec, accepted)
    ensures Alternates(published, tenantId, gatewayId)
  {
    published := [];
    var i := 0;
    var running := true;
    while i < |samples| && running
      invariant 0 <= i <= |samples|
      invariant running ==> published + Run(tenantId, gatewayId, samples[i..], codec, accepted)
                            == Run(tenantId, gatewayId, samples, codec, accepted)
      invariant !running ==> published == Run(tenantId, gatewayId, samples, codec, accepted)
      decreases |samples| - i, running
    {
      var hrMsg := Publish(HeartRateSubject(tenantId, gatewayId), MarshalHeartRate(codec, samples[i].hr));
      var spO2Msg := Publish(SpO2Subject(tenantId, gatewayId), MarshalPulseOx(codec, samples[i].spO2));
      TurnStep(tenantId, gatewayId, samples, i, codec, accepted, published);
      published := published + [hrMsg];
      if !accepted(hrMsg) {
        running := false;
      } else {
        published := published + [spO2Msg];
        if !accepted(spO2Msg) {
          running := false;
        } else {
          i := i + 1;
        }
      }
    }
    if running {
      assert samples[i..] == [];
      assert published == Run(tenantId, gatewayId, samples, codec, accepted);
    }
    RunAlternates(tenantId, gatewayId, samples, codec, accepted);
  }

  /** A loop that never fails publishes two messages per turn. */
  lemma {:induction false} RunLength(tenantId: string, gatewayId: string, samples: seq<Sample>, codec: JsonCodec)
    ensures |Run(tenantId, gatewayId, samples, codec, p => true)| == 2 * |samples|
  {
    if samples != [] {
      RunLength(tenantId, gatewayId, samples[1..], codec);
    }
  }

  // ---------------------------------------------------------------------
  // NATS subject matching

  /** NATS wildcard matching over tokens: `*` matches one token and `>`, as the
      last filter token, matches one or more remaining tokens. */
  predicate TokensMatch(filter: seq<string>, subject: seq<string>)
    decreases |filter|
  {
    if filter == [] then subject == []
    else if filter == [">"] then subject != []
    else subject != [] && (filter[0] == "*" || filter[0] == subject[0]) &&
         TokensMatch(filter[1..], subject[1..])
  }

  predicate SubjectMatches(filter: string, subject: string) {
    TokensMatch(Split(filter, '.'), Split(subject, '.'))
  }

  lemma {:induction false} LiteralPrefixMatches(prefix: seq<string>, rest: seq<string>)
    requires ">" !in prefix && "*" !in prefix
    requires rest != []
    ensures TokensMatch(prefix + [">"], prefix + rest)
  {
    if prefix != [] {
      assert (prefix + [">"])[1..] == prefix[1..] + [">"];
      assert (prefix + rest)[1..] == prefix[1..] + rest;
      LiteralPrefixMatches(prefix[1..], rest);
    }
  }

  /** The tokens of a gateway's subject: "sensors", the tenant's tokens, the
      gateway's tokens and the type. */
  lemma SubjectTokens(tenantId: string, gatewayId: string)
    ensures Split(HeartRateSubject(tenantId, gatewayId), '.')
         == ["sensors"] + Split(tenantId, '.') + Split(gatewayId, '.') + ["heart_rate"]
    ensures Split(SpO2Subject(tenantId, gatewayId), '.')
         == ["sensors"] + Split(tenantId, '.') + Split(gatewayId, '.') + ["blood_oxygen"]
  {
    assert HeartRateSubject(tenantId, gatewayId)
        == "sensors" + ['.'] + tenantId + ['.'] + gatewayId + ['.'] + "heart_rate";
    assert SpO2Subject(tenantId, gatewayId)
        == "sensors" + ['.'] + tenantId + ['.'] + gatewayId + ['.'] + "blood_oxygen";
    SplitFourParts("sensors", tenantId, gatewayId, "heart_rate", '.');
    SplitFourParts("sensors", tenantId, gatewayId, "blood_oxygen", '.');
  }

  /** The tokens of a stream's filter: "sensors", the tenant's tokens, ">". */
  lemma FilterTokens(tenantId: string)
    ensures Split(StreamSubject(tenantId), '.') == ["sensors"] + Split(tenantId, '.') + [">"]
  {
    assert StreamSubject(tenantId) == "sensors" + ['.'] + tenantId + ['.'] + ">";
    SplitThreeParts("sensors", tenantId, ">", '.');
    SplitWithoutSeparator(">", '.');
  }

  /** Every subject a gateway publishes on is captured by the stream it
      declares for its tenant, whatever the tenant and gateway strings hold
      (as long as the tenant contains no NATS wildcard token). */
  lemma StreamCapturesPublishedSubjects(tenantId: string, gatewayId: string)
    requires ">" !in Split(tenantId, '.') && "*" !in Split(tenantId, '.')
    ensures SubjectMatches(StreamSubject(tenantId), HeartRateSubject(tenantId, gatewayId))
    ensures SubjectMatches(StreamSubject(tenantId), SpO2Subject(tenantId, gatewayId))
  {
    var prefix := ["sensors"] + Split(tenantId, '.');
    FilterTokens(tenantId);
    SubjectTokens(tenantId, gatewayId);
    assert ["sensors"] + Split(tenantId, '.') + Split(gatewayId, '.') + ["heart_rate"]
        == prefix + (Split(gatewayId, '.') + ["heart_rate"]);
    assert ["sensors"] + Split(tenantId, '.') + Split(gatewayId, '.') + ["blood_oxygen"]
        == prefix + (Split(gatewayId, '.') + ["blood_oxygen"]);
    LiteralPrefixMatches(prefix, Split(gatewayId, '.') + ["heart_rate"]);
    LiteralPrefixMatches(prefix, Split(gatewayId, '.') + ["blood_oxygen"]);
  }
}
