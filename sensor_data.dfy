/** The simulated sensor samples the gateways publish (sensorData/data.go):
    the two record types, their JSON field names, the heart-rate simulator over
    an injected random draw, and the JSON codec both sides use, taken as an
    abstract pair of encoders and decoders that may fail. */
module SensorData {
  import opened Wrappers
  import Text

  newtype byte = x: int | 0 <= x < 256

  /** A message body as it travels over NATS. */
  type Bytes = seq<byte>

  /** A `time.Time`, as nanoseconds since the Unix epoch. */
  type Time = int

  /** Go's `int` on a 64-bit platform. */
  type Int64 = x: int | Text.MinInt64 <= x <= Text.MaxInt64

  /** `HearthRateData`: beats per minute and the sampling time. */
  datatype HeartRateData = HeartRateData(bpm: Int64, timestamp: Time)

  /** `PulseOxData`: oxygen saturation (a float64, here a real) and the time. */
  datatype PulseOxData = PulseOxData(spO2: real, timestamp: Time)

  const MaxHR: int := 140
  const MinHR: int := 55

  /** `SimulateHeartRate`, with the result of `rand.Intn(maxHR - minHR)` as
      `draw` and `time.Now()` as `now`. `rand.Intn(n)` returns a value in
      [0, n), which is what the requires says. */
  function SimulateHeartRate(draw: int, now: Time): (d: HeartRateData)
    requires 0 <= draw < MaxHR - MinHR
    ensures MinHR <= d.bpm < MaxHR
    ensures d.timestamp == now
  {
    HeartRateData(draw + MinHR, now)
  }

  /** The simulator's range is exactly 55..139: every value in it comes from
      exactly one draw, and nothing outside it comes from any draw. */
  lemma SimulatedHeartRateRange(bpm: int, now: Time)
    ensures (MinHR <= bpm <= 139) <==>
            exists draw :: 0 <= draw < MaxHR - MinHR && SimulateHeartRate(draw, now).bpm == bpm
    ensures forall d1, d2 ::
              (&& 0 <= d1 < MaxHR - MinHR && 0 <= d2 < MaxHR - MinHR
               && SimulateHeartRate(d1, now).bpm == bpm && SimulateHeartRate(d2, now).bpm == bpm) ==> d1 == d2
  {
    if MinHR <= bpm <= 139 {
      assert SimulateHeartRate(bpm - MinHR, now).bpm == bpm;
    }
  }

  // ---------------------------------------------------------------------
  // JSON

  /** A member value: a JSON number, or a `time.Time` in its RFC 3339 string
      form. */
  datatype JsonValue = JsonNumber(n: real) | JsonTime(t: Time)

  /** A JSON object as its members in order. */
  type JsonObject = seq<(string, JsonValue)>

  function Keys(o: JsonObject): (ks: seq<string>)
    ensures |ks| == |o| && forall i :: 0 <= i < |o| ==> ks[i] == o[i].0
  {
    if o == [] then [] else [o[0].0] + Keys(o[1..])
  }

  /** The object `json.Marshal` builds for `HearthRateData`: the struct tags
      name the members "bpm" and "timestamp", in field order. */
  function HeartRateJson(d: HeartRateData): (o: JsonObject)
    ensures Keys(o) == ["bpm", "timestamp"]
  {
    [("bpm", JsonNumber(d.bpm as real)), ("timestamp", JsonTime(d.timestamp))]
  }

  /** The object for `PulseOxData`: members "spO2" and "timestamp". */
  function PulseOxJson(d: PulseOxData): (o: JsonObject)
    ensures Keys(o) == ["spO2", "timestamp"]
  {
    [("spO2", JsonNumber(d.spO2)), ("timestamp", JsonTime(d.timestamp))]
  }

  /** JSON text for objects: `encode` writes one, `decode` reads one and
      fails on text that is not a JSON object. Both are opaque. */
  datatype JsonCodec = JsonCodec(encode: JsonObject -> Bytes, decode: Bytes -> Option<JsonObject>)

  /** Reading back the text written for `o` gives `o` again. */
  ghost predicate ReadsBack(c: JsonCodec, o: JsonObject) {
    c.decode(c.encode(o)) == Some(o)
  }

  /** `ReadsBack` asks nothing impossible: some codec reads back any one
      object. */
  lemma ReadsBackSatisfiable(o: JsonObject)
    ensures exists c: JsonCodec :: ReadsBack(c, o)
  {
    var c := JsonCodec((x: JsonObject) => [], (b: Bytes) => Some(o));
    assert ReadsBack(c, o);
  }

  /** `json.Marshal` of the two record types. */
  function MarshalHeartRate(c: JsonCodec, d: HeartRateData): Bytes {
    c.encode(HeartRateJson(d))
  }

  function MarshalPulseOx(c: JsonCodec, d: PulseOxData): Bytes {
    c.encode(PulseOxJson(d))
  }

  /** The value `json.Unmarshal` gives a field: members are assigned in
      order, so the last member with the field's name wins. */
  function Member(o: JsonObject, key: string): (r: Option<JsonValue>)
    ensures r.None? <==> forall i :: 0 <= i < |o| ==> o[i].0 != key
    ensures r.Some? ==> exists i :: 0 <= i < |o| && o[i].0 == key && o[i].1 == r.value &&
                                    forall j :: i < j < |o| ==> o[j].0 != key
  {
    if o == [] then None
    else
      var last := o[|o| - 1];
      if last.0 == key then Some(last.1)
      else
        var init := o[..|o| - 1];
        assert forall i :: 0 <= i < |init| ==> init[i] == o[i];
        Member(init, key)
  }

  /** `time.Time{}`, the zero time (January 1 of year 1, UTC). */
  const ZeroTime: Time := -62_135_596_800 * 1_000_000_000

  /** An `int` field: absent stays 0, a number must be integral and fit in
      64 bits, anything else is a type error. */
  function IntField(v: Option<JsonValue>): (r: Option<Int64>)
    ensures v.None? ==> r == Some(0)
    ensures v.Some? ==>
              (r.Some? <==> && v.value.JsonNumber? && v.value.n.Floor as real == v.value.n
                            && Text.MinInt64 <= v.value.n.Floor <= Text.MaxInt64)
    ensures r.Some? && v.Some? ==> r.value as real == v.value.n
  {
    match v
    case None => Some(0)
    case Some(JsonNumber(n)) =>
      if n.Floor as real == n && Text.MinInt64 <= n.Floor <= Text.MaxInt64 then Some(n.Floor) else None
    case Some(JsonTime(_)) => None
  }

  /** A `float64` field: absent stays 0, any number is taken. */
  function FloatField(v: Option<JsonValue>): (r: Option<real>)
    ensures v.None? ==> r == Some(0.0)
    ensures v.Some? ==> (r.Some? <==> v.value.JsonNumber?) && (r.Some? ==> r.value == v.value.n)
  {
    match v
    case None => Some(0.0)
    case Some(JsonNumber(n)) => Some(n)
    case Some(JsonTime(_)) => None
  }

  /** A `time.Time` field: absent stays the zero time, only a time string is
      taken. */
  function TimeField(v: Option<JsonValue>): (r: Option<Time>)
    ensures v.None? ==> r == Some(ZeroTime)
    ensures v.Some? ==> (r.Some? <==> v.value.JsonTime?) && (r.Some? ==> r.value == v.value.t)
  {
    match v
    case None => Some(ZeroTime)
    case Some(JsonNumber(_)) => None
    case Some(JsonTime(t)) => Some(t)
  }

  /** The Go type of a struct field. */
  datatype FieldType = IntType | FloatType | TimeType

  predicate Fits(v: JsonValue, t: FieldType) {
    match t
    case IntType => IntField(Some(v)).Some?
    case FloatType => FloatField(Some(v)).Some?
    case TimeType => TimeField(Some(v)).Some?
  }

  /** `json.Unmarshal` assigns every member named after a field in turn and
      fails if any one of them has the wrong type, even when a later one
      fits. */
  predicate AllFit(o: JsonObject, key: string, t: FieldType) {
    forall i :: 0 <= i < |o| && o[i].0 == key ==> Fits(o[i].1, t)
  }

  /** The member that is kept is one of those checked. */
  lemma AllFitMember(o: JsonObject, key: string, t: FieldType)
    requires AllFit(o, key, t)
    ensures Member(o, key).Some? ==> Fits(Member(o, key).value, t)
  {
    if Member(o, key).Some? {
      var i :| 0 <= i < |o| && o[i].0 == key && o[i].1 == Member(o, key).value &&
               forall j :: i < j < |o| ==> o[j].0 != key;
      assert Fits(o[i].1, t);
    }
  }

  /** `json.Unmarshal(data, &hrData)`: the object's "bpm" and "timestamp"
      members fill the fields; other members are ignored. */
  function UnmarshalHeartRate(c: JsonCodec, data: Bytes): (r: Option<HeartRateData>)
    ensures r.Some? <==>
              && c.decode(data).Some?
              && AllFit(c.decode(data).value, "bpm", IntType)
              && AllFit(c.decode(data).value, "timestamp", TimeType)
    ensures r.Some? ==>
              && IntField(Member(c.decode(data).value, "bpm")).Some?
              && TimeField(Member(c.decode(data).value, "timestamp")).Some?
              && r.value == HeartRateData(IntField(Member(c.decode(data).value, "bpm")).value,
                                          TimeField(Member(c.decode(data).value, "timestamp")).value)
  {
    match c.decode(data)
    case None => None
    case Some(o) =>
      if !AllFit(o, "bpm", IntType) || !AllFit(o, "timestamp", TimeType) then None
      else
        AllFitMember(o, "bpm", IntType);
        AllFitMember(o, "timestamp", TimeType);
        Some(HeartRateData(IntField(Member(o, "bpm")).value, TimeField(Member(o, "timestamp")).value))
  }

  /** `json.Unmarshal(data, &spO2Data)`: the "spO2" and "timestamp" members. */
  function UnmarshalPulseOx(c: JsonCodec, data: Bytes): (r: Option<PulseOxData>)
    ensures r.Some? <==>
              && c.decode(data).Some?
              && AllFit(c.decode(data).value, "spO2", FloatType)
              && AllFit(c.decode(data).value, "timestamp", TimeType)
    ensures r.Some? ==>
              && FloatField(Member(c.decode(data).value, "spO2")).Some?
              && TimeField(Member(c.decode(data).value, "timestamp")).Some?
              && r.value == PulseOxData(FloatField(Member(c.decode(data).value, "spO2")).value,
                                        TimeField(Member(c.decode(data).value, "timestamp")).value)
  {
    match c.decode(data)
    case None => None
    case Some(o) =>
      if !AllFit(o, "spO2", FloatType) || !AllFit(o, "timestamp", TimeType) then None
      else
        AllFitMember(o, "spO2", FloatType);
        AllFitMember(o, "timestamp", TimeType);
        Some(PulseOxData(FloatField(Member(o, "spO2")).value, TimeField(Member(o, "timestamp")).value))
  }

  /** A duplicate member of the wrong type is an error even when the last one
      fits: `{"bpm": <a time>, "bpm": 72, "timestamp": ...}` is refused. */
  lemma IllTypedDuplicateRefused(c: JsonCodec, data: Bytes, t: Time)
    requires c.decode(data) == Some([("bpm", JsonTime(t)), ("bpm", JsonNumber(72.0)), ("timestamp", JsonTime(t))])
    ensures UnmarshalHeartRate(c, data) == None
  {
    var o := c.decode(data).value;
    assert o[0].0 == "bpm" && !Fits(o[0].1, IntType);
  }

  /** The struct tags agree on both sides: a marshalled heart-rate sample
      unmarshals to itself. */
  lemma HeartRateRoundTrip(c: JsonCodec, d: HeartRateData)
    requires ReadsBack(c, HeartRateJson(d))
    ensures UnmarshalHeartRate(c, MarshalHeartRate(c, d)) == Some(d)
  {
    var o := HeartRateJson(d);
    assert c.decode(c.encode(o)) == Some(o);
    assert AllFit(o, "bpm", IntType) && AllFit(o, "timestamp", TimeType);
    assert Member(o, "bpm") == Some(JsonNumber(d.bpm as real)) by {
      assert o[..1] == [("bpm", JsonNumber(d.bpm as real))];
    }
  }

  lemma PulseOxRoundTrip(c: JsonCodec, d: PulseOxData)
    requires ReadsBack(c, PulseOxJson(d))
    ensures UnmarshalPulseOx(c, MarshalPulseOx(c, d)) == Some(d)
  {
    var o := PulseOxJson(d);
    assert c.decode(c.encode(o)) == Some(o);
    assert AllFit(o, "spO2", FloatType) && AllFit(o, "timestamp", TimeType);
    assert Member(o, "spO2") == Some(JsonNumber(d.spO2)) by {
      assert o[..1] == [("spO2", JsonNumber(d.spO2))];
    }
  }

  /** Nothing in a body says which record it holds: an SpO2 message read as
      heart rate has no "bpm" member, so it decodes, with 0 beats per minute
      and the sample's time. */
  lemma PulseOxReadsAsHeartRate(c: JsonCodec, d: PulseOxData)
    requires ReadsBack(c, PulseOxJson(d))
    ensures UnmarshalHeartRate(c, MarshalPulseOx(c, d)) == Some(HeartRateData(0, d.timestamp))
  {
    var o := PulseOxJson(d);
    assert c.decode(c.encode(o)) == Some(o);
    assert Member(o, "bpm").None?;
  }
}
