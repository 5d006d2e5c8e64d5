/** The JetStream subscriber's message callback (src/subscriber/init.go,
    `start`): it splits the subject `sensors.<tenant>.<gateway>.<type>`, picks
    the record type from the fourth segment, decodes the body, inserts it for
    the tenant and answers the broker. The subscription uses manual acks, so
    every message gets at most one answer, `Ack` or `Nak`, or none at all. The
    callback's effects are returned as a value. */
module Subscriber {
  import opened Wrappers
  import opened Text
  import opened SensorData
  import opened DbAccess

  datatype Msg = Msg(subject: string, data: Bytes)

  /** The answer to the broker: `msg.Ack()`, `msg.Nak()`, or neither. */
  datatype Reply = NoReply | Acked | Nacked

  datatype Payload = HeartRatePayload(hr: HeartRateData) | PulseOxPayload(spO2: PulseOxData)

  /** A call of one of the insert functions, with its arguments in order. */
  datatype InsertCall = InsertCall(tenantId: string, tablename: string, gatewayId: string,
                                   payload: Payload, dbURL: string)

  /** What handling one message did: the answer, the insert it called (if any),
      the database calls that insert made, and whether it printed the
      "Ricevuto" line that ends a successful handling. */
  datatype Handling = Handling(reply: Reply, insert: Option<InsertCall>, db: seq<DbCall>, received: bool)

  const Dropped: Handling := Handling(NoReply, None, [], false)

  /** The callback body after the split. */
  function Dispatch(tenantId: string, gatewayId: string, tablename: string, data: Bytes,
                    dbURL: string, codec: JsonCodec, pg: Postgres): (h: Handling)
    ensures tablename != HeartRateTable && tablename != BloodOxygenTable ==> h == Dropped
    ensures tablename == HeartRateTable ==>
              && (h.reply == Nacked <==> UnmarshalHeartRate(codec, data).None?)
              && (h.insert.Some? <==> UnmarshalHeartRate(codec, data).Some?)
    ensures tablename == BloodOxygenTable ==>
              && (h.insert.Some? <==> UnmarshalPulseOx(codec, data).Some?)
              && (UnmarshalPulseOx(codec, data).None? ==> h == Dropped)
    ensures h.insert.Some? ==>
              h.insert.value.tenantId == tenantId && h.insert.value.gatewayId == gatewayId &&
              h.insert.value.tablename == tablename && h.insert.value.dbURL == dbURL
    ensures h.reply == Acked <==> h.received
    ensures h.reply == Acked ==> h.insert.Some?
  {
    if tablename == HeartRateTable then
      match UnmarshalHeartRate(codec, data)
      case None => Handling(Nacked, None, [], false)
      case Some(hr) =>
        var call := InsertCall(tenantId, tablename, gatewayId, HeartRatePayload(hr), dbURL);
        var res := InsertHeartRateData(tenantId, tablename, gatewayId, hr, dbURL, pg);
        if res.err.Some? then Handling(NoReply, Some(call), res.calls, false)
        else Handling(Acked, Some(call), res.calls, true)
    else if tablename == BloodOxygenTable then
      match UnmarshalPulseOx(codec, data)
      case None => Dropped
      case Some(spO2) =>
        var call := InsertCall(tenantId, tablename, gatewayId, PulseOxPayload(spO2), dbURL);
        var res := InsertSpO2Data(tenantId, tablename, gatewayId, spO2, dbURL, pg);
        if res.err.Some? then Handling(Nacked, Some(call), res.calls, false)
        else Handling(Acked, Some(call), res.calls, true)
    else
      Dropped
  }

  /** The `QueueSubscribe` callback. */
  function Handle(msg: Msg, dbURL: string, codec: JsonCodec, pg: Postgres): (h: Handling)
    ensures |Split(msg.subject, '.')| < 4 ==> h == Dropped
    ensures h.insert.Some? ==>
              var parts := Split(msg.subject, '.');
              |parts| >= 4 && h.insert.value.tenantId == parts[1] &&
              h.insert.value.gatewayId == parts[2] && h.insert.value.tablename == parts[3]
  {
    var parts := Split(msg.subject, '.');
    if |parts| < 4 then Dropped
    else Dispatch(parts[1], parts[2], parts[3], msg.data, dbURL, codec, pg)
  }

  /** Only segments 1 to 3 matter: the first segment is never looked at and
      segments after the fourth are ignored. */
  lemma OnlyMiddleSegmentsMatter(s1: string, s2: string, data: Bytes, dbURL: string,
                                 codec: JsonCodec, pg: Postgres)
    requires |Split(s1, '.')| >= 4 && |Split(s2, '.')| >= 4
    requires Split(s1, '.')[1..4] == Split(s2, '.')[1..4]
    ensures Handle(Msg(s1, data), dbURL, codec, pg) == Handle(Msg(s2, data), dbURL, codec, pg)
  {
    var p1, p2 := Split(s1, '.'), Split(s2, '.');
    assert p1[1] == p1[1..4][0] && p1[2] == p1[1..4][1] && p1[3] == p1[1..4][2];
    assert p2[1] == p2[1..4][0] && p2[2] == p2[1..4][1] && p2[3] == p2[1..4][2];
  }

  /** The answers for heart-rate messages: a body that does not decode is
      nacked; a failed insert gets no answer (the broker redelivers after its
      ack timeout); a stored row is acked. */
  lemma HeartRateReplies(tenantId: string, gatewayId: string, data: Bytes, dbURL: string,
                         codec: JsonCodec, pg: Postgres)
    ensures var h := Dispatch(tenantId, gatewayId, HeartRateTable, data, dbURL, codec, pg);
            match UnmarshalHeartRate(codec, data)
            case None => h == Handling(Nacked, None, [], false)
            case Some(hr) =>
              var res := InsertHeartRateData(tenantId, HeartRateTable, gatewayId, hr, dbURL, pg);
              && h.insert == Some(InsertCall(tenantId, HeartRateTable, gatewayId, HeartRatePayload(hr), dbURL))
              && h.db == res.calls
              && h.reply == (if res.err.None? then Acked else NoReply)
  {
  }

  /** The answers for SpO2 messages, the other way round: a body that does not
      decode gets no answer; a failed insert is nacked; a stored row is acked. */
  lemma BloodOxygenReplies(tenantId: string, gatewayId: string, data: Bytes, dbURL: string,
                           codec: JsonCodec, pg: Postgres)
    ensures var h := Dispatch(tenantId, gatewayId, BloodOxygenTable, data, dbURL, codec, pg);
            match UnmarshalPulseOx(codec, data)
            case None => h == Dropped
            case Some(spO2) =>
              var res := InsertSpO2Data(tenantId, BloodOxygenTable, gatewayId, spO2, dbURL, pg);
              && h.insert == Some(InsertCall(tenantId, BloodOxygenTable, gatewayId, PulseOxPayload(spO2), dbURL))
              && h.db == res.calls
              && h.reply == (if res.err.None? then Acked else Nacked)
  {
  }

  /** An ack is given only for a row Postgres accepted: the handler connected
      as the tenant's role and ran the insert for the subject's table. */
  lemma AckMeansStored(msg: Msg, dbURL: string, codec: JsonCodec, pg: Postgres)
    ensures var h := Handle(msg, dbURL, codec, pg);
            h.reply == Acked ==>
              var parts := Split(msg.subject, '.');
              && |parts| >= 4
              && |h.db| == 3
              && h.db[0] == Connect(ConnectionUrl(parts[1], dbURL))
              && h.db[1].Exec?
              && pg.connect(ConnectionUrl(parts[1], dbURL))
              && pg.exec(ConnectionUrl(parts[1], dbURL), h.db[1].query, h.db[1].args)
  {
  }
}
