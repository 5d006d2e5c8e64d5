/** The earlier subscriber (subscriber/init.go): a core NATS queue
    subscription with the same split and switch, but without acknowledgements
    (core NATS has none) and with insert functions that take no database URL.
    That version of the database layer is not part of this model, so its
    insert is an abstract operation that may fail. */
module LegacySubscriber {
  import opened Wrappers
  import opened Text
  import opened SensorData
  import Subscriber
  import DbAccess

  /** A call of the earlier `InsertHeartRateData`/`InsertSpO2Data`. */
  datatype LegacyInsertCall = LegacyInsertCall(tenantId: string, tablename: string, gatewayId: string,
                                               payload: Subscriber.Payload)

  /** What handling one message did: the insert it called, if any, and whether
      it reached the final "Ricevuto" print. There is no answer to the broker. */
  datatype Handling = Handling(insert: Option<LegacyInsertCall>, received: bool)

  function Dispatch(tenantId: string, gatewayId: string, tablename: string, data: Bytes,
                    codec: JsonCodec, insertOk: LegacyInsertCall -> bool): (h: Handling)
    ensures tablename != "heart_rate" && tablename != "blood_oxygen" ==> h == Handling(None, false)
    ensures tablename == "heart_rate" ==> (h.insert.Some? <==> UnmarshalHeartRate(codec, data).Some?)
    ensures tablename == "blood_oxygen" ==> (h.insert.Some? <==> UnmarshalPulseOx(codec, data).Some?)
    ensures h.received <==> h.insert.Some? && insertOk(h.insert.value)
    ensures h.insert.Some? ==>
              h.insert.value == LegacyInsertCall(tenantId, tablename, gatewayId, h.insert.value.payload)
    ensures tablename == "heart_rate" && h.insert.Some? ==>
              h.insert.value.payload == Subscriber.HeartRatePayload(UnmarshalHeartRate(codec, data).value)
    ensures tablename == "blood_oxygen" && h.insert.Some? ==>
              h.insert.value.payload == Subscriber.PulseOxPayload(UnmarshalPulseOx(codec, data).value)
  {
    if tablename == "heart_rate" then
      match UnmarshalHeartRate(codec, data)
      case None => Handling(None, false)
      case Some(hr) =>
        var call := LegacyInsertCall(tenantId, tablename, gatewayId, Subscriber.HeartRatePayload(hr));
        Handling(Some(call), insertOk(call))
    else if tablename == "blood_oxygen" then
      match UnmarshalPulseOx(codec, data)
      case None => Handling(None, false)
      case Some(spO2) =>
        var call := LegacyInsertCall(tenantId, tablename, gatewayId, Subscriber.PulseOxPayload(spO2));
        Handling(Some(call), insertOk(call))
    else
      Handling(None, false)
  }

  /** The `QueueSubscribe` callback: fewer than four segments drop the message. */
  function Handle(msg: Subscriber.Msg, codec: JsonCodec, insertOk: LegacyInsertCall -> bool): (h: Handling)
    ensures |Split(msg.subject, '.')| < 4 ==> h == Handling(None, false)
    ensures h.insert.Some? ==>
              var parts := Split(msg.subject, '.');
              |parts| >= 4 && h.insert.value.tenantId == parts[1] &&
              h.insert.value.gatewayId == parts[2] && h.insert.value.tablename == parts[3]
  {
    var parts := Split(msg.subject, '.');
    if |parts| < 4 then Handling(None, false)
    else Dispatch(parts[1], parts[2], parts[3], msg.data, codec, insertOk)
  }

  /** Both versions make the same insert decision for a message: same tenant,
      gateway, table and decoded record; only the database URL is new. */
  lemma SameInsertsAsCurrent(msg: Subscriber.Msg, dbURL: string, codec: JsonCodec,
                             pg: DbAccess.Postgres, insertOk: LegacyInsertCall -> bool)
    ensures var old_ := Handle(msg, codec, insertOk);
            var new_ := Subscriber.Handle(msg, dbURL, codec, pg);
            && (old_.insert.Some? <==> new_.insert.Some?)
            && (old_.insert.Some? ==>
                  var c := new_.insert.value;
                  old_.insert.value == LegacyInsertCall(c.tenantId, c.tablename, c.gatewayId, c.payload))
  {
  }
}
