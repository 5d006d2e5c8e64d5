/** The publisher and the subscribers together: a subject a gateway builds is
    split back into its parts by either subscriber, and a sample published by
    a gateway ends up as the matching insert for its tenant. */
module Pipeline {
  import opened Wrappers
  import opened Text
  import opened SensorData
  import opened DbAccess
  import opened Gateway
  import Subscriber
  import LegacySubscriber

  /** With a dot-free tenant and gateway, the subscriber's split yields the
      four segments "sensors", tenant, gateway and type. */
  lemma SubjectRoundTrip(tenantId: string, gatewayId: string)
    requires '.' !in tenantId && '.' !in gatewayId
    ensures Split(HeartRateSubject(tenantId, gatewayId), '.') == ["sensors", tenantId, gatewayId, "heart_rate"]
    ensures Split(SpO2Subject(tenantId, gatewayId), '.') == ["sensors", tenantId, gatewayId, "blood_oxygen"]
  {
    SubjectTokens(tenantId, gatewayId);
    SplitWithoutSeparator(tenantId, '.');
    SplitWithoutSeparator(gatewayId, '.');
  }

  /** A database that takes the tenant's connection and the given statement. */
  predicate Accepts(pg: Postgres, tenantId: string, dbURL: string, query: string, args: seq<Param>) {
    pg.connect(ConnectionUrl(tenantId, dbURL)) && pg.exec(ConnectionUrl(tenantId, dbURL), query, args)
  }

  /** A heart-rate sample published by a gateway is decoded by the subscriber,
      inserted into the tenant's heart_rate table and acked. */
  lemma PublishedHeartRateIsStored(tenantId: string, gatewayId: string, hr: HeartRateData,
                                   dbURL: string, codec: JsonCodec, pg: Postgres)
    requires '.' !in tenantId && '.' !in gatewayId
    requires ReadsBack(codec, HeartRateJson(hr))
    requires Accepts(pg, tenantId, dbURL, HeartRateInsertQuery(HeartRateTable), HeartRateArgs(gatewayId, hr))
    ensures Subscriber.Handle(Subscriber.Msg(HeartRateSubject(tenantId, gatewayId), MarshalHeartRate(codec, hr)),
                              dbURL, codec, pg)
         == Subscriber.Handling(
              Subscriber.Acked,
              Some(Subscriber.InsertCall(tenantId, HeartRateTable, gatewayId, Subscriber.HeartRatePayload(hr), dbURL)),
              [Connect(ConnectionUrl(tenantId, dbURL)),
               Exec(HeartRateInsertQuery(HeartRateTable), HeartRateArgs(gatewayId, hr)), Close],
              true)
  {
    SubjectRoundTrip(tenantId, gatewayId);
    HeartRateRoundTrip(codec, hr);
  }

  /** An SpO2 sample published by a gateway is stored in the tenant's
      blood_oxygen table and acked. */
  lemma PublishedSpO2IsStored(tenantId: string, gatewayId: string, spO2: PulseOxData,
                              dbURL: string, codec: JsonCodec, pg: Postgres)
    requires '.' !in tenantId && '.' !in gatewayId
    requires ReadsBack(codec, PulseOxJson(spO2))
    requires Accepts(pg, tenantId, dbURL, SpO2InsertQuery(BloodOxygenTable), SpO2Args(gatewayId, spO2))
    ensures Subscriber.Handle(Subscriber.Msg(SpO2Subject(tenantId, gatewayId), MarshalPulseOx(codec, spO2)),
                              dbURL, codec, pg)
         == Subscriber.Handling(
              Subscriber.Acked,
              Some(Subscriber.InsertCall(tenantId, BloodOxygenTable, gatewayId, Subscriber.PulseOxPayload(spO2), dbURL)),
              [Connect(ConnectionUrl(tenantId, dbURL)),
               Exec(SpO2InsertQuery(BloodOxygenTable), SpO2Args(gatewayId, spO2)), Close],
              true)
  {
    SubjectRoundTrip(tenantId, gatewayId);
    PulseOxRoundTrip(codec, spO2);
  }

  /** Every message of a loop turn that the broker took is acked by the
      subscriber when the codec round-trips and Postgres takes every row. */
  lemma TurnIsAcked(tenantId: string, gatewayId: string, hr: HeartRateData, spO2: PulseOxData,
                    accepted: Publish -> bool, dbURL: string, codec: JsonCodec, pg: Postgres)
    requires '.' !in tenantId && '.' !in gatewayId
    requires ReadsBack(codec, HeartRateJson(hr)) && ReadsBack(codec, PulseOxJson(spO2))
    requires forall url :: pg.connect(url)
    requires forall url, q, args :: pg.exec(url, q, args)
    ensures var t := LoopTurn(tenantId, gatewayId, hr, spO2, codec, accepted);
            forall i :: 0 <= i < |t.published| && accepted(t.published[i]) ==>
              Subscriber.Handle(Subscriber.Msg(t.published[i].subject, t.published[i].data), dbURL, codec, pg).reply
              == Subscriber.Acked
  {
    PublishedHeartRateIsStored(tenantId, gatewayId, hr, dbURL, codec, pg);
    PublishedSpO2IsStored(tenantId, gatewayId, spO2, dbURL, codec, pg);
  }

  /** The same round trip through the earlier gateway and subscriber: the
      subscriber calls the earlier insert with the publisher's tenant,
      gateway, table and sample. */
  lemma LegacyRoundTrip(tenantId: string, gatewayId: string, hr: HeartRateData, spO2: PulseOxData,
                        codec: JsonCodec, insertOk: LegacySubscriber.LegacyInsertCall -> bool)
    requires '.' !in tenantId && '.' !in gatewayId
    requires ReadsBack(codec, HeartRateJson(hr)) && ReadsBack(codec, PulseOxJson(spO2))
    ensures var call := LegacySubscriber.LegacyInsertCall(tenantId, HeartRateTable, gatewayId,
                                                          Subscriber.HeartRatePayload(hr));
            LegacySubscriber.Handle(Subscriber.Msg(HeartRateSubject(tenantId, gatewayId), MarshalHeartRate(codec, hr)),
                                    codec, insertOk)
            == LegacySubscriber.Handling(Some(call), insertOk(call))
    ensures var call := LegacySubscriber.LegacyInsertCall(tenantId, BloodOxygenTable, gatewayId,
                                                          Subscriber.PulseOxPayload(spO2));
            LegacySubscriber.Handle(Subscriber.Msg(SpO2Subject(tenantId, gatewayId), MarshalPulseOx(codec, spO2)),
                                    codec, insertOk)
            == LegacySubscriber.Handling(Some(call), insertOk(call))
  {
    SubjectRoundTrip(tenantId, gatewayId);
    HeartRateRoundTrip(codec, hr);
    PulseOxRoundTrip(codec, spO2);
  }

  /** The round trip needs dot-free names: a tenant "a.b" publishing from
      gateway "g" is read as tenant "a", gateway "b" and table "g", and
      unless "g" happens to be a table name the message is dropped without
      an answer. */
  lemma DottedTenantIsMisrouted(a: string, b: string, g: string, data: Bytes, dbURL: string,
                                codec: JsonCodec, pg: Postgres)
    requires '.' !in a && '.' !in b && '.' !in g
    requires g != HeartRateTable && g != BloodOxygenTable
    ensures Split(HeartRateSubject(a + "." + b, g), '.') == ["sensors", a, b, g, "heart_rate"]
    ensures Subscriber.Handle(Subscriber.Msg(HeartRateSubject(a + "." + b, g), data), dbURL, codec, pg)
         == Subscriber.Dropped
  {
    SubjectTokens(a + "." + b, g);
    SplitConcat(a, b, '.');
    SplitWithoutSeparator(a, '.');
    SplitWithoutSeparator(b, '.');
    SplitWithoutSeparator(g, '.');
  }
}
