/** The subscriber's database layer (db-access/writeToDatabase.go): the table
    whitelist, the per-tenant connection URL and the two INSERT statements.
    Postgres itself (`pgx.Connect`, `Exec`) is an abstract service that may
    refuse a connection or a statement; the model records the calls made on
    it, in order. */
module DbAccess {
  import opened Wrappers
  import opened SensorData

  const HeartRateTable: string := "heart_rate"
  const BloodOxygenTable: string := "blood_oxygen"

  /** `isSupportedTablename`: the whitelist that guards the table name spliced
      into the INSERT text. A supported name is a plain lower-case word. */
  predicate IsSupportedTablename(tablename: string)
    ensures IsSupportedTablename(tablename) ==>
              |tablename| > 0 && forall i :: 0 <= i < |tablename| ==> 'a' <= tablename[i] <= 'z' || tablename[i] == '_'
  {
    tablename == HeartRateTable || tablename == BloodOxygenTable
  }

  /** The database role of a tenant. */
  function TenantUsername(tenantId: string): (u: string)
    ensures |u| == |tenantId| + 5 && u[..|tenantId|] == tenantId && u[|tenantId|..] == "_user"
  {
    tenantId + "_user"
  }

  function ConnectionUrl(tenantId: string, dbURL: string): (url: string)
    ensures url == "postgres://" + tenantId + "_user:user@" + dbURL + "/sensors_db?sslmode=disable"
  {
    "postgres://" + TenantUsername(tenantId) + ":user@" + dbURL + "/sensors_db?sslmode=disable"
  }

  function HeartRateInsertQuery(tablename: string): (q: string)
    ensures |q| > 12 + |tablename| && q[..12] == "INSERT INTO " && q[12..12 + |tablename|] == tablename
    ensures q[12 + |tablename|..] == " (time, gateway_id, bpm) VALUES ($1, $2, $3)"
  {
    "INSERT INTO " + tablename + " (time, gateway_id, bpm) VALUES ($1, $2, $3)"
  }

  function SpO2InsertQuery(tablename: string): (q: string)
    ensures |q| > 12 + |tablename| && q[..12] == "INSERT INTO " && q[12..12 + |tablename|] == tablename
    ensures q[12 + |tablename|..] == " (time, gateway_id, spO2) VALUES ($1, $2, $3)"
  {
    "INSERT INTO " + tablename + " (time, gateway_id, spO2) VALUES ($1, $2, $3)"
  }

  /** A bind parameter of `conn.Exec`. */
  datatype Param = TimeParam(t: Time) | TextParam(s: string) | IntParam(i: int) | FloatParam(f: real)

  /** What the code asks of Postgres. */
  datatype DbCall = Connect(url: string) | Exec(query: string, args: seq<Param>) | Close

  /** Postgres as seen by this code: whether a connection to a URL succeeds and
      whether a statement with its arguments succeeds on it. */
  datatype Postgres = Postgres(connect: string -> bool, exec: (string, string, seq<Param>) -> bool)

  /** The three errors the insert functions return (their messages are
      "Tabella non supportata: ...", "impossibile connettersi al database: ..."
      and "Inserimento fallito: ..."). */
  datatype InsertError = UnsupportedTable(tablename: string) | ConnectFailed | ExecFailed

  /** The calls made and the returned error (`None` is Go's `nil`). */
  datatype InsertResult = InsertResult(calls: seq<DbCall>, err: Option<InsertError>)

  /** The shared tail of both insert functions: connect, run one statement,
      and close the connection on the way out (the `defer`). */
  function RunInsert(url: string, query: string, args: seq<Param>, pg: Postgres): (r: InsertResult)
    ensures r.err.None? <==> pg.connect(url) && pg.exec(url, query, args)
    ensures r.calls == if pg.connect(url) then [Connect(url), Exec(query, args), Close] else [Connect(url)]
  {
    if !pg.connect(url) then InsertResult([Connect(url)], Some(ConnectFailed))
    else if !pg.exec(url, query, args) then InsertResult([Connect(url), Exec(query, args), Close], Some(ExecFailed))
    else InsertResult([Connect(url), Exec(query, args), Close], None)
  }

  /** The bind parameters of the heart-rate statement: time, gateway, value. */
  function HeartRateArgs(gatewayId: string, hr: HeartRateData): seq<Param> {
    [TimeParam(hr.timestamp), TextParam(gatewayId), IntParam(hr.bpm)]
  }

  function SpO2Args(gatewayId: string, spO2: PulseOxData): seq<Param> {
    [TimeParam(spO2.timestamp), TextParam(gatewayId), FloatParam(spO2.spO2)]
  }

  /** `InsertHeartRateData`: an unsupported table fails before anything is
      asked of Postgres; otherwise the row goes in as the tenant's role. */
  function InsertHeartRateData(tenantId: string, tablename: string, gatewayId: string,
                               hr: HeartRateData, dbURL: string, pg: Postgres): (r: InsertResult)
    ensures !IsSupportedTablename(tablename) <==> r.calls == []
    ensures !IsSupportedTablename(tablename) ==> r.err == Some(UnsupportedTable(tablename))
    ensures r.err.None? <==>
              && IsSupportedTablename(tablename)
              && pg.connect(ConnectionUrl(tenantId, dbURL))
              && pg.exec(ConnectionUrl(tenantId, dbURL), HeartRateInsertQuery(tablename), HeartRateArgs(gatewayId, hr))
    ensures r.err.None? ==>
              r.calls == [Connect(ConnectionUrl(tenantId, dbURL)),
                          Exec(HeartRateInsertQuery(tablename), HeartRateArgs(gatewayId, hr)), Close]
  {
    if !IsSupportedTablename(tablename) then InsertResult([], Some(UnsupportedTable(tablename)))
    else RunInsert(ConnectionUrl(tenantId, dbURL), HeartRateInsertQuery(tablename), HeartRateArgs(gatewayId, hr), pg)
  }

  /** `InsertSpO2Data`: the same shape with the spO2 column. */
  function InsertSpO2Data(tenantId: string, tablename: string, gatewayId: string,
                          spO2: PulseOxData, dbURL: string, pg: Postgres): (r: InsertResult)
    ensures !IsSupportedTablename(tablename) <==> r.calls == []
    ensures !IsSupportedTablename(tablename) ==> r.err == Some(UnsupportedTable(tablename))
    ensures r.err.None? <==>
              && IsSupportedTablename(tablename)
              && pg.connect(ConnectionUrl(tenantId, dbURL))
              && pg.exec(ConnectionUrl(tenantId, dbURL), SpO2InsertQuery(tablename), SpO2Args(gatewayId, spO2))
    ensures r.err.None? ==>
              r.calls == [Connect(ConnectionUrl(tenantId, dbURL)),
                          Exec(SpO2InsertQuery(tablename), SpO2Args(gatewayId, spO2)), Close]
  {
    if !IsSupportedTablename(tablename) then InsertResult([], Some(UnsupportedTable(tablename)))
    else RunInsert(ConnectionUrl(tenantId, dbURL), SpO2InsertQuery(tablename), SpO2Args(gatewayId, spO2), pg)
  }

  /** The whitelist holds exactly the two sensor tables. */
  lemma SupportedTables(tablename: string)
    ensures IsSupportedTablename(tablename) <==> tablename in {"heart_rate", "blood_oxygen"}
  {
  }

  /** An unsupported table is refused the same way whatever Postgres would do:
      no connection is attempted. */
  lemma UnsupportedTableIgnoresDatabase(tenantId: string, tablename: string, gatewayId: string,
                                        hr: HeartRateData, spO2: PulseOxData, dbURL: string,
                                        pg1: Postgres, pg2: Postgres)
    requires !IsSupportedTablename(tablename)
    ensures InsertHeartRateData(tenantId, tablename, gatewayId, hr, dbURL, pg1)
         == InsertHeartRateData(tenantId, tablename, gatewayId, hr, dbURL, pg2)
    ensures InsertSpO2Data(tenantId, tablename, gatewayId, spO2, dbURL, pg1)
         == InsertSpO2Data(tenantId, tablename, gatewayId, spO2, dbURL, pg2)
  {
  }

  /** The whitelist does not tie a record type to its table: with a database
      that accepts everything, heart-rate data goes into "blood_oxygen" and
      SpO2 data into "heart_rate" without error. */
  lemma CrossTypeInsertAccepted(tenantId: string, gatewayId: string, hr: HeartRateData,
                                spO2: PulseOxData, dbURL: string)
    ensures var pg := Postgres(url => true, (url, q, args) => true);
            && InsertHeartRateData(tenantId, BloodOxygenTable, gatewayId, hr, dbURL, pg).err == None
            && InsertSpO2Data(tenantId, HeartRateTable, gatewayId, spO2, dbURL, pg).err == None
  {
  }
}
