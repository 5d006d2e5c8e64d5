/** The history endpoint of the dashboard backend
    (controllers/historyController.go, `HistoryGet`): it checks the query
    parameters in a fixed order, clamps the row limit, builds the SELECT for
    the tenant's schema and answers with the rows. The database is an
    abstract service that, for a query string, fails or returns rows. */
module HistoryController {
  import opened Wrappers
  import opened Text

  /** The URL query parameters (the first value of each key). */
  type Params = map<string, string>

  /** gin's `c.Query`: an absent key reads as "". */
  function Query(params: Params, key: string): (v: string)
    ensures key !in params ==> v == ""
    ensures key in params ==> v == params[key]
  {
    if key in params then params[key] else ""
  }

  /** gin's `c.DefaultQuery`: the default only when the key is absent; a key
      present with an empty value gives "". */
  function DefaultQuery(params: Params, key: string, default: string): (v: string)
    ensures key !in params ==> v == default
    ensures key in params ==> v == params[key]
  {
    if key in params then params[key] else default
  }

  /** A character of the class `[a-zA-Z0-9_]`. */
  predicate IsIdentChar(ch: char) {
    ('a' <= ch <= 'z') || ('A' <= ch <= 'Z') || ('0' <= ch <= '9') || ch == '_'
  }

  /** The pattern `^[a-zA-Z0-9_]+$`. A match holds none of the characters that
      could end the schema-qualified name in the SELECT text: a space, a dot,
      a semicolon, a quote or the `-` that starts an SQL comment. */
  predicate IsIdent(s: string)
    ensures IsIdent(s) ==> |s| > 0 && forall i :: 0 <= i < |s| ==> s[i] !in " .;'\"-"
  {
    |s| > 0 && forall i :: 0 <= i < |s| ==> IsIdentChar(s[i])
  }

  /** `models.Metric`, the row shape of the metrics table (id, tenant, metric
      name, timestamp in nanoseconds, value). */
  datatype Metric = Metric(id: nat, tenantId: nat, metric: string, timestamp: int, value: real)

  // ---------------------------------------------------------------------
  // Parameter checks

  /** The checked request. */
  datatype Request = Request(tenantId: nat, metric: string, limit: nat)

  datatype Checked = Rejected(error: string) | Accepted(request: Request)

  const DefaultLimit: nat := 1000
  const MaxLimit: nat := 10000

  /** The limit after the default and the clamp: anything `Atoi` refuses, and
      anything not positive, becomes 1000; anything above 10000 becomes 10000. */
  function EffectiveLimit(limitQ: string): (limit: nat)
    ensures 1 <= limit <= MaxLimit
    ensures (Atoi(limitQ).None? || Atoi(limitQ).value <= 0) ==> limit == DefaultLimit
    ensures Atoi(limitQ).Some? && Atoi(limitQ).value > MaxLimit ==> limit == MaxLimit
    ensures Atoi(limitQ).Some? && 1 <= Atoi(limitQ).value <= MaxLimit ==> limit == Atoi(limitQ).value
  {
    var parsed := Atoi(limitQ);
    var limit := if parsed.None? || parsed.value <= 0 then DefaultLimit else parsed.value;
    if limit > MaxLimit then MaxLimit else limit
  }

  /** The three checks, in order; the first that fails alone decides the
      error. */
  function CheckParams(params: Params): (c: Checked)
    ensures (Query(params, "tenant_id") == "" || Query(params, "metric") == "") ==>
              c == Rejected("tenant_id and metric are required")
    ensures c.Accepted? <==>
              && Query(params, "tenant_id") != "" && Query(params, "metric") != ""
              && Atoi(Query(params, "tenant_id")).Some? && Atoi(Query(params, "tenant_id")).value > 0
              && IsIdent(Query(params, "metric"))
    ensures c.Accepted? ==>
              && c.request.tenantId == Atoi(Query(params, "tenant_id")).value
              && c.request.metric == Query(params, "metric")
              && c.request.limit == EffectiveLimit(DefaultQuery(params, "limit", "1000"))
    ensures c.Rejected? ==>
              c.error in {"tenant_id and metric are required", "invalid tenant_id", "invalid metric name"}
  {
    var tenantQ := Query(params, "tenant_id");
    var metric := Query(params, "metric");
    var limitQ := DefaultQuery(params, "limit", "1000");
    if tenantQ == "" || metric == "" then Rejected("tenant_id and metric are required")
    else
      var tenantId := Atoi(tenantQ);
      if tenantId.None? || tenantId.value <= 0 then Rejected("invalid tenant_id")
      else if !IsIdent(metric) then Rejected("invalid metric name")
      else Accepted(Request(tenantId.value, metric, EffectiveLimit(limitQ)))
  }

  /** A limit too large for a 64-bit int is an `Atoi` error, so it falls back
      to the default 1000 rather than being clamped to 10000. */
  lemma HugeLimitIsDefault(limitQ: string)
    requires AllDigits(limitQ) && |limitQ| > 0 && DigitsValue(limitQ) > MaxInt64
    ensures EffectiveLimit(limitQ) == DefaultLimit
  {
  }

  /** An absent limit, or one present with an empty value, gives 1000. */
  lemma MissingLimitIsDefault(params: Params)
    requires "limit" !in params || params["limit"] == ""
    ensures EffectiveLimit(DefaultQuery(params, "limit", "1000")) == DefaultLimit
  {
    Text1000();
  }

  /** "1000" and 1000 in both directions. */
  lemma Text1000()
    ensures Atoi("1000") == Some(1000) && NatToString(1000) == "1000"
  {
    assert "1000"[..3] == "100" && "100"[..2] == "10" && "10"[..1] == "1";
    assert DigitsValue("1") == 1;
    assert DigitsValue("10") == 10;
    assert DigitsValue("100") == 100;
    assert DigitsValue("1000") == 1000;
    assert NatToString(1) == "1";
    assert NatToString(10) == "10";
    assert NatToString(100) == "100";
  }

  /** The checks run in order: a bad tenant id is reported even when the
      metric is bad too, and a bad metric only once the tenant id is good. */
  lemma FirstFailureDecides(params: Params)
    requires Query(params, "tenant_id") != "" && Query(params, "metric") != ""
    ensures (Atoi(Query(params, "tenant_id")).None? || Atoi(Query(params, "tenant_id")).value <= 0) ==>
              CheckParams(params) == Rejected("invalid tenant_id")
    ensures (Atoi(Query(params, "tenant_id")).Some? && Atoi(Query(params, "tenant_id")).value > 0 &&
             !IsIdent(Query(params, "metric"))) ==>
              CheckParams(params) == Rejected("invalid metric name")
  {
  }

  // ---------------------------------------------------------------------
  // The query

  const QueryHead: string := "SELECT * FROM tenant_"
  const QueryMiddle: string := " ORDER BY time ASC LIMIT "

  /** `fmt.Sprintf("SELECT * FROM %s.%s ORDER BY time ASC LIMIT %d", schema, table, limit)`
      with `schema` = `fmt.Sprintf("tenant_%d", tenantID)`. */
  function SelectQuery(r: Request): (q: string)
    ensures q == "SELECT * FROM tenant_" + NatToString(r.tenantId) + "." + r.metric +
                 " ORDER BY time ASC LIMIT " + NatToString(r.limit)
  {
    QueryHead + NatToString(r.tenantId) + "." + r.metric + QueryMiddle + NatToString(r.limit)
  }

  lemma DigitsHaveNoSeparator(s: string, sep: char)
    requires AllDigits(s) && !IsDigit(sep)
    ensures sep !in s
  {
  }

  lemma StripPrefix(p: string, x: string, y: string)
    requires p + x == p + y
    ensures x == y
  {
    assert x == (p + x)[|p|..];
    assert y == (p + y)[|p|..];
  }

  const QueryTail: string := "ORDER BY time ASC LIMIT "

  /** The query with its separators made explicit. */
  lemma SelectQueryParts(r: Request)
    ensures SelectQuery(r)
         == QueryHead + (NatToString(r.tenantId) + ['.'] + (r.metric + [' '] + (QueryTail + NatToString(r.limit))))
  {
    assert QueryMiddle == [' '] + QueryTail;
  }

  /** Different checked requests give different queries: the query names the
      tenant's schema, the table and the limit unambiguously. */
  lemma SelectQueryInjective(r1: Request, r2: Request)
    requires IsIdent(r1.metric) && IsIdent(r2.metric)
    requires SelectQuery(r1) == SelectQuery(r2)
    ensures r1 == r2
  {
    var t1, t2 := NatToString(r1.tenantId), NatToString(r2.tenantId);
    var rest1 := r1.metric + [' '] + (QueryTail + NatToString(r1.limit));
    var rest2 := r2.metric + [' '] + (QueryTail + NatToString(r2.limit));
    SelectQueryParts(r1);
    SelectQueryParts(r2);
    StripPrefix(QueryHead, t1 + ['.'] + rest1, t2 + ['.'] + rest2);
    DigitsHaveNoSeparator(t1, '.');
    DigitsHaveNoSeparator(t2, '.');
    CutAtFirst(t1, rest1, t2, rest2, '.');
    NatToStringInjective(r1.tenantId, r2.tenantId);
    assert ' ' !in r1.metric && ' ' !in r2.metric by {
      assert !IsIdentChar(' ');
    }
    CutAtFirst(r1.metric, QueryTail + NatToString(r1.limit), r2.metric, QueryTail + NatToString(r2.limit), ' ');
    StripPrefix(QueryTail, NatToString(r1.limit), NatToString(r2.limit));
    NatToStringInjective(r1.limit, r2.limit);
  }

  /** The characters a query can contain. */
  predicate IsQueryChar(ch: char) {
    IsIdentChar(ch) || ch == ' ' || ch == '*' || ch == '.'
  }

  predicate AllQueryChars(s: string) {
    forall i :: 0 <= i < |s| ==> IsQueryChar(s[i])
  }

  lemma AllQueryCharsConcat(a: string, b: string)
    requires AllQueryChars(a) && AllQueryChars(b)
    ensures AllQueryChars(a + b)
  {
    forall i | 0 <= i < |a + b| ensures IsQueryChar((a + b)[i]) {
      if i >= |a| { assert (a + b)[i] == b[i - |a|]; }
    }
  }

  /** The metric check keeps the statement a single SELECT: a query built
      from a checked request holds only letters, digits, `_`, spaces, `*` and
      `.`, so no quote, semicolon or comment marker can get in. */
  lemma SelectQueryIsPlain(r: Request)
    requires IsIdent(r.metric)
    ensures AllQueryChars(SelectQuery(r))
    ensures ';' !in SelectQuery(r) && '\'' !in SelectQuery(r) && '"' !in SelectQuery(r) && '-' !in SelectQuery(r)
  {
    var t, l := NatToString(r.tenantId), NatToString(r.limit);
    QueryConstantsPlain();
    DigitsArePlain(t);
    DigitsArePlain(l);
    assert AllQueryChars(r.metric);
    AllQueryCharsConcat(QueryHead, t);
    AllQueryCharsConcat(QueryHead + t, ".");
    AllQueryCharsConcat(QueryHead + t + ".", r.metric);
    AllQueryCharsConcat(QueryHead + t + "." + r.metric, QueryMiddle);
    AllQueryCharsConcat(QueryHead + t + "." + r.metric + QueryMiddle, l);
    PlainHasNoMeta(SelectQuery(r));
  }

  lemma QueryConstantsPlain()
    ensures AllQueryChars(QueryHead) && AllQueryChars(QueryMiddle) && AllQueryChars(".")
  {
  }

  lemma DigitsArePlain(s: string)
    requires AllDigits(s)
    ensures AllQueryChars(s)
  {
  }

  lemma PlainHasNoMeta(q: string)
    requires AllQueryChars(q)
    ensures ';' !in q && '\'' !in q && '"' !in q && '-' !in q
  {
  }

  // ---------------------------------------------------------------------
  // The database round trip and the response

  /** A column value; the model does not look inside it. */
  datatype Cell = Cell(raw: string)

  /** One row as a map from column name to value. */
  type Row = map<string, Cell>

  /** What running the query gives: `DB.Raw(query).Rows()` failing, `Columns()`
      failing, a `Scan` failing part way, or every row. */
  datatype DbOutcome = QueryFailed(reason: string) | ColumnsFailed | ScanFailed(reason: string) | Rows(points: seq<Row>)

  /** The JSON bodies: `{"error": ...}`, or `{"data": ..., "count": ...}` where
      `data` is `null` (`None`) when no row was appended to the nil slice. */
  datatype Body = ErrorBody(error: string) | DataBody(data: Option<seq<Row>>, count: nat)

  datatype Response = Response(status: int, body: Body)

  const StatusOK: int := 200
  const StatusBadRequest: int := 400
  const StatusInternalServerError: int := 500

  function HistoryGet(params: Params, db: string -> DbOutcome): (resp: Response)
    ensures CheckParams(params).Rejected? <==> resp.status == StatusBadRequest
    ensures CheckParams(params).Rejected? ==> resp.body == ErrorBody(CheckParams(params).error)
    ensures resp.status in {StatusOK, StatusBadRequest, StatusInternalServerError}
    ensures resp.status == StatusOK <==>
              CheckParams(params).Accepted? && db(SelectQuery(CheckParams(params).request)).Rows?
    ensures resp.status == StatusOK ==>
              var points := db(SelectQuery(CheckParams(params).request)).points;
              resp.body == DataBody(if points == [] then None else Some(points), |points|)
    ensures resp.status == StatusInternalServerError ==> resp.body.ErrorBody?
  {
    match CheckParams(params)
    case Rejected(error) => Response(StatusBadRequest, ErrorBody(error))
    case Accepted(r) =>
      match db(SelectQuery(r))
      case QueryFailed(reason) => Response(StatusInternalServerError, ErrorBody("query failed: " + reason))
      case ColumnsFailed => Response(StatusInternalServerError, ErrorBody("failed to get columns"))
      case ScanFailed(reason) => Response(StatusInternalServerError, ErrorBody("scan failed: " + reason))
      case Rows(points) => Response(StatusOK, DataBody(if points == [] then None else Some(points), |points|))
  }

  /** `count` is the number of entries in `data` (none when it is null). */
  lemma CountIsDataLength(params: Params, db: string -> DbOutcome)
    ensures var resp := HistoryGet(params, db);
            resp.body.DataBody? ==>
              resp.body.count == (if resp.body.data.None? then 0 else |resp.body.data.value|)
  {
  }

  /** A request that fails a check never reaches the database, and an
      accepted one runs exactly its SELECT: the answer depends on the
      database only through that query. */
  lemma OnlyTheSelectReachesTheDatabase(params: Params, db1: string -> DbOutcome, db2: string -> DbOutcome)
    requires CheckParams(params).Accepted? ==>
               db1(SelectQuery(CheckParams(params).request)) == db2(SelectQuery(CheckParams(params).request))
    ensures HistoryGet(params, db1) == HistoryGet(params, db2)
  {
  }

  /** A well-formed request for tenant 7's heart_rate rows with no limit
      asks for 1000 rows from schema tenant_7. */
  lemma ExampleRequest()
    ensures CheckParams(map["tenant_id" := "7", "metric" := "heart_rate"])
         == Accepted(Request(7, "heart_rate", 1000))
  {
    var params := map["tenant_id" := "7", "metric" := "heart_rate"];
    assert Query(params, "tenant_id") == "7" && Query(params, "metric") == "heart_rate";
    assert "limit" !in params;
    assert DigitsValue("7") == 7;
    assert IsIdent("heart_rate");
    MissingLimitIsDefault(params);
  }
}
