# GlitchHub PoC telemetry core, in Dafny

This project models the core of the GlitchHub PoC, a multi-tenant IoT
telemetry system, and proves properties of that model.

- **Gateways** simulate heart-rate and SpO2 sensors. Each publishes JSON
  samples with NATS on the subjects `sensors.<tenant>.<gateway>.<type>`. It
  also declares one JetStream stream per tenant.
- **Subscribers** receive those messages with a queue subscription. They
  split the subject and decode the body. The current subscriber inserts the
  sample into the tenant's PostgreSQL table as the tenant's own database role
  and acks or naks the message. The earlier subscriber makes the same insert
  decision without acknowledgements.
- **The dashboard backend** has a history endpoint. It validates its query
  parameters in a fixed order, clamps the row limit, and builds a
  `SELECT ... FROM tenant_<id>.<metric>` statement. It also maps URL paths
  to template names.
- **The Angular dashboard** has these parts:
  - a mock in-memory backend, with users, tenants, login, register, a tenant
    lookup and a profile behind a mock JWT;
  - the session service, with its token, user and `localStorage`;
  - the tenant cache and the sensor-list loader;
  - the historic chart's sliding window.

The external services are parameters of the model:

- JSON, base64 and `JSON.parse` are abstract operations that may fail: the
  datatypes `JsonCodec`, `TokenCodec` and `UserJson`. Ghost predicates state
  what they guarantee (`ReadsBack`, `WellBehaved`).
- The broker's acceptance of a publish is a predicate.
- PostgreSQL is a pair of predicates for connecting and executing. The model
  records the calls made on it.
- Clocks and random draws are arguments.

Go's `strings.Split`, `strings.Trim` and `strconv.Atoi` (64-bit) are written
out in `Text`. JavaScript's NaN, `parseInt(s, 10)`, `undefined` indexing and
`Array.prototype.slice` are written out in `JsRuntime`. Code that updates
state in place is modelled as classes:

- the in-memory backend;
- the Angular services;
- the chart component.

A signal is a field, an HTTP response is a method call, and the session's
storage effect runs at the end of each method that changes the session.

The two gateways run the same loop, publishing the same subjects in the same
order. `Gateway.Run` and `Gateway.Start` stand for both. Only the current
gateway declares a stream.

## Model

| member | source | states |
|---|---|---|
| `SensorData.SimulateHeartRate` | src/publisher/sensorData/data.go:19-24 | for a draw in [0, 85), as `rand.Intn(85)` gives, the BPM lies in [55, 140) and the timestamp is the clock reading |
| `SensorData.SimulatedHeartRateRange` | src/publisher/sensorData/data.go:20-22 | the simulator produces exactly the BPM values 55..139, each from exactly one draw |
| `SensorData.HeartRateJson` | src/publisher/sensorData/data.go:9-12 | the object written for a heart-rate sample has exactly the members named by the struct tags, "bpm" then "timestamp" (the round trip below ties it to decoding) |
| `SensorData.PulseOxJson` | src/publisher/sensorData/data.go:14-17 | the object written for an SpO2 sample has exactly the members "spO2" then "timestamp" |
| `SensorData.Member` | src/subscriber/init.go:77 | a member is found iff the object has one with that name, and the value is that of the last such member: `json.Unmarshal` assigns members in order, so the last one is what the field keeps |
| `SensorData.IntField` | src/publisher/sensorData/data.go:10 | an absent `int` member leaves 0; a present one is taken iff it is an integral number within Go's 64-bit `int`, and then has that value |
| `SensorData.FloatField` | src/publisher/sensorData/data.go:15 | an absent `float64` member leaves 0; a present one is taken iff it is a number, unchanged |
| `SensorData.TimeField` | src/publisher/sensorData/data.go:11 | an absent `time.Time` member leaves the zero time; a present one is taken iff it is a time |
| `SensorData.UnmarshalHeartRate` | src/subscriber/init.go:85-93 | a heart-rate record iff the text decodes to an object in which every "bpm" member fits `int` and every "timestamp" member fits `time.Time` (an ill-typed duplicate fails even when the last one fits); the record holds the last members' values, or the zero values when absent |
| `SensorData.UnmarshalPulseOx` | src/subscriber/init.go:75-83 | an SpO2 record iff the text decodes to an object in which every "spO2" member is a number and every "timestamp" member a time; the record holds the last members' values, or the zero values when absent |
| `SensorData.IllTypedDuplicateRefused` | src/subscriber/init.go:87-90 | an object whose first "bpm" is a time and whose last "bpm" is 72 is refused |
| `SensorData.HeartRateRoundTrip` | src/publisher/gateway/init.go:108-111 | when the JSON text written for the sample's object reads back as that object, unmarshalling the marshalled sample gives the sample |
| `SensorData.PulseOxRoundTrip` | src/publisher/gateway/init.go:113-116 | the same for an SpO2 sample |
| `SensorData.PulseOxReadsAsHeartRate` | src/subscriber/init.go:85-93 | an SpO2 body read as heart rate still decodes, to 0 BPM at the sample's time, since nothing in the body names its record type |
| `DbAccess.IsSupportedTablename` | src/subscriber/db-access/writeToDatabase.go:11-13 | a table name that passes the whitelist is a non-empty word of lower-case letters and underscores |
| `DbAccess.TenantUsername` | src/subscriber/db-access/writeToDatabase.go:20 | the database role is the tenant id followed by "_user" |
| `DbAccess.ConnectionUrl` | src/subscriber/db-access/writeToDatabase.go:20-21 | the connection URL is `postgres://<tenant>_user:user@<dbURL>/sensors_db?sslmode=disable` |
| `DbAccess.HeartRateInsertQuery` | src/subscriber/db-access/writeToDatabase.go:28 | the statement is "INSERT INTO ", the table name, then the fixed column list `(time, gateway_id, bpm)` with three placeholders |
| `DbAccess.SpO2InsertQuery` | src/subscriber/db-access/writeToDatabase.go:50 | the same with the column `spO2` |
| `DbAccess.RunInsert` | src/subscriber/db-access/writeToDatabase.go:22-34 | no error iff the connection and the statement both succeed; on a refused connection only the connect is made, otherwise connect, exec and close (the deferred close) |
| `DbAccess.InsertHeartRateData` | src/subscriber/db-access/writeToDatabase.go:15-35 | an unsupported table fails with that table's error before any database call; success iff the table is supported and Postgres takes the tenant's connection and `INSERT INTO <table> (time, gateway_id, bpm)` with (time, gateway, bpm); the exact call list on success |
| `DbAccess.InsertSpO2Data` | src/subscriber/db-access/writeToDatabase.go:37-57 | the same for the spO2 column with (time, gateway, spO2) |
| `DbAccess.SupportedTables` | src/subscriber/db-access/writeToDatabase.go:11-13 | the whitelist is exactly {"heart_rate", "blood_oxygen"} |
| `DbAccess.UnsupportedTableIgnoresDatabase` | src/subscriber/db-access/writeToDatabase.go:16-40 | for an unsupported table, both inserts return the same result whatever the database would do |
| `DbAccess.CrossTypeInsertAccepted` | src/subscriber/db-access/writeToDatabase.go:11-50 | the whitelist does not bind a record type to its table: heart-rate rows into blood_oxygen and SpO2 rows into heart_rate are accepted by a permissive database |
| `Subscriber.Dispatch` | src/subscriber/init.go:141-175 | unknown types are dropped with no answer; heart rate: nak iff the body does not decode; SpO2: no answer when the body does not decode; the insert gets the message's tenant, table, gateway and the dbURL; ack iff the "Ricevuto" line is reached; an ack implies an insert was made |
| `Subscriber.Handle` | src/subscriber/init.go:134-178 | fewer than four subject segments drop the message; any insert uses segments 1, 2 and 3 as tenant, gateway and table |
| `Subscriber.OnlyMiddleSegmentsMatter` | src/subscriber/init.go:135-143 | two subjects that agree on segments 1 to 3 are handled identically: segment 0 and any extra segments are ignored |
| `Subscriber.HeartRateReplies` | src/subscriber/init.go:146-158 | heart rate: an undecodable body is nacked with no insert; a failed insert gets no answer; a stored row is acked; the insert call and database calls are those of `InsertHeartRateData` |
| `Subscriber.BloodOxygenReplies` | src/subscriber/init.go:159-171 | SpO2, the other way round: an undecodable body gets no answer; a failed insert is nacked; a stored row is acked |
| `Subscriber.AckMeansStored` | src/subscriber/init.go:153-171 | an ack is only given after the tenant's connection and an insert statement both succeeded on Postgres |
| `LegacySubscriber.Dispatch` | subscriber/init.go:64-94 | unknown types and undecodable bodies make no insert; the insert carries tenant, table, gateway and decoded record; the final print is reached iff the insert succeeded |
| `LegacySubscriber.Handle` | subscriber/init.go:57-97 | fewer than four segments drop the message; inserts use segments 1 to 3 |
| `LegacySubscriber.SameInsertsAsCurrent` | subscriber/init.go:57-97 | the earlier and the current subscriber decide the same inserts with the same tenant, table, gateway and record for every message |
| `Gateway.StreamName` | src/publisher/gateway/init.go:75 | the stream name is "sensors_" followed by the tenant id |
| `Gateway.StreamSubject` | src/publisher/gateway/init.go:82 | the stream captures the filter that starts "sensors.<tenant>." and ends in the wildcard ".>" |
| `Gateway.StreamConfigFor` | src/publisher/gateway/init.go:74-88 | stream "sensors_<tenant>" on subject filter "sensors.<tenant>.>", file storage, 1 replica, limits retention, 30-day max age (720 h) and 1 MiB message limit within int32 |
| `Gateway.LoopTurn` | src/publisher/gateway/init.go:105-126 | a turn publishes the heart-rate message first; the SpO2 message is attempted iff the first was accepted; the loop continues iff every attempted publish was accepted |
| `Gateway.RunAlternates` | src/publisher/gateway/init.go:104-131 | over any number of turns, with or without a failure, published subjects alternate heart_rate, blood_oxygen, starting with heart_rate |
| `Gateway.Start` | publisher/gateway/init.go:69-97 | the loop's publications are exactly `Run` of the samples (stopping at the first failed publish), and they alternate |
| `Gateway.RunLength` | src/publisher/gateway/init.go:104-131 | with a broker that accepts everything, n turns publish 2n messages |
| `Gateway.HeartRateSubject` | src/publisher/gateway/init.go:118 | the heart-rate subject starts "sensors.<tenant>." and ends ".<gateway>.heart_rate" |
| `Gateway.SpO2Subject` | src/publisher/gateway/init.go:123 | the SpO2 subject starts "sensors.<tenant>." and ends ".<gateway>.blood_oxygen" |
| `Gateway.Run` | src/publisher/gateway/init.go:103-132 | a run over n samples publishes at most two messages per sample |
| `Gateway.SubjectTokens` | src/publisher/gateway/init.go:118-123 | a published subject splits into "sensors", the tenant's tokens, the gateway's tokens and the type |
| `Gateway.FilterTokens` | src/publisher/gateway/init.go:82 | the stream filter splits into "sensors", the tenant's tokens and ">" |
| `Gateway.LiteralPrefixMatches` | src/publisher/gateway/init.go:82 | a literal token prefix followed by ">" matches that prefix followed by one or more tokens |
| `Gateway.StreamCapturesPublishedSubjects` | src/publisher/gateway/init.go:82-123 | every subject a gateway publishes on is matched by its tenant's stream filter, whatever the gateway name, when the tenant holds no wildcard token |
| `Pipeline.SubjectRoundTrip` | src/publisher/gateway/init.go:118-123 | for dot-free tenant and gateway, the subscriber's split yields exactly ["sensors", tenant, gateway, type] |
| `Pipeline.PublishedHeartRateIsStored` | src/subscriber/init.go:135-158 | a heart-rate message a gateway published, when its JSON text reads back and the database accepts the row, is inserted for its tenant and gateway and acked, with the exact database calls |
| `Pipeline.PublishedSpO2IsStored` | src/subscriber/init.go:159-171 | the same for an SpO2 message |
| `Pipeline.TurnIsAcked` | src/publisher/gateway/init.go:118-126 | every message of a loop turn the broker accepted is acked by the subscriber when the JSON text of both samples reads back and the database accepts all rows |
| `Pipeline.LegacyRoundTrip` | publisher/gateway/init.go:84-88 | the earlier subscriber recovers tenant, gateway, table and sample from the earlier gateway's messages |
| `Pipeline.DottedTenantIsMisrouted` | src/subscriber/init.go:135-143 | a tenant "a.b" is read as tenant "a", gateway "b" and table "<gateway>"; unless the gateway's name is a table name, the message is dropped unanswered |
| `Text.Split` | src/subscriber/init.go:135 | `strings.Split` with a one-character separator gives at least one part and no part holds the separator |
| `Text.JoinSplit` | src/subscriber/init.go:135 | joining the parts with the separator gives the subject back |
| `Text.Trim` | src/dashboard/backend/views/views.go:15 | `strings.Trim(s, "/")` leaves no slash at either end, and is empty exactly when s is all slashes |
| `Text.TrimKeepsInterior` | src/dashboard/backend/views/views.go:15 | the input is a run of slashes, the trimmed text and a run of slashes, in that order; the leading run is what `TrimLeft` drops |
| `Text.Atoi` | src/dashboard/backend/controllers/historyController.go:24-36 | accepted iff the text is non-empty, has a digit string after an optional `+` or `-` (or no sign), and its value is in the 64-bit range; the value is the digits' value, negated after `-` |
| `Text.LeadingZeroValue` | src/dashboard/backend/controllers/historyController.go:24 | a leading zero changes neither the digit-ness nor the value of a numeral |
| `Text.AtoiAcceptsLeadingZeros` | src/dashboard/backend/controllers/historyController.go:24-25 | "007" is read as 7 |
| `Text.AtoiAcceptsSigns` | src/dashboard/backend/controllers/historyController.go:24-25 | "+7" is 7, "-3" is -3 and "-0" is 0 |
| `Text.AtoiOfNatToString` | src/dashboard/backend/controllers/historyController.go:24 | `Atoi` reads back every decimal numeral within the 64-bit range |
| `Text.AtoiRejects` | src/dashboard/backend/controllers/historyController.go:24-25 | "", a lone sign and text ending in a non-digit are refused |
| `Text.NatToStringInjective` | src/dashboard/backend/controllers/historyController.go:44-47 | `%d` of different numbers gives different texts |
| `HistoryController.Query` | src/dashboard/backend/controllers/historyController.go:15-16 | `c.Query` gives the parameter's value, or "" when it is absent |
| `HistoryController.DefaultQuery` | src/dashboard/backend/controllers/historyController.go:17 | `c.DefaultQuery` gives the parameter's value, or the default when it is absent |
| `HistoryController.IsIdent` | src/dashboard/backend/controllers/historyController.go:30 | a metric that matches `^[a-zA-Z0-9_]+$` is non-empty and has no space, dot, semicolon, quote or dash |
| `HistoryController.EffectiveLimit` | src/dashboard/backend/controllers/historyController.go:36-42 | the limit is always within 1..10000: 1000 when `Atoi` fails or gives a value of 0 or less, 10000 above that, otherwise the value itself |
| `HistoryController.CheckParams` | src/dashboard/backend/controllers/historyController.go:15-42 | an empty tenant_id or metric gives "tenant_id and metric are required"; accepted iff both are given, tenant_id parses to a value > 0 and metric matches `^[a-zA-Z0-9_]+$`; the accepted request carries those values and the effective limit; only the three messages occur |
| `HistoryController.FirstFailureDecides` | src/dashboard/backend/controllers/historyController.go:19-34 | a bad tenant id is reported even if the metric is bad too; "invalid metric name" only once the tenant id is good |
| `HistoryController.HugeLimitIsDefault` | src/dashboard/backend/controllers/historyController.go:36-39 | a limit beyond the 64-bit range is an `Atoi` error and falls back to 1000, not 10000 |
| `HistoryController.MissingLimitIsDefault` | src/dashboard/backend/controllers/historyController.go:17-39 | an absent limit, or an empty one, gives 1000 |
| `HistoryController.SelectQuery` | src/dashboard/backend/controllers/historyController.go:44-47 | the statement is "SELECT * FROM tenant_<id>.<metric> ORDER BY time ASC LIMIT <limit>" |
| `HistoryController.SelectQueryInjective` | src/dashboard/backend/controllers/historyController.go:44-47 | the statement identifies its request: equal statements come from equal (tenant, metric, limit) |
| `HistoryController.SelectQueryIsPlain` | src/dashboard/backend/controllers/historyController.go:30-47 | with a checked metric the statement holds only letters, digits, `_`, spaces, `*` and `.`, hence no `;`, quote or `-` |
| `HistoryController.HistoryGet` | src/dashboard/backend/controllers/historyController.go:14-83 | 400 with the check's message iff a check fails; 200 iff the request is accepted and the database returns rows, with `data` null for no rows and `count` the number of rows; otherwise 500 with an error body |
| `HistoryController.CountIsDataLength` | src/dashboard/backend/controllers/historyController.go:82 | `count` equals the number of entries of `data` |
| `HistoryController.OnlyTheSelectReachesTheDatabase` | src/dashboard/backend/controllers/historyController.go:47-49 | the response depends on the database only through the one SELECT of an accepted request |
| `HistoryController.ExampleRequest` | src/dashboard/backend/controllers/historyController.go:15-42 | tenant_id=7, metric=heart_rate with no limit is accepted as (7, heart_rate, 1000) |
| `Views.TemplateName` | src/dashboard/backend/views/views.go:14-21 | the template is "templates/<path trimmed of slashes>.tmpl", or "templates/index.tmpl" when nothing is left |
| `Views.ShowView` | src/dashboard/backend/views/views.go:12-23 | status 200 with the path's template |
| `Views.ErrorView` | src/dashboard/backend/views/views.go:25-27 | status 400 with "templates/error.tmpl" |
| `Views.OnlySlashesIsIndex` | src/dashboard/backend/views/views.go:17-19 | "" and "/" (any run of slashes) give the index template |
| `Views.TrimmedPathShape` | src/dashboard/backend/views/views.go:15 | the trimmed path has no slash at either end and trimming again changes nothing |
| `Views.OuterSlashesIgnored` | src/dashboard/backend/views/views.go:15-21 | a slash added in front or behind does not change the template ("/login" and "/login/") |
| `Views.InnerPathKept` | src/dashboard/backend/views/views.go:21 | interior slashes are kept ("tenant/create" gives "templates/tenant/create.tmpl") and the page is recoverable from the template |
| `JsRuntime.Slice` | src/dashboard/frontend/src/app/components/historic-chart/historic-chart.component.ts:70 | `slice` returns the elements between the resolved start and end, in order, and nothing when the end is not after the start |
| `JsRuntime.At` | src/dashboard/frontend/src/app/components/historic-chart/historic-chart.component.ts:73-75 | indexing gives `undefined` for NaN, negative and past-the-end indices and the element otherwise |
| `JsRuntime.ParseInt` | src/dashboard/frontend/src/app/components/historic-chart/historic-chart.component.ts:151 | `parseInt(s, 10)` of text that is empty or all whitespace is NaN |
| `JsRuntime.ParseIntOfIntToString` | src/dashboard/frontend/src/app/components/historic-chart/historic-chart.component.ts:151 | `parseInt(s, 10)` reads back every printed integer, ignoring what follows the digits |
| `JsRuntime.ParseIntNoDigits` | src/dashboard/frontend/src/app/components/historic-chart/historic-chart.component.ts:151 | text without digits parses to NaN |
| `HistoricChart.MaxPosition` | src/dashboard/frontend/src/app/components/historic-chart/historic-chart.component.ts:65 | the start of the last full window, or 0 when there are fewer readings than the window |
| `HistoricChart.EndIndex` | src/dashboard/frontend/src/app/components/historic-chart/historic-chart.component.ts:66 | NaN iff the position is NaN; otherwise the smaller of position + window and the length |
| `HistoricChart.VisibleReadings` | src/dashboard/frontend/src/app/components/historic-chart/historic-chart.component.ts:69-71 | never more readings than there are; for a position within the readings, exactly the readings from the position to the end index |
| `HistoricChart.StartLabel` | src/dashboard/frontend/src/app/components/historic-chart/historic-chart.component.ts:73-101 | "-" exactly when there is no reading at the position |
| `HistoricChart.EndLabel` | src/dashboard/frontend/src/app/components/historic-chart/historic-chart.component.ts:75-101 | "-" exactly when there is no reading just before the end index |
| `HistoricChart.ChartData` | src/dashboard/frontend/src/app/components/historic-chart/historic-chart.component.ts:157-181 | no dataset for an empty window; otherwise one dataset with one (time, value) point per visible reading, in order |
| `HistoricChart.HistoricChartComponent.constructor` | src/dashboard/frontend/src/app/components/historic-chart/historic-chart.component.ts:53-62 | no readings, window 50, position 0, no datasets |
| `HistoricChart.HistoricChartComponent.UpdateChart` | src/dashboard/frontend/src/app/components/historic-chart/historic-chart.component.ts:157-183 | the chart becomes the chart of the current window; inputs and position unchanged |
| `HistoricChart.HistoricChartComponent.NgOnChanges` | src/dashboard/frontend/src/app/components/historic-chart/historic-chart.component.ts:82-92 | changed, non-empty readings move the position to the last full window and redraw; otherwise nothing changes |
| `HistoricChart.HistoricChartComponent.OnSliderChange` | src/dashboard/frontend/src/app/components/historic-chart/historic-chart.component.ts:150-154 | the position becomes `parseInt` of the slider text, unclamped, and the chart is redrawn |
| `HistoricChart.WindowNoLongerThanWindowSize` | src/dashboard/frontend/src/app/components/historic-chart/historic-chart.component.ts:66-71 | whatever the position, even negative or NaN, at most `windowSize` readings are visible |
| `HistoricChart.PastEndShowsNothing` | src/dashboard/frontend/src/app/components/historic-chart/historic-chart.component.ts:70-163 | a position at or past the end shows no reading, draws no dataset and labels the start "-" |
| `HistoricChart.NaNShowsNothing` | src/dashboard/frontend/src/app/components/historic-chart/historic-chart.component.ts:70-151 | a NaN position shows nothing and both labels are "-" |
| `HistoricChart.ChangedReadingsShowTail` | src/dashboard/frontend/src/app/components/historic-chart/historic-chart.component.ts:82-90 | after new readings the window ends at the last reading and shows the last min(length, windowSize) readings |
| `HistoricChart.NoReadingsNoLabels` | src/dashboard/frontend/src/app/components/historic-chart/historic-chart.component.ts:73-101 | with no readings both labels are "-" |
| `HistoricChart.TailLabels` | src/dashboard/frontend/src/app/components/historic-chart/historic-chart.component.ts:73-87 | the tail window's labels are the times of its first and of the last reading |
| `Tokens.MockPayload` | src/dashboard/frontend/src/app/mock/in-memory-data.service.ts:347-353 | `iat` is the current second and `exp` is `iat` + 86400 |
| `Tokens.GenerateMockToken` | src/dashboard/frontend/src/app/mock/in-memory-data.service.ts:345-360 | a token exists iff the three `btoa` calls succeed, and is header, payload and signature joined by "." |
| `Tokens.ExpiredStaysExpired` | src/dashboard/frontend/src/app/mock/in-memory-data.service.ts:369 | a payload rejected as expired at some instant is rejected at every later instant |
| `Tokens.DecodeToken` | src/dashboard/frontend/src/app/mock/in-memory-data.service.ts:362-377 | a payload iff there are exactly three parts, the middle one decodes and parses, and `exp` is not a non-zero value before the current second |
| `Tokens.GeneratedTokenParts` | src/dashboard/frontend/src/app/mock/in-memory-data.service.ts:355-359 | a generated token has three parts and its middle part decodes to the payload's JSON |
| `Tokens.GeneratedTokenDecodes` | src/dashboard/frontend/src/app/mock/in-memory-data.service.ts:351-373 | a generated token decodes to its own payload until its expiry second, that second included |
| `Tokens.GeneratedTokenExpires` | src/dashboard/frontend/src/app/mock/in-memory-data.service.ts:369-371 | after the expiry second it no longer decodes |
| `Tokens.WrongPartCountRefused` | src/dashboard/frontend/src/app/mock/in-memory-data.service.ts:364-365 | a token without exactly three parts is refused whatever it holds |
| `InMemoryData.FindTenant` | src/dashboard/frontend/src/app/mock/in-memory-data.service.ts:189 | a tenant is found iff one has the id, and it is one of the tenants with that id |
| `InMemoryData.FindTenantIsFirst` | src/dashboard/frontend/src/app/mock/in-memory-data.service.ts:189 | the tenant found is the first with the id, as `Array.prototype.find` returns |
| `InMemoryData.FindUser` | src/dashboard/frontend/src/app/mock/in-memory-data.service.ts:194-196 | a user is found iff one has exactly that username in that tenant, and the result is such a user |
| `InMemoryData.FindUserIsFirst` | src/dashboard/frontend/src/app/mock/in-memory-data.service.ts:194-196 | the user found is the first with that username in that tenant |
| `InMemoryData.FindUserById` | src/dashboard/frontend/src/app/mock/in-memory-data.service.ts:281 | a user is found iff one has the id, and it is one of the users with that id |
| `InMemoryData.FindUserByIdIsFirst` | src/dashboard/frontend/src/app/mock/in-memory-data.service.ts:281 | the user found is the first with the id |
| `InMemoryData.MaxId` | src/dashboard/frontend/src/app/mock/in-memory-data.service.ts:342 | `Math.max(...ids, 0)`: at least 0, no id above it, and equal to 0 or to some id |
| `InMemoryData.SanitizeUser` | src/dashboard/frontend/src/app/mock/in-memory-data.service.ts:379-382 | the user goes out with every field, its lowercase `password` included, since only a `Password` property is removed |
| `InMemoryData.ExtractTokenPayload` | src/dashboard/frontend/src/app/mock/in-memory-data.service.ts:329-334 | no payload without a header starting with "Bearer "; otherwise the decoding of the header from its eighth character on |
| `InMemoryData.InMemoryDataService.constructor` | src/dashboard/frontend/src/app/mock/in-memory-data.service.ts:33-129 | the three seed tenants and the seven seed users |
| `InMemoryData.InMemoryDataService.NextUserId` | src/dashboard/frontend/src/app/mock/in-memory-data.service.ts:341-343 | the next id is positive and above every existing id |
| `InMemoryData.InMemoryDataService.HandleLogin` | src/dashboard/frontend/src/app/mock/in-memory-data.service.ts:186-209 | 400 "Invalid tenant" exactly for an unknown tenant, checked first; 401 "Invalid credentials" when the first user of that name in the tenant is missing or has another password; 200 carries that user's token and sanitized user |
| `InMemoryData.InMemoryDataService.HandleRegister` | src/dashboard/frontend/src/app/mock/in-memory-data.service.ts:211-247 | 400 for an unknown tenant and 409 for a taken (username, tenant), both leaving the users unchanged; otherwise exactly one user appended with id max+1; unique users stay unique; after a 201 the same credentials log in with the same body |
| `InMemoryData.InMemoryDataService.HandleGetTenants` | src/dashboard/frontend/src/app/mock/in-memory-data.service.ts:253-267 | without an id (or id 0, which is falsy) all tenants in order; otherwise that tenant or 404 "Tenant not found" |
| `InMemoryData.InMemoryDataService.HandleGetProfile` | src/dashboard/frontend/src/app/mock/in-memory-data.service.ts:273-289 | 401 "Invalid token" exactly when no payload is extracted; otherwise 404 "User not found" when no user has the payload's id, and 200 with the user `FindUserById` finds, sanitized |
| `InMemoryData.FindUserAfterAppend` | src/dashboard/frontend/src/app/mock/in-memory-data.service.ts:219-238 | after a register, the lookup finds the appended user |
| `InMemoryData.AppendKeepsUnique` | src/dashboard/frontend/src/app/mock/in-memory-data.service.ts:228-238 | appending a user with an id above all others and a new (username, tenant) keeps ids and pairs unique |
| `InMemoryData.SeedIsUnique` | src/dashboard/frontend/src/app/mock/in-memory-data.service.ts:63-128 | the seed has unique ids and unique (username, tenant) pairs, and "admin" exists in tenants 1, 2 and 3 |
| `InMemoryData.LoginSucceedsIff` | src/dashboard/frontend/src/app/mock/in-memory-data.service.ts:186-209 | with unique pairs, login gives 200 iff the tenant exists, some user has that username, tenant and password, and the token can be made |
| `InMemoryData.FoundIsUnique` | src/dashboard/frontend/src/app/mock/in-memory-data.service.ts:194-196 | with unique pairs, the lookup finds the one matching user |
| `InMemoryData.FoundByIdIsUnique` | src/dashboard/frontend/src/app/mock/in-memory-data.service.ts:281 | with unique ids, the lookup by id finds that user |
| `InMemoryData.ProfileAfterLogin` | src/dashboard/frontend/src/app/mock/in-memory-data.service.ts:202-334 | the token a login returns, sent as "Bearer <token>" within its day, returns the logged-in user's profile |
| `InMemoryData.ProfileNeedsBearer` | src/dashboard/frontend/src/app/mock/in-memory-data.service.ts:329-331 | a missing header, or one without the "Bearer " prefix, gives 401 "Invalid token" |
| `InMemoryData.SanitizedUserKeepsPassword` | src/dashboard/frontend/src/app/mock/in-memory-data.service.ts:203-382 | a successful login's user carries the password that was sent |
| `AuthSession.IsTokenValid` | src/dashboard/frontend/src/app/services/auth.service.ts:67-75 | true iff there are at least two parts, the second decodes and parses, and it has an `exp` strictly after the current second |
| `AuthSession.Persisted` | src/dashboard/frontend/src/app/services/auth.service.ts:36-44 | when the token is truthy and a user is set, storage gains the token and the user's JSON and keeps every other key; otherwise it is unchanged |
| `AuthSession.Cleared` | src/dashboard/frontend/src/app/services/auth.service.ts:77-80 | exactly the "token" and "user" items are removed |
| `AuthSession.AuthService.constructor` | src/dashboard/frontend/src/app/services/auth.service.ts:33-65 | a stored session with a parseable user and a valid token is restored and re-persisted; present but invalid items are cleared; a missing item leaves storage as it was and the session empty |
| `AuthSession.AuthService.RunEffect` | src/dashboard/frontend/src/app/services/auth.service.ts:36-44 | the signals stay and storage becomes `Persisted` of them |
| `AuthSession.AuthService.LoadFromStorage` | src/dashboard/frontend/src/app/services/auth.service.ts:47-65 | a missing item changes nothing; a parseable user with a valid token sets both signals; otherwise both items are removed and the signals stay |
| `AuthSession.AuthService.AuthResponseArrived` | src/dashboard/frontend/src/app/services/auth.service.ts:82-98 | login and register set the token and the user to the response's and store both; a non-empty token authenticates |
| `AuthSession.AuthService.ProfileArrived` | src/dashboard/frontend/src/app/services/auth.service.ts:100-107 | the user and its stored copy are replaced; the token and the authenticated state stay |
| `AuthSession.AuthService.Logout` | src/dashboard/frontend/src/app/services/auth.service.ts:109-114 | token and user are cleared, neither item stays in storage, and the computed views fall back to unauthenticated, "" and "No Organization" |
| `AuthSession.AuthService.IsAuthenticated` | src/dashboard/frontend/src/app/services/auth.service.ts:28 | authenticated iff the token is set and not the empty string, as `!!` reads it |
| `AuthSession.AuthService.UserName` | src/dashboard/frontend/src/app/services/auth.service.ts:29 | the current user's username, or "" without a user |
| `AuthSession.AuthService.UserTenant` | src/dashboard/frontend/src/app/services/auth.service.ts:30 | the current user's tenant, or null without a user |
| `AuthSession.AuthService.TenantName` | src/dashboard/frontend/src/app/services/auth.service.ts:31 | the tenant's name, or "No Organization" when there is no user or the user has no tenant |
| `AuthSession.AuthService.GetToken` | src/dashboard/frontend/src/app/services/auth.service.ts:116-119 | the current token |
| `AuthSession.ComputedDefaults` | src/dashboard/frontend/src/app/services/auth.service.ts:28-31 | authenticated iff the token is non-null and non-empty; "" and no tenant without a user; "No Organization" without a tenant, the tenant's name otherwise |
| `AuthSession.GeneratedTokenValid` | src/dashboard/frontend/src/app/services/auth.service.ts:67-75 | a token of the mock backend is valid exactly before its expiry second |
| `AuthSession.ExpirySecondDisagrees` | src/dashboard/frontend/src/app/services/auth.service.ts:70 | in its expiry second a token is still accepted by the mock backend but already invalid for the session |
| `AuthSession.StoredSessionRestores` | src/dashboard/frontend/src/app/services/auth.service.ts:40-57 | what the effect stores is read back by the load: both items present, the token as stored and the user as parsed |
| `TenantStore.TenantService.constructor` | src/dashboard/frontend/src/app/services/tenant.service.ts:13-15 | no tenants, not loading, no error |
| `TenantStore.TenantService.HasTenants` | src/dashboard/frontend/src/app/services/tenant.service.ts:21 | true iff the list is non-empty |
| `TenantStore.TenantService.TenantCount` | src/dashboard/frontend/src/app/services/tenant.service.ts:22 | the length of the list, positive iff `HasTenants` |
| `TenantStore.TenantService.LoadTenants` | src/dashboard/frontend/src/app/services/tenant.service.ts:26-39 | a loaded list is returned as it is with nothing changed; otherwise a request starts with loading set and the error cleared |
| `TenantStore.TenantService.TenantsArrived` | src/dashboard/frontend/src/app/services/tenant.service.ts:41-44 | the list is replaced and loading ends |
| `TenantStore.TenantService.TenantsFailed` | src/dashboard/frontend/src/app/services/tenant.service.ts:45-48 | error "Failed to load tenants", loading ends, the list stays |
| `TenantStore.TenantService.Reset` | src/dashboard/frontend/src/app/services/tenant.service.ts:54-58 | empty list, not loading, no error |
| `TenantStore.LoadTwice` | src/dashboard/frontend/src/app/services/tenant.service.ts:26-51 | after one load with tenants a second load is served from the cache; after an empty load it is a new request |
| `TenantStore.RetryAfterFailure` | src/dashboard/frontend/src/app/services/tenant.service.ts:35-48 | a retry after a failed load clears the error and starts a new request |
| `SensorStore.SensorDataService.constructor` | src/dashboard/frontend/src/app/services/sensor-data.service.ts:15-17 | no sensors, not loading, no error |
| `SensorStore.SensorDataService.GetSensors` | src/dashboard/frontend/src/app/services/sensor-data.service.ts:25-29 | every call sets loading and clears the error; the list stays |
| `SensorStore.SensorDataService.SensorsArrived` | src/dashboard/frontend/src/app/services/sensor-data.service.ts:29-39 | a response sets the list to its `sensors` or to [] when absent and ends loading, and is passed on; a null body takes the failure path |
| `SensorStore.SensorDataService.SensorsFailed` | src/dashboard/frontend/src/app/services/sensor-data.service.ts:34-38 | error "Failed to load sensors", loading ends, the list stays, and the caller receives `{sensors: []}` |
| `SensorStore.SensorDataService.ClearState` | src/dashboard/frontend/src/app/services/sensor-data.service.ts:42-46 | empty list, not loading, no error |
| `SensorStore.FailedReloadKeepsSensors` | src/dashboard/frontend/src/app/services/sensor-data.service.ts:25-40 | after a successful load and a failed reload, the first list is still shown with the error while the caller sees no sensors |

## Left out

- NATS connection setup, TLS, credentials and signal handling (both `connect` functions and the `start` scaffolding). These are I/O.
- The 5-second sleep and the console output of the gateways. Printed lines are represented only by the `received` flag of a handling.
- `SimulateSpO2` is not modelled, because its result is floating point (`rand.Float64` and `math.Round`). SpO2 values are reals that the model only passes along.
- The JSON text itself is abstract: `SensorData.JsonCodec` writes and reads objects, and the round-trip lemmas assume only that the text written for the one object at hand reads back as that object (`ReadsBack`). For an SpO2 value with no finite decimal form (a third, say) no JSON text does, and those lemmas then say nothing. `btoa`, `atob`, `JSON.stringify` and `JSON.parse` are abstract in the same way. The `panic` on a failed `json.Marshal` is not modelled, because a marshal of these structs cannot fail.
- `SensorData.Member` matches member names exactly. `json.Unmarshal` also accepts a member whose name differs only in letter case; that is not modelled.
- `SensorData.IntField`, `SensorData.FloatField` and `SensorData.TimeField` have no JSON `null` (which leaves a Go field unchanged). A number is a real: `IntField` takes any integral number within 64 bits, so the text `72.0`, which Go refuses for an `int`, is read as 72. `FloatField` takes any number, while Go refuses a literal beyond the `float64` range. A time is its nanosecond count; RFC 3339 text and its parsing are not modelled.
- The current subscriber (src/subscriber) imports its record types from its own `subscriber/sensorData` package, which is not part of this model. The model gives it the publisher's types and one `JsonCodec` on both sides, so `Pipeline.PublishedHeartRateIsStored`, `Pipeline.PublishedSpO2IsStored` and `Pipeline.TurnIsAcked` hold only if that package declares the same struct tags and field types as src/publisher/sensorData/data.go.
- `LegacySubscriber.Dispatch`: the earlier subscriber calls a four-argument `dbaccess.InsertHeartRateData`/`InsertSpO2Data` whose database layer is not part of this model. Its outcome is the abstract predicate `insertOk` over the call's arguments.
- The database scan loop of the history endpoint (`rows.Next`, `Scan`) is part of the abstract database outcome. Row contents are opaque cells.
- The Gin handlers over GORM, bcrypt and JWT (login, signup, logout, tenant, user and API controllers, and the auth middleware), the migrations, main and keycloak demos. They are thin wrappers over libraries that cannot be seen.
- The live telemetry buffer and connection manager that the dashboard component calls. No implementation of them exists in the source.
- Angular UI rendering, `chart?.update()` and chart styling. `formatTimestamp` is kept only as "-" versus the reading's time, because `toLocaleTimeString` depends on the locale.
- `router.navigate` in `logout`, because navigation is outside the session state.
- The `post`/`get`/`handleAuthRequest` routing of the in-memory backend (collection names and URL suffixes) and the header lookups in `extractTokenPayload`. The model starts from the header value or absence. `createDb` is not modelled either.
- `getTenantById` is not modelled, because it is a bare GET.
- `Tokens.MockPayload`: `generateMockToken` reads `Date.now()` twice. The model uses one instant for both, because the two reads can differ by one second only across a second boundary.
- `InMemoryData.FindUser`: its own contract says only that a user is found iff one matches and that the result matches. That the result is the first match is stated by the lemma `InMemoryData.FindUserIsFirst`, because a first-match clause on the function itself makes the proofs of its callers too expensive.
- `InMemoryData.FindTenant`: the same; the first match is `InMemoryData.FindTenantIsFirst`.
- `InMemoryData.FindUserById`: the same; the first match is `InMemoryData.FindUserByIdIsFirst`.
- `InMemoryData.InMemoryDataService.HandleRegister` models a `btoa` exception as `Failed` after the user was appended. That is the order in the code. Whether the in-memory web API turns the exception into an error response is not modelled.
- `InMemoryData.InMemoryDataService.HandleGetTenants` takes the request id as an optional number. The in-memory API's own parsing of the URL id is not modelled.
- `AuthSession.IsTokenValid` treats any parse result as a token payload. A JSON value that is not an object, or an object without `exp`, gives a payload without `exp`, and so gives false. One decoded part reaches `atob(undefined)`, which throws.
- `AuthSession.AuthService.LoadFromStorage` models `JSON.parse` of the stored user as either a user or a failure. A stored `"null"` that parses to `null` is not distinguished.
- Angular's scheduling of the effect and the memoisation of computed signals are not modelled. The effect is run at the end of each method that changes a signal.
- `JsRuntime.ParseInt` skips only the common whitespace characters, and the model has no floating-point rounding of very long digit strings.
- The chart position and the window size are integers or NaN. A fractional `windowSize` is not modelled.
- `Text.Atoi` follows `strconv.Atoi` on a 64-bit platform. An out-of-range limit is therefore an error, and the limit falls back to 1000.
- The upper bound of `SimulateHeartRate` is 139 (`rand.Intn(85) + 55`), although the constant is named `maxHR := 140`. The model follows the code.
