/** The frontend's data shapes (the files under models/). Optional properties
    (`?:`) and properties that a parsed JSON value may lack are `Option`s;
    `Date` values are milliseconds since the epoch; `number` values that are
    ids or counts are integers and measurements are reals. */
module FrontendModels {
  import opened Wrappers

  /** `Sensor`. */
  datatype Sensor = Sensor(id: string, name: string, sensorType: string, unit: string)

  /** `RawSensorReading`: the message text, its subject and its time. */
  datatype RawSensorReading = RawSensorReading(data: string, subject: string, timestamp: int)

  /** `SensorReading`; `data: any` is kept as its JSON text. */
  datatype SensorReading = SensorReading(tenant: string, gateway: string, sensorType: string,
                                         data: string, value: real, timestamp: int)

  /** `HistoricDataResponse`. */
  datatype HistoricDataResponse = HistoricDataResponse(readings: seq<SensorReading>)

  /** The body of GET /api/sensors. `SensorResponse` is imported from the
      sensor model file, which does not declare it; its shape, an object whose
      `sensors` member may be missing, follows from `response.sensors ?? []`. */
  datatype SensorResponse = SensorResponse(sensors: Option<seq<Sensor>>)

  /** `Tenant`. */
  datatype Tenant = Tenant(id: int, natsId: string, name: string,
                           createdAt: Option<string>, updatedAt: Option<string>)

  /** `User`; a user read back from JSON may lack its tenant. */
  datatype User = User(id: int, tenantId: int, tenant: Option<Tenant>, username: string,
                       password: Option<string>, createdAt: string, updatedAt: string)

  /** `AuthResponse`. */
  datatype AuthResponse = AuthResponse(token: string, user: User)
}
