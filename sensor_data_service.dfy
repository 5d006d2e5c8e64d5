/** The frontend's sensor list (services/sensor-data.service.ts): every call
    of `getSensors` makes a new request; its response or its failure then
    settles the list, the loading flag and the error. `GetSensors` is the
    subscription, `SensorsArrived` and `SensorsFailed` the outcomes, each
    returning what the caller's observable emits. */
module SensorStore {
  import opened Wrappers
  import opened FrontendModels

  const LoadError: string := "Failed to load sensors"

  class SensorDataService {
    var sensors: seq<Sensor>
    var loading: bool
    var error: Option<string>

    /** A request in flight has no error to show. */
    ghost predicate Valid()
      reads this
    {
      loading ==> error.None?
    }

    constructor()
      ensures sensors == [] && !loading && error.None? && Valid()
    {
      sensors := [];
      loading := false;
      error := None;
    }

    /** `getSensors`: no cache, a new request each time. */
    method GetSensors()
      modifies this
      ensures Valid()
      ensures sensors == old(sensors) && loading && error.None?
    {
      loading := true;
      error := None;
    }

    /** `catchError`: the error is shown, the old list stays, and the caller
        receives an empty list. */
    method SensorsFailed() returns (emitted: SensorResponse)
      requires Valid()
      modifies this
      ensures Valid()
      ensures sensors == old(sensors) && !loading && error == Some(LoadError)
      ensures emitted == SensorResponse(Some([]))
    {
      error := Some(LoadError);
      loading := false;
      emitted := SensorResponse(Some([]));
    }

    /** The `tap` on a response: its `sensors`, or none when the member is
        missing. A null body makes the `tap` throw, which `catchError` turns
        into the failure. */
    method SensorsArrived(response: Option<SensorResponse>) returns (emitted: SensorResponse)
      requires Valid()
      modifies this
      ensures Valid() && !loading
      ensures response.Some? ==>
                && sensors == response.value.sensors.GetOr([]) && error == old(error)
                && emitted == response.value
      ensures response.None? ==>
                sensors == old(sensors) && error == Some(LoadError) && emitted == SensorResponse(Some([]))
    {
      if response.None? {
        emitted := SensorsFailed();
        return;
      }
      sensors := response.value.sensors.GetOr([]);
      loading := false;
      emitted := response.value;
    }

    /** `clearState`. */
    method ClearState()
      modifies this
      ensures Valid()
      ensures sensors == [] && !loading && error.None?
    {
      sensors := [];
      loading := false;
      error := None;
    }
  }

  /** A success, then a failed reload: the list of the first load is still
      shown, with the error, while the caller of the reload sees no sensors. */
  method FailedReloadKeepsSensors(svc: SensorDataService, first: seq<Sensor>) returns (emitted: SensorResponse)
    modifies svc
    ensures svc.sensors == first && !svc.loading && svc.error == Some(LoadError)
    ensures emitted.sensors == Some([])
  {
    svc.ClearState();
    svc.GetSensors();
    var ok := svc.SensorsArrived(Some(SensorResponse(Some(first))));
    svc.GetSensors();
    emitted := svc.SensorsFailed();
  }
}
