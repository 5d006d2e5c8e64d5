/** The frontend's tenant list (services/tenant.service.ts): a cache that is
    filled by one GET and then served from memory, with a loading flag and
    an error message. The request and its two outcomes are separate methods:
    `LoadTenants` is the subscription, `TenantsArrived` and `TenantsFailed`
    are the two branches of its `tap`. */
module TenantStore {
  import opened Wrappers
  import opened FrontendModels

  const LoadError: string := "Failed to load tenants"

  class TenantService {
    var tenants: seq<Tenant>
    var loading: bool
    var error: Option<string>

    /** A request in flight has no error to show. */
    ghost predicate Valid()
      reads this
    {
      loading ==> error.None?
    }

    constructor()
      ensures tenants == [] && !loading && error.None? && Valid()
    {
      tenants := [];
      loading := false;
      error := None;
    }

    function HasTenants(): (b: bool)
      reads this
      ensures b <==> tenants != []
    {
      |tenants| > 0
    }

    function TenantCount(): (n: nat)
      reads this
      ensures n == |tenants| && (n > 0 <==> HasTenants())
    {
      |tenants|
    }

    /** `loadTenants`: a cached list comes back at once and nothing changes;
        otherwise a request starts (`None`) with loading set and the error
        cleared. An empty list is not a cache. */
    method LoadTenants() returns (cached: Option<seq<Tenant>>)
      requires Valid()
      modifies this
      ensures Valid()
      ensures old(tenants) != [] ==>
                cached == Some(old(tenants)) &&
                tenants == old(tenants) && loading == old(loading) && error == old(error)
      ensures old(tenants) == [] ==>
                cached.None? && tenants == old(tenants) && loading && error.None?
    {
      if HasTenants() {
        return Some(tenants);
      }
      loading := true;
      error := None;
      return None;
    }

    /** The `next` branch: the list arrives. */
    method TenantsArrived(received: seq<Tenant>)
      requires Valid()
      modifies this
      ensures Valid()
      ensures tenants == received && !loading && error == old(error)
    {
      tenants := received;
      loading := false;
    }

    /** The `error` branch: the list stays as it was. */
    method TenantsFailed()
      requires Valid()
      modifies this
      ensures Valid()
      ensures tenants == old(tenants) && !loading && error == Some(LoadError)
    {
      error := Some(LoadError);
      loading := false;
    }

    /** `reset`. */
    method Reset()
      modifies this
      ensures Valid()
      ensures tenants == [] && !loading && error.None?
    {
      tenants := [];
      loading := false;
      error := None;
    }
  }

  /** One load that succeeds, followed by a second load: the second is served
      from the cache when the first brought tenants, and is a new request
      when it brought none. */
  method LoadTwice(svc: TenantService, received: seq<Tenant>) returns (first: Option<seq<Tenant>>, second: Option<seq<Tenant>>)
    modifies svc
    ensures first.None?
    ensures received != [] ==> second == Some(received) && !svc.loading
    ensures received == [] ==> second.None? && svc.loading
    ensures svc.tenants == received && svc.error.None? && svc.Valid()
  {
    svc.Reset();
    first := svc.LoadTenants();
    svc.TenantsArrived(received);
    second := svc.LoadTenants();
  }

  /** A failed load, then a retry: the retry clears the error and is a new
      request, since nothing was cached. */
  method RetryAfterFailure(svc: TenantService) returns (retry: Option<seq<Tenant>>)
    modifies svc
    ensures retry.None? && svc.loading && svc.error.None? && svc.tenants == []
  {
    svc.Reset();
    var first := svc.LoadTenants();
    svc.TenantsFailed();
    assert svc.error == Some(LoadError);
    retry := svc.LoadTenants();
  }
}
