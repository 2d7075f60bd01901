/**
  Quota records (boson/data_model/quota.py): a resource, the auth data the
  limit applies to, and the limit itself, `None` meaning unlimited.
 */
module Quotas {
  import opened Wrappers
  import opened Values
  import opened Projection
  import opened Services
  import opened Resources

  datatype Quota = Quota(resource: Resource, limit: Option<int>, authData: map<string, Value>)

  /** A quota without a limit places no bound on usage. */
  predicate Unlimited(q: Quota)
  {
    q.limit.None?
  }

  /**
    `Quota.__init__`: store the resource and limit as given (the limit defaults
    to `None`), treat omitted or empty auth data as `{}`, and keep the auth
    data the resource's service uses.
   */
  function NewQuota(resource: Resource, authData: Option<map<string, Value>> := None,
                    limit: Option<int> := None): (q: Quota)
    ensures q.resource == resource && q.limit == limit
    ensures q.authData.Keys == (if authData.Some? then authData.value.Keys else {}) * resource.service.authFields
    ensures forall k :: k in q.authData ==> authData.Some? && k in authData.value && q.authData[k] == authData.value[k]
  {
    var given := if authData.Some? && |authData.value| != 0 then authData.value else map[];
    Quota(resource, limit, Project(given, resource.service.authFields))
  }

  /** With nothing but a resource, the quota is the default one: no auth data and no limit. */
  lemma DefaultQuota(resource: Resource)
    ensures NewQuota(resource).authData == map[]
    ensures Unlimited(NewQuota(resource))
    ensures NewQuota(resource, Some(map[])) == NewQuota(resource)
  {
  }

  /** A quota's auth data only ever names fields of the resource's service. */
  lemma QuotaKeysWithinService(resource: Resource, authData: Option<map<string, Value>>, limit: Option<int>)
    ensures NewQuota(resource, authData, limit).authData.Keys <= resource.service.authFields
  {
  }
}
