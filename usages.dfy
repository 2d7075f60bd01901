/**
  Usage records (boson/data_model/usage.py): a specific resource, a category,
  the caller's auth data restricted to the service's fields, and the amounts
  in use and reserved.
 */
module Usages {
  import opened Wrappers
  import opened Values
  import opened Projection
  import opened Services
  import opened Resources

  datatype Usage = Usage(
    spcResource: SpecificResource,
    category: Category,
    usage: int,
    reserved: int,
    authData: map<string, Value>)

  /**
    `Usage.__init__`: store the resource, category and amounts as given (both
    amounts default to 0) and keep the auth data the service uses. It never
    fails: fields the service uses but the caller did not supply are simply absent.
   */
  function NewUsage(spcResource: SpecificResource, category: Category, authData: map<string, Value>,
                    usage: int := 0, reserved: int := 0): (u: Usage)
    ensures u.spcResource == spcResource && u.category == category
    ensures u.usage == usage && u.reserved == reserved
    ensures u.authData.Keys == authData.Keys * spcResource.resource.service.authFields
    ensures forall k :: k in u.authData ==> u.authData[k] == authData[k]
  {
    Usage(spcResource, category, usage, reserved,
          Project(authData, spcResource.resource.service.authFields))
  }

  /**
    Where a `ServiceUser` refuses auth data that lacks a field of the service,
    a usage accepts the same data and records only what was supplied.
   */
  lemma UsageAcceptsWhatServiceUserRefuses(spcResource: SpecificResource, category: Category,
                                           authData: map<string, Value>, missing: string)
    requires missing in spcResource.resource.service.authFields && missing !in authData
    ensures NewServiceUser(spcResource.resource.service, authData).Err?
    ensures missing !in NewUsage(spcResource, category, authData).authData
    ensures NewUsage(spcResource, category, authData).authData.Keys < spcResource.resource.service.authFields
  {
  }

  /** Built from a service user's auth data, a usage of the same service keeps all of it unchanged. */
  lemma UsageOfServiceUserKeepsAuthData(user: ServiceUser, spcResource: SpecificResource, category: Category)
    requires spcResource.resource.service == user.service
    requires user.authData.Keys == user.service.authFields
    ensures NewUsage(spcResource, category, user.authData).authData == user.authData
  {
  }
}
