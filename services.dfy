/**
  Services, their quota categories and service users (boson/data_model/service.py).

  A service names the auth-data fields its users carry; a category picks, out
  of those fields, the ones that key a usage record and the field sets, most
  specific first, that key quota records; a service user is a service plus the
  caller's auth data restricted to the service's fields, all of them present.
 */
module Services {
  import opened Wrappers
  import opened Text
  import opened Values
  import opened Projection

  /** The elements of a Python list, as `set(...)` collects them. */
  function Elements(xs: seq<string>): (s: set<string>)
    ensures forall x :: x in s <==> x in xs
  {
    set x | x in xs
  }

  /** A category of quotas; fields are assigned once, when it is built. */
  datatype Category = Category(
    service: Service,
    name: string,
    usageFields: set<string>,
    quotaFieldsets: seq<set<string>>)

  /** Every field set a category uses is drawn from its service's auth fields. */
  ghost predicate FieldsDrawnFromService(c: Category)
  {
    && c.usageFields <= c.service.authFields
    && forall i :: 0 <= i < |c.quotaFieldsets| ==> c.quotaFieldsets[i] <= c.service.authFields
  }

  /** Each field set contains every later one: the list runs from most to least specific. */
  ghost predicate MostSpecificFirst(fieldsets: seq<set<string>>)
  {
    forall i, j :: 0 <= i < j < |fieldsets| ==> fieldsets[j] <= fieldsets[i]
  }

  /** `Category.__init__`: keep only the named fields the service knows about. */
  function NewCategory(service: Service, name: string, usageFields: seq<string>,
                       quotaFieldsets: seq<seq<string>>): (c: Category)
    ensures c.service == service && c.name == name
    ensures c.usageFields == Elements(usageFields) * service.authFields
    ensures |c.quotaFieldsets| == |quotaFieldsets|
    ensures forall i :: 0 <= i < |quotaFieldsets| ==>
              c.quotaFieldsets[i] == Elements(quotaFieldsets[i]) * service.authFields
    ensures FieldsDrawnFromService(c)
  {
    Category(
      service,
      name,
      set f | f in usageFields && f in service.authFields,
      seq(|quotaFieldsets|, i requires 0 <= i < |quotaFieldsets| =>
        set f | f in quotaFieldsets[i] && f in service.authFields))
  }

  /** Filtering keeps the most-specific-first order of the quota field sets. */
  lemma NewCategoryKeepsSpecificity(service: Service, name: string, usageFields: seq<string>,
                                    quotaFieldsets: seq<seq<string>>)
    requires forall i, j :: 0 <= i < j < |quotaFieldsets| ==>
               Elements(quotaFieldsets[j]) <= Elements(quotaFieldsets[i])
    ensures MostSpecificFirst(NewCategory(service, name, usageFields, quotaFieldsets).quotaFieldsets)
  {
    var c := NewCategory(service, name, usageFields, quotaFieldsets);
    forall i, j | 0 <= i < j < |c.quotaFieldsets|
      ensures c.quotaFieldsets[j] <= c.quotaFieldsets[i]
    {
      assert Elements(quotaFieldsets[j]) <= Elements(quotaFieldsets[i]);
    }
  }

  /** A service: its name and auth fields are fixed; its categories dict is updated in place. */
  class Service {
    const name: string
    const authFields: set<string>
    var categories: map<string, Category>

    /** `Service.__init__`: `auth_fields` becomes a set and there are no categories yet. */
    constructor (name: string, authFields: seq<string>)
      ensures this.name == name
      ensures this.authFields == Elements(authFields)
      ensures categories == map[]
    {
      this.name := name;
      this.authFields := Elements(authFields);
      categories := map[];
    }

    /** `add_category`: file the category under its name, replacing any earlier one of that name. */
    method AddCategory(category: Category)
      modifies this
      ensures category.name in categories && categories[category.name] == category
      ensures categories.Keys == old(categories).Keys + {category.name}
      ensures forall n :: n in old(categories) && n != category.name ==>
                categories[n] == old(categories)[n]
    {
      categories := categories[category.name := category];
    }
  }

  /** A service user: the service plus the caller's auth data for that service. */
  datatype ServiceUser = ServiceUser(service: Service, authData: map<string, Value>)

  /**
    `ServiceUser.__init__`: drop the auth data the service does not use, and
    raise `ValueError` naming, in sorted order, every auth field left without a value.
   */
  function NewServiceUser(service: Service, authData: map<string, Value>): (r: Result<ServiceUser, ValueError>)
    ensures r.Ok? <==> service.authFields <= authData.Keys
    ensures r.Ok? ==> r.value.service == service
    ensures r.Ok? ==> r.value.authData.Keys == service.authFields
    ensures r.Ok? ==> forall k :: k in r.value.authData ==> r.value.authData[k] == authData[k]
    ensures r.Err? ==> r.error.kind == AuthData
    ensures r.Err? ==> r.error.fields != [] && StrictlySorted(r.error.fields)
    ensures r.Err? ==> forall f :: f in r.error.fields <==> f in service.authFields && f !in authData
  {
    var filtered := Project(authData, service.authFields);
    var missing := service.authFields - filtered.Keys;
    if missing != {} then
      Err(MissingFields(AuthData, SortedKeys(missing)))
    else
      Ok(ServiceUser(service, filtered))
  }
}
