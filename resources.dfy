/**
  Resources and specific resources (boson/data_model/resource.py).

  A resource names the parameters that tell its instances apart; a specific
  resource supplies a value for each of them and is identified, for equality
  and hashing, by the canonical name `service/resource[/k=v...]`, parameters
  listed in key order.
 */
module Resources {
  import opened Wrappers
  import opened Text
  import opened Values
  import opened Projection
  import opened Services

  datatype Resource = Resource(service: Service, name: string, params: set<string>)

  /** `Resource.__init__`: the parameter names become a set; omitted or empty means none. */
  function NewResource(service: Service, name: string, params: Option<seq<string>> := None): (r: Resource)
    ensures r.service == service && r.name == name
    ensures forall p :: p in r.params <==> params.Some? && p in params.value
  {
    Resource(service, name, if params.Some? && params.value != [] then Elements(params.value) else {})
  }

  datatype SpecificResource = SpecificResource(resource: Resource, paramData: map<string, Value>, name: string)

  /** One `k=repr(v)` item of the canonical name. */
  function Item(k: string, v: Value): string
  {
    k + "=" + Repr(v)
  }

  /** The items for `keys`, in the order given. */
  function Items(keys: seq<string>, data: map<string, Value>): (items: seq<string>)
    requires forall k :: k in keys ==> k in data
    ensures |items| == |keys|
    ensures forall i :: 0 <= i < |keys| ==> items[i] == Item(keys[i], data[keys[i]])
  {
    seq(|keys|, i requires 0 <= i < |keys| => Item(keys[i], data[keys[i]]))
  }

  /** The `service/resource` part every canonical name starts with. */
  function BaseName(serviceName: string, resourceName: string): string
  {
    serviceName + "/" + resourceName
  }

  /** The canonical name: the base, then `/` and the items joined by `/`, keys sorted, if there are parameters. */
  function CanonicalName(serviceName: string, resourceName: string, data: map<string, Value>): string
  {
    var base := BaseName(serviceName, resourceName);
    if |data| == 0 then base
    else base + "/" + Join("/", Items(SortedKeys(data.Keys), data))
  }

  /** The base is always a prefix, and the name is the bare base exactly when there is no parameter data. */
  lemma CanonicalNameShape(serviceName: string, resourceName: string, data: map<string, Value>)
    ensures var name := CanonicalName(serviceName, resourceName, data);
            var base := BaseName(serviceName, resourceName);
            |base| <= |name| && name[..|base|] == base && (name == base <==> |data| == 0)
  {
    var name := CanonicalName(serviceName, resourceName, data);
    var base := BaseName(serviceName, resourceName);
    if |data| != 0 {
      assert |name| > |base|;
    }
  }

  /**
    Sorting the items of a dict, whatever order it iterates in, lists the keys
    in one and the same order; so any ascending listing of the keys spells the
    canonical name.
   */
  lemma CanonicalNameFromAnySortedListing(serviceName: string, resourceName: string,
                                          data: map<string, Value>, listing: seq<string>)
    requires |data| != 0
    requires StrictlySorted(listing)
    requires forall k :: k in listing <==> k in data
    ensures CanonicalName(serviceName, resourceName, data)
            == BaseName(serviceName, resourceName) + "/" + Join("/", Items(listing, data))
  {
    SortedUnique(listing, SortedKeys(data.Keys));
  }

  /**
    `SpecificResource.__init__`: treat omitted or empty parameter data as `{}`,
    drop the parameters the resource does not name, raise `ValueError` naming,
    in sorted order, every parameter left without a value, and otherwise build
    the canonical name from the kept data.
   */
  function NewSpecificResource(resource: Resource, paramData: Option<map<string, Value>> := None)
    : (r: Result<SpecificResource, ValueError>)
    ensures var given := if paramData.Some? then paramData.value else map[];
            && (r.Ok? <==> resource.params <= given.Keys)
            && (r.Ok? ==> r.value.resource == resource)
            && (r.Ok? ==> r.value.paramData.Keys == resource.params)
            && (r.Ok? ==> forall k :: k in r.value.paramData ==> r.value.paramData[k] == given[k])
            && (r.Ok? ==> r.value.name == CanonicalName(resource.service.name, resource.name, r.value.paramData))
            && (r.Err? ==> r.error.kind == ParameterData && r.error.fields != [])
            && (r.Err? ==> StrictlySorted(r.error.fields))
            && (r.Err? ==> forall f :: f in r.error.fields <==> f in resource.params && f !in given)
  {
    var given := if paramData.Some? && |paramData.value| != 0 then paramData.value else map[];
    var filtered := Project(given, resource.params);
    var missing := resource.params - filtered.Keys;
    if missing != {} then
      Err(MissingFields(ParameterData, SortedKeys(missing)))
    else
      Ok(SpecificResource(resource, filtered, CanonicalName(resource.service.name, resource.name, filtered)))
  }

  /** `__eq__`: same canonical name. */
  predicate Eq(a: SpecificResource, b: SpecificResource)
  {
    a.name == b.name
  }

  /** `__ne__`: different canonical names. */
  predicate Ne(a: SpecificResource, b: SpecificResource)
  {
    a.name != b.name
  }

  /** `__hash__`: the string hash `h` of the canonical name. */
  function Hash(a: SpecificResource, h: string -> int): int
  {
    h(a.name)
  }

  /** `!=` is the negation of `==`, `==` is an equivalence, and equal resources hash alike under any string hash. */
  lemma EqualityContract(a: SpecificResource, b: SpecificResource, c: SpecificResource, h: string -> int)
    ensures Ne(a, b) == !Eq(a, b)
    ensures Eq(a, a)
    ensures Eq(a, b) ==> Eq(b, a)
    ensures Eq(a, b) && Eq(b, c) ==> Eq(a, c)
    ensures Eq(a, b) ==> Hash(a, h) == Hash(b, h)
  {
  }

  /**
    The name, and so equality, sees only the parameters the resource names:
    two inputs that agree on those give equal specific resources.
   */
  lemma EqualityIgnoresExtraParameters(resource: Resource, d1: map<string, Value>, d2: map<string, Value>)
    requires resource.params <= d1.Keys && resource.params <= d2.Keys
    requires forall k :: k in resource.params ==> d1[k] == d2[k]
    ensures NewSpecificResource(resource, Some(d1)).Ok?
    ensures NewSpecificResource(resource, Some(d2)).Ok?
    ensures NewSpecificResource(resource, Some(d1)).value == NewSpecificResource(resource, Some(d2)).value
  {
    ProjectIgnoresOtherKeys(d1, d2, resource.params);
  }

  /**
    Equality is by name only: a resource `b/c` of service `a` and a resource `c`
    of service `a/b` are equal although they are different resources.
   */
  lemma DistinctResourcesMayCompareEqual(s1: Service, s2: Service)
    requires s1.name == "a" && s2.name == "a/b"
    ensures var r1 := NewSpecificResource(Resource(s1, "b/c", {}));
            var r2 := NewSpecificResource(Resource(s2, "c", {}));
            r1.Ok? && r2.Ok? && r1.value != r2.value && Eq(r1.value, r2.value)
  {
    var r1 := NewSpecificResource(Resource(s1, "b/c", {}));
    var r2 := NewSpecificResource(Resource(s2, "c", {}));
    assert r1.value.name == "a/b/c";
    assert r2.value.name == "a/b/c";
    assert r1.value.resource.name != r2.value.resource.name;
  }
}
