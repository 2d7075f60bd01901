/**
  The model layer over the database API (boson/db/models.py).

  A model class has simple fields and references to other model classes; the
  metaclass turns the declared reference list into a table and inherits both
  from the base classes. A model object wraps an object of the backend: it
  keeps the field values it read, resolves references lazily through the API
  and caches them, and writes changes back through the API's `_save`.
 */
module Models {
  import opened Wrappers
  import opened Values
  import opened Projection
  import opened Contexts
  import Api

  // ---------------------------------------------------------------------------
  // References and model classes

  /**
    A declared reference: `Ref` names one object whose id sits in the field
    `<field>_id`; `ListRef` names a list of objects. `klass` is the name of the
    referenced model class.
   */
  datatype RefDecl = Ref(field: string, klass: string) | ListRef(field: string, klass: string)

  /** `Ref.base_field`: the field holding the referenced object's id. */
  function BaseField(field: string): (f: string)
    ensures |f| == |field| + 3 && f[..|field|] == field && f[|field|..] == "_id"
  {
    field + "_id"
  }

  /**
    The reference `name[:-3]` whose cached object a change of the field `name`
    makes stale, when `name` ends in `_id`.
   */
  function IdTarget(name: string): (t: Option<string>)
    ensures t.Some? <==> |name| >= 3 && name[|name| - 3..] == "_id"
    ensures t.Some? ==> BaseField(t.value) == name
  {
    if |name| >= 3 && name[|name| - 3..] == "_id" then Some(name[..|name| - 3]) else None
  }

  /** Changing a reference's base field makes exactly that reference stale. */
  lemma IdTargetOfBaseField(field: string)
    ensures IdTarget(BaseField(field)) == Some(field)
  {
    var n := BaseField(field);
    assert n[..|n| - 3] == field;
  }

  /** The attributes of a model class: `_fields` and the table `_refs`. */
  datatype ModelClass = ModelClass(name: string, fields: set<string>, refs: map<string, RefDecl>)

  /** The declared reference list as a table keyed by field, a later declaration replacing an earlier one. */
  function RefTable(decls: seq<RefDecl>): (t: map<string, RefDecl>)
    ensures forall f :: f in t ==> t[f].field == f
  {
    if decls == [] then map[]
    else RefTable(decls[..|decls| - 1])[decls[|decls| - 1].field := decls[|decls| - 1]]
  }

  /** The table holds a key for each declared field and nothing else. */
  lemma {:induction false} RefTableKeys(decls: seq<RefDecl>)
    ensures forall f :: f in RefTable(decls) <==> exists i :: 0 <= i < |decls| && decls[i].field == f
  {
    if decls != [] {
      var n := |decls| - 1;
      var init := decls[..n];
      RefTableKeys(init);
      forall f
        ensures f in RefTable(decls) <==> exists i :: 0 <= i < |decls| && decls[i].field == f
      {
        if f in RefTable(init) {
          var i :| 0 <= i < |init| && init[i].field == f;
          assert decls[i] == init[i];
        }
        if i :| 0 <= i < n && decls[i].field == f {
          assert init[i] == decls[i];
        }
      }
    }
  }

  /** Under each key the table holds the last declaration of that field. */
  lemma {:induction false} RefTableLastWins(decls: seq<RefDecl>)
    ensures forall i :: 0 <= i < |decls| && (forall j :: i < j < |decls| ==> decls[j].field != decls[i].field)
              ==> decls[i].field in RefTable(decls) && RefTable(decls)[decls[i].field] == decls[i]
  {
    if decls != [] {
      var n := |decls| - 1;
      var init := decls[..n];
      RefTableLastWins(init);
      forall i | 0 <= i < n && (forall j :: i < j < |decls| ==> decls[j].field != decls[i].field)
        ensures decls[i].field in RefTable(decls) && RefTable(decls)[decls[i].field] == decls[i]
      {
        assert init[i] == decls[i];
        assert forall j :: i < j < |init| ==> init[j] == decls[j];
        assert decls[n].field != decls[i].field;
      }
    }
  }

  /** One round of `inherit_set` and `inherit_dict`: add the base's fields, and its references not yet present. */
  function InheritFrom(cls: ModelClass, base: ModelClass): ModelClass
  {
    ModelClass(cls.name, cls.fields + base.fields, base.refs + cls.refs)
  }

  /** Inheritance over the bases in order, one base at a time. */
  function Inherit(cls: ModelClass, bases: seq<ModelClass>): (r: ModelClass)
    ensures r.name == cls.name
    ensures cls.fields <= r.fields && cls.refs.Keys <= r.refs.Keys
    decreases |bases|
  {
    if bases == [] then cls
    else Inherit(InheritFrom(cls, bases[0]), bases[1..])
  }

  /** The inherited fields are the union of the class's own and all the bases' fields. */
  lemma {:induction false} InheritFields(cls: ModelClass, bases: seq<ModelClass>)
    ensures forall f :: f in Inherit(cls, bases).fields <==>
              f in cls.fields || exists i :: 0 <= i < |bases| && f in bases[i].fields
    decreases |bases|
  {
    if bases != [] {
      InheritFields(InheritFrom(cls, bases[0]), bases[1..]);
      forall f
        ensures (exists i :: 0 <= i < |bases| && f in bases[i].fields) <==>
                f in bases[0].fields || exists i :: 0 <= i < |bases[1..]| && f in bases[1..][i].fields
      {
        if i :| 1 <= i < |bases| && f in bases[i].fields {
          assert bases[1..][i - 1] == bases[i];
        }
      }
    }
  }

  /** An inherited reference is one of the class or of some base. */
  lemma {:induction false} InheritRefKeys(cls: ModelClass, bases: seq<ModelClass>)
    ensures forall f :: f in Inherit(cls, bases).refs <==>
              f in cls.refs || exists i :: 0 <= i < |bases| && f in bases[i].refs
    decreases |bases|
  {
    if bases != [] {
      InheritRefKeys(InheritFrom(cls, bases[0]), bases[1..]);
      forall f
        ensures (exists i :: 0 <= i < |bases| && f in bases[i].refs) <==>
                f in bases[0].refs || exists i :: 0 <= i < |bases[1..]| && f in bases[1..][i].refs
      {
        if i :| 1 <= i < |bases| && f in bases[i].refs {
          assert bases[1..][i - 1] == bases[i];
        }
      }
    }
  }

  /** A reference the class declares itself is never replaced by an inherited one. */
  lemma {:induction false} InheritKeepsOwnRefs(cls: ModelClass, bases: seq<ModelClass>)
    ensures forall f :: f in cls.refs ==> Inherit(cls, bases).refs[f] == cls.refs[f]
    decreases |bases|
  {
    if bases != [] {
      InheritKeepsOwnRefs(InheritFrom(cls, bases[0]), bases[1..]);
    }
  }

  /** A reference the class does not declare comes from the first base that has it. */
  lemma {:induction false} InheritFirstBaseWins(cls: ModelClass, bases: seq<ModelClass>, i: nat, f: string)
    requires i < |bases| && f !in cls.refs && f in bases[i].refs
    requires forall j :: 0 <= j < i ==> f !in bases[j].refs
    ensures f in Inherit(cls, bases).refs && Inherit(cls, bases).refs[f] == bases[i].refs[f]
    decreases |bases|
  {
    var next := InheritFrom(cls, bases[0]);
    if i == 0 {
      InheritKeepsOwnRefs(next, bases[1..]);
    } else {
      assert f !in bases[0].refs;
      assert bases[1..][i - 1] == bases[i];
      forall j | 0 <= j < i - 1
        ensures f !in bases[1..][j].refs
      {
        assert bases[1..][j] == bases[j + 1];
      }
      InheritFirstBaseWins(next, bases[1..], i - 1, f);
    }
  }

  /**
    `BaseModelMeta.__new__`: build the reference table from the declared list
    (empty when absent), take the declared fields (empty when absent), then
    inherit from each base in turn.
   */
  method NewModelClass(name: string, bases: seq<ModelClass>, fields: Option<set<string>>, decls: seq<RefDecl>)
    returns (cls: ModelClass)
    ensures cls == Inherit(ModelClass(name, if fields.Some? then fields.value else {}, RefTable(decls)), bases)
  {
    var refs: map<string, RefDecl> := map[];
    var i := 0;
    while i < |decls|
      invariant 0 <= i <= |decls|
      invariant refs == RefTable(decls[..i])
    {
      assert decls[..i + 1][..i] == decls[..i] && decls[..i + 1][i] == decls[i];
      refs := refs[decls[i].field := decls[i]];
      i := i + 1;
    }
    assert decls[..|decls|] == decls;
    cls := ModelClass(name, if fields.Some? then fields.value else {}, refs);
    ghost var start := cls;
    var k := 0;
    while k < |bases|
      invariant 0 <= k <= |bases|
      invariant Inherit(cls, bases[k..]) == Inherit(start, bases)
    {
      assert bases[k..][1..] == bases[k + 1..];
      cls := ModelClass(cls.name, cls.fields + bases[k].fields, bases[k].refs + cls.refs);
      k := k + 1;
    }
  }

  /** The fields every model inherits from `BaseModel`. */
  const AuditFields: set<string> := {"created_at", "updated_at", "id"}

  const BaseModelClass: ModelClass := ModelClass("BaseModel", AuditFields, map[])

  /** A model class declared directly on `BaseModel`. */
  function Declared(name: string, fields: set<string>, decls: seq<RefDecl>): ModelClass
  {
    Inherit(ModelClass(name, fields, RefTable(decls)), [BaseModelClass])
  }

  const ServiceModel: ModelClass :=
    Declared("Service", {"name", "auth_fields"},
             [ListRef("categories", "Category"), ListRef("resources", "Resource")])

  const CategoryModel: ModelClass :=
    Declared("Category", {"service_id", "name", "usage_fset", "quota_fsets"},
             [Ref("service", "Service"), ListRef("resources", "Resource")])

  const ResourceModel: ModelClass :=
    Declared("Resource", {"service_id", "category_id", "name", "parameters", "absolute"},
             [Ref("service", "Service"), Ref("category", "Category"), ListRef("usages", "Usage"),
              ListRef("quotas", "Quota"), ListRef("reserved_items", "ReservedItem")])

  const UsageModel: ModelClass :=
    Declared("Usage", {"resource_id", "parameter_data", "auth_data", "used", "reserved", "until_refresh", "refresh_id"},
             [Ref("resource", "Resource"), ListRef("reserved_items", "ReservedItem")])

  const QuotaModel: ModelClass :=
    Declared("Quota", {"resource_id", "auth_data", "limit"}, [Ref("resource", "Resource")])

  const ReservationModel: ModelClass :=
    Declared("Reservation", {"expire"}, [ListRef("reserved_items", "ReservedItem")])

  const ReservedItemModel: ModelClass :=
    Declared("ReservedItem", {"reservation_id", "resource_id", "usage_id", "delta"},
             [Ref("reservation", "Reservation"), Ref("resource", "Resource"), Ref("usage", "Usage")])

  /**
    A model class the item protocol can serve consistently: no name is both a
    field and a reference, each table entry is keyed by its own field, and
    every single reference has its id field among the fields.
   */
  predicate WellFormed(cls: ModelClass)
  {
    && cls.fields !! cls.refs.Keys
    && (forall f :: f in cls.refs ==> cls.refs[f].field == f)
    && (forall f :: f in cls.refs && cls.refs[f].Ref? ==> BaseField(f) in cls.fields)
  }

  /** The fields and the reference table of a class declared on `BaseModel`. */
  lemma DeclaredShape(name: string, fields: set<string>, decls: seq<RefDecl>)
    ensures Declared(name, fields, decls).fields == fields + AuditFields
    ensures Declared(name, fields, decls).refs == RefTable(decls)
  {
    var own := ModelClass(name, fields, RefTable(decls));
    assert [BaseModelClass][1..] == [];
    assert Declared(name, fields, decls) == Inherit(InheritFrom(own, BaseModelClass), []);
    assert BaseModelClass.refs + RefTable(decls) == RefTable(decls);
  }

  /** A class declared on `BaseModel` with distinct references, none named like a field, each single one backed by an id field, is well formed and has the audit fields. */
  lemma DeclaredWellFormed(name: string, fields: set<string>, decls: seq<RefDecl>)
    requires forall i, j :: 0 <= i < j < |decls| ==> decls[i].field != decls[j].field
    requires forall i :: 0 <= i < |decls| ==> decls[i].field !in fields + AuditFields
    requires forall i :: 0 <= i < |decls| && decls[i].Ref? ==> BaseField(decls[i].field) in fields
    ensures WellFormed(Declared(name, fields, decls))
    ensures AuditFields <= Declared(name, fields, decls).fields
  {
    DeclaredShape(name, fields, decls);
    RefTableKeys(decls);
    RefTableLastWins(decls);
    var t := RefTable(decls);
    forall f | f in t && t[f].Ref?
      ensures BaseField(f) in fields
    {
      var i :| 0 <= i < |decls| && decls[i].field == f;
      assert t[f] == decls[i];
    }
  }

  lemma ServiceModelWellFormed()
    ensures WellFormed(ServiceModel) && AuditFields <= ServiceModel.fields
  {
    DeclaredWellFormed("Service", {"name", "auth_fields"},
                       [ListRef("categories", "Category"), ListRef("resources", "Resource")]);
  }

  lemma CategoryModelWellFormed()
    ensures WellFormed(CategoryModel) && AuditFields <= CategoryModel.fields
  {
    assert BaseField("service") == "service_id";
    DeclaredWellFormed("Category", {"service_id", "name", "usage_fset", "quota_fsets"},
                       [Ref("service", "Service"), ListRef("resources", "Resource")]);
  }

  lemma ResourceModelWellFormed()
    ensures WellFormed(ResourceModel) && AuditFields <= ResourceModel.fields
  {
    assert BaseField("service") == "service_id" && BaseField("category") == "category_id";
    DeclaredWellFormed("Resource", {"service_id", "category_id", "name", "parameters", "absolute"},
                       [Ref("service", "Service"), Ref("category", "Category"), ListRef("usages", "Usage"),
                        ListRef("quotas", "Quota"), ListRef("reserved_items", "ReservedItem")]);
  }

  lemma UsageModelWellFormed()
    ensures WellFormed(UsageModel) && AuditFields <= UsageModel.fields
  {
    assert BaseField("resource") == "resource_id";
    DeclaredWellFormed("Usage", {"resource_id", "parameter_data", "auth_data", "used", "reserved", "until_refresh", "refresh_id"},
                       [Ref("resource", "Resource"), ListRef("reserved_items", "ReservedItem")]);
  }

  lemma QuotaModelWellFormed()
    ensures WellFormed(QuotaModel) && AuditFields <= QuotaModel.fields
  {
    assert BaseField("resource") == "resource_id";
    DeclaredWellFormed("Quota", {"resource_id", "auth_data", "limit"}, [Ref("resource", "Resource")]);
  }

  lemma ReservationModelWellFormed()
    ensures WellFormed(ReservationModel) && AuditFields <= ReservationModel.fields
  {
    DeclaredWellFormed("Reservation", {"expire"}, [ListRef("reserved_items", "ReservedItem")]);
  }

  lemma ReservedItemModelWellFormed()
    ensures WellFormed(ReservedItemModel) && AuditFields <= ReservedItemModel.fields
  {
    assert BaseField("reservation") == "reservation_id" && BaseField("resource") == "resource_id";
    assert BaseField("usage") == "usage_id";
    DeclaredWellFormed("ReservedItem", {"reservation_id", "resource_id", "usage_id", "delta"},
                       [Ref("reservation", "Reservation"), Ref("resource", "Resource"), Ref("usage", "Usage")]);
  }

  /** The `Category` model: its seven fields, the single reference `service` and the list `resources`. */
  lemma CategoryModelShape()
    ensures BaseField("service") == "service_id"
    ensures CategoryModel.fields == {"service_id", "name", "usage_fset", "quota_fsets", "created_at", "updated_at", "id"}
    ensures CategoryModel.refs == map["service" := Ref("service", "Service"), "resources" := ListRef("resources", "Resource")]
  {
    var decls := [Ref("service", "Service"), ListRef("resources", "Resource")];
    DeclaredShape("Category", {"service_id", "name", "usage_fset", "quota_fsets"}, decls);
    assert decls[..1] == [Ref("service", "Service")];
    assert decls[..1][..0] == [];
    assert RefTable(decls[..1]) == map["service" := Ref("service", "Service")];
    assert BaseField("service") == "service_id";
  }

  // ---------------------------------------------------------------------------
  // Model objects: state, single assignment and multi-field update

  /** What the model raises. */
  datatype ModelError =
    | KeyError(key: string)
    | AttributeError(message: string)
    | IndexError
    | AmbiguousFieldUpdate(field: string)
    | NameError(name: string)

  /** `repr` of a name, as the attribute error messages print it. */
  function Quoted(name: string): string
  {
    Repr(StrV(name))
  }

  /**
    The state a model object's operations change: the backend object's
    attributes, the field values (`_values`) and the reference cache (`_cache`).
   */
  datatype ModelState = ModelState(attrs: map<string, Datum>, values: map<string, Datum>, cache: map<string, Datum>)

  /** Every field has a value, and only references are cached. */
  predicate ValidState(cls: ModelClass, s: ModelState)
  {
    cls.fields <= s.values.Keys && s.cache.Keys <= cls.refs.Keys
  }

  /** Whether `name = value` can be set: a field, or a single reference given an object with an `id`. */
  predicate Settable(cls: ModelClass, name: string, value: Datum)
  {
    name in cls.fields || (name in cls.refs && cls.refs[name].Ref? && value.Model?)
  }

  /** The key a setting of `name` writes: the field itself, or the id field of the reference. */
  function Target(cls: ModelClass, name: string): string
  {
    if name in cls.fields then name
    else if name in cls.refs then BaseField(cls.refs[name].field)
    else name
  }

  /** The value a setting of `name` writes: the value itself for a field, the object's id for a reference. */
  function Stored(cls: ModelClass, name: string, value: Datum): Datum
  {
    if name !in cls.fields && value.Model? then Scalar(value.obj.id) else value
  }

  /** `__setitem__` on the state, apart from the backend `_save` it issues on success. */
  function Assign(cls: ModelClass, s: ModelState, name: string, value: Datum): (r: Result<ModelState, ModelError>)
    ensures r.Ok? <==> Settable(cls, name, value)
    ensures r.Err? ==> r.error == if name in cls.refs && cls.refs[name].Ref? then AttributeError("id") else KeyError(name)
    ensures r.Ok? ==> r.value.attrs == s.attrs[Target(cls, name) := Stored(cls, name, value)]
    ensures r.Ok? ==> r.value.values == s.values[Target(cls, name) := Stored(cls, name, value)]
    ensures r.Ok? && name in cls.fields ==>
              r.value.cache == if IdTarget(name).Some? then s.cache - {IdTarget(name).value} else s.cache
    ensures r.Ok? && name !in cls.fields ==> r.value.cache == s.cache[name := value]
  {
    if name in cls.fields then
      var cache := if IdTarget(name).Some? then s.cache - {IdTarget(name).value} else s.cache;
      Ok(ModelState(s.attrs[name := value], s.values[name := value], cache))
    else if name in cls.refs && cls.refs[name].Ref? then
      if !value.Model? then Err(AttributeError("id"))
      else
        var baseField := BaseField(cls.refs[name].field);
        var id := Scalar(value.obj.id);
        Ok(ModelState(s.attrs[baseField := id], s.values[baseField := id], s.cache[name := value]))
    else Err(KeyError(name))
  }

  /** Setting a field or a reference keeps a valid state valid. */
  lemma AssignKeepsValid(cls: ModelClass, s: ModelState, name: string, value: Datum)
    requires ValidState(cls, s)
    ensures Assign(cls, s, name, value).Ok? ==> ValidState(cls, Assign(cls, s, name, value).value)
  {
  }

  /**
    Setting the id field of a reference drops the cached object, so the next
    read resolves it again; setting the reference caches the object given.
   */
  lemma AssignRefreshesCache(cls: ModelClass, s: ModelState, field: string, value: Datum)
    requires WellFormed(cls) && field in cls.refs && cls.refs[field].Ref?
    ensures Assign(cls, s, BaseField(field), value).Ok?
    ensures field !in Assign(cls, s, BaseField(field), value).value.cache
    ensures value.Model? ==> Assign(cls, s, field, value).Ok?
    ensures value.Model? ==> Assign(cls, s, field, value).value.cache[field] == value
    ensures value.Model? ==> Assign(cls, s, field, value).value.values[BaseField(field)] == Scalar(value.obj.id)
  {
    IdTargetOfBaseField(field);
  }

  /** How `update` stores a reference's id: under the reference's own name (as written) or under its id field. */
  datatype UpdateMode = AsWritten | Corrected

  /**
    What `update` has gathered so far: the values to set (`values`), the
    objects to cache (`cache`) and the references to drop from the cache (`stale`).
   */
  datatype Plan = Plan(values: map<string, Datum>, cache: map<string, Datum>, stale: set<string>)

  /** The exception raised for a field named twice: as written the exception class is not imported. */
  function Ambiguous(mode: UpdateMode, field: string): ModelError
  {
    if mode == AsWritten then NameError("AmbiguousFieldUpdate") else AmbiguousFieldUpdate(field)
  }

  /** One keyword argument of `update`, checked and added to the plan. */
  function CollectStep(cls: ModelClass, mode: UpdateMode, plan: Plan, name: string, value: Datum)
    : Result<Plan, ModelError>
  {
    if name in cls.fields then
      if name in plan.values then Err(Ambiguous(mode, name))
      else
        var stale := if IdTarget(name).Some? then plan.stale + {IdTarget(name).value} else plan.stale;
        Ok(Plan(plan.values[name := value], plan.cache, stale))
    else if name in cls.refs && cls.refs[name].Ref? then
      var baseField := BaseField(cls.refs[name].field);
      if baseField in plan.values then Err(Ambiguous(mode, baseField))
      else if !value.Model? then Err(AttributeError("id"))
      else
        var key := if mode == AsWritten then name else baseField;
        Ok(Plan(plan.values[key := Scalar(value.obj.id)], plan.cache[name := value], plan.stale))
    else Err(KeyError(name))
  }

  /**
    One argument never takes back a planned key, a field argument is always
    planned, and a field, or a single reference, whose key is already planned
    raises the ambiguity error.
   */
  lemma CollectStepRules(cls: ModelClass, mode: UpdateMode, plan: Plan, name: string, value: Datum)
    ensures var r := CollectStep(cls, mode, plan, name, value);
            && (r.Ok? ==> plan.values.Keys <= r.value.values.Keys)
            && (r.Ok? && name in cls.fields ==> name in r.value.values)
            && (name in cls.fields && name in plan.values ==> r == Err(Ambiguous(mode, name)))
            && (name !in cls.fields && name in cls.refs && cls.refs[name].Ref?
                  && BaseField(cls.refs[name].field) in plan.values
                ==> r == Err(Ambiguous(mode, BaseField(cls.refs[name].field))))
  {
  }

  /**
    The validation pass of `update` over its keyword arguments in iteration
    order: the first failing argument decides the error, otherwise the plan.
   */
  function Collect(cls: ModelClass, kwargs: seq<(string, Datum)>, mode: UpdateMode): (r: Result<Plan, ModelError>)
    ensures r.Ok? ==> r.value.cache.Keys <= cls.refs.Keys
  {
    if kwargs == [] then Ok(Plan(map[], map[], {}))
    else
      var init := kwargs[..|kwargs| - 1];
      match Collect(cls, init, mode)
      case Err(e) => Err(e)
      case Ok(p) => CollectStep(cls, mode, p, kwargs[|kwargs| - 1].0, kwargs[|kwargs| - 1].1)
  }

  /** Once an argument fails, the later ones do not matter. */
  lemma {:induction false} CollectErrSticky(cls: ModelClass, kwargs: seq<(string, Datum)>, n: nat, mode: UpdateMode)
    requires n <= |kwargs|
    requires Collect(cls, kwargs[..n], mode).Err?
    ensures Collect(cls, kwargs, mode) == Collect(cls, kwargs[..n], mode)
    decreases |kwargs|
  {
    if n < |kwargs| {
      var init := kwargs[..|kwargs| - 1];
      assert init[..n] == kwargs[..n];
      CollectErrSticky(cls, init, n, mode);
    } else {
      assert kwargs[..n] == kwargs;
    }
  }

  /**
    In either mode, `update` refuses its arguments as soon as one of them
    cannot be set: an unknown name, a list reference, or a value without an `id`.
   */
  lemma {:induction false} CollectRejectsUnsettable(cls: ModelClass, kwargs: seq<(string, Datum)>, mode: UpdateMode)
    requires exists i :: 0 <= i < |kwargs| && !Settable(cls, kwargs[i].0, kwargs[i].1)
    ensures Collect(cls, kwargs, mode).Err?
    decreases |kwargs|
  {
    var n := |kwargs| - 1;
    var init := kwargs[..n];
    CollectSnoc(cls, kwargs, mode);
    if Settable(cls, kwargs[n].0, kwargs[n].1) {
      var i :| 0 <= i < |kwargs| && !Settable(cls, kwargs[i].0, kwargs[i].1);
      assert init[i] == kwargs[i];
      CollectRejectsUnsettable(cls, init, mode);
    }
  }

  /**
    In either mode, the first argument that names neither a field nor a single
    reference makes `update` raise `KeyError` naming it, whatever follows.
   */
  lemma CollectUnknownIsKeyError(cls: ModelClass, kwargs: seq<(string, Datum)>, k: nat, mode: UpdateMode)
    requires k < |kwargs| && Collect(cls, kwargs[..k], mode).Ok?
    requires kwargs[k].0 !in cls.fields
    requires !(kwargs[k].0 in cls.refs && cls.refs[kwargs[k].0].Ref?)
    ensures Collect(cls, kwargs, mode) == Err(KeyError(kwargs[k].0))
  {
    var upto := kwargs[..k + 1];
    assert upto[..k] == kwargs[..k] && upto[k] == kwargs[k];
    CollectSnoc(cls, upto, mode);
    CollectErrSticky(cls, kwargs, k + 1, mode);
  }

  /** In either mode, every field an accepted `update` names is among the keys it writes. */
  lemma {:induction false} CollectWritesFieldArgs(cls: ModelClass, kwargs: seq<(string, Datum)>, mode: UpdateMode)
    requires Collect(cls, kwargs, mode).Ok?
    ensures forall j :: 0 <= j < |kwargs| && kwargs[j].0 in cls.fields ==>
              kwargs[j].0 in Collect(cls, kwargs, mode).value.values
    decreases |kwargs|
  {
    if kwargs != [] {
      var n := |kwargs| - 1;
      var init := kwargs[..n];
      CollectSnoc(cls, kwargs, mode);
      CollectWritesFieldArgs(cls, init, mode);
      CollectStepRules(cls, mode, Collect(cls, init, mode).value, kwargs[n].0, kwargs[n].1);
      forall j | 0 <= j < n && kwargs[j].0 in cls.fields
        ensures kwargs[j].0 in Collect(cls, kwargs, mode).value.values
      {
        assert init[j] == kwargs[j];
      }
    }
  }

  /**
    In either mode, a single reference that arrives after its id field was
    already collected makes `update` raise the ambiguity error for that field,
    whatever follows; as written, the error is `NameError`.
   */
  lemma CollectRefAfterItsField(cls: ModelClass, kwargs: seq<(string, Datum)>, j: nat, k: nat, mode: UpdateMode)
    requires j < k < |kwargs| && Collect(cls, kwargs[..k], mode).Ok?
    requires kwargs[k].0 !in cls.fields && kwargs[k].0 in cls.refs && cls.refs[kwargs[k].0].Ref?
    requires kwargs[j].0 == BaseField(cls.refs[kwargs[k].0].field) && kwargs[j].0 in cls.fields
    ensures Collect(cls, kwargs, mode) == Err(Ambiguous(mode, kwargs[j].0))
  {
    var prefix := kwargs[..k];
    CollectWritesFieldArgs(cls, prefix, mode);
    assert prefix[j] == kwargs[j];
    var upto := kwargs[..k + 1];
    assert upto[..k] == prefix && upto[k] == kwargs[k];
    CollectSnoc(cls, upto, mode);
    CollectStepRules(cls, mode, Collect(cls, prefix, mode).value, kwargs[k].0, kwargs[k].1);
    CollectErrSticky(cls, kwargs, k + 1, mode);
  }

  /** The keys the arguments write under the corrected `update`. */
  function Targets(cls: ModelClass, kwargs: seq<(string, Datum)>): set<string>
  {
    set i | 0 <= i < |kwargs| :: Target(cls, kwargs[i].0)
  }

  /** Every argument can be set and no two of them write the same key. */
  predicate Acceptable(cls: ModelClass, kwargs: seq<(string, Datum)>)
  {
    && (forall i :: 0 <= i < |kwargs| ==> Settable(cls, kwargs[i].0, kwargs[i].1))
    && (forall i, j :: 0 <= i < j < |kwargs| ==> Target(cls, kwargs[i].0) != Target(cls, kwargs[j].0))
  }

  /** Extending the arguments by one keeps them acceptable exactly when the new one can be set and writes a new key. */
  lemma AcceptableSnoc(cls: ModelClass, kwargs: seq<(string, Datum)>)
    requires kwargs != []
    ensures var init := kwargs[..|kwargs| - 1];
            var last := kwargs[|kwargs| - 1];
            Acceptable(cls, kwargs) <==>
              Acceptable(cls, init) && Settable(cls, last.0, last.1) && Target(cls, last.0) !in Targets(cls, init)
  {
    var init := kwargs[..|kwargs| - 1];
    assert forall i :: 0 <= i < |init| ==> init[i] == kwargs[i];
  }

  /** One corrected step on a plan that has written exactly `written`. */
  lemma CorrectedStep(cls: ModelClass, p: Plan, name: string, value: Datum)
    ensures var c := CollectStep(cls, Corrected, p, name, value);
            && (c.Ok? <==> Settable(cls, name, value) && Target(cls, name) !in p.values)
            && (c.Ok? ==> c.value.values == p.values[Target(cls, name) := Stored(cls, name, value)])
  {
  }

  /** `Collect` on a non-empty argument list: the shorter list's error, or one more step. */
  lemma CollectSnoc(cls: ModelClass, kwargs: seq<(string, Datum)>, mode: UpdateMode)
    requires kwargs != []
    ensures var init := Collect(cls, kwargs[..|kwargs| - 1], mode);
            var last := kwargs[|kwargs| - 1];
            Collect(cls, kwargs, mode) == if init.Err? then init else CollectStep(cls, mode, init.value, last.0, last.1)
  {
  }

  lemma TargetsSnoc(cls: ModelClass, kwargs: seq<(string, Datum)>)
    requires kwargs != []
    ensures Targets(cls, kwargs) == Targets(cls, kwargs[..|kwargs| - 1]) + {Target(cls, kwargs[|kwargs| - 1].0)}
  {
    var init := kwargs[..|kwargs| - 1];
    assert forall i :: 0 <= i < |init| ==> init[i] == kwargs[i];
  }

  /**
    The corrected `update` accepts its arguments exactly when each can be set
    and no two write the same key, whatever order they come in; the keys it
    writes are then those of its arguments.
   */
  lemma {:induction false} CollectCorrected(cls: ModelClass, kwargs: seq<(string, Datum)>)
    ensures var c := Collect(cls, kwargs, Corrected);
            && (c.Ok? <==> Acceptable(cls, kwargs))
            && (c.Ok? ==> c.value.values.Keys == Targets(cls, kwargs))
    decreases |kwargs|
  {
    if kwargs != [] {
      var n := |kwargs| - 1;
      var init := kwargs[..n];
      CollectCorrected(cls, init);
      AcceptableSnoc(cls, kwargs);
      CollectSnoc(cls, kwargs, Corrected);
      TargetsSnoc(cls, kwargs);
      var ci := Collect(cls, init, Corrected);
      if ci.Ok? {
        CorrectedStep(cls, ci.value, kwargs[n].0, kwargs[n].1);
      }
    }
  }

  /** The corrected `update` writes each argument's value, or the object's id, under the argument's key. */
  lemma {:induction false} CollectCorrectedValues(cls: ModelClass, kwargs: seq<(string, Datum)>)
    requires Collect(cls, kwargs, Corrected).Ok?
    ensures forall i :: 0 <= i < |kwargs| ==>
              && Target(cls, kwargs[i].0) in Collect(cls, kwargs, Corrected).value.values
              && Collect(cls, kwargs, Corrected).value.values[Target(cls, kwargs[i].0)] == Stored(cls, kwargs[i].0, kwargs[i].1)
    decreases |kwargs|
  {
    if kwargs != [] {
      var n := |kwargs| - 1;
      var init := kwargs[..n];
      var ci := Collect(cls, init, Corrected);
      var c := Collect(cls, kwargs, Corrected);
      assert ci.Ok?;
      CollectCorrectedValues(cls, init);
      CollectCorrected(cls, kwargs);
      CorrectedStep(cls, ci.value, kwargs[n].0, kwargs[n].1);
      forall i | 0 <= i < n
        ensures c.value.values[Target(cls, kwargs[i].0)] == Stored(cls, kwargs[i].0, kwargs[i].1)
      {
        assert init[i] == kwargs[i];
      }
    }
  }

  /** In a well-formed class the corrected `update` writes declared fields only. */
  lemma CorrectedWritesOnlyFields(cls: ModelClass, kwargs: seq<(string, Datum)>)
    requires WellFormed(cls)
    ensures Collect(cls, kwargs, Corrected).Ok? ==> Collect(cls, kwargs, Corrected).value.values.Keys <= cls.fields
  {
    CollectCorrected(cls, kwargs);
  }

  /** The effect of a validated `update` on the state, apart from its `_save`. */
  function Apply(s: ModelState, plan: Plan): ModelState
  {
    ModelState(s.attrs + plan.values, s.values + plan.values, (s.cache + plan.cache) - plan.stale)
  }

  /**
    What applying a plan does: the planned values replace the old ones on the
    backend object and in the values, everything else is kept; the cache takes
    the planned objects, then loses the stale references.
   */
  lemma ApplyEffect(s: ModelState, plan: Plan)
    ensures var r := Apply(s, plan);
            && r.values.Keys == s.values.Keys + plan.values.Keys
            && r.attrs.Keys == s.attrs.Keys + plan.values.Keys
            && (forall k :: k in plan.values ==> r.attrs[k] == plan.values[k] && r.values[k] == plan.values[k])
            && (forall k :: k in s.values && k !in plan.values ==> r.values[k] == s.values[k])
            && (forall k :: k in s.attrs && k !in plan.values ==> r.attrs[k] == s.attrs[k])
            && r.cache.Keys == (s.cache.Keys + plan.cache.Keys) - plan.stale
            && (forall k :: k in plan.cache && k !in plan.stale ==> r.cache[k] == plan.cache[k])
            && (forall k :: k in s.cache && k !in plan.cache && k !in plan.stale ==> r.cache[k] == s.cache[k])
  {
  }

  /** A validated `update` keeps a valid state valid. */
  lemma ApplyKeepsValid(cls: ModelClass, s: ModelState, kwargs: seq<(string, Datum)>, mode: UpdateMode)
    requires ValidState(cls, s) && Collect(cls, kwargs, mode).Ok?
    ensures ValidState(cls, Apply(s, Collect(cls, kwargs, mode).value))
  {
  }

  /** Corrected, one step from the empty plan, then applied, is the assignment of that item. */
  lemma StepFromEmptyIsAssign(cls: ModelClass, s: ModelState, name: string, value: Datum)
    ensures var c := CollectStep(cls, Corrected, Plan(map[], map[], {}), name, value);
            var a := Assign(cls, s, name, value);
            && (c.Ok? <==> a.Ok?)
            && (c.Ok? ==> Apply(s, c.value) == a.value)
            && (c.Err? ==> c.error == a.error)
  {
    var c := CollectStep(cls, Corrected, Plan(map[], map[], {}), name, value);
    var a := Assign(cls, s, name, value);
    if name in cls.fields {
      var p := c.value;
      assert p.values == map[name := value] && p.cache == map[];
      assert s.attrs + p.values == s.attrs[name := value];
      assert s.values + p.values == s.values[name := value];
      assert (s.cache + p.cache) - p.stale == a.value.cache;
    } else if name in cls.refs && cls.refs[name].Ref? && value.Model? {
      var p := c.value;
      var key := BaseField(cls.refs[name].field);
      assert p.values == map[key := Scalar(value.obj.id)] && p.cache == map[name := value] && p.stale == {};
      assert s.attrs + p.values == s.attrs[key := Scalar(value.obj.id)];
      assert s.values + p.values == s.values[key := Scalar(value.obj.id)];
      assert (s.cache + p.cache) - p.stale == s.cache[name := value];
    }
  }

  /** The corrected `update` with one argument does exactly what setting that item does. */
  lemma UpdateOfOneIsSetItem(cls: ModelClass, s: ModelState, name: string, value: Datum)
    ensures var c := Collect(cls, [(name, value)], Corrected);
            var a := Assign(cls, s, name, value);
            && (c.Ok? <==> a.Ok?)
            && (c.Ok? ==> Apply(s, c.value) == a.value)
            && (c.Err? ==> c.error == a.error)
  {
    var one := [(name, value)];
    assert one[..0] == [];
    CollectSnoc(cls, one, Corrected);
    assert Collect(cls, one, Corrected) == CollectStep(cls, Corrected, Plan(map[], map[], {}), name, value);
    StepFromEmptyIsAssign(cls, s, name, value);
  }

  /**
    As written, `update(service=obj)` on a category stores the id under
    `service` instead of `service_id`, so it differs from `category.service = obj`;
    and `service` followed by `service_id` is accepted although both set the id.
   */
  lemma AsWrittenUpdateStoresIdUnderRefName(s: ModelState, obj: ModelRef, id: Value)
    requires s.values.Keys == CategoryModel.fields
    ensures var c := Collect(CategoryModel, [("service", Model(obj))], AsWritten);
            && c.Ok?
            && Apply(s, c.value).values["service"] == Scalar(obj.id)
            && Apply(s, c.value) != Assign(CategoryModel, s, "service", Model(obj)).value
    ensures Collect(CategoryModel, [("service", Model(obj)), ("service_id", Scalar(id))], AsWritten).Ok?
  {
    CategoryModelShape();
    var one := [("service", Model(obj))];
    assert one[..0] == [];
    var two := [("service", Model(obj)), ("service_id", Scalar(id))];
    assert two[..1] == one;
    var c := Collect(CategoryModel, one, AsWritten);
    assert "service" !in Assign(CategoryModel, s, "service", Model(obj)).value.values;
  }

  /** Corrected, `service` and `service_id` together are refused in either order, naming `service_id`. */
  lemma CorrectedRejectsAmbiguityEitherOrder(obj: ModelRef, id: Value)
    ensures Collect(CategoryModel, [("service", Model(obj)), ("service_id", Scalar(id))], Corrected)
            == Err(AmbiguousFieldUpdate("service_id"))
    ensures Collect(CategoryModel, [("service_id", Scalar(id)), ("service", Model(obj))], Corrected)
            == Err(AmbiguousFieldUpdate("service_id"))
  {
    CategoryModelShape();
    var a := [("service", Model(obj)), ("service_id", Scalar(id))];
    var b := [("service_id", Scalar(id)), ("service", Model(obj))];
    assert a[..1][..0] == [] && b[..1][..0] == [];
    CollectSnoc(CategoryModel, a, Corrected);
    CollectSnoc(CategoryModel, a[..1], Corrected);
    CollectSnoc(CategoryModel, b, Corrected);
    CollectSnoc(CategoryModel, b[..1], Corrected);
  }

  /**
    As written, the one ambiguity `update` does detect (`service_id` before
    `service`) raises `NameError`, because `AmbiguousFieldUpdate` is not imported.
   */
  lemma AsWrittenAmbiguityRaisesNameError(obj: ModelRef, id: Value)
    ensures Collect(CategoryModel, [("service_id", Scalar(id)), ("service", Model(obj))], AsWritten)
            == Err(NameError("AmbiguousFieldUpdate"))
  {
    CategoryModelShape();
    var b := [("service_id", Scalar(id)), ("service", Model(obj))];
    assert b[..1][..0] == [];
    CollectSnoc(CategoryModel, b, AsWritten);
    CollectSnoc(CategoryModel, b[..1], AsWritten);
  }

  /** The validation loop of `update`, over the keyword arguments in iteration order. */
  method Validate(cls: ModelClass, kwargs: seq<(string, Datum)>, mode: UpdateMode) returns (r: Result<Plan, ModelError>)
    ensures r == Collect(cls, kwargs, mode)
  {
    r := Ok(Plan(map[], map[], {}));
    var i := 0;
    while i < |kwargs|
      invariant 0 <= i <= |kwargs|
      invariant r == Collect(cls, kwargs[..i], mode)
      invariant r.Ok?
    {
      CollectSnoc(cls, kwargs[..i + 1], mode);
      assert kwargs[..i + 1][..i] == kwargs[..i];
      r := CollectStep(cls, mode, r.value, kwargs[i].0, kwargs[i].1);
      if r.Err? {
        CollectErrSticky(cls, kwargs, i + 1, mode);
        return;
      }
      i := i + 1;
    }
    assert kwargs[..i] == kwargs;
  }

  // ---------------------------------------------------------------------------
  // The objects

  /** The object the backend returned; its attributes are set in place. */
  class BaseObject {
    var attrs: map<string, Datum>

    constructor (attrs: map<string, Datum>)
      ensures this.attrs == attrs
    {
      this.attrs := attrs;
    }
  }

  /** The backend call that resolves `ref` for an object with attributes `attrs`. */
  function LazyCall(ctx: Context, attrs: map<string, Datum>, ref: RefDecl): Api.Call
  {
    match ref
    case Ref(field, klass) => Api.LazyGetCall(ctx, attrs, BaseField(field), klass)
    case ListRef(field, klass) => Api.LazyGetListCall(ctx, attrs, field, klass)
  }

  /** An instance of a model class (`BaseModel`). */
  class BaseModel {
    const cls: ModelClass
    const context: Context
    const dbapi: Api.API
    const baseObj: BaseObject
    /** `_values`: the field values as last read or set. */
    var values: map<string, Datum>
    /** `_cache`: the referenced objects resolved so far. */
    var cache: map<string, Datum>
    /** Underscore attributes set through `__setattr__`, kept apart from the fields. */
    var internal: map<string, Datum>

    function State(): ModelState
      reads this, baseObj
    {
      ModelState(baseObj.attrs, values, cache)
    }

    predicate Valid()
      reads this, baseObj
    {
      ValidState(cls, State())
    }

    /**
      `BaseModel.__init__`: read every field of the class from the backend
      object (which must have them all) and start with an empty cache.
     */
    constructor (cls: ModelClass, context: Context, dbapi: Api.API, baseObj: BaseObject)
      requires cls.fields <= baseObj.attrs.Keys
      ensures this.cls == cls && this.context == context && this.dbapi == dbapi && this.baseObj == baseObj
      ensures values.Keys == cls.fields
      ensures forall f :: f in values ==> values[f] == baseObj.attrs[f]
      ensures cache == map[] && internal == map[]
      ensures Valid()
    {
      this.cls := cls;
      this.context := context;
      this.dbapi := dbapi;
      this.baseObj := baseObj;
      values := Project(baseObj.attrs, cls.fields);
      cache := map[];
      internal := map[];
    }

    /** `Ref.__call__` and `ListRef.__call__`: ask the backend for the referenced object or list. */
    method Fetch(ref: RefDecl) returns (d: Datum)
      modifies dbapi
      ensures dbapi.calls == old(dbapi.calls) + [LazyCall(context, baseObj.attrs, ref)]
      ensures d == dbapi.answer(LazyCall(context, baseObj.attrs, ref))
    {
      match ref
      case Ref(field, klass) =>
        d := dbapi.LazyGet(context, baseObj.attrs, BaseField(field), klass);
      case ListRef(field, klass) =>
        d := dbapi.LazyGetList(context, baseObj.attrs, field, klass);
    }

    /**
      `__getitem__`: a field answers its value; a reference is resolved through
      the backend the first time and answered from the cache afterwards; any
      other name raises `KeyError`.
     */
    method GetItem(name: string) returns (r: Result<Datum, ModelError>)
      modifies this`cache, dbapi
      ensures name in cls.fields ==>
                && cache == old(cache) && dbapi.calls == old(dbapi.calls)
                && r == if name in values then Ok(values[name]) else Err(KeyError(name))
      ensures name !in cls.fields && name in cls.refs && name in old(cache) ==>
                r == Ok(old(cache)[name]) && cache == old(cache) && dbapi.calls == old(dbapi.calls)
      ensures name !in cls.fields && name in cls.refs && name !in old(cache) ==>
                var call := LazyCall(context, baseObj.attrs, cls.refs[name]);
                && r == Ok(dbapi.answer(call))
                && cache == old(cache)[name := dbapi.answer(call)]
                && dbapi.calls == old(dbapi.calls) + [call]
      ensures name !in cls.fields && name !in cls.refs ==>
                r == Err(KeyError(name)) && cache == old(cache) && dbapi.calls == old(dbapi.calls)
      ensures old(Valid()) ==> Valid() && (name in cls.fields + cls.refs.Keys <==> r.Ok?)
    {
      if name in cls.fields {
        r := if name in values then Ok(values[name]) else Err(KeyError(name));
        return;
      }
      if name in cls.refs {
        if name !in cache {
          var d := Fetch(cls.refs[name]);
          cache := cache[name := d];
        }
        r := Ok(cache[name]);
        return;
      }
      r := Err(KeyError(name));
    }

    /** `__getattr__`: `__getitem__`, its `KeyError` turned into `AttributeError`. */
    method GetAttr(name: string) returns (r: Result<Datum, ModelError>)
      modifies this`cache, dbapi
      ensures name in cls.fields && name in values ==>
                r == Ok(values[name]) && cache == old(cache) && dbapi.calls == old(dbapi.calls)
      ensures name !in cls.fields && name in cls.refs && name in old(cache) ==>
                r == Ok(old(cache)[name]) && cache == old(cache) && dbapi.calls == old(dbapi.calls)
      ensures name !in cls.fields && name in cls.refs && name !in old(cache) ==>
                var call := LazyCall(context, baseObj.attrs, cls.refs[name]);
                && r == Ok(dbapi.answer(call))
                && cache == old(cache)[name := dbapi.answer(call)]
                && dbapi.calls == old(dbapi.calls) + [call]
      ensures !(name in cls.fields && name in values) && name !in cls.refs ==>
                && r == Err(AttributeError("cannot get " + Quoted(name) + " attribute"))
                && cache == old(cache) && dbapi.calls == old(dbapi.calls)
    {
      r := GetItem(name);
      if r.Err? {
        r := Err(AttributeError("cannot get " + Quoted(name) + " attribute"));
      }
    }

    /**
      `__setitem__`: update the backend object, save it through the backend and
      update the values and the cache as `Assign` says; on an error nothing
      changes and nothing is saved.
     */
    method SetItem(name: string, value: Datum) returns (r: Result<(), ModelError>)
      modifies this`values, this`cache, baseObj, dbapi
      ensures var a := Assign(cls, old(State()), name, value);
              && (a.Ok? ==> r == Ok(()) && State() == a.value
                            && dbapi.calls == old(dbapi.calls) + [Api.SaveCall(context, baseObj.attrs)])
              && (a.Err? ==> r == Err(a.error) && State() == old(State()) && dbapi.calls == old(dbapi.calls))
      ensures old(Valid()) ==> Valid()
    {
      ghost var a := Assign(cls, State(), name, value);
      if name in cls.fields {
        baseObj.attrs := baseObj.attrs[name := value];
        dbapi.Save(context, baseObj.attrs);
        values := values[name := value];
        var target := IdTarget(name);
        if target.Some? {
          cache := cache - {target.value};
        }
        r := Ok(());
        return;
      }
      if name in cls.refs && cls.refs[name].Ref? {
        if !value.Model? {
          r := Err(AttributeError("id"));
          return;
        }
        var baseField := BaseField(cls.refs[name].field);
        baseObj.attrs := baseObj.attrs[baseField := Scalar(value.obj.id)];
        dbapi.Save(context, baseObj.attrs);
        values := values[baseField := Scalar(value.obj.id)];
        cache := cache[name := value];
        r := Ok(());
        return;
      }
      r := Err(KeyError(name));
    }

    /**
      `__setattr__`: an empty name fails on `name[0]`; a name starting with `_`
      is an ordinary attribute; anything else is `__setitem__`, its `KeyError`
      turned into `AttributeError`.
     */
    method SetAttr(name: string, value: Datum) returns (r: Result<(), ModelError>)
      modifies this`values, this`cache, this`internal, baseObj, dbapi
      ensures |name| == 0 ==>
                r == Err(IndexError) && State() == old(State()) && internal == old(internal)
                && dbapi.calls == old(dbapi.calls)
      ensures |name| > 0 && name[0] == '_' ==>
                r == Ok(()) && State() == old(State()) && internal == old(internal)[name := value]
                && dbapi.calls == old(dbapi.calls)
      ensures |name| > 0 && name[0] != '_' ==>
                var a := Assign(cls, old(State()), name, value);
                && internal == old(internal)
                && (a.Ok? ==> r == Ok(()) && State() == a.value
                              && dbapi.calls == old(dbapi.calls) + [Api.SaveCall(context, baseObj.attrs)])
                && (a.Err? ==> State() == old(State()) && dbapi.calls == old(dbapi.calls))
                && (a.Err? && a.error.KeyError? ==> r == Err(AttributeError("cannot set " + Quoted(name) + " attribute")))
                && (a.Err? && !a.error.KeyError? ==> r == Err(a.error))
      ensures old(Valid()) ==> Valid()
    {
      if |name| == 0 {
        r := Err(IndexError);
        return;
      }
      if name[0] == '_' {
        internal := internal[name := value];
        r := Ok(());
        return;
      }
      r := SetItem(name, value);
      if r.Err? && r.error.KeyError? {
        r := Err(AttributeError("cannot set " + Quoted(name) + " attribute"));
      }
    }

    /** `__delitem__`: fields cannot be deleted. */
    method DelItem(name: string) returns (r: Result<(), ModelError>)
      ensures r == Err(KeyError(name))
    {
      r := Err(KeyError(name));
    }

    /** `__delattr__`: attributes cannot be deleted. */
    method DelAttr(name: string) returns (r: Result<(), ModelError>)
      ensures r == Err(AttributeError("cannot delete " + Quoted(name) + " attribute"))
    {
      r := Err(AttributeError("cannot delete " + Quoted(name) + " attribute"));
    }

    /** The `setattr(self._base_obj, key, value)` loop of `update`: every planned value is set, in any order. */
    method Install(changes: map<string, Datum>)
      modifies baseObj
      ensures baseObj.attrs == old(baseObj.attrs) + changes
    {
      var pending := changes.Keys;
      while pending != {}
        invariant pending <= changes.Keys
        invariant baseObj.attrs == old(baseObj.attrs) + Project(changes, changes.Keys - pending)
        decreases |pending|
      {
        var key :| key in pending;
        baseObj.attrs := baseObj.attrs[key := changes[key]];
        pending := pending - {key};
      }
      assert Project(changes, changes.Keys) == changes;
    }

    /** The invalidation loop of `update`: `self._cache.pop(name, None)` for every stale reference. */
    method DropStale(stale: set<string>)
      modifies this`cache
      ensures cache == old(cache) - stale
    {
      var pending := stale;
      while pending != {}
        invariant pending <= stale
        invariant cache == old(cache) - (stale - pending)
        decreases |pending|
      {
        var name :| name in pending;
        cache := cache - {name};
        pending := pending - {name};
      }
    }

    /**
      `update`: validate every keyword argument first; on any error change
      nothing and save nothing; otherwise set the planned values on the backend
      object, save it once, merge values and cache, and drop the stale cache
      entries.
     */
    method Update(kwargs: seq<(string, Datum)>, mode: UpdateMode) returns (r: Result<(), ModelError>)
      requires forall i, j :: 0 <= i < j < |kwargs| ==> kwargs[i].0 != kwargs[j].0
      modifies this`values, this`cache, baseObj, dbapi
      ensures var c := Collect(cls, kwargs, mode);
              && (c.Ok? ==> r == Ok(()) && State() == Apply(old(State()), c.value)
                            && dbapi.calls == old(dbapi.calls) + [Api.SaveCall(context, baseObj.attrs)])
              && (c.Err? ==> r == Err(c.error) && State() == old(State()) && dbapi.calls == old(dbapi.calls))
      ensures old(Valid()) ==> Valid()
    {
      var gathered := Validate(cls, kwargs, mode);
      if gathered.Err? {
        r := Err(gathered.error);
        return;
      }
      var plan := gathered.value;
      Install(plan.values);
      dbapi.Save(context, baseObj.attrs);
      values := values + plan.values;
      cache := cache + plan.cache;
      DropStale(plan.stale);
      r := Ok(());
    }
  }
}
