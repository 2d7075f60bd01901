# Boson quota service core, modelled in Dafny

Boson is a quota service. A *service* declares the auth-data fields its users
carry. Each *category* of that service picks the fields that key a usage record
and the field sets, most specific first, that key quota records. A *resource*
names the parameters that tell its instances apart, and a *specific resource*
is identified by a canonical name `service/resource[/k=v...]`. *Usage* and
*quota* records hold auth data restricted to the service's fields.

Underneath sit three more layers:

- the database model layer: model classes with simple fields and references;
  model objects that read their fields from a backend object, resolve
  references lazily and cache them, and write changes back through the
  backend's `_save`;
- the transaction handle of the database API, with its single `_closed` flag;
- the security context: roles, admin rights, request id, and a lazily
  obtained session.

The project has one module per concern:

| file | module | models |
|---|---|---|
| `wrappers.dfy` | `Wrappers` | `Option` and `Result` |
| `text.dfy` | `Text` | code-point string order, `sorted` of a key set, `str.join`, ASCII `str.lower` |
| `values.dfy` | `Values` | scalar values, their `repr`, model-object references, `ValueError` |
| `projection.dfy` | `Projection` | the dict filter `{k: v for k, v in d.items() if k in fields}` that four classes share |
| `services.dfy` | `Services` | `boson/data_model/service.py` |
| `resources.dfy` | `Resources` | `boson/data_model/resource.py` |
| `usages.dfy` | `Usages` | `boson/data_model/usage.py` |
| `quotas.dfy` | `Quotas` | `boson/data_model/quota.py` |
| `contexts.dfy` | `Contexts` | `boson/context.py`, and the module-level `get_session` of `boson/db/api.py` |
| `api.dfy` | `Api` | `boson/db/api.py`: the call-recording backend, `transaction`, `_get_session`, `APITransaction` |
| `models.dfy` | `Models` | `boson/db/models.py` |

Pure constructors are modelled as functions returning datatypes, and a `Result`
where the source raises. Objects that the source updates in place are classes
with `modifies` clauses: `Service.categories`, the context and its shared roles
list, the transaction handle, the backend call log, the model object and its
backend object. The abstract backend operations only record their calls in
`API.calls`. What a lazy lookup returns is an oracle, `API.answer`.

Two behaviours of the code are worth stating up front:

- `SpecificResource` silently drops parameter names the resource does not
  declare (`boson/data_model/resource.py:64-65`).
- `Category` intersects its usage fields and quota field sets with the
  service's auth fields instead of rejecting unknown names
  (`boson/data_model/service.py:47-51`).

## Model

| member | source | states |
|---|---|---|
| `Projection.Project` | boson/data_model/service.py:100-101 | the filtered mapping has exactly the keys that are both supplied and allowed, each with the caller's value |
| `Projection.ProjectIgnoresOtherKeys` | boson/data_model/resource.py:64-65 | two inputs that agree on the allowed fields filter to the same mapping, whatever extra keys they carry |
| `Text.SortedKeys` | boson/data_model/resource.py:76-78 | `sorted` of a key set lists every key exactly once, in strictly ascending code-point order |
| `Text.SortedUnique` | boson/data_model/resource.py:76-79 | two strictly sorted listings of the same keys are equal, so the order the dict yields its items in cannot change the name |
| `Text.Join` | boson/data_model/resource.py:79 | joining one part gives that part; joining more starts with the first part and the separator |
| `Text.Lower` | boson/context.py:77 | lower-casing keeps the length and maps each ASCII capital to its small letter |
| `Text.LowerMatches` | boson/context.py:77 | a string lower-cases to a lower-case word exactly when it spells that word in any mix of letter cases |
| `Services.NewCategory` | boson/data_model/service.py:45-51 | usage fields are the given names intersected with the service's auth fields; the quota field sets keep their number and order, each intersected with the auth fields |
| `Services.NewCategoryKeepsSpecificity` | boson/data_model/service.py:38-51 | field sets given from most to least specific are still in that order after filtering |
| `Services.Service.constructor` | boson/data_model/service.py:59-72 | the auth fields are the set of the given names and there are no categories yet |
| `Services.Service.AddCategory` | boson/data_model/service.py:74-79 | the category is filed under its name, replacing any earlier one of that name, and every other entry is unchanged |
| `Services.NewServiceUser` | boson/data_model/service.py:88-107 | succeeds exactly when every auth field is supplied; then the auth data has exactly the service's fields with the caller's values; otherwise `ValueError` lists precisely the missing fields, sorted |
| `Resources.NewResource` | boson/data_model/resource.py:26-40 | the parameters are the set of the given names, empty when omitted or empty |
| `Values.Repr` | boson/data_model/resource.py:77 | the `%r` of a scalar is never empty; its spelling (`None`, decimal digits, single quotes) is the function itself |
| `Resources.Items` | boson/data_model/resource.py:76-78 | one `k=repr(v)` item per key, in the order the keys are listed |
| `Resources.CanonicalName` | boson/data_model/resource.py:73-79 | no contract of its own, since it only computes the name; `Resources.CanonicalNameShape` and `Resources.CanonicalNameFromAnySortedListing` state its properties |
| `Resources.CanonicalNameShape` | boson/data_model/resource.py:73-79 | the name always starts with `service/resource`, and it is exactly that when there is no parameter data |
| `Resources.CanonicalNameFromAnySortedListing` | boson/data_model/resource.py:75-79 | any ascending listing of the parameter keys spells the canonical name |
| `Resources.NewSpecificResource` | boson/data_model/resource.py:48-79 | omitted or empty data counts as `{}`; succeeds exactly when every declared parameter has a value; the kept data has exactly the declared parameters with the given values, and the name is the canonical one; otherwise `ValueError` lists precisely the missing parameters, sorted |
| `Resources.Eq` | boson/data_model/resource.py:86-89 | no contract of its own (`__eq__` compares names); `Resources.EqualityContract` states its properties |
| `Resources.Ne` | boson/data_model/resource.py:91-94 | no contract of its own (`__ne__` compares names); `Resources.EqualityContract` proves it is the negation of `Resources.Eq` |
| `Resources.Hash` | boson/data_model/resource.py:81-84 | no contract of its own (`hash` of the name, the string hash a parameter); `Resources.EqualityContract` proves equal resources hash alike |
| `Resources.EqualityContract` | boson/data_model/resource.py:81-94 | `!=` is the negation of `==`; `==` is reflexive, symmetric and transitive; equal resources hash alike under any string hash |
| `Resources.EqualityIgnoresExtraParameters` | boson/data_model/resource.py:59-79 | two parameter mappings that agree on the declared parameters give the same specific resource, whatever else they hold |
| `Resources.DistinctResourcesMayCompareEqual` | boson/data_model/resource.py:74-89 | because the name is the only identity, resource `b/c` of service `a` and resource `c` of service `a/b` compare equal |
| `Usages.NewUsage` | boson/data_model/usage.py:26-47 | resource, category and amounts are stored as given (amounts default to 0); the auth data keeps exactly the supplied keys that are service fields, values unchanged |
| `Usages.UsageAcceptsWhatServiceUserRefuses` | boson/data_model/usage.py:45-47 | auth data lacking a service field is refused by `ServiceUser` but accepted by `Usage`, which then lacks that field |
| `Usages.UsageOfServiceUserKeepsAuthData` | boson/data_model/usage.py:45-47 | a usage built from a service user's auth data for the same service keeps all of it |
| `Quotas.NewQuota` | boson/data_model/quota.py:25-45 | resource and limit are stored as given; the auth data keeps exactly the supplied keys that are service fields, values unchanged, and none when omitted |
| `Quotas.DefaultQuota` | boson/data_model/quota.py:34-43 | a quota given only a resource has no auth data and no limit (unlimited), the same as one given `{}` |
| `Quotas.QuotaKeysWithinService` | boson/data_model/quota.py:42-45 | a quota's auth data only names fields of the resource's service |
| `Contexts.SessionSource.GetSession` | boson/db/api.py:21-24 | each call answers the backend's session (the placeholder answers `None`) and is counted |
| `Contexts.ContainsAdmin` | boson/context.py:77 | true exactly when some role lower-cases to `admin` |
| `Contexts.AdminRoleAnyCase` | boson/context.py:76-78 | a role counts as admin exactly when it spells `admin` in any mix of letter cases |
| `Contexts.DeriveIsAdmin` | boson/context.py:76-78 | an explicit `is_admin` wins; otherwise it is true exactly when some role lower-cases to `admin` |
| `Contexts.RequestId` | boson/context.py:75 | a non-empty given id is kept; otherwise the id is `req-` followed by the fresh UUID; never empty |
| `Contexts.Context.constructor` | boson/context.py:48-79 | user and tenant as given; a non-empty roles list is kept (shared), otherwise a new empty list; request id and admin flag as above; no session yet |
| `Contexts.Context.Copy` | boson/context.py:95 | `copy.copy`: a new context with the same attribute values, sharing the roles list and the session |
| `Contexts.Context.ToDict` | boson/context.py:81-90 | exactly the keys `user`, `tenant`, `roles`, `request_id`, `is_admin`, each with the context's value |
| `Contexts.Context.Elevated` | boson/context.py:92-101 | a new context with the same user, tenant, request id and session and admin rights; `admin` is appended to the shared roles list unless a role already spells it, so the original context sees it too |
| `Contexts.Context.ElevatedIsolated` | boson/context.py:92-101 | the same result with a roles list of its own, leaving the original context untouched |
| `Contexts.Context.Session` | boson/context.py:103-109 | `get_session` is asked only while no session is held; the answer is kept and returned |
| `Contexts.GetAdminContext` | boson/context.py:112-118 | no user or tenant, roles exactly `admin`, admin rights, a generated request id, no session |
| `Contexts.ElevationLeaksAdminRole` | boson/context.py:95-99 | elevating a non-admin context with roles `one` leaves the original with roles `one, admin` while it is still not admin |
| `Contexts.RoleExamples` | tests/unit/test_context.py:49-68 | `aDmIn` makes a context admin; `one, two` and no roles do not |
| `Api.Step` | boson/db/api.py:57-115 | one operation on a handle: only entering a closed handle is refused (`ValueError`); a closed handle calls nothing and stays closed; every operation calls the backend at most once, and `begin` exactly when an open handle is entered |
| `Api.Run` | boson/db/api.py:57-115 | a sequence of operations calls the backend at most once per operation, and is refused only if it enters the handle |
| `Api.EndingsAppend` | boson/db/api.py:89-115 | the commits and rollbacks of two call lists together are those of each added up |
| `Api.StepEnding` | boson/db/api.py:57-115 | one operation on a handle never reopens it, and it issues a commit or rollback exactly when it closes the handle |
| `Api.OneEnding` | boson/db/api.py:89-115 | over any sequence of operations, a closed handle stays closed, and the handle has issued exactly one commit or rollback if it ends closed and none if it is still open |
| `Api.AtMostOneEnding` | boson/db/api.py:89-115 | commit and rollback exclude each other: a handle issues at most one of them, whatever is done to it |
| `Api.ClosedIsFinal` | boson/db/api.py:57-115 | once closed, a handle never calls the backend again and stays closed |
| `Api.Emit` | boson/db/api.py:57-115 | the backend calls a handle makes: one per action, in order, each on the handle's context |
| `Api.API.CreateSession` | boson/db/api.py:160-171 | records the call and returns a new session |
| `Api.API.Begin` | boson/db/api.py:173-182 | records the call |
| `Api.API.Commit` | boson/db/api.py:184-193 | records the call |
| `Api.API.Rollback` | boson/db/api.py:195-204 | records the call |
| `Api.API.Save` | boson/db/api.py:690-701 | records the call with the backend object as it stands |
| `Api.API.LazyGet` | boson/db/api.py:642-663 | records the call and answers the backend's object for it |
| `Api.API.LazyGetList` | boson/db/api.py:666-687 | records the call and answers the backend's list for it |
| `Api.API.Transaction` | boson/db/api.py:142-158 | a new open handle on this API and context, carrying the given commit and rollback flags (both default to true) |
| `Api.API.GetSessionAsWritten` | boson/db/api.py:126-140 | a held session is returned without calling anything; when the `session` property obtains one from `get_session`, it is stored on the context and returned without creating one; otherwise `get_session` is asked once, a session is created, and the assignment to the read-only `session` property fails, leaving the context without a session |
| `Api.API.GetSession` | boson/db/api.py:126-140 | creates a session only when the context holds none, stores it, and returns the stored session |
| `Api.APITransaction.constructor` | boson/db/api.py:35-55 | the handle keeps its API, context and flags and starts open |
| `Api.APITransaction.Enter` | boson/db/api.py:57-68 | a closed handle raises `ValueError` without calling the backend; an open one calls `begin` once and returns itself |
| `Api.APITransaction.Commit` | boson/db/api.py:89-101 | an open handle calls `commit` once and closes; a closed one does nothing |
| `Api.APITransaction.Rollback` | boson/db/api.py:103-115 | an open handle calls `rollback` once and closes; a closed one does nothing |
| `Api.APITransaction.Exit` | boson/db/api.py:70-87 | rolls back exactly when the block raised and rollback is enabled, commits exactly when it did not raise and commit is enabled, otherwise does nothing; never handles the exception |
| `Models.BaseField` | boson/db/models.py:77-90 | a reference's id field is its name followed by `_id` |
| `Models.IdTarget` | boson/db/models.py:243-247 | a name ending in `_id` designates the reference named by the rest, and no other name designates one |
| `Models.IdTargetOfBaseField` | boson/db/models.py:243-247 | writing a reference's id field makes exactly that reference stale |
| `Models.RefTable` | boson/db/models.py:136-139 | every table entry is keyed by its own field name |
| `Models.RefTableKeys` | boson/db/models.py:136-139 | the table has a key for each declared reference and no other |
| `Models.RefTableLastWins` | boson/db/models.py:136-139 | under each declared name the table holds the last declaration of that name |
| `Models.InheritFrom` | boson/db/models.py:145-148 | no contract of its own, since it is one round of inheritance; the `Models.Inherit*` lemmas state its effect over all bases |
| `Models.Inherit` | boson/db/models.py:145-148 | the class keeps its name, fields and reference keys through inheritance; the lemmas below give the full union and precedence |
| `Models.InheritFields` | boson/db/models.py:145-148 | the inherited fields are the union of the class's own and all the bases' fields |
| `Models.InheritRefKeys` | boson/db/models.py:145-148 | the inherited reference table has a key for each reference of the class or of some base, and no other |
| `Models.InheritKeepsOwnRefs` | boson/db/models.py:145-148 | a reference the class declares itself is never replaced by an inherited one |
| `Models.InheritFirstBaseWins` | boson/db/models.py:145-148 | a reference the class does not declare comes from the first base that has it |
| `Models.NewModelClass` | boson/db/models.py:130-150 | the class built by the metaclass loops is the table of its declared references (empty when absent) and its declared fields (empty when absent), inherited over its bases |
| `Models.DeclaredShape` | boson/db/models.py:153-172 | a class declared on `BaseModel` has its own fields plus `created_at`, `updated_at` and `id`, and exactly its own reference table |
| `Models.DeclaredWellFormed` | boson/db/models.py:130-172 | a class with distinct references named unlike any field, each single reference backed by a declared id field, is well formed and has the audit fields |
| `Models.ServiceModelWellFormed` | boson/db/models.py:370-400 | `Service` is well formed and has the audit fields |
| `Models.CategoryModelWellFormed` | boson/db/models.py:403-445 | `Category` is well formed and has the audit fields |
| `Models.ResourceModelWellFormed` | boson/db/models.py:448-509 | `Resource` is well formed and has the audit fields |
| `Models.UsageModelWellFormed` | boson/db/models.py:512-572 | `Usage` is well formed and has the audit fields |
| `Models.QuotaModelWellFormed` | boson/db/models.py:575-603 | `Quota` is well formed and has the audit fields |
| `Models.ReservationModelWellFormed` | boson/db/models.py:606-629 | `Reservation` is well formed and has the audit fields |
| `Models.ReservedItemModelWellFormed` | boson/db/models.py:632-675 | `ReservedItem` is well formed and has the audit fields |
| `Models.CategoryModelShape` | boson/db/models.py:403-445 | `Category` has its seven fields, the single reference `service` with id field `service_id`, and the list `resources` |
| `Models.Assign` | boson/db/models.py:230-263 | succeeds exactly for a field or for a single reference given an object with an id; writes the value, or the object's id under the reference's id field, to both the backend object and the values; drops the stale reference after an `_id` field, caches the object after a reference; fails with `AttributeError` for a value without an id and `KeyError` otherwise |
| `Models.AssignKeepsValid` | boson/db/models.py:230-263 | setting an item keeps every field valued and only references cached |
| `Models.AssignRefreshesCache` | boson/db/models.py:243-258 | setting a reference's id field drops the cached object; setting the reference caches the given object and stores its id |
| `Models.CollectStep` | boson/db/models.py:306-342 | no contract of its own, since it checks one argument; `Models.CollectStepRules` states its rules |
| `Models.CollectStepRules` | boson/db/models.py:306-342 | one argument never takes back a planned key; a field argument is always planned; a field already planned, or a single reference whose id field is already planned, raises the ambiguity error (`NameError` as written) |
| `Models.Collect` | boson/db/models.py:301-342 | a validated plan only caches references |
| `Models.CollectRejectsUnsettable` | boson/db/models.py:306-342 | in either mode, as written or corrected, `update` refuses its arguments whenever one of them is an unknown name, a list reference or a value without an `id` |
| `Models.CollectUnknownIsKeyError` | boson/db/models.py:324-342 | in either mode, the first argument naming neither a field nor a single reference makes `update` raise `KeyError` naming it, whatever follows |
| `Models.CollectWritesFieldArgs` | boson/db/models.py:306-320 | in either mode, every field an accepted `update` names is among the keys it writes |
| `Models.CollectRefAfterItsField` | boson/db/models.py:324-331 | for every class and argument list, in either mode: a single reference arriving after its id field was collected makes `update` fail with the ambiguity error for that field (`NameError` as written), whatever follows |
| `Models.CollectErrSticky` | boson/db/models.py:306-342 | the first failing keyword argument decides the error, whatever follows |
| `Models.CollectCorrected` | boson/db/models.py:301-342 | corrected, `update` accepts its arguments exactly when each can be set and no two write the same key, whatever their order; the keys it writes are exactly the arguments' keys |
| `Models.CollectCorrectedValues` | boson/db/models.py:301-342 | corrected, each argument's value (or object id) is planned under its key |
| `Models.CorrectedWritesOnlyFields` | boson/db/models.py:325-334 | in a well-formed class the corrected `update` writes declared fields only |
| `Models.Apply` | boson/db/models.py:344-358 | no contract of its own, since it computes the new state; `Models.ApplyEffect` states what it does |
| `Models.ApplyEffect` | boson/db/models.py:344-358 | the planned values replace the old ones on the backend object and in the values, every other value is kept; the cache gains the planned objects, then loses exactly the stale references |
| `Models.ApplyKeepsValid` | boson/db/models.py:344-358 | a validated update keeps every field valued and only references cached |
| `Models.StepFromEmptyIsAssign` | boson/db/models.py:306-358 | one corrected validation step from an empty plan, then applied, succeeds, fails and changes the state exactly as setting that item does |
| `Models.UpdateOfOneIsSetItem` | boson/db/models.py:294-358 | the corrected `update` with one argument succeeds, fails and changes the state exactly as setting that item does |
| `Models.AsWrittenUpdateStoresIdUnderRefName` | boson/db/models.py:326-334 | as written, `update(service=obj)` on a category stores the id under `service`, unlike `category.service = obj`, and `service` followed by `service_id` is accepted |
| `Models.CorrectedRejectsAmbiguityEitherOrder` | boson/db/models.py:308-334 | corrected, `service` and `service_id` together are refused in either order with `AmbiguousFieldUpdate('service_id')` |
| `Models.AsWrittenAmbiguityRaisesNameError` | boson/db/models.py:308-331 | on the `Category` class, an example: as written, `service_id` followed by `service` raises `NameError`, because `AmbiguousFieldUpdate` is not imported (the general rule is `Models.CollectRefAfterItsField`) |
| `Models.Validate` | boson/db/models.py:301-342 | the validation loop yields the plan or the first error, as `Collect` defines them |
| `Models.BaseModel.constructor` | boson/db/models.py:174-199 | the values are exactly the class's fields read from the backend object; the cache is empty |
| `Models.BaseModel.Fetch` | boson/db/models.py:92-120 | a single reference asks the backend's `_lazy_get` with its id field, a list reference asks `_lazy_get_list` with its name; one call each |
| `Models.BaseModel.GetItem` | boson/db/models.py:201-217 | a field answers its value with no backend call; a reference is resolved by one backend call the first time and from the cache afterwards; any other name raises `KeyError`; validity is kept |
| `Models.BaseModel.GetAttr` | boson/db/models.py:219-228 | the same answers, with `KeyError` turned into `AttributeError` |
| `Models.BaseModel.SetItem` | boson/db/models.py:230-263 | on success the state becomes what `Assign` gives and `_save` is called exactly once with the updated object; on error nothing changes and nothing is saved |
| `Models.BaseModel.SetAttr` | boson/db/models.py:265-278 | an empty name raises `IndexError`; a name starting with `_` is set as a plain attribute, bypassing the fields; any other name sets the item, with `KeyError` turned into `AttributeError` |
| `Models.BaseModel.DelItem` | boson/db/models.py:280-285 | deleting any item raises `KeyError` naming it |
| `Models.BaseModel.DelAttr` | boson/db/models.py:287-292 | deleting any attribute raises `AttributeError` |
| `Models.BaseModel.Install` | boson/db/models.py:344-346 | every planned value is set on the backend object, in any order |
| `Models.BaseModel.DropStale` | boson/db/models.py:356-358 | every stale reference leaves the cache, and nothing else does |
| `Models.BaseModel.Update` | boson/db/models.py:294-358 | all or nothing, in both modes: when validation fails (for any unknown name, list reference or id-less value, by `Models.CollectRejectsUnsettable`, and for a reference after its id field, by `Models.CollectRefAfterItsField`) the error is returned, nothing changes and nothing is saved; otherwise the planned values reach the backend object and the values, `_save` is called exactly once, the cache takes the new objects and then loses the stale references |

## Left out

- The abstract backend operations (`create_*`, `get_*`, `reserve`, `expire_reservations`, `_delete`) have no body to model. The ones the core calls record their calls and nothing else.
- Quota resolution and the reserve, commit, rollback and expiry protocol are not implemented in the repository, so they are not modelled.
- `BaseModel.delete` and `__delattr__`'s use of gettext are not modelled beyond the error values. `delete` only forwards to the abstract `_delete`.
- The `hints` argument of model objects and lazy lookups is passed on untouched by the source, and is dropped.
- `BaseRef.klass` resolves a class name through the module namespace. References carry the class name as a string instead.
- The `metatools` inheritance helpers are outside the repository. Their effect is modelled as set union for `_fields` and as "keep existing keys, first base wins" for `_refs`, over the direct bases in order.
- `Context.from_dict`, and the logging of dropped keyword arguments in `Context.__init__`, are not modelled.
- Logging, gettext translation and exception-message formatting are left out. Errors are values that carry the names they report.
- UUID generation is a parameter of the constructors that need it.
- Python `repr` is modelled for `None`, integers and strings only. Strings are quoted with single quotes without escaping, and Python 2's `L` suffix on long integers is not modelled.
- `str.lower` is modelled for ASCII letters only.
- The `session` property calls the module-level `get_session`, which the repository leaves as a placeholder. It is a `SessionSource` whose answer is a parameter.
- `Models.BaseModel.GetAttr`: Python calls `__getattr__` only for names that ordinary lookup misses. The model applies it to any name.
- `Models.BaseModel.SetAttr`: an underscore attribute replaces a Python attribute of the object, possibly `_values` or `_cache` themselves. The model keeps such attributes apart, in `internal`.
- `Models.BaseModel.SetItem`: a value without an `id` raises Python's `AttributeError` with a type-dependent message. The model reports `AttributeError("id")`.
- `Models.Collect`: keyword arguments are a sequence of pairs, which may repeat a name; Python keyword arguments cannot, so `Models.BaseModel.Update` requires distinct names, and the lemmas about `Collect` also cover the repeated-name inputs the source never sees.
- `Models.BaseModel.constructor`: the source assumes the backend object has every declared field. The model makes this a precondition.
- The request record (`boson/data_model/request.py`), the SQLAlchemy schema and migrations, and `boson/utils.py` are not part of this model.

## Findings

| source | as written | input that shows it | evidently intended | confidence | as-written member | corrected member |
|---|---|---|---|---|---|---|
| boson/db/models.py:334 | `update` stores a reference's id under the reference's own name, so the id never reaches the `_id` field, and the ambiguity check for the `_id` field misses a reference that came first | `category.update(service=obj)`, and `update(service=obj, service_id=x)` iterated in that order | store the id under the reference's id field, as `__setitem__` does, and refuse both arguments in either order (proved in `Models.CorrectedRejectsAmbiguityEitherOrder`) | high (not executed) | `Models.AsWrittenUpdateStoresIdUnderRefName` | `Models.UpdateOfOneIsSetItem` |
| boson/db/models.py:331 | `update` raises `AmbiguousFieldUpdate` (at lines 311 and 331), a name the module never imports (lines 18-22), so the ambiguity surfaces as `NameError`; as written only the raise at line 331 can be reached | `category.update(service_id=x, service=obj)` iterated in that order | raise `AmbiguousFieldUpdate` naming the field | high (not executed) | `Models.AsWrittenAmbiguityRaisesNameError` | `Models.CorrectedRejectsAmbiguityEitherOrder` |
| boson/db/api.py:138 | `_get_session` assigns `context.session`, a property without a setter (`boson/context.py:103-109`), so creating a session raises `AttributeError` and the new session is lost | a context with no session while `get_session` answers `None` | store the new session on the context and return it | high (not executed) | `Api.API.GetSessionAsWritten` | `Api.API.GetSession` |
| boson/context.py:95 | `elevated` makes a shallow copy and appends `admin` to the roles list it shares with the original context | a context with roles `one` and `is_admin` false | give the elevated copy its own roles list | medium (not executed) | `Contexts.ElevationLeaksAdminRole` | `Contexts.Context.ElevatedIsolated` |
