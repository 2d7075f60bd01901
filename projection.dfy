/**
  Restricting a mapping to a set of field names: the filter
  `dict((k, v) for k, v in data.items() if k in fields)` that `ServiceUser`,
  `SpecificResource`, `Usage` and `Quota` all apply to the data they are given.
 */
module Projection {

  /** `data` restricted to `fields`. */
  function Project<K, V>(data: map<K, V>, fields: set<K>): (r: map<K, V>)
    ensures r.Keys == data.Keys * fields
    ensures forall k :: k in r ==> r[k] == data[k]
  {
    map k | k in data && k in fields :: data[k]
  }

  /** Two mappings that agree on `fields` project to the same mapping, whatever else they hold. */
  lemma ProjectIgnoresOtherKeys<K, V>(d1: map<K, V>, d2: map<K, V>, fields: set<K>)
    requires forall k :: k in fields ==> (k in d1 <==> k in d2)
    requires forall k :: k in fields && k in d1 ==> d1[k] == d2[k]
    ensures Project(d1, fields) == Project(d2, fields)
  {
  }
}
