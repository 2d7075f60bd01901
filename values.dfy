/**
  The scalar values that travel through auth data, parameter data and model
  fields, with the `repr` the canonical resource name prints them by, and the
  `ValueError` the data model raises for missing fields.
 */
module Values {
  import opened Text

  /** A Python scalar: `None`, an integer or a string. */
  datatype Value = NoneV | IntV(i: int) | StrV(s: string)

  /** An identity of a stored model object: its model class name and its `id`. */
  datatype ModelRef = ModelRef(klass: string, id: Value)

  /**
    Anything a model field, a reference cache entry or an `update` keyword
    argument can hold: a scalar, one model object (it has an `id`), or a list of
    model objects (as a `ListRef` resolves to).
   */
  datatype Datum = Scalar(v: Value) | Model(obj: ModelRef) | Models(objs: seq<ModelRef>)

  /** Which kind of data a `ValueError` found missing. */
  datatype FieldKind = AuthData | ParameterData

  /** `ValueError("Missing ... fields: ...")`, carrying the missing names in sorted order. */
  datatype ValueError = MissingFields(kind: FieldKind, fields: seq<string>)

  function DigitChar(d: nat): (c: char)
    requires d < 10
    ensures '0' <= c <= '9'
  {
    "0123456789"[d]
  }

  /** Decimal digits of `n`, most significant first, without leading zeros. */
  function Decimal(n: nat): (s: string)
    ensures |s| >= 1
    ensures forall i :: 0 <= i < |s| ==> '0' <= s[i] <= '9'
    ensures n >= 10 ==> s[0] != '0'
  {
    if n < 10 then [DigitChar(n)] else Decimal(n / 10) + [DigitChar(n % 10)]
  }

  /** Python's `repr` of a scalar; strings are quoted without escaping. */
  function Repr(v: Value): (r: string)
    ensures |r| >= 1
  {
    match v
    case NoneV => "None"
    case IntV(i) => if i < 0 then "-" + Decimal(-i) else Decimal(i)
    case StrV(s) => "'" + s + "'"
  }
}
