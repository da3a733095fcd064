/**
  Python values as they reach the audit logger, and the normaliser
  `convert_dataclass_to_dict` that turns request parameters into plain
  dictionaries and lists before they are written to the audit log.
 */
module Values {

  /**
    The shapes of value the normaliser distinguishes.  `Obj` is any object
    that has a `__dict__` (a Pydantic model, a regular dataclass, any plain
    instance), with a flag telling whether it is also a dataclass, whose
    attributes are then its fields.  `SlotsDataclass` is a dataclass declared
    with `__slots__`: it has dataclass fields but no `__dict__`.  `Opaque`
    is any other value with neither a `__dict__` nor dataclass fields (a
    float, bytes, a datetime, a UUID, an instance of a class that declares
    `__slots__` without being a dataclass), named by its type.  Dictionary
    keys are strings, as they are for keyword arguments.
   */
  datatype Value =
    | Null
    | Bool(b: bool)
    | Int(i: int)
    | Str(s: string)
    | List(items: seq<Value>)
    | Dict(entries: map<string, Value>)
    | Obj(isDataclass: bool, attrs: map<string, Value>)
    | SlotsDataclass(fields: map<string, Value>)
    | Opaque(typeName: string)

  /** Values that are neither containers nor objects the normaliser rebuilds. */
  predicate IsScalar(v: Value) {
    v.Null? || v.Bool? || v.Int? || v.Str? || v.Opaque?
  }

  /**
    `dataclasses.asdict` after its argument has been found to be a
    dataclass: dataclasses (with or without `__dict__`), lists and dicts are
    rebuilt recursively; every other value, a plain object included, is
    deep-copied, that is, kept as it is.
   */
  function AsDictInner(v: Value): (r: Value)
    ensures IsScalar(v) ==> r == v
    ensures v.Obj? && v.isDataclass ==> r.Dict? && r.entries.Keys == v.attrs.Keys
    ensures v.Obj? && !v.isDataclass ==> r == v
    ensures v.SlotsDataclass? ==> r.Dict? && r.entries.Keys == v.fields.Keys
    ensures v.List? ==> r.List? && |r.items| == |v.items|
    ensures v.Dict? ==> r.Dict? && r.entries.Keys == v.entries.Keys
    ensures v.Obj? && v.isDataclass ==> forall k | k in v.attrs :: r.entries[k] == AsDictInner(v.attrs[k])
    ensures v.SlotsDataclass? ==> forall k | k in v.fields :: r.entries[k] == AsDictInner(v.fields[k])
    ensures v.List? ==> forall i | 0 <= i < |v.items| :: r.items[i] == AsDictInner(v.items[i])
    ensures v.Dict? ==> forall k | k in v.entries :: r.entries[k] == AsDictInner(v.entries[k])
  {
    match v
    case Obj(isDataclass, attrs) =>
      if isDataclass then Dict(map k | k in attrs :: AsDictInner(attrs[k])) else v
    case SlotsDataclass(fields) => Dict(map k | k in fields :: AsDictInner(fields[k]))
    case List(items) => List(seq(|items|, i requires 0 <= i < |items| => AsDictInner(items[i])))
    case Dict(entries) => Dict(map k | k in entries :: AsDictInner(entries[k]))
    case _ => v
  }

  /**
    `convert_dataclass_to_dict`.  The branches are tried in the source's
    order: dict, then anything with a `__dict__` (converted as the dict of
    its attributes), then list, then a dataclass without `__dict__` (handed
    to `asdict`); everything else is returned unchanged.
   */
  function Convert(v: Value): (r: Value)
    ensures IsScalar(v) ==> r == v
    ensures v.Dict? ==> r.Dict? && r.entries.Keys == v.entries.Keys
    ensures v.Obj? ==> r.Dict? && r.entries.Keys == v.attrs.Keys
    ensures v.List? ==> r.List? && |r.items| == |v.items|
    ensures v.SlotsDataclass? ==> r.Dict? && r.entries.Keys == v.fields.Keys
    ensures v.Dict? ==> forall k | k in v.entries :: r.entries[k] == Convert(v.entries[k])
    ensures v.Obj? ==> forall k | k in v.attrs :: r.entries[k] == Convert(v.attrs[k])
    ensures v.List? ==> forall i | 0 <= i < |v.items| :: r.items[i] == Convert(v.items[i])
    ensures v.SlotsDataclass? ==> forall k | k in v.fields :: r.entries[k] == AsDictInner(v.fields[k])
  {
    match v
    case Dict(entries) => Dict(map k | k in entries :: Convert(entries[k]))
    case Obj(_, attrs) => Dict(map k | k in attrs :: Convert(attrs[k]))
    case List(items) => List(seq(|items|, i requires 0 <= i < |items| => Convert(items[i])))
    case SlotsDataclass(fields) => Dict(map k | k in fields :: AsDictInner(fields[k]))
    case _ => v
  }

  /**
    An object is normalised as the dict of its attributes, whether or not
    it is a dataclass.
   */
  lemma ConvertObjectIsItsAttributeDict(v: Value)
    requires v.Obj?
    ensures Convert(v) == Convert(Dict(v.attrs))
  {
  }

  /**
    Plain data: no object with a `__dict__` and no dataclass anywhere
    inside; opaque leaves may remain.
   */
  predicate NoObjects(v: Value) {
    match v
    case List(items) => forall i | 0 <= i < |items| :: NoObjects(items[i])
    case Dict(entries) => forall k | k in entries :: NoObjects(entries[k])
    case Obj(_, _) => false
    case SlotsDataclass(_) => false
    case _ => true
  }

  /** No object inside that `asdict` would deep-copy instead of rebuilding. */
  predicate NoPlainObjects(v: Value) {
    match v
    case List(items) => forall i | 0 <= i < |items| :: NoPlainObjects(items[i])
    case Dict(entries) => forall k | k in entries :: NoPlainObjects(entries[k])
    case Obj(isDataclass, attrs) => isDataclass && forall k | k in attrs :: NoPlainObjects(attrs[k])
    case SlotsDataclass(fields) => forall k | k in fields :: NoPlainObjects(fields[k])
    case _ => true
  }

  /** Every dataclass without `__dict__` inside `v` holds no plain object. */
  predicate SlotsHoldNoPlainObjects(v: Value) {
    match v
    case List(items) => forall i | 0 <= i < |items| :: SlotsHoldNoPlainObjects(items[i])
    case Dict(entries) => forall k | k in entries :: SlotsHoldNoPlainObjects(entries[k])
    case Obj(_, attrs) => forall k | k in attrs :: SlotsHoldNoPlainObjects(attrs[k])
    case SlotsDataclass(fields) => forall k | k in fields :: NoPlainObjects(fields[k])
    case _ => true
  }

  /** `asdict` leaves no object behind when there is no plain object to copy. */
  lemma {:induction false} AsDictInnerRemovesObjects(v: Value)
    requires NoPlainObjects(v)
    ensures NoObjects(AsDictInner(v))
  {
    match v
    case Obj(_, attrs) =>
      forall k | k in attrs ensures NoObjects(AsDictInner(attrs[k])) {
        AsDictInnerRemovesObjects(attrs[k]);
      }
    case SlotsDataclass(fields) =>
      forall k | k in fields ensures NoObjects(AsDictInner(fields[k])) {
        AsDictInnerRemovesObjects(fields[k]);
      }
    case List(items) =>
      forall i | 0 <= i < |items| ensures NoObjects(AsDictInner(items[i])) {
        AsDictInnerRemovesObjects(items[i]);
      }
    case Dict(entries) =>
      forall k | k in entries ensures NoObjects(AsDictInner(entries[k])) {
        AsDictInnerRemovesObjects(entries[k]);
      }
    case _ =>
  }

  /** The normaliser's result holds no object node. */
  lemma {:induction false} ConvertRemovesObjects(v: Value)
    requires SlotsHoldNoPlainObjects(v)
    ensures NoObjects(Convert(v))
  {
    match v
    case Dict(entries) =>
      forall k | k in entries ensures NoObjects(Convert(entries[k])) {
        ConvertRemovesObjects(entries[k]);
      }
    case Obj(_, attrs) =>
      forall k | k in attrs ensures NoObjects(Convert(attrs[k])) {
        ConvertRemovesObjects(attrs[k]);
      }
    case List(items) =>
      forall i | 0 <= i < |items| ensures NoObjects(Convert(items[i])) {
        ConvertRemovesObjects(items[i]);
      }
    case SlotsDataclass(fields) =>
      forall k | k in fields ensures NoObjects(AsDictInner(fields[k])) {
        AsDictInnerRemovesObjects(fields[k]);
      }
    case _ =>
  }

  /** Plain data is a fixed point of the normaliser. */
  lemma {:induction false} ConvertKeepsPlainData(v: Value)
    requires NoObjects(v)
    ensures Convert(v) == v
  {
    match v
    case Dict(entries) =>
      forall k | k in entries ensures Convert(entries[k]) == entries[k] {
        ConvertKeepsPlainData(entries[k]);
      }
      assert (map k | k in entries :: Convert(entries[k])) == entries;
    case List(items) =>
      forall i | 0 <= i < |items| ensures Convert(items[i]) == items[i] {
        ConvertKeepsPlainData(items[i]);
      }
      assert seq(|items|, i requires 0 <= i < |items| => Convert(items[i])) == items;
    case _ =>
  }

  /** Converting an already converted value changes nothing. */
  lemma ConvertIdempotent(v: Value)
    requires SlotsHoldNoPlainObjects(v)
    ensures Convert(Convert(v)) == Convert(v)
  {
    ConvertRemovesObjects(v);
    ConvertKeepsPlainData(Convert(v));
  }

  /**
    Without the hypothesis both properties fail: a plain object inside a
    dataclass without `__dict__` is deep-copied by `asdict`, so it survives
    one conversion and is turned into a dict by the next.
   */
  lemma SlotsDataclassKeepsPlainObject()
    ensures var v := SlotsDataclass(map["x" := Obj(false, map[])]);
      && !NoObjects(Convert(v))
      && Convert(Convert(v)) != Convert(v)
  {
    var v := SlotsDataclass(map["x" := Obj(false, map[])]);
    var copied := Dict(map["x" := Obj(false, map[])]);
    assert Convert(v) == copied;
    assert copied.entries["x"] == Obj(false, map[]);
    assert !NoObjects(copied);
    assert Convert(copied).entries["x"] == Dict(map[]);
  }
}
