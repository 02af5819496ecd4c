/** The values a configuration dictionary can hold, and the few Python
    behaviours of them that the configuration code depends on. */
module PyValues {

  /** A value as the YAML loader can produce it.  `IntList` is a list whose
      elements are all integers (the shape of `forwarded_ports`).  `PySet`
      (a `!!set`) and `Mapping` are recorded by their integer elements or
      keys and by whether they hold elements or keys of other types.
      `Opaque` stands for every other value (a float, a timestamp, a list
      holding non-integers, bytes), of which the model keeps only its
      truthiness and whether it can be hashed.  For a list holding
      non-integers and for bytes, which support `in`, that loses behaviour
      of `add_port` and `remove_port`; README.md lists it under "Left out". */
  datatype Value =
    | Null
    | Bool(b: bool)
    | Int(i: int)
    | Str(s: string)
    | IntList(items: seq<int>)
    | PySet(ints: set<int>, hasOthers: bool)
    | Mapping(intKeys: set<int>, hasOtherKeys: bool)
    | Opaque(truthy: bool, hashable: bool)

  datatype Option<+T> = None | Some(value: T)

  /** The exceptions the configuration code can raise. */
  datatype Failure = ValueError | TypeError | AttributeError

  /** The outcome of a Python call that either returns a value or raises. */
  datatype Outcome<+T> = Ok(value: T) | Raised(failure: Failure)

  /** The outcome of a call that returns nothing or raises. */
  datatype Status = Done | Failed(failure: Failure)

  /** The in-memory configuration: `self._config`. */
  type Dict = map<string, Value>

  /** Python's `bool(v)`. */
  predicate Truthy(v: Value)
  {
    match v
    case Null => false
    case Bool(b) => b
    case Int(i) => i != 0
    case Str(s) => s != ""
    case IntList(items) => items != []
    case PySet(ints, hasOthers) => ints != {} || hasOthers
    case Mapping(intKeys, hasOtherKeys) => intKeys != {} || hasOtherKeys
    case Opaque(truthy, _) => truthy
  }

  /** Whether `v` may be used as a dictionary key (`v in some_dict`
      raises TypeError for a list, a set or a mapping). */
  predicate Hashable(v: Value)
  {
    match v
    case IntList(_) => false
    case PySet(_, _) => false
    case Mapping(_, _) => false
    case Opaque(_, hashable) => hashable
    case _ => true
  }

  /** `d.get(key, default)`. */
  function GetOr(d: Dict, key: string, default: Value): Value
  {
    if key in d then d[key] else default
  }
}
