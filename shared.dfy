/** Values, filter conditions and errors shared by the soft-delete query sets,
    the soft-delete document and the change-tracking set. */
module Shared {

  datatype Option<+T> = None | Some(value: T)

  /** A field value, or a marker value in a `soft_delete` declaration.
      Python's `type(v) is bool` test is `VBool?`; every other value is `VOther`. */
  datatype Val = VBool(b: bool) | VOther(x: int)

  /** One entry of a query set's `_initial_query`: a literal the field must
      equal, or `{'$ne': v}`, a value the field must differ from. */
  datatype Cond = Lit(v: Val) | Ne(v: Val)

  /** Why a Python `assert` failed. */
  datatype AssertReason = SpecMissing | SpecNotDict | NotAField(field: string)

  /** The Python exceptions the modelled code can raise. */
  datatype Error =
    | KeyError(key: string)        // `del d[key]` on an absent key
    | ElementNotFound              // `set.remove(x)` on an absent element (a KeyError in Python)
    | PopFromEmptySet              // `set.pop()` on an empty set (a KeyError in Python)
    | AssertionError(reason: AssertReason)
    | AttributeError               // `.items()` on a value that is not a mapping

  datatype Result<+T> = Ok(value: T) | Err(error: Error)

  /** What a document class's `meta` holds under `'soft_delete'`: nothing, a
      value that is not a mapping (with its Python truthiness), a mapping of
      another type than `dict` (an `OrderedDict`, say), or a `dict`; the last
      two map field name to marker value. */
  datatype MetaEntry =
    | Absent
    | NonDict(truthy: bool)
    | Mapping(spec: map<string, Val>)
    | Dict(spec: map<string, Val>)

  /** The arguments a query set's `__call__` hands on to the base
      `QuerySet.__call__`; the query the base class then runs is not modelled. */
  datatype CallArgs = CallArgs(
    qObj: Option<Val>, classCheck: bool, slaveOkay: bool,
    readPreference: Option<Val>, query: map<string, Val>)

  /** The marker conversion of document.py, which stores markers without `to_mongo`. */
  function NoConversion(field: string, v: Val): Val { v }

  function Lookup(doc: map<string, Val>, field: string): Option<Val>
  {
    if field in doc then Some(doc[field]) else None
  }

  /** MongoDB's reading of one condition against a stored field: a literal
      matches only that value, and `$ne` also matches a missing field. */
  predicate FieldMatches(c: Cond, stored: Option<Val>)
  {
    match c
    case Lit(v) => stored == Some(v)
    case Ne(v) => stored != Some(v)
  }

  /** A filter map selects a stored document when every condition matches. */
  predicate Selects(filter: map<string, Cond>, doc: map<string, Val>)
  {
    forall field :: field in filter ==> FieldMatches(filter[field], Lookup(doc, field))
  }

  /** The document as it is written to the database: every field through `to_mongo`. */
  function Stored(values: map<string, Val>, toMongo: (string, Val) -> Val): map<string, Val>
  {
    map field | field in values :: toMongo(field, values[field])
  }

  /** `after` is `before` with some (possibly none, possibly all) of `keys` deleted. */
  ghost predicate RemovedWithin<V>(before: map<string, V>, after: map<string, V>, keys: set<string>)
  {
    && after.Keys <= before.Keys
    && before.Keys - keys <= after.Keys
    && forall k :: k in after ==> after[k] == before[k]
  }

  /** The Python loop `for key in keys: del q[key]`, run on a copy: the keys
      are visited in an unspecified order and the first absent one raises
      `KeyError`, leaving the keys deleted before it deleted. */
  method DelEach<V>(q: map<string, V>, keys: set<string>) returns (after: map<string, V>, missing: Option<string>)
    ensures missing.None? <==> keys <= q.Keys
    ensures missing.None? ==> after == q - keys
    ensures missing.Some? ==> missing.value in keys && missing.value !in q && RemovedWithin(q, after, keys)
  {
    after := q;
    var todo := keys;
    while todo != {}
      invariant todo <= keys
      invariant keys - todo <= q.Keys
      invariant after == q - (keys - todo)
      decreases todo
    {
      var key :| key in todo;
      if key !in after {
        return after, Some(key);
      }
      after := after - {key};
      todo := todo - {key};
    }
    return after, None;
  }
}
