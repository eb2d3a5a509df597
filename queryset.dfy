/** The soft-delete query set of queryset.py: a query set whose
    `_initial_query` hides documents that carry their class's soft-delete
    markers, and three operations that rewrite that map in place. */
module Queryset {
  import opened Shared

  /** The "not deleted" condition for one marker: `not v` for a boolean
      marker, `{'$ne': to_mongo(v)}` for any other. */
  function ExclusionFor(field: string, marker: Val, toMongo: (string, Val) -> Val): Cond
  {
    if marker.VBool? then Lit(VBool(!marker.b)) else Ne(toMongo(field, marker))
  }

  /** `_not_soft_deleted_cond(**kwargs)`: one exclusion per marker field the
      keyword arguments do not name. */
  function NotSoftDeletedCond(spec: map<string, Val>, kwargs: set<string>, toMongo: (string, Val) -> Val): (cond: map<string, Cond>)
    ensures cond.Keys == spec.Keys - kwargs
    ensures forall k :: k in cond && spec[k].VBool? ==> cond[k] == Lit(VBool(!spec[k].b))
    ensures forall k :: k in cond && spec[k].VOther? ==> cond[k] == Ne(toMongo(k, spec[k]))
  {
    map k | k in spec.Keys - kwargs :: ExclusionFor(k, spec[k], toMongo)
  }

  /** The conditions `soft_deleted` pins: every marker field equal to its
      marker through `to_mongo`. */
  function PinnedCond(spec: map<string, Val>, toMongo: (string, Val) -> Val): map<string, Cond>
  {
    map k | k in spec :: Lit(toMongo(k, spec[k]))
  }

  /** A boolean field's `to_mongo` keeps a boolean as it is. */
  ghost predicate BoolPreserving(spec: map<string, Val>, toMongo: (string, Val) -> Val)
  {
    forall k, x: bool :: k in spec && spec[k].VBool? ==> toMongo(k, VBool(x)) == VBool(x)
  }

  /** `meta.get('soft_delete', {})`, read with `.items()`: any mapping is
      read, and a value that is not a mapping has no `items` and raises
      `AttributeError`. */
  function SpecOf(meta: MetaEntry): (r: Result<map<string, Val>>)
    ensures r.Err? <==> meta.NonDict?
    ensures r.Err? ==> r.error == AttributeError
    ensures meta.Absent? ==> r == Ok(map[])
    ensures meta.Dict? || meta.Mapping? ==> r == Ok(meta.spec)
  {
    match meta
    case Absent => Ok(map[])
    case NonDict(_) => Err(AttributeError)
    case Mapping(spec) => Ok(spec)
    case Dict(spec) => Ok(spec)
  }

  /** For a field the caller did not name, the default exclusion and the
      `soft_deleted` pin split the field's stored values into two complementary
      parts: a stored document is hidden by default exactly when `soft_deleted`
      shows it (a boolean field must hold a boolean). */
  lemma ExclusionComplementsPin(spec: map<string, Val>, kwargs: set<string>, toMongo: (string, Val) -> Val,
                                k: string, stored: Option<Val>)
    requires k in spec.Keys - kwargs
    requires BoolPreserving(spec, toMongo)
    requires spec[k].VBool? ==> stored.Some? && stored.value.VBool?
    ensures FieldMatches(NotSoftDeletedCond(spec, kwargs, toMongo)[k], stored)
        <==> !FieldMatches(PinnedCond(spec, toMongo)[k], stored)
  {
  }

  /** The default filter selects a stored document exactly when, for every
      marker field the caller did not name, the field does not hold the
      converted marker and, for a boolean marker, the field is present and
      holds a boolean. */
  lemma DefaultFilterHidesExactlyMarked(spec: map<string, Val>, kwargs: set<string>, toMongo: (string, Val) -> Val,
                                        doc: map<string, Val>)
    requires BoolPreserving(spec, toMongo)
    ensures Selects(NotSoftDeletedCond(spec, kwargs, toMongo), doc)
        <==> forall k :: k in spec.Keys - kwargs ==>
               && Lookup(doc, k) != Some(toMongo(k, spec[k]))
               && (spec[k].VBool? ==> k in doc && doc[k].VBool?)
  {
  }

  /** A stored document that lacks a boolean marker field the caller did not
      name is selected neither by the default filter (the literal `not v`
      needs the field) nor by `soft_deleted` (the literal `v` does too),
      whereas a non-boolean marker's `$ne` selects a document lacking it. */
  lemma MissingBooleanMarkerIsInvisible(spec: map<string, Val>, kwargs: set<string>, toMongo: (string, Val) -> Val,
                                        doc: map<string, Val>, k: string)
    requires k in spec.Keys - kwargs && k !in doc
    ensures spec[k].VBool? ==> !Selects(NotSoftDeletedCond(spec, kwargs, toMongo), doc)
                               && !Selects(PinnedCond(spec, toMongo), doc)
    ensures spec[k].VOther? ==> FieldMatches(NotSoftDeletedCond(spec, kwargs, toMongo)[k], Lookup(doc, k))
  { }

  /** `for field, sd_value in soft_delete_attrs.items(): q[field] = to_mongo(...)`,
      run on a copy. */
  method PinEach(q: map<string, Cond>, spec: map<string, Val>, toMongo: (string, Val) -> Val) returns (after: map<string, Cond>)
    ensures after.Keys == q.Keys + spec.Keys
    ensures forall k :: k in spec ==> after[k] == Lit(toMongo(k, spec[k]))
    ensures forall k :: k in q && k !in spec ==> after[k] == q[k]
  {
    after := q;
    var todo := spec.Keys;
    while todo != {}
      invariant todo <= spec.Keys
      invariant after.Keys == q.Keys + (spec.Keys - todo)
      invariant forall k :: k in spec && k !in todo ==> after[k] == Lit(toMongo(k, spec[k]))
      invariant forall k :: k in q && (k !in spec || k in todo) ==> after[k] == q[k]
      decreases todo
    {
      var field :| field in todo;
      after := after[field := Lit(toMongo(field, spec[field]))];
      todo := todo - {field};
    }
  }

  class SoftDeleteQuerySet {
    /** The document class's soft-delete declaration, field name to marker. */
    const spec: map<string, Val>
    /** The document's per-field `to_mongo` conversion. */
    const toMongo: (string, Val) -> Val
    /** `_initial_query`: the conditions every query of this set carries. */
    var initialQuery: map<string, Cond>

    /** `__init__` once the base class has set `_initial_query` to `baseQuery`:
        the exclusions for the markers `kwargs` does not name are merged in
        with `dict.update`, overriding base entries for those fields. */
    constructor (spec: map<string, Val>, toMongo: (string, Val) -> Val, baseQuery: map<string, Cond>, kwargs: set<string>)
      ensures this.spec == spec && this.toMongo == toMongo
      ensures initialQuery == baseQuery + NotSoftDeletedCond(spec, kwargs, toMongo)
    {
      this.spec := spec;
      this.toMongo := toMongo;
      initialQuery := baseQuery + NotSoftDeletedCond(spec, kwargs, toMongo);
    }

    /** `clone()`: an independent query set with a copy of `_initial_query`. */
    constructor Copy(other: SoftDeleteQuerySet)
      ensures spec == other.spec && toMongo == other.toMongo && initialQuery == other.initialQuery
    {
      spec := other.spec;
      toMongo := other.toMongo;
      initialQuery := other.initialQuery;
    }

    /** Building the query set for a document class whose meta holds `meta`
        under `'soft_delete'`. */
    static method New(meta: MetaEntry, toMongo: (string, Val) -> Val, baseQuery: map<string, Cond>, kwargs: set<string>)
      returns (r: Result<SoftDeleteQuerySet>)
      ensures r.Err? <==> meta.NonDict?
      ensures r.Err? ==> r.error == AttributeError
      ensures r.Ok? ==> fresh(r.value) && r.value.spec == SpecOf(meta).value && r.value.toMongo == toMongo
      ensures r.Ok? ==> forall k :: k in r.value.initialQuery <==> k in baseQuery || k in r.value.spec.Keys - kwargs
      ensures r.Ok? ==> forall k :: k in baseQuery && (k !in r.value.spec || k in kwargs) ==> r.value.initialQuery[k] == baseQuery[k]
      ensures r.Ok? ==> forall k :: k in r.value.spec.Keys - kwargs ==> r.value.initialQuery[k] == ExclusionFor(k, r.value.spec[k], toMongo)
      ensures meta.Absent? ==> r.Ok? && r.value.initialQuery == baseQuery
    {
      var spec := SpecOf(meta);
      if spec.Err? {
        return Err(spec.error);
      }
      var qs := new SoftDeleteQuerySet(spec.value, toMongo, baseQuery, kwargs);
      if meta.Absent? {
        assert NotSoftDeletedCond(spec.value, kwargs, toMongo) == map[];
        assert qs.initialQuery == baseQuery;
      }
      return Ok(qs);
    }

    /** `clone()`. */
    method Clone() returns (c: SoftDeleteQuerySet)
      ensures fresh(c) && c.spec == spec && c.toMongo == toMongo && c.initialQuery == initialQuery
    {
      c := new SoftDeleteQuerySet.Copy(this);
    }

    /** `__call__`: the marker fields the query names explicitly lose their
        exclusion (each `del` raises `KeyError` when the entry is already
        gone), then every argument is passed on unchanged. */
    method Call(qObj: Option<Val>, classCheck: bool, slaveOkay: bool, readPreference: Option<Val>,
                query: map<string, Val>) returns (r: Result<CallArgs>)
      modifies this
      ensures r.Ok? <==> query.Keys * spec.Keys <= old(initialQuery).Keys
      ensures r.Ok? ==> initialQuery == old(initialQuery) - (query.Keys * spec.Keys)
      ensures r.Ok? ==> r.value == CallArgs(qObj, classCheck, slaveOkay, readPreference, query)
      ensures r.Err? ==> r.error.KeyError? && r.error.key in query.Keys * spec.Keys
                         && r.error.key !in old(initialQuery)
                         && RemovedWithin(old(initialQuery), initialQuery, query.Keys * spec.Keys)
    {
      var after, missing := DelEach(initialQuery, query.Keys * spec.Keys);
      initialQuery := after;
      if missing.Some? {
        return Err(KeyError(missing.value));
      }
      return Ok(CallArgs(qObj, classCheck, slaveOkay, readPreference, query));
    }

    /** `including_soft_deleted`: deletes the marker fields present in
        `_initial_query` (never failing), then returns a clone; the receiver
        itself is changed too. Applying it again changes nothing more. */
    method IncludingSoftDeleted() returns (c: SoftDeleteQuerySet)
      modifies this
      ensures initialQuery == old(initialQuery) - spec.Keys
      ensures initialQuery.Keys !! spec.Keys
      ensures fresh(c) && c.spec == spec && c.toMongo == toMongo && c.initialQuery == initialQuery
    {
      var after, missing := DelEach(initialQuery, initialQuery.Keys * spec.Keys);
      assert missing.None?;
      initialQuery := after;
      c := Clone();
    }

    /** `soft_deleted`: pins every marker field to its converted marker,
        overwriting whatever condition it had, then returns a clone; the
        receiver itself is changed too. */
    method SoftDeleted() returns (c: SoftDeleteQuerySet)
      modifies this
      ensures initialQuery == old(initialQuery) + PinnedCond(spec, toMongo)
      ensures forall k :: k in spec ==> initialQuery[k] == Lit(toMongo(k, spec[k]))
      ensures forall k :: k in old(initialQuery) && k !in spec ==> initialQuery[k] == old(initialQuery)[k]
      ensures fresh(c) && c.spec == spec && c.toMongo == toMongo && c.initialQuery == initialQuery
    {
      var after := PinEach(initialQuery, spec, toMongo);
      assert after == initialQuery + PinnedCond(spec, toMongo);
      initialQuery := after;
      c := Clone();
    }
  }

  /** Calling `including_soft_deleted` twice leaves the same filter as once. */
  method IncludingSoftDeletedTwice(qs: SoftDeleteQuerySet) returns (once: SoftDeleteQuerySet, twice: SoftDeleteQuerySet)
    modifies qs
    ensures once.initialQuery == old(qs.initialQuery) - qs.spec.Keys
    ensures twice.initialQuery == once.initialQuery
  {
    once := qs.IncludingSoftDeleted();
    twice := once.IncludingSoftDeleted();
  }

  /** `Doc.objects(deleted=True).including_soft_deleted` for a class whose
      meta declares `{'deleted': True}`: the explicit query takes the marker
      field out of the filter and the clone still works, leaving no condition. */
  method OverrideThenInclude() returns (called: Result<CallArgs>, included: SoftDeleteQuerySet)
    ensures called.Ok? && included.initialQuery == map[]
  {
    var spec := map["deleted" := VBool(true)];
    var objects := new SoftDeleteQuerySet(spec, NoConversion, map[], {});
    assert objects.initialQuery == map["deleted" := Lit(VBool(false))];
    called := objects.Call(None, true, false, None, map["deleted" := VBool(true)]);
    var scoped := objects.Clone();
    included := scoped.IncludingSoftDeleted();
  }
}
