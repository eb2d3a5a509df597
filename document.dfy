/** document.py: the older soft-delete query set, which stores markers
    without `to_mongo` and deletes marker entries unconditionally, and the
    soft-delete document with its `soft_delete` operation. */
module Document {
  import opened Shared
  import Queryset

  /** The constructor's two assertions: `'soft_delete' in meta`, then
      `type(meta['soft_delete']) is dict` (an empty dict passes both). */
  function RequireSpec(meta: MetaEntry): (r: Result<map<string, Val>>)
    ensures r.Ok? <==> meta.Dict?
    ensures r.Ok? ==> r.value == meta.spec
    ensures meta.Absent? ==> r == Err(AssertionError(SpecMissing))
    ensures meta.NonDict? || meta.Mapping? ==> r == Err(AssertionError(SpecNotDict))
  {
    match meta
    case Absent => Err(AssertionError(SpecMissing))
    case NonDict(_) => Err(AssertionError(SpecNotDict))
    case Mapping(_) => Err(AssertionError(SpecNotDict))
    case Dict(spec) => Ok(spec)
  }

  /** The constructor's loop, run on a copy: for each marker field not named
      in `kwargs`, `not v` for a boolean marker `v`, else `{'$ne': v}` with
      the raw marker. This is the rule of queryset.py without `to_mongo`. */
  method InjectExclusions(q: map<string, Cond>, spec: map<string, Val>, kwargs: set<string>) returns (after: map<string, Cond>)
    ensures after == q + Queryset.NotSoftDeletedCond(spec, kwargs, NoConversion)
  {
    after := q;
    var todo := spec.Keys;
    while todo != {}
      invariant todo <= spec.Keys
      invariant after.Keys == q.Keys + (spec.Keys - todo - kwargs)
      invariant forall k :: k in spec.Keys - todo - kwargs ==> after[k] == Queryset.ExclusionFor(k, spec[k], NoConversion)
      invariant forall k :: k in q && k !in spec.Keys - todo - kwargs ==> after[k] == q[k]
      decreases todo
    {
      var key :| key in todo;
      if key !in kwargs {
        if spec[key].VBool? {
          after := after[key := Lit(VBool(!spec[key].b))];
        } else {
          after := after[key := Ne(spec[key])];
        }
      }
      todo := todo - {key};
    }
  }

  class SoftDeleteQuerySet {
    /** `meta['soft_delete']`, a dict once the constructor's assertions pass. */
    const spec: map<string, Val>
    /** `_initial_query`. */
    var initialQuery: map<string, Cond>

    /** `__init__` once the base class has set `_initial_query` to
        `baseQuery` and the assertions on meta have passed. */
    constructor (spec: map<string, Val>, baseQuery: map<string, Cond>, kwargs: set<string>)
      ensures this.spec == spec
      ensures initialQuery == baseQuery + Queryset.NotSoftDeletedCond(spec, kwargs, NoConversion)
      ensures forall k :: k in spec && k !in kwargs && spec[k].VBool? ==> initialQuery[k] == Lit(VBool(!spec[k].b))
      ensures forall k :: k in spec && k !in kwargs && spec[k].VOther? ==> initialQuery[k] == Ne(spec[k])
      ensures forall k :: k in baseQuery && (k !in spec || k in kwargs) ==> initialQuery[k] == baseQuery[k]
    {
      var q := InjectExclusions(baseQuery, spec, kwargs);
      this.spec := spec;
      initialQuery := q;
    }

    /** `clone()`: an independent query set with a copy of `_initial_query`. */
    constructor Copy(other: SoftDeleteQuerySet)
      ensures spec == other.spec && initialQuery == other.initialQuery
    {
      spec := other.spec;
      initialQuery := other.initialQuery;
    }

    /** Building the query set for a document class whose meta holds `meta`
        under `'soft_delete'`: the assertions fail unless it is a dict. */
    static method New(meta: MetaEntry, baseQuery: map<string, Cond>, kwargs: set<string>)
      returns (r: Result<SoftDeleteQuerySet>)
      ensures r.Ok? <==> meta.Dict?
      ensures r.Err? ==> r == Err(RequireSpec(meta).error)
      ensures r.Ok? ==> fresh(r.value) && r.value.spec == meta.spec
      ensures r.Ok? ==> r.value.initialQuery == baseQuery + Queryset.NotSoftDeletedCond(meta.spec, kwargs, NoConversion)
    {
      var spec := RequireSpec(meta);
      if spec.Err? {
        return Err(spec.error);
      }
      var qs := new SoftDeleteQuerySet(spec.value, baseQuery, kwargs);
      return Ok(qs);
    }

    /** `clone()`. */
    method Clone() returns (c: SoftDeleteQuerySet)
      ensures fresh(c) && c.spec == spec && c.initialQuery == initialQuery
    {
      c := new SoftDeleteQuerySet.Copy(this);
    }

    /** `__call__`: the marker fields the query names lose their entry (each
        `del` raises `KeyError` when it is already gone); the query is passed
        on with `q_obj=None`, `class_check=True`, `slave_okay=False` and
        `read_preference=None`, whatever the caller gave. */
    method Call(qObj: Option<Val>, classCheck: bool, slaveOkay: bool, readPreference: Option<Val>,
                query: map<string, Val>) returns (r: Result<CallArgs>)
      modifies this
      ensures r.Ok? <==> query.Keys * spec.Keys <= old(initialQuery).Keys
      ensures r.Ok? ==> initialQuery == old(initialQuery) - (query.Keys * spec.Keys)
      ensures r.Ok? ==> r.value == CallArgs(None, true, false, None, query)
      ensures r.Err? ==> r.error.KeyError? && r.error.key in query.Keys * spec.Keys
                         && r.error.key !in old(initialQuery)
                         && RemovedWithin(old(initialQuery), initialQuery, query.Keys * spec.Keys)
    {
      var after, missing := DelEach(initialQuery, query.Keys * spec.Keys);
      initialQuery := after;
      if missing.Some? {
        return Err(KeyError(missing.value));
      }
      return Ok(CallArgs(None, true, false, None, query));
    }

    /** `including_soft_deleted()`: deletes the entry of every marker field,
        raising `KeyError` at the first one already gone; on success returns a
        clone of the changed receiver. */
    method IncludingSoftDeleted() returns (r: Result<SoftDeleteQuerySet>)
      modifies this
      ensures r.Ok? <==> spec.Keys <= old(initialQuery).Keys
      ensures r.Ok? ==> initialQuery == old(initialQuery) - spec.Keys
      ensures r.Ok? ==> fresh(r.value) && r.value.spec == spec && r.value.initialQuery == initialQuery
      ensures r.Err? ==> r.error.KeyError? && r.error.key in spec && r.error.key !in old(initialQuery)
                         && RemovedWithin(old(initialQuery), initialQuery, spec.Keys)
    {
      var after, missing := DelEach(initialQuery, spec.Keys);
      initialQuery := after;
      if missing.Some? {
        return Err(KeyError(missing.value));
      }
      var c := Clone();
      return Ok(c);
    }
  }

  /** `Doc.objects(deleted=True).including_soft_deleted()` for a class whose
      meta declares `{'deleted': True}`: the explicit query already deleted
      the marker entry from the filter that the clone copies, so the second
      step raises `KeyError('deleted')`. */
  method OverrideThenIncludeRaises() returns (called: Result<CallArgs>, included: Result<SoftDeleteQuerySet>)
    ensures called.Ok? && included == Err(KeyError("deleted"))
  {
    var spec := map["deleted" := VBool(true)];
    var objects := new SoftDeleteQuerySet(spec, map[], {});
    assert objects.initialQuery == map["deleted" := Lit(VBool(false))];
    called := objects.Call(None, true, false, None, map["deleted" := VBool(true)]);
    var scoped := objects.Clone();
    assert "deleted" !in scoped.initialQuery && scoped.spec.Keys == {"deleted"};
    included := scoped.IncludingSoftDeleted();
  }

  /** The soft-delete assertions of `soft_delete()`: the entry must be truthy
      (present, and a non-empty mapping when it is one), then its type must be
      exactly `dict`. */
  function SoftDeleteSpecOf(meta: MetaEntry): (r: Result<map<string, Val>>)
    ensures r.Ok? <==> meta.Dict? && meta.spec != map[]
    ensures r.Ok? ==> r.value == meta.spec
    ensures r.Err? ==> r.error.AssertionError?
    ensures meta.Absent? || ((meta.Dict? || meta.Mapping?) && meta.spec == map[]) ==> r == Err(AssertionError(SpecMissing))
    ensures meta.Mapping? && meta.spec != map[] ==> r == Err(AssertionError(SpecNotDict))
    ensures meta.NonDict? ==> r == Err(AssertionError(if meta.truthy then SpecNotDict else SpecMissing))
  {
    match meta
    case Absent => Err(AssertionError(SpecMissing))
    case NonDict(truthy) => Err(AssertionError(if truthy then SpecNotDict else SpecMissing))
    case Mapping(spec) => Err(AssertionError(if spec == map[] then SpecMissing else SpecNotDict))
    case Dict(spec) => if spec == map[] then Err(AssertionError(SpecMissing)) else Ok(spec)
  }

  /** `after` is `before` with the markers of some declared marker fields
      written in: every field that appeared or changed is in `spec` and in
      `fields`, and holds its marker. */
  ghost predicate PartlyAssigned(before: map<string, Val>, after: map<string, Val>, spec: map<string, Val>, fields: set<string>)
  {
    && before.Keys <= after.Keys
    && after.Keys <= before.Keys + (spec.Keys * fields)
    && forall k :: k in after ==> (k in before && after[k] == before[k]) || (k in spec && k in fields && after[k] == spec[k])
  }

  /** The loop of `soft_delete()`, run on a copy: for each marker field in an
      unspecified order, assert it is a declared field, then set it to the
      marker. A failing assertion leaves the fields set before it set. */
  method AssignMarkers(values: map<string, Val>, spec: map<string, Val>, fields: set<string>)
    returns (after: map<string, Val>, notAField: Option<string>)
    ensures notAField.None? <==> spec.Keys <= fields
    ensures notAField.None? ==> after == values + spec
    ensures notAField.Some? ==> notAField.value in spec && notAField.value !in fields
                                && PartlyAssigned(values, after, spec, fields)
  {
    after := values;
    var todo := spec.Keys;
    while todo != {}
      invariant todo <= spec.Keys
      invariant spec.Keys - todo <= fields
      invariant after.Keys == values.Keys + (spec.Keys - todo)
      invariant forall k :: k in spec && k !in todo ==> after[k] == spec[k]
      invariant forall k :: k in values && (k !in spec || k in todo) ==> after[k] == values[k]
      decreases todo
    {
      var key :| key in todo;
      if key !in fields {
        return after, Some(key);
      }
      after := after[key := spec[key]];
      todo := todo - {key};
    }
    assert after == values + spec;
    return after, None;
  }

  class SoftDeleteDocument {
    /** The class's `meta` entry under `'soft_delete'`. */
    const meta: MetaEntry
    /** The declared field names, `_fields`. */
    const fields: set<string>
    /** The instance's field values. */
    var values: map<string, Val>
    /** The field values each call of `save()` has seen, in order. */
    ghost var saved: seq<map<string, Val>>

    constructor (meta: MetaEntry, fields: set<string>, values: map<string, Val>)
      ensures this.meta == meta && this.fields == fields && this.values == values && saved == []
    {
      this.meta := meta;
      this.fields := fields;
      this.values := values;
      saved := [];
    }

    /** `save()`, the persistence call, reduced to a record of what it saw. */
    method Save()
      modifies this
      ensures values == old(values)
      ensures saved == old(saved) + [values]
    {
      saved := saved + [values];
    }

    /** `soft_delete()`: after the two assertions on the entry, each marker
        field is checked and set; `save()` runs once, after every field is
        set, and not at all when an assertion fails. */
    method SoftDelete() returns (r: Result<()>)
      modifies this
      ensures r.Ok? <==> SoftDeleteSpecOf(meta).Ok? && meta.spec.Keys <= fields
      ensures r.Ok? ==> values == old(values) + meta.spec && saved == old(saved) + [values]
      ensures r.Ok? ==> forall k :: k in meta.spec ==> values[k] == meta.spec[k]
      ensures r.Ok? ==> forall k :: k in old(values) && k !in meta.spec ==> values[k] == old(values)[k]
      ensures r.Err? ==> saved == old(saved)
      ensures SoftDeleteSpecOf(meta).Err? ==> r == Err(SoftDeleteSpecOf(meta).error) && values == old(values)
      ensures SoftDeleteSpecOf(meta).Ok? && r.Err? ==>
                r.error.AssertionError? && r.error.reason.NotAField?
                && r.error.reason.field in meta.spec && r.error.reason.field !in fields
                && PartlyAssigned(old(values), values, meta.spec, fields)
    {
      var spec := SoftDeleteSpecOf(meta);
      if spec.Err? {
        return Err(spec.error);
      }
      var after, notAField := AssignMarkers(values, spec.value, fields);
      values := after;
      if notAField.Some? {
        return Err(AssertionError(NotAField(notAField.value)));
      }
      Save();
      return Ok(());
    }
  }

  /** Once `soft_delete()` has set the markers and the document is stored,
      the default filter of queryset.py hides it (when some marker field was
      not named explicitly) and the `soft_deleted` filter selects it. */
  lemma SoftDeletedDocumentIsHidden(spec: map<string, Val>, kwargs: set<string>, toMongo: (string, Val) -> Val,
                                    values: map<string, Val>, k: string)
    requires k in spec.Keys - kwargs
    requires Queryset.BoolPreserving(spec, toMongo)
    ensures !Selects(Queryset.NotSoftDeletedCond(spec, kwargs, toMongo), Stored(values + spec, toMongo))
    ensures Selects(Queryset.PinnedCond(spec, toMongo), Stored(values + spec, toMongo))
  {
  }
}
