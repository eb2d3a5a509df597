# Soft-delete layer over MongoEngine, modelled in Dafny

The repository adds "soft delete" to MongoEngine documents. A document class
declares, in its `meta` under `'soft_delete'`, a map from field name to the
marker value that field holds once a document is deleted (for example
`{'deleted': True}`). Three pieces are modelled:

- **The soft-delete query set** (`extras_mongoengine/queryset.py`, module
  `Queryset`, and the older copy in `extras_mongoengine/document.py`, module
  `Document`). Its `_initial_query` is a map from field name to a condition
  (`Cond`: a literal, or `{'$ne': v}`). It is modelled as a class with that map
  as a field. Construction injects one "not deleted" condition for each marker
  field the keyword arguments do not name. A boolean marker `v` gives the
  literal `not v`. Any other marker gives `$ne` of the marker: converted by the
  field's `to_mongo` in queryset.py, taken raw in document.py. `__call__`
  deletes the entries of the marker fields the query names.
  `including_soft_deleted` deletes marker entries. `soft_deleted` (queryset.py
  only) pins each marker field to its converted marker. Both mutate the
  receiver and then return a clone. The `del`s of both `__call__`s and of the
  older `including_soft_deleted` can raise `KeyError`. This is modelled as an
  `Err` result that keeps the deletions made before it. The newer
  `including_soft_deleted` only deletes keys taken from `_initial_query`
  itself, so it cannot fail.
- **`SoftDeleteDocument.soft_delete`** (module `Document`). It asserts that the
  declaration is present, non-empty and a dict. It then sets each marker field,
  asserting that each one is a declared field, and calls `save()` once at the
  end. `save()` is a stub that records the field values it saw.
- **`BaseSet`** (`extras_mongoengine/datastructures.py`, module
  `Datastructures`). It is a set bound to an owner document and a field name.
  Each of `add`, `update`, `pop`, `remove` and `clear` first calls
  `_mark_as_changed`, which passes the field name to the owner. Ghost fields
  record the deliveries (`notifications`) and the number of calls (`marks`).

Shared definitions live in module `Shared`: values, conditions, the Python
exceptions as an `Error` datatype, and MongoDB's meaning of a condition
(`FieldMatches`, `Selects`). `Shared` also holds `DelEach`, the `del` loop
that both query sets use. `to_mongo` is a function-valued parameter and is
otherwise uninterpreted.

## Model

| member | source | states |
|---|---|---|
| `Shared.DelEach` | extras_mongoengine/queryset.py:34-35 | a `del` loop over a key set succeeds iff every key is present and then removes exactly those keys; on `KeyError` the failing key was absent and only keys of the set were removed, others untouched |
| `Queryset.NotSoftDeletedCond` | extras_mongoengine/queryset.py:15-26 | the conditions cover exactly the marker fields not among the kwargs; a boolean marker `v` gives literal `not v`, any other gives `$ne` of `to_mongo(v)` |
| `Queryset.SpecOf` | extras_mongoengine/queryset.py:19 | `meta.get('soft_delete', {})` is empty when absent, the mapping itself for a `dict` or any other mapping (such as an `OrderedDict`), and `.items()` raises `AttributeError` for a value that is not a mapping |
| `Queryset.ExclusionComplementsPin` | extras_mongoengine/queryset.py:22-25 | for a marker field not named explicitly, the default exclusion matches a stored value iff the `soft_deleted` pin does not (a boolean field holding a boolean) |
| `Queryset.DefaultFilterHidesExactlyMarked` | extras_mongoengine/queryset.py:9-10 | the injected conditions select a stored document iff every unnamed marker field does not hold the converted marker and, for a boolean marker, is present and holds a boolean |
| `Queryset.MissingBooleanMarkerIsInvisible` | extras_mongoengine/queryset.py:22-25 | a document lacking an unnamed boolean marker field is selected neither by the default filter nor by the `soft_deleted` pin, while a non-boolean marker's `$ne` matches the missing field |
| `Queryset.PinEach` | extras_mongoengine/queryset.py:51-52 | the assignment loop sets every marker field to the literal converted marker and leaves every other entry as it was |
| `Queryset.SoftDeleteQuerySet.constructor` | extras_mongoengine/queryset.py:6-10 | `_initial_query` is the base query updated with the exclusions; base entries for other fields and for fields named in kwargs are untouched |
| `Queryset.SoftDeleteQuerySet.New` | extras_mongoengine/queryset.py:7-10 | construction fails with `AttributeError` exactly for a declaration that is not a mapping; with no declaration `_initial_query` stays the base query; otherwise every exclusion is present and other entries untouched |
| `Queryset.SoftDeleteQuerySet.Call` | extras_mongoengine/queryset.py:28-38 | succeeds iff every queried marker field still has an entry; then exactly query ∩ markers is removed and all four arguments and the query are passed on unchanged; otherwise `KeyError` on an absent queried marker key |
| `Queryset.SoftDeleteQuerySet.IncludingSoftDeleted` | extras_mongoengine/queryset.py:40-46 | never fails; the receiver loses exactly its marker entries, keeps all others, and the returned clone has the same filter |
| `Queryset.SoftDeleteQuerySet.SoftDeleted` | extras_mongoengine/queryset.py:48-53 | every marker field is pinned to the literal converted marker, overwriting earlier conditions; other entries unchanged; the receiver is mutated and the clone's filter equals it |
| `Queryset.IncludingSoftDeletedTwice` | extras_mongoengine/queryset.py:43-46 | applying `including_soft_deleted` to its own result changes nothing more (idempotent) |
| `Queryset.OverrideThenInclude` | extras_mongoengine/queryset.py:33-46 | `objects(deleted=True).including_soft_deleted` succeeds and leaves an empty filter |
| `Document.RequireSpec` | extras_mongoengine/document.py:10-11 | the constructor's assertions pass iff the declaration is present and exactly a `dict` (an empty dict passes); absent fails the presence assertion, and a non-dict, including another mapping type, fails the `dict` assertion |
| `Document.InjectExclusions` | extras_mongoengine/document.py:13-20 | the constructor loop gives the base query updated with the queryset.py exclusions taken without `to_mongo` |
| `Document.SoftDeleteQuerySet.constructor` | extras_mongoengine/document.py:8-20 | each unnamed marker field gets `not v` for a boolean marker and raw `{'$ne': v}` otherwise; other base entries and kwargs-named fields are untouched |
| `Document.SoftDeleteQuerySet.New` | extras_mongoengine/document.py:8-11 | construction succeeds iff the declaration is a dict, failing with the assertion `RequireSpec` reports |
| `Document.SoftDeleteQuerySet.Call` | extras_mongoengine/document.py:22-28 | succeeds iff every queried marker field still has an entry and then removes exactly query ∩ markers; forwards `q_obj=None`, `class_check=True`, `slave_okay=False`, `read_preference=None` whatever the caller gave; otherwise `KeyError` |
| `Document.SoftDeleteQuerySet.IncludingSoftDeleted` | extras_mongoengine/document.py:30-33 | succeeds iff every marker field has an entry, then removes them all and returns a clone with the same filter; otherwise `KeyError` on an absent marker key, with only marker keys removed |
| `Document.OverrideThenIncludeRaises` | extras_mongoengine/document.py:24-33 | `objects(deleted=True).including_soft_deleted()` raises `KeyError('deleted')` |
| `Document.SoftDeleteSpecOf` | extras_mongoengine/document.py:53-57 | the assertions pass iff the declaration is a non-empty `dict`; a falsy one (absent, empty mapping, falsy value) fails the presence assertion, and a truthy non-dict, including a non-empty mapping of another type, fails the `dict` assertion |
| `Document.AssignMarkers` | extras_mongoengine/document.py:58-61 | the loop succeeds iff every marker key is a declared field, giving the old values overridden by the markers; otherwise it stops at an undeclared key; only declared marker fields were written, so the undeclared key keeps its old value |
| `Document.SoftDeleteDocument.SoftDelete` | extras_mongoengine/document.py:52-62 | on success every marker field holds its marker, other fields are unchanged and `save` ran exactly once, after all assignments; on a failed assertion `save` never ran; after an undeclared marker key, only declared marker fields hold newly written markers and the undeclared one is untouched |
| `Document.SoftDeletedDocumentIsHidden` | extras_mongoengine/document.py:58-61 | a document stored after `soft_delete` is rejected by the default exclusions whenever some marker field was not named, and selected by the `soft_deleted` pin |
| `Datastructures.BaseSet.constructor` | extras_mongoengine/datastructures.py:13-20 | the contents are the given items without duplicates, the name is stored, and an owner is kept only for a document or embedded document |
| `Datastructures.BaseSet.MarkAsChanged` | extras_mongoengine/datastructures.py:42-44 | delivers the stored name to an owner that has the hook, and nothing without an owner or hook |
| `Datastructures.BaseSet.Add` | extras_mongoengine/datastructures.py:22-24 | contents become old ∪ {x}; exactly one `_mark_as_changed` call |
| `Datastructures.BaseSet.Update` | extras_mongoengine/datastructures.py:26-28 | contents become old ∪ xs; exactly one `_mark_as_changed` call |
| `Datastructures.BaseSet.Pop` | extras_mongoengine/datastructures.py:30-32 | removes and returns some old element; on an empty set raises `KeyError` and still notifies once |
| `Datastructures.BaseSet.Remove` | extras_mongoengine/datastructures.py:34-36 | contents become old − {x}; raises `KeyError` iff x was absent, and notifies once either way |
| `Datastructures.BaseSet.Clear` | extras_mongoengine/datastructures.py:38-40 | contents become empty; exactly one `_mark_as_changed` call |
| `Datastructures.BaseSet.Discard` | extras_mongoengine/datastructures.py:5 | the inherited `discard` removes x and never notifies |
| `Datastructures.BaseSet.Contains` | extras_mongoengine/datastructures.py:5 | the inherited membership test answers `x in items` and changes nothing |
| `Datastructures.BaseSet.Len` | extras_mongoengine/datastructures.py:5 | the inherited `len` is the number of elements and changes nothing |
| `Datastructures.TagsNotifyOnce` | extras_mongoengine/datastructures.py:22-44 | `add("x")` on a set bound to a document's `tags` field delivers exactly one notification naming `tags`; a membership test delivers none |

## Left out

- The base `QuerySet`: `__init__` is the `baseQuery` parameter; `clone()` is a copy of `_initial_query` (constructor `Copy`); `super().__call__` is reduced to the `CallArgs` it receives. Query execution, the cached `_mongo_query` and `_get_collection` are not modelled.
- `to_mongo` is an arbitrary total function per field. The `KeyError` that `self._document._fields[key]` raises for a marker key that is not a field (queryset.py:13) is not modelled.
- Constructor keyword arguments are modelled by their names only. Query values and the `q_obj` and `read_preference` arguments are stand-in `Val`s. Values are booleans or integers.
- Python's dict and set iteration order is not modelled. Each loop picks the next key in an unspecified order, and the contracts hold for every order. After a `KeyError` or a failed assertion they say which keys may have been touched, not which ones were.
- `SoftDeleteDocument._qs` (document.py:42-50), the metaclass lines and the `queryset_class` meta entry (document.py:37-40) are not modelled. They are caching and framework wiring.
- `save()` is a stub that records the field values. Persistence, its failures, and the validation and change tracking that MongoEngine's field descriptors do on `setattr` are not modelled.
- `BaseSet`'s weak reference to its owner is a plain optional handle. A collected owner (`ReferenceError`) is not modelled. `_import_class` is replaced by the `InstanceKind` tag.
- `Datastructures.BaseSet.Update` takes one iterable. Python's `update(*others)` takes several.
- `Datastructures.BaseSet.Pop`: Python chooses which element to pop; the model only says it was an element of the set.
- Soft undelete, an `is_soft_deleted` check, the filter-bypassing update and upsert, and lifecycle events are not modelled. None of the three files implements them.
- Behaviour a reader might expect but the code does not have:
  - `discard` is not overridden, so it never notifies.
  - `including_soft_deleted` and `soft_deleted` mutate the receiver before cloning.
  - No set of explicit overrides is kept: `__call__` deletes marker entries from the receiver, and a later call naming the same field raises `KeyError`.
  - Malformed declarations fail with `AssertionError` or `AttributeError` when a query set is built or `soft_delete` runs, not with a configuration error when the class is registered.

## Findings

| source | as written | input that shows it | evidently intended | confidence | as-written member | corrected member |
|---|---|---|---|---|---|---|
| extras_mongoengine/document.py:30-33 | `including_soft_deleted` runs `del self._initial_query[key]` for every marker key, whether or not the entry is still there | `Doc.objects(deleted=True).including_soft_deleted()` for `meta = {'soft_delete': {'deleted': True}}`: `__call__` already deleted `'deleted'`, and the clone copies that filter, so the call raises `KeyError('deleted')`; calling it on its own result fails the same way | delete only the marker entries that are present, so the call never fails and is idempotent, as queryset.py:44 does | medium, not executed | `Document.OverrideThenIncludeRaises` | `Queryset.SoftDeleteQuerySet.IncludingSoftDeleted` |
