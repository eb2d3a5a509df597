/** datastructures.py: `BaseSet`, a set that tells the document owning it
    that its field changed before each of its five overridden mutators. */
module Datastructures {
  import opened Shared

  datatype InstanceKind = DocumentInstance | EmbeddedDocumentInstance | OtherInstance

  /** The `instance` handed to the constructor: its class, and whether it has a
      `_mark_as_changed` attribute. */
  datatype Instance = Instance(kind: InstanceKind, hasMarkAsChanged: bool)

  class BaseSet<T(==)> {
    /** The set's elements. */
    var items: set<T>
    /** `_name`: the owner's field this set is the value of. */
    const name: string
    /** `_instance`: the owner, recorded only for a document or embedded document. */
    const owner: Option<Instance>
    /** The field names delivered to the owner's `_mark_as_changed`, in order. */
    ghost var notifications: seq<string>
    /** How many times `_mark_as_changed` of this set has run. */
    ghost var marks: nat

    /** What one run of `_mark_as_changed` delivers: the stored name, when the
        owner exists and has the hook. */
    function Notice(): seq<string>
    {
      if owner.Some? && owner.value.hasMarkAsChanged then [name] else []
    }

    /** `__init__(list_items, instance, name)`. */
    constructor (listItems: seq<T>, instance: Instance, name: string)
      ensures items == set x | x in listItems
      ensures this.name == name
      ensures owner == (if instance.kind == OtherInstance then None else Some(instance))
      ensures notifications == [] && marks == 0
    {
      items := set x | x in listItems;
      this.name := name;
      owner := if instance.kind == OtherInstance then None else Some(instance);
      notifications := [];
      marks := 0;
    }

    /** `_mark_as_changed()`: forwards the stored name to the owner's hook;
        nothing without an owner or without the hook. */
    method MarkAsChanged()
      modifies this
      ensures items == old(items) && marks == old(marks) + 1
      ensures owner.Some? && owner.value.hasMarkAsChanged ==> notifications == old(notifications) + [name]
      ensures owner.None? || !owner.value.hasMarkAsChanged ==> notifications == old(notifications)
    {
      if owner.Some? && owner.value.hasMarkAsChanged {
        notifications := notifications + [name];
      }
      marks := marks + 1;
    }

    /** `add(x)`. */
    method Add(x: T)
      modifies this
      ensures items == old(items) + {x}
      ensures notifications == old(notifications) + Notice() && marks == old(marks) + 1
    {
      MarkAsChanged();
      items := items + {x};
    }

    /** `update(xs)`, for one iterable. */
    method Update(xs: seq<T>)
      modifies this
      ensures items == old(items) + set x | x in xs
      ensures notifications == old(notifications) + Notice() && marks == old(marks) + 1
    {
      MarkAsChanged();
      items := items + set x | x in xs;
    }

    /** `pop()`: notifies, then removes and returns some element, or raises
        `KeyError` on an empty set after the notification. */
    method Pop() returns (r: Result<T>)
      modifies this
      ensures r.Err? <==> old(items) == {}
      ensures r.Err? ==> r.error == PopFromEmptySet && items == old(items)
      ensures r.Ok? ==> r.value in old(items) && items == old(items) - {r.value}
      ensures notifications == old(notifications) + Notice() && marks == old(marks) + 1
    {
      MarkAsChanged();
      if items == {} {
        return Err(PopFromEmptySet);
      }
      var x :| x in items;
      items := items - {x};
      return Ok(x);
    }

    /** `remove(x)`: notifies, then removes `x`, or raises `KeyError` when it is
        absent after the notification. */
    method Remove(x: T) returns (r: Result<()>)
      modifies this
      ensures r.Err? <==> x !in old(items)
      ensures r.Err? ==> r.error == ElementNotFound
      ensures items == old(items) - {x}
      ensures notifications == old(notifications) + Notice() && marks == old(marks) + 1
    {
      MarkAsChanged();
      if x !in items {
        return Err(ElementNotFound);
      }
      items := items - {x};
      return Ok(());
    }

    /** `clear()`. */
    method Clear()
      modifies this
      ensures items == {}
      ensures notifications == old(notifications) + Notice() && marks == old(marks) + 1
    {
      MarkAsChanged();
      items := {};
    }

    /** `discard(x)`, inherited from `set`: removes without notifying. */
    method Discard(x: T)
      modifies this
      ensures items == old(items) - {x}
      ensures notifications == old(notifications) && marks == old(marks)
    {
      items := items - {x};
    }

    /** `x in s`, inherited from `set`. */
    method Contains(x: T) returns (b: bool)
      ensures b <==> x in items
    {
      b := x in items;
    }

    /** `len(s)`, inherited from `set`. */
    method Len() returns (n: nat)
      ensures n == |items|
    {
      n := |items|;
    }
  }

  /** A set bound to a document's field `tags`: `add("x")` delivers exactly one
      notification naming `tags`, and a membership test delivers none. */
  method TagsNotifyOnce() returns (found: bool, ghost afterAdd: seq<string>, ghost afterContains: seq<string>)
    ensures found && afterAdd == ["tags"] && afterContains == ["tags"]
  {
    var tags := new BaseSet<string>([], Instance(DocumentInstance, true), "tags");
    tags.Add("x");
    afterAdd := tags.notifications;
    found := tags.Contains("x");
    afterContains := tags.notifications;
  }
}
