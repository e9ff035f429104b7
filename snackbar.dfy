/**
 * The snackbar store: a queue of messages, appended by `show` with a fresh
 * id and removed by id.
 */
module Snackbar {
  import opened Seqs

  datatype Variant = Success | Error | Info

  datatype SnackbarItem = SnackbarItem(id: string, message: string, variant: Variant)

  predicate HasId(s: seq<SnackbarItem>, id: string) {
    exists i :: 0 <= i < |s| && s[i].id == id
  }

  /** The queue without the items carrying `id`. */
  function Removed(s: seq<SnackbarItem>, id: string): (r: seq<SnackbarItem>)
    ensures forall x :: x in r <==> x in s && x.id != id
    ensures !HasId(r, id)
  {
    Filter((x: SnackbarItem) => x.id != id, s)
  }

  /** Removing an id no item carries leaves the queue as it was. */
  lemma RemoveAbsent(s: seq<SnackbarItem>, id: string)
    requires !HasId(s, id)
    ensures Removed(s, id) == s
  {
    FilterKeepsAll((x: SnackbarItem) => x.id != id, s);
  }

  /** Showing a message under a fresh id and then removing that id restores the queue. */
  lemma ShowThenRemove(s: seq<SnackbarItem>, item: SnackbarItem)
    requires !HasId(s, item.id)
    ensures Removed(s + [item], item.id) == s
  {
    FilterAppend((x: SnackbarItem) => x.id != item.id, s, [item]);
    RemoveAbsent(s, item.id);
  }

  /** Removing keeps the other items in their order. */
  lemma RemoveKeepsOrder(s: seq<SnackbarItem>, id: string)
    ensures IsSubsequence(Removed(s, id), s)
  {
    FilterIsSubsequence((x: SnackbarItem) => x.id != id, s);
  }

  class SnackbarStore {
    var snackbars: seq<SnackbarItem>

    constructor ()
      ensures snackbars == []
    {
      snackbars := [];
    }

    /** `show({message, variant})`; `freshId` is the `crypto.randomUUID()` it draws. */
    method Show(message: string, variant: Variant, freshId: string)
      modifies this
      ensures snackbars == old(snackbars) + [SnackbarItem(freshId, message, variant)]
    {
      snackbars := snackbars + [SnackbarItem(freshId, message, variant)];
    }

    /** `remove(id)`. */
    method Remove(id: string)
      modifies this
      ensures snackbars == Removed(old(snackbars), id)
    {
      snackbars := Removed(snackbars, id);
    }
  }
}
