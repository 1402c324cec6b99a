/**
 * What the two list pages share: removing the deleted entity from the list
 * held in state, and the order in which the page's early returns pick what
 * to show.
 */
module Listing {
  import opened Wrappers

  /** `items.filter(item => item.id !== id)` */
  function RemoveById<T(==,!new)>(items: seq<T>, id: nat, idOf: T -> nat): (r: seq<T>)
    ensures |r| <= |items|
  {
    if items == [] then []
    else (if idOf(items[0]) == id then [] else [items[0]]) + RemoveById(items[1..], id, idOf)
  }

  /** An item stays exactly when it was there and does not carry the id. */
  lemma {:induction false} RemoveByIdMembers<T(!new)>(items: seq<T>, id: nat, idOf: T -> nat)
    ensures forall x :: x in RemoveById(items, id, idOf) <==> x in items && idOf(x) != id
  {
    if items != [] {
      RemoveByIdMembers(items[1..], id, idOf);
      assert items == [items[0]] + items[1..];
    }
  }

  /** How many items carry the id. */
  function CountId<T>(items: seq<T>, id: nat, idOf: T -> nat): nat {
    if items == [] then 0 else (if idOf(items[0]) == id then 1 else 0) + CountId(items[1..], id, idOf)
  }

  /** Removal works piecewise, so the items that stay keep their relative order. */
  lemma {:induction false} RemoveByIdAppend<T(!new)>(a: seq<T>, b: seq<T>, id: nat, idOf: T -> nat)
    ensures RemoveById(a + b, id, idOf) == RemoveById(a, id, idOf) + RemoveById(b, id, idOf)
  {
    if a == [] {
      assert a + b == b;
    } else {
      var head := if idOf(a[0]) == id then [] else [a[0]];
      assert (a + b)[0] == a[0];
      assert (a + b)[1..] == a[1..] + b;
      assert RemoveById(a + b, id, idOf) == head + RemoveById(a[1..] + b, id, idOf);
      RemoveByIdAppend(a[1..], b, id, idOf);
      assert head + (RemoveById(a[1..], id, idOf) + RemoveById(b, id, idOf))
          == (head + RemoveById(a[1..], id, idOf)) + RemoveById(b, id, idOf);
    }
  }

  /** Exactly the items with the id go: the list shrinks by their number. */
  lemma {:induction false} RemoveByIdCount<T(!new)>(items: seq<T>, id: nat, idOf: T -> nat)
    ensures |RemoveById(items, id, idOf)| == |items| - CountId(items, id, idOf)
  {
    if items != [] {
      RemoveByIdCount(items[1..], id, idOf);
    }
  }

  /** When no item carries the id, the list is left as it is. */
  lemma {:induction false} RemoveByIdAbsent<T(!new)>(items: seq<T>, id: nat, idOf: T -> nat)
    requires forall i :: 0 <= i < |items| ==> idOf(items[i]) != id
    ensures RemoveById(items, id, idOf) == items
  {
    if items != [] {
      RemoveByIdAbsent(items[1..], id, idOf);
      assert items == [items[0]] + items[1..];
    }
  }

  /** Removing the same id twice removes nothing more. */
  lemma RemoveByIdIdempotent<T(!new)>(items: seq<T>, id: nat, idOf: T -> nat)
    ensures RemoveById(RemoveById(items, id, idOf), id, idOf) == RemoveById(items, id, idOf)
  {
    var r := RemoveById(items, id, idOf);
    RemoveByIdMembers(items, id, idOf);
    forall i | 0 <= i < |r| ensures idOf(r[i]) != id {
      assert r[i] in r;
    }
    RemoveByIdAbsent(r, id, idOf);
  }

  /** What a list page shows. */
  datatype ListView<T> = LoadingScreen | ErrorBanner(message: string) | EmptyState | Items(items: seq<T>)

  /**
   * The page's early returns: the loading screen while loading, else the
   * error banner while a (non-empty) error is set, else the empty-state
   * message for an empty list, else the items in list order.
   */
  function Render<T>(loading: bool, error: Option<string>, items: seq<T>): (v: ListView<T>)
    ensures v.LoadingScreen? <==> loading
    ensures v.ErrorBanner? <==> !loading && error.Some? && error.value != ""
    ensures v.ErrorBanner? ==> v.message == error.value
    ensures v.EmptyState? <==> !loading && (error == None || error == Some("")) && items == []
    ensures v.Items? ==> v.items == items && items != []
  {
    if loading then LoadingScreen
    else if error.Some? && error.value != "" then ErrorBanner(error.value)
    else if |items| == 0 then EmptyState
    else Items(items)
  }
}
