/** The in-memory order store: an append-only list searched front to
    back. Each call works on the list as it stands and returns the new list
    where it changes it. */
module OrderRepository {
  import opened Wrappers
  import opened OrderEntity

  type Store = seq<SalesOrder>

  /** i is the earliest position holding an order with this number. */
  predicate IsFirstMatch(store: Store, orderNumber: string, i: int) {
    && 0 <= i < |store|
    && store[i].salesOrderNumber == orderNumber
    && forall j :: 0 <= j < i ==> store[j].salesOrderNumber != orderNumber
  }

  /** FirstOrDefault on the order number: the earliest stored order with
      that number, or null. */
  function GetByOrderNumber(store: Store, orderNumber: string): (r: Option<SalesOrder>)
    ensures r.None? <==> forall i :: 0 <= i < |store| ==> store[i].salesOrderNumber != orderNumber
    ensures r.Some? ==> exists i :: IsFirstMatch(store, orderNumber, i) && store[i] == r.value
  {
    if |store| == 0 then None
    else if store[0].salesOrderNumber == orderNumber then
      assert IsFirstMatch(store, orderNumber, 0);
      Some(store[0])
    else
      var rest := GetByOrderNumber(store[1..], orderNumber);
      if rest.Some? then
        var i :| IsFirstMatch(store[1..], orderNumber, i) && store[1..][i] == rest.value;
        assert IsFirstMatch(store, orderNumber, i + 1);
        rest
      else
        assert forall i :: 1 <= i < |store| ==> store[1..][i - 1] == store[i];
        rest
  }

  /** A snapshot of every stored order in insertion order. */
  function GetAll(store: Store): (r: seq<SalesOrder>)
    ensures |r| == |store|
    ensures forall i :: 0 <= i < |r| ==> r[i] == store[i]
  {
    store[..]
  }

  /** Stores the order at the end, with no uniqueness check, and returns
      it. */
  function CreateOrder(store: Store, order: SalesOrder): (r: (Store, SalesOrder))
    ensures |r.0| == |store| + 1
    ensures r.0[..|store|] == store
    ensures r.0[|store|] == order
    ensures r.1 == order
  {
    (store + [order], order)
  }

  /** A lookup after a create answers as before when the number was
      already stored, and finds the new order otherwise exactly when the
      numbers agree: earlier orders shadow later ones with the same number. */
  lemma LookupAfterCreate(store: Store, order: SalesOrder, orderNumber: string)
    ensures var before := GetByOrderNumber(store, orderNumber);
      GetByOrderNumber(CreateOrder(store, order).0, orderNumber) ==
        if before.Some? then before
        else if order.salesOrderNumber == orderNumber then Some(order)
        else None
  {
  }

  /** Two orders stored under the same number: lookup keeps returning the
      first one. */
  lemma DuplicateNumberKeepsFirst(store: Store, first: SalesOrder, second: SalesOrder)
    requires GetByOrderNumber(store, first.salesOrderNumber).None?
    requires second.salesOrderNumber == first.salesOrderNumber
    ensures var s := CreateOrder(CreateOrder(store, first).0, second).0;
      && |s| == |store| + 2
      && GetByOrderNumber(s, first.salesOrderNumber) == Some(first)
  {
  }

  /** Creating an order adds exactly one occurrence of it to the snapshot
      and removes nothing. */
  lemma GetAllAfterCreate(store: Store, order: SalesOrder)
    ensures multiset(GetAll(CreateOrder(store, order).0)) == multiset(GetAll(store)) + multiset{order}
  {
  }
}
