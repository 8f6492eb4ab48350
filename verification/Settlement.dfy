/** Reservations settle once, and settling the last item closes the order. */
module Settlement {
  import opened Common
  import opened Ledger
  import opened Schema
  import opened Wallet

  predicate SettledState(r: Reservation) {
    r.state != Held
  }

  /** A settled item has a reservation settled the same way; only a selected item
      has none; the reservation charges the order's customer the item's price. */
  predicate ItemOk(s: Tables, i: ItemId)
    requires i < |s.items|
  {
    var x := s.items[i];
    && x.order < |s.orders| && x.state !in ClosedJobStates
    && (x.reservation.None? <==> x.state == Selected)
    && (x.reservation.Some? ==>
          x.reservation.value.user == s.orders[x.order].user && x.reservation.value.amount == x.price)
    && (x.state == ReadyToClaim ==> x.reservation.value.state == ReservationState.Captured)
    && (x.state in ReleasedStates ==> x.reservation.value.state == ReservationState.Released)
  }

  /** An order without active items is completed; its credential and its account
      lock exist exactly while it is not. */
  predicate OrderOk(s: Tables, o: OrderId)
    requires o < |s.orders|
  {
    && (s.orders[o].completed || OrderActive(s.items, o))
    && (s.orders[o].credential <==> !s.orders[o].completed)
    && (!s.orders[o].completed ==> s.orders[o].account in s.locks && s.locks[s.orders[o].account] == o)
  }

  predicate LockOk(s: Tables, a: AccountId)
    requires a in s.locks
  {
    s.locks[a] < |s.orders| && s.orders[s.locks[a]].account == a && !s.orders[s.locks[a]].completed
  }

  predicate RowsOk(s: Tables, k: nat) {
    && (k < |s.items| ==> ItemOk(s, k))
    && (k < |s.orders| ==> OrderOk(s, k))
    && (k in s.locks ==> LockOk(s, k))
  }

  /** Every item, every order and every account lock is in order. */
  ghost predicate SettlementOk(s: Tables) {
    forall k: nat :: RowsOk(s, k)
  }

  /** From s to s' every reservation stays, and one that is settled never changes. */
  ghost predicate ReservationsKept(s: Tables, s': Tables) {
    && |s.items| <= |s'.items|
    && forall i | 0 <= i < |s.items| && s.items[i].reservation.Some? ::
         && s'.items[i].reservation.Some?
         && (SettledState(s.items[i].reservation.value) ==> s'.items[i].reservation == s.items[i].reservation)
  }

  // ---------------------------------------------------------------- consequences

  /** An order all of whose items are terminal is completed and holds no cents. */
  lemma ClosedOrderHoldsNothing(s: Tables, o: OrderId)
    requires SettlementOk(s) && o < |s.orders| && !OrderActive(s.items, o)
    ensures s.orders[o].completed && !s.orders[o].credential
    ensures forall a | a in s.locks :: s.locks[a] != o
    ensures forall i | 0 <= i < |s.items| && s.items[i].order == o ::
              s.items[i].reservation.Some? && SettledState(s.items[i].reservation.value)
  {
    assert RowsOk(s, o);
    forall a | a in s.locks ensures s.locks[a] != o { assert RowsOk(s, a); }
    forall i | 0 <= i < |s.items| && s.items[i].order == o
      ensures s.items[i].reservation.Some? && SettledState(s.items[i].reservation.value)
    {
      assert RowsOk(s, i);
    }
  }

  /** No account has two orders that are not completed. */
  lemma OneOpenOrderPerAccount(s: Tables, o: OrderId, p: OrderId)
    requires SettlementOk(s) && o < |s.orders| && p < |s.orders|
    requires !s.orders[o].completed && !s.orders[p].completed && s.orders[o].account == s.orders[p].account
    ensures o == p
  {
    assert RowsOk(s, o) && RowsOk(s, p);
  }

  // ---------------------------------------------------------------- steps

  /** Item k may move between stages short of a terminal one and make progress; nothing
      else of it changes. */
  predicate StageMovedAt(items: seq<Item>, items': seq<Item>, k: nat)
    requires |items| == |items'| && k < |items|
  {
    || items'[k] == items[k]
    || (items'[k] == items[k].(state := items'[k].state, progress := items'[k].progress) && items[k].state != Selected
        && items'[k].state !in TerminalItemStates + ClosedJobStates + {Selected})
  }

  /** Item writes that do not end in a terminal state and leave reservations. */
  ghost predicate StagesMoved(s: Tables, s': Tables) {
    && |s'.items| == |s.items| && s'.orders == s.orders && s'.locks == s.locks
    && forall i | 0 <= i < |s.items| :: StageMovedAt(s.items, s'.items, i)
  }

  lemma StagesMovedKeeps(s: Tables, s': Tables)
    requires SettlementOk(s) && StagesMoved(s, s')
    ensures SettlementOk(s') && ReservationsKept(s, s')
  {
    forall k: nat ensures RowsOk(s', k) {
      assert RowsOk(s, k);
      if k < |s.items| { assert StageMovedAt(s.items, s'.items, k); }
      if k < |s.orders| && OrderActive(s.items, k) {
        var i :| 0 <= i < |s.items| && s.items[i].order == k && s.items[i].state !in TerminalItemStates;
        assert StageMovedAt(s.items, s'.items, i);
        assert s'.items[i].order == k && s'.items[i].state !in TerminalItemStates;
      }
    }
    forall i | 0 <= i < |s.items| && s.items[i].reservation.Some?
      ensures s'.items[i].reservation == s.items[i].reservation
    {
      assert StageMovedAt(s.items, s'.items, i);
    }
  }

  /** The item of order o that settles, before the order is looked at. */
  ghost predicate OneSettled(s: Tables, mid: Tables, i: ItemId) {
    && i < |s.items| == |mid.items| && mid.orders == s.orders && mid.locks == s.locks
    && (forall k | 0 <= k < |s.items| && k != i :: mid.items[k] == s.items[k])
    && mid.items[i].order == s.items[i].order && ItemOk(mid, i)
  }

  lemma StillActive(s: Tables, mid: Tables, i: ItemId, p: OrderId)
    requires OneSettled(s, mid, i) && OrderActive(s.items, p) && p != s.items[i].order
    ensures OrderActive(mid.items, p)
  {
    var k :| 0 <= k < |s.items| && s.items[k].order == p && s.items[k].state !in TerminalItemStates;
    assert mid.items[k] == s.items[k];
  }

  lemma FinalizeKeepsOrders(s: Tables, mid: Tables, i: ItemId, p: OrderId)
    requires OneSettled(s, mid, i) && p < |s.orders| && OrderOk(s, p)
    requires s.items[i].order < |s.orders| && OrderOk(s, s.items[i].order)
    ensures OrderOk(FinalizeOrder(mid, s.items[i].order), p)
  {
    if p != s.items[i].order && OrderActive(s.items, p) { StillActive(s, mid, i, p); }
  }

  lemma ItemOkFrame(s: Tables, s': Tables, j: ItemId)
    requires j < |s.items| && j < |s'.items| && s'.items[j] == s.items[j] && ItemOk(s, j)
    requires |s.orders| <= |s'.orders| && forall o | 0 <= o < |s.orders| :: s'.orders[o].user == s.orders[o].user
    ensures ItemOk(s', j)
  {}

  lemma FinalizeFrame(s: Tables, o: OrderId)
    ensures var s' := FinalizeOrder(s, o);
            && s'.items == s.items && |s'.orders| == |s.orders|
            && (forall p | 0 <= p < |s.orders| ::
                  s'.orders[p].user == s.orders[p].user && s'.orders[p].account == s.orders[p].account)
  {}

  lemma FinalizeKeepsLock(s: Tables, mid: Tables, i: ItemId, a: AccountId)
    requires mid.orders == s.orders && mid.locks == s.locks && i < |s.items|
    requires a in FinalizeOrder(mid, s.items[i].order).locks && RowsOk(s, a)
    ensures LockOk(FinalizeOrder(mid, s.items[i].order), a)
  {}

  /** Settling one item and finalising its order keeps the settlement invariant. */
  lemma SettleKeeps(s: Tables, i: ItemId, next: Stage, state: ReservationState)
    requires SettlementOk(s) && HasReservation(s, i) && s.items[i].reservation.value.state == Held
    requires if state == ReservationState.Captured then next == ReadyToClaim
             else state == ReservationState.Released && next in ReleasedStates
    ensures var s' := FinalizeOrder(SettleItem(s, i, next, state), s.items[i].order);
            SettlementOk(s') && ReservationsKept(s, s')
  {
    var mid := SettleItem(s, i, next, state);
    var s' := FinalizeOrder(mid, s.items[i].order);
    assert RowsOk(s, i);
    assert OneSettled(s, mid, i);
    FinalizeFrame(mid, s.items[i].order);
    assert RowsOk(s, s.items[i].order);
    forall k: nat ensures RowsOk(s', k) {
      assert RowsOk(s, k);
      if k < |s.orders| { FinalizeKeepsOrders(s, mid, i, k); }
      if k < |s.items| && k != i { ItemOkFrame(s, mid, k); }
      if k < |s.items| { ItemOkFrame(mid, s', k); }
      if k in s'.locks { FinalizeKeepsLock(s, mid, i, k); }
    }
  }
}
