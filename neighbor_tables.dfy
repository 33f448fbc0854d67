/** The neighbour table (src/routing/neighbor_table.py): the directly
    attached hosts and their link costs, with observers that are told about
    every change. */
module NeighborTables {
  import opened Common

  /** An observer callback, identified by name; what it does when called
      belongs to its owner and is not part of this model. */
  type ObserverId = string

  /** One observer call: who was called and the snapshot it was given. */
  datatype Notification = Notification(observer: ObserverId, snapshot: Adjacency)

  /** The calls `__notify_all` makes: each observer once, in registration
      order, each with the same snapshot. */
  function Notifications(observers: seq<ObserverId>, snapshot: Adjacency): (r: seq<Notification>)
    ensures |r| == |observers|
    ensures forall i :: 0 <= i < |r| ==> r[i] == Notification(observers[i], snapshot)
  {
    if observers == [] then []
    else Notifications(observers[..|observers| - 1], snapshot)
         + [Notification(observers[|observers| - 1], snapshot)]
  }

  /** Whether a call returns to its caller or blocks forever. */
  datatype Outcome = Returned | Blocked

  class NeighborTable {
    var table: Adjacency
    var observers: seq<ObserverId>
    /** Every observer call made so far, oldest first. */
    var notifications: seq<Notification>

    constructor()
      ensures table == map[] && observers == [] && notifications == []
    {
      table := map[];
      observers := [];
      notifications := [];
    }

    /** `on_update` appends; registering the same observer twice is allowed. */
    method OnUpdate(observer: ObserverId)
      modifies this
      ensures observers == old(observers) + [observer]
      ensures table == old(table) && notifications == old(notifications)
    {
      observers := observers + [observer];
    }

    /** `get` returns a copy: a map value, which later changes to the table
        do not reach. */
    function Get(): (r: Adjacency)
      reads this
      ensures r.Keys == table.Keys
      ensures r == table
    {
      table
    }

    /** The cost of the link to `h`, or None when `h` is not a neighbour. */
    function GetCost(h: Host): (r: Option<int>)
      reads this
      ensures r.Some? <==> h in table
      ensures r.Some? ==> r.value == table[h]
    {
      if h in table then Some(table[h]) else None
    }

    /** `get_cost` agrees with the snapshot `get` returns. */
    lemma GetCostAgreesWithGet(h: Host)
      ensures GetCost(h) == if h in Get() then Some(Get()[h]) else None
    {
    }

    /** `update`: store the cost without any check (even -1) and notify
        every observer of the new table. */
    method Update(h: Host, cost: int)
      modifies this
      ensures table == old(table)[h := cost]
      ensures observers == old(observers)
      ensures notifications == old(notifications) + Notifications(observers, table)
    {
      table := table[h := cost];
      NotifyAll();
    }

    /** `__notify_all`: call each observer in order with a fresh snapshot. */
    method NotifyAll()
      modifies this
      ensures table == old(table) && observers == old(observers)
      ensures notifications == old(notifications) + Notifications(observers, table)
    {
      var i := 0;
      while i < |observers|
        invariant 0 <= i <= |observers|
        invariant table == old(table) && observers == old(observers)
        invariant notifications == old(notifications) + Notifications(observers[..i], table)
      {
        assert observers[..i + 1][..i] == observers[..i];
        notifications := notifications + [Notification(observers[i], Get())];
        i := i + 1;
      }
      assert observers[..i] == observers;
    }

    /** `__remove`: nothing happens for a host that is not a neighbour;
        otherwise exactly that host's entry goes. Observers are not told. */
    method RemoveEntry(h: Host)
      modifies this
      ensures table == map k | k in old(table) && k != h :: old(table)[k]
      ensures observers == old(observers) && notifications == old(notifications)
    {
      if GetCost(h).None? {
        return;
      }
      table := map k | k in table && k != h :: table[k];
    }

    /** `remove` as written: it takes the table lock and then calls itself,
        whose nested acquire of the same non-reentrant lock never returns;
        `timeout` is `remove`. Nothing changes and no observer is told. */
    method RemoveAsWritten(h: Host) returns (o: Outcome)
      modifies this
      ensures o == Blocked
      ensures table == old(table) && observers == old(observers) && notifications == old(notifications)
    {
      return Blocked;
    }

    /** `remove` as intended: drop the entry under the lock, then notify
        every observer of the new table. */
    method Remove(h: Host) returns (o: Outcome)
      modifies this
      ensures o == Returned
      ensures table == map k | k in old(table) && k != h :: old(table)[k]
      ensures h !in table && forall k :: k in table ==> k in old(table) && table[k] == old(table)[k]
      ensures observers == old(observers)
      ensures notifications == old(notifications) + Notifications(observers, table)
    {
      RemoveEntry(h);
      NotifyAll();
      return Returned;
    }
  }
}
