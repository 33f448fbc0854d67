/** The monolithic router control of router.py (`RouterCtrl`): neighbour
    management with argument validation, next-hop search, the packet send
    and parse paths, and the receive handlers of its three routing
    algorithms.

    Python's run-time type checks are modelled on `Value`, the few shapes
    an argument can take; the UDP socket is replaced by `outbox`, the
    packets handed to it. */
module Monolith {
  import opened Common
  import opened ShortestPaths
  import opened Liveness

  /** A Python argument whose type the code checks. A bool is an int in
      Python (`isinstance(True, int)`, `True == 1`). */
  datatype Value = IntVal(i: int) | BoolVal(b: bool) | StrVal(s: string) | OtherVal

  /** `isinstance(v, int)`, with the integer it compares as. */
  function AsInt(v: Value): Option<int>
  {
    match v
    case IntVal(i) => Some(i)
    case BoolVal(b) => Some(if b then 1 else 0)
    case _ => None
  }

  /** `isinstance(v, str)`, with the string. */
  function AsHost(v: Value): Option<Host>
  {
    if v.StrVal? then Some(v.s) else None
  }

  /** The packet types `_send` accepts: an int in 0..4. */
  predicate ValidKind(v: Value)
  {
    AsInt(v).Some? && 0 <= AsInt(v).value <= 4
  }

  const LS := 1
  const DV := 2
  const CENTRAL_LS := 3

  /** `method in RouterCtrl.METHOD`, comparing by `==`. */
  function MethodCode(v: Value): Option<int>
  {
    match AsInt(v)
    case Some(i) => if LS <= i <= CENTRAL_LS then Some(i) else None
    case None => None
  }

  /** The check that `add_neighbor` and `update_neighbor` apply to a cost:
      TypeError unless an int, ValueError below 1. */
  function CheckCost(v: Value): Result<int>
  {
    match AsInt(v)
    case None => Failure(TypeError)
    case Some(c) => if c < 1 then Failure(ValueError) else Success(c)
  }

  /** A packet's `data`, by the kinds the router exchanges. */
  datatype Content =
    | Text(text: string)                               // type 0, and the HNS query
    | Routes(routes: RouteMap)                         // type 1: a DV routing table
    | Links(links: Adjacency)                          // type 2: a member's neighbour table
    | Database(database: LinkStateMap)                 // type 2: the controller's link state
    | LinkReport(neighbor: Adjacency, alive: AliveMap) // type 3: an LS flood
    | Mapping(entries: map<Host, Address>)             // type 4: the HNS answer

  /** The JSON packet `_send` builds. */
  datatype Packet = Packet(
    lastAddress: Address, lastName: Host,
    nextAddress: Address, nextName: Host,
    srcName: Host, destName: Host,
    kind: int, visited: seq<Host>, data: Content)

  // ---------------------------------------------------------------------
  // Distance-vector reconciliation (router.py:630-700)
  // ---------------------------------------------------------------------

  /** The next hop of `e` is one of `dead`. */
  predicate NextIn(e: RouteEntry, dead: set<Host>)
  {
    e.next.Some? && e.next.value in dead
  }

  /** A routing table without the entries whose destination or next hop
      is dead. */
  function FilterRoutes(rt: RouteMap, dead: set<Host>): RouteMap
  {
    map k | k in rt && k !in dead && !NextIn(rt[k], dead) :: rt[k]
  }

  /** The filter keeps exactly the entries that neither lead to nor pass
      through a dead host. */
  lemma FilterRoutesRemovesDead(rt: RouteMap, dead: set<Host>, k: Host)
    ensures k in FilterRoutes(rt, dead) <==> k in rt && k !in dead && !NextIn(rt[k], dead)
    ensures k in FilterRoutes(rt, dead) ==> FilterRoutes(rt, dead)[k] == rt[k]
  {
  }

  /** Bellman-Ford relaxation against the sender's advertised table, with
      the sender's own cost held at its value before the loop: a
      destination that is new, or strictly cheaper through the sender, is
      routed through the sender. */
  function Relaxed(kept: RouteMap, source: Host, heard: RouteMap): RouteMap
    requires heard == map[] || source in kept
  {
    map d | d in kept.Keys + heard.Keys ::
      if d in heard && (d !in kept || kept[d].cost > kept[source].cost + heard[d].cost)
      then RouteEntry(Some(source), kept[source].cost + heard[d].cost)
      else kept[d]
  }

  /** Each relaxed cost is the lesser of the old cost and the cost through
      the sender, and is one of the two. */
  lemma RelaxedMinimum(kept: RouteMap, source: Host, heard: RouteMap, d: Host)
    requires heard == map[] || source in kept
    requires d in kept.Keys + heard.Keys
    ensures var r := Relaxed(kept, source, heard);
      && d in r
      && (d in kept ==> r[d].cost <= kept[d].cost)
      && (d in heard ==> r[d].cost <= kept[source].cost + heard[d].cost)
      && ((d in kept && r[d] == kept[d]) || (d in heard && r[d] == RouteEntry(Some(source), kept[source].cost + heard[d].cost)))
  {
  }

  /** When the sender does not advertise a negative cost to itself, hearing
      the same table twice changes nothing more. */
  lemma RelaxIdempotent(kept: RouteMap, source: Host, heard: RouteMap)
    requires source in kept
    requires source in heard ==> heard[source].cost >= 0
    ensures Relaxed(Relaxed(kept, source, heard), source, heard) == Relaxed(kept, source, heard)
  {
    var r := Relaxed(kept, source, heard);
    assert r[source] == kept[source];
    var r2 := Relaxed(r, source, heard);
    assert r2.Keys == r.Keys;
    forall d | d in r
      ensures r2[d] == r[d]
    {
      RelaxedMinimum(kept, source, heard, d);
    }
  }

  /** `Relaxed` restricted to the advertised destinations in `done`:
      what the relaxation loop has built after visiting them. */
  ghost function RelaxedOn(kept: RouteMap, source: Host, heard: RouteMap, done: set<Host>): RouteMap
    requires heard == map[] || source in kept
  {
    map d | d in kept.Keys + (heard.Keys * done) ::
      if d in heard && d in done && (d !in kept || kept[d].cost > kept[source].cost + heard[d].cost)
      then RouteEntry(Some(source), kept[source].cost + heard[d].cost)
      else kept[d]
  }

  /** One step of the loop, when the sender's own cost cannot drop. */
  lemma RelaxedOnStep(kept: RouteMap, source: Host, heard: RouteMap, done: set<Host>, d: Host)
    requires source in kept && d in heard && d !in done
    requires source in heard ==> heard[source].cost >= 0
    ensures var s := RelaxedOn(kept, source, heard, done);
      && source in s && s[source] == kept[source]
      && RelaxedOn(kept, source, heard, done + {d}) ==
         if d !in s || s[d].cost > s[source].cost + heard[d].cost
         then s[d := RouteEntry(Some(source), s[source].cost + heard[d].cost)] else s
  {
  }

  /** Before the loop nothing has changed; after it, the whole relaxation. */
  lemma RelaxedOnEnds(kept: RouteMap, source: Host, heard: RouteMap)
    requires heard == map[] || source in kept
    ensures RelaxedOn(kept, source, heard, {}) == kept
    ensures RelaxedOn(kept, source, heard, heard.Keys) == Relaxed(kept, source, heard)
  {
  }

  /** One relaxation step for advertised destination `d`, using the
      sender's current entry. */
  predicate DvImproves(rt: RouteMap, source: Host, heard: RouteMap, d: Host)
    requires source in rt && d in heard
  {
    d !in rt || rt[d].cost > rt[source].cost + heard[d].cost
  }

  function DvRelaxStep(rt: RouteMap, source: Host, heard: RouteMap, d: Host): RouteMap
    requires source in rt && d in heard
  {
    if DvImproves(rt, source, heard, d)
    then rt[d := RouteEntry(Some(source), rt[source].cost + heard[d].cost)]
    else rt
  }

  /** The sender does not advertise a negative cost to itself. */
  predicate SelfCostSafe(source: Host, heard: RouteMap)
  {
    source !in heard || heard[source].cost >= 0
  }

  /** An entry that the loop has left alone, or moved strictly below the
      old cost onto the sender. */
  ghost predicate KeptOrImproved(kept: RouteMap, source: Host, heard: RouteMap, todo: set<Host>, rt: RouteMap, d: Host)
    requires d in rt
  {
    || (d in kept && rt[d] == kept[d])
    || (d in heard && d !in todo && rt[d].next == Some(source) && (d in kept ==> rt[d].cost < kept[d].cost))
  }

  /** Some entry differs from the one the loop started with. */
  ghost predicate Differs(kept: RouteMap, rt: RouteMap)
  {
    exists d :: d in rt && (d !in kept || rt[d] != kept[d])
  }

  /** The invariant of the relaxation loop with `todo` still to visit. */
  ghost predicate RelaxInv(kept: RouteMap, source: Host, heard: RouteMap, todo: set<Host>, rt: RouteMap, changed: bool)
    requires heard == map[] || source in kept
  {
    && todo <= heard.Keys
    && rt.Keys == kept.Keys + (heard.Keys - todo)
    && (forall d :: d in rt ==> KeptOrImproved(kept, source, heard, todo, rt, d))
    && (changed <==> Differs(kept, rt))
    && (SelfCostSafe(source, heard) && heard != map[] ==> rt == RelaxedOn(kept, source, heard, heard.Keys - todo))
  }

  lemma RelaxStepKeeps(kept: RouteMap, source: Host, heard: RouteMap, todo: set<Host>, rt: RouteMap, changed: bool, d: Host)
    requires source in kept && d in todo
    requires RelaxInv(kept, source, heard, todo, rt, changed)
    ensures var rt' := DvRelaxStep(rt, source, heard, d);
      && rt'.Keys == kept.Keys + (heard.Keys - (todo - {d}))
      && (forall e :: e in rt' ==> KeptOrImproved(kept, source, heard, todo - {d}, rt', e))
  {
    var rt' := DvRelaxStep(rt, source, heard, d);
    forall e | e in rt'
      ensures KeptOrImproved(kept, source, heard, todo - {d}, rt', e)
    {
      if e != d {
        assert KeptOrImproved(kept, source, heard, todo, rt, e);
      } else if !DvImproves(rt, source, heard, d) {
        assert d in kept && rt[d] == kept[d] by {
          assert KeptOrImproved(kept, source, heard, todo, rt, d);
        }
      }
    }
  }

  lemma RelaxStepChanged(kept: RouteMap, source: Host, heard: RouteMap, todo: set<Host>, rt: RouteMap, changed: bool, d: Host)
    requires source in kept && d in todo
    requires RelaxInv(kept, source, heard, todo, rt, changed)
    ensures changed || DvImproves(rt, source, heard, d) <==> Differs(kept, DvRelaxStep(rt, source, heard, d))
  {
    var rt' := DvRelaxStep(rt, source, heard, d);
    if DvImproves(rt, source, heard, d) {
      assert d !in kept || rt'[d] != kept[d] by {
        if d in kept {
          assert rt[d] == kept[d] by { assert KeptOrImproved(kept, source, heard, todo, rt, d); }
        }
      }
    } else if changed {
      var e :| e in rt && (e !in kept || rt[e] != kept[e]);
      assert e in rt';
    }
  }

  lemma RelaxStepExact(kept: RouteMap, source: Host, heard: RouteMap, todo: set<Host>, rt: RouteMap, changed: bool, d: Host)
    requires source in kept && d in todo && SelfCostSafe(source, heard)
    requires RelaxInv(kept, source, heard, todo, rt, changed)
    ensures DvRelaxStep(rt, source, heard, d) == RelaxedOn(kept, source, heard, heard.Keys - (todo - {d}))
  {
    RelaxedOnStep(kept, source, heard, heard.Keys - todo, d);
    assert heard.Keys - (todo - {d}) == (heard.Keys - todo) + {d};
  }

  /** A step keeps the loop invariant. */
  lemma RelaxInvStep(kept: RouteMap, source: Host, heard: RouteMap, todo: set<Host>, rt: RouteMap, changed: bool, d: Host)
    requires source in kept && d in todo
    requires RelaxInv(kept, source, heard, todo, rt, changed)
    ensures RelaxInv(kept, source, heard, todo - {d}, DvRelaxStep(rt, source, heard, d), changed || DvImproves(rt, source, heard, d))
  {
    RelaxStepKeeps(kept, source, heard, todo, rt, changed, d);
    RelaxStepChanged(kept, source, heard, todo, rt, changed, d);
    if SelfCostSafe(source, heard) {
      RelaxStepExact(kept, source, heard, todo, rt, changed, d);
    }
  }

  /** At the end of the loop the invariant gives the loop's contract. */
  lemma RelaxInvDone(kept: RouteMap, source: Host, heard: RouteMap, rt: RouteMap, changed: bool)
    requires heard == map[] || source in kept
    requires RelaxInv(kept, source, heard, {}, rt, changed)
    ensures rt.Keys == kept.Keys + heard.Keys
    ensures forall d :: d in rt ==>
      || (d in kept && rt[d] == kept[d])
      || (d in heard && rt[d].next == Some(source) && (d in kept ==> rt[d].cost < kept[d].cost))
    ensures SelfCostSafe(source, heard) ==> rt == Relaxed(kept, source, heard)
    ensures changed <==> rt != kept
  {
    RelaxedOnEnds(kept, source, heard);
    assert forall d :: d in rt ==> KeptOrImproved(kept, source, heard, {}, rt, d);
    assert heard.Keys - {} == heard.Keys;
    if heard == map[] {
      assert heard.Keys == {};
      assert rt == kept;
    }
  }

  /** The relaxation loop of `_dv_receive`. It reads the sender's current
      entry on every step, so the cost it uses drops if the sender
      advertises a negative cost to itself; without that, the result is
      exactly `Relaxed`. In every case no surviving cost rises and every
      changed entry goes through the sender. */
  method RelaxRoutes(kept: RouteMap, source: Host, heard: RouteMap) returns (rt: RouteMap, changed: bool)
    requires heard == map[] || source in kept
    ensures rt.Keys == kept.Keys + heard.Keys
    ensures forall d :: d in rt ==>
      || (d in kept && rt[d] == kept[d])
      || (d in heard && rt[d].next == Some(source) && (d in kept ==> rt[d].cost < kept[d].cost))
    ensures SelfCostSafe(source, heard) ==> rt == Relaxed(kept, source, heard)
    ensures changed <==> rt != kept
  {
    rt, changed := kept, false;
    RelaxedOnEnds(kept, source, heard);
    var todo := heard.Keys;
    while todo != {}
      invariant RelaxInv(kept, source, heard, todo, rt, changed)
      decreases todo
    {
      var d :| d in todo;
      RelaxInvStep(kept, source, heard, todo, rt, changed, d);
      if DvImproves(rt, source, heard, d) {
        rt := DvRelaxStep(rt, source, heard, d);
        changed := true;
      }
      todo := todo - {d};
    }
    RelaxInvDone(kept, source, heard, rt, changed);
  }

  /** What `_ls_receive` does to the alive table, the database and the
      routes: merge the alive report (dead hosts stay in the alive table),
      take in self's and the sender's links, purge the hosts the merged
      table shows dead, and route by Dijkstra from self over the result. */
  ghost predicate LsReceived(alive: AliveMap, ls: LinkStateMap, self: Host, neighbors: Adjacency,
                             source: Host, incoming: Adjacency, reported: AliveMap, now: int, timeout: int,
                             alive': AliveMap, ls': LinkStateMap, rt': RouteMap)
  {
    && alive' == Merged(alive, self, now, reported)
    && ls' == Reconcile(ls, self, neighbors, source, incoming, DeadHosts(alive', now, timeout))
    && Closed(ls') && self in ls' && RoutedBy(ls', self, rt')
  }

  /** `_ls_receive` on values. */
  method LinkStateStep(alive: AliveMap, ls: LinkStateMap, self: Host, neighbors: Adjacency,
                       source: Host, incoming: Adjacency, reported: AliveMap, now: int, timeout: int)
    returns (merged: AliveMap, r: LinkStateMap, rt: RouteMap)
    requires Closed(ls) && timeout >= 0
    ensures Closed(r)
    ensures LsReceived(alive, ls, self, neighbors, source, incoming, reported, now, timeout, merged, r, rt)
  {
    merged := MergeAlive(alive, self, now, reported);
    var dead := CollectDead(merged, now, timeout);
    SelfSurvivesMerge(alive, self, now, reported, timeout);
    r := ReconcileLinks(ls, self, neighbors, source, incoming, dead);
    rt := ComputeRoutes(r, self);
  }

  /** The outcome of `_dv_receive`'s table update from routes `rt0`, with
      `dead` the hosts timed out: the entries leading to or through a dead
      host are dropped from both tables; when any advertised entry survives
      but the sender's own route does not, the first relaxation step raises
      KeyError with the filtered table in place. Otherwise the table is the
      relaxation and `r` says whether a dead host had a route or the
      relaxation changed an entry. */
  ghost predicate DvReconciled(rt0: RouteMap, source: Host, data: RouteMap, dead: set<Host>,
                               rt: RouteMap, r: Result<bool>)
  {
    var kept := FilterRoutes(rt0, dead);
    var heard := FilterRoutes(data, dead);
    if heard != map[] && source !in kept then
      r == Failure(KeyError) && rt == kept
    else
      && r.Success?
      && rt.Keys == kept.Keys + heard.Keys
      && (forall d :: d in rt ==>
            || (d in kept && rt[d] == kept[d])
            || (d in heard && rt[d].next == Some(source) && (d in kept ==> rt[d].cost < kept[d].cost)))
      && (SelfCostSafe(source, heard) ==> rt == Relaxed(kept, source, heard))
      && (r.value <==> rt0.Keys * dead != {} || rt != kept)
  }

  class RouterCtrl {
    const name: Host
    const address: Address
    const hnsAddress: Address
    var mapping: map<Host, Address>
    /** The attributes below are created by `init`. */
    var algorithm: int
    var interval: int
    var overtime: int
    var running: bool
    var isController: bool
    var controller: Option<Host>
    var neighborTable: Adjacency
    var routingTable: RouteMap
    var linkState: LinkStateMap
    var alive: AliveMap
    /** The list `_send` appends to when no `visited` is passed: Python
        evaluates the default `[]` once, so all such calls share it. */
    var defaultVisited: seq<Host>
    /** Every packet handed to the socket, oldest first. */
    var outbox: seq<Packet>

    /** Every host an adjacency list names is a key of the link state. */
    ghost predicate Valid()
      reads this
    {
      Closed(linkState)
    }

    /** Construction queries the name server once: a type-4 packet to
        `hns` through the name server's address. */
    constructor(name: Host, address: Address, hnsAddress: Address)
      ensures Valid()
      ensures this.name == name && this.address == address && this.hnsAddress == hnsAddress
      ensures mapping == map[] && defaultVisited == [] && !running && controller == None
      ensures outbox == [Packet(address, name, hnsAddress, "sb", name, "hns", 4, [name], Text("sb"))]
    {
      this.name := name;
      this.address := address;
      this.hnsAddress := hnsAddress;
      mapping := map[];
      algorithm := 0;
      interval := 0;
      overtime := 0;
      running := false;
      isController := false;
      controller := None;
      neighborTable := map[];
      routingTable := SelfRoute(name);
      linkState := map[];
      alive := map[];
      defaultVisited := [];
      outbox := [Packet(address, name, hnsAddress, "sb", name, "hns", 4, [name], Text("sb"))];
    }

    // -------------------------------------------------------------------
    // Set-up and neighbour management (router.py:57-261)
    // -------------------------------------------------------------------

    /** `init`: ValueError for an unknown method, TypeError for a non-int
        interval, ValueError for an interval below 1; otherwise every table
        starts afresh, routing only self. */
    method Init(method_: Value, intervalArg: Value, overtime: int) returns (r: Result<()>)
      modifies this`algorithm, this`interval, this`overtime, this`running, this`controller
      modifies this`neighborTable, this`routingTable, this`linkState, this`alive
      ensures MethodCode(method_).None? ==> r == Failure(ValueError)
      ensures MethodCode(method_).Some? && AsInt(intervalArg).None? ==> r == Failure(TypeError)
      ensures MethodCode(method_).Some? && AsInt(intervalArg).Some? && AsInt(intervalArg).value < 1 ==>
        r == Failure(ValueError)
      ensures r.Failure? ==> unchanged(this)
      ensures r.Success? ==>
        && MethodCode(method_).Some? && AsInt(intervalArg).Some? && AsInt(intervalArg).value >= 1
        && algorithm == MethodCode(method_).value && interval == AsInt(intervalArg).value
        && this.overtime == overtime && !running && controller == None
        && neighborTable == map[] && routingTable == SelfRoute(name)
        && linkState == map[] && alive == map[]
    {
      var code := MethodCode(method_);
      if code.None? {
        return Failure(ValueError);
      }
      var iv := AsInt(intervalArg);
      if iv.None? {
        return Failure(TypeError);
      }
      if iv.value < 1 {
        return Failure(ValueError);
      }
      algorithm, interval, this.overtime := code.value, iv.value, overtime;
      running, controller := false, None;
      neighborTable, routingTable := map[], SelfRoute(name);
      linkState, alive := map[], map[];
      return Success(());
    }

    /** `add_neighbor`: the cost is checked first, then the name, which
        must be a string not yet a neighbour; success stores the link and a
        direct route. */
    method AddNeighbor(hostname: Value, cost: Value) returns (r: Result<()>)
      modifies this`neighborTable, this`routingTable
      ensures CheckCost(cost).Failure? ==> r == Failure(CheckCost(cost).error)
      ensures CheckCost(cost).Success? && AsHost(hostname).None? ==> r == Failure(TypeError)
      ensures CheckCost(cost).Success? && AsHost(hostname).Some? && AsHost(hostname).value in old(neighborTable) ==>
        r == Failure(ValueError)
      ensures r.Failure? ==> neighborTable == old(neighborTable) && routingTable == old(routingTable)
      ensures r.Success? ==>
        && CheckCost(cost).Success? && AsHost(hostname).Some? && AsHost(hostname).value !in old(neighborTable)
        && neighborTable == old(neighborTable)[AsHost(hostname).value := CheckCost(cost).value]
        && routingTable == old(routingTable)[AsHost(hostname).value :=
             RouteEntry(Some(AsHost(hostname).value), CheckCost(cost).value)]
    {
      var c := CheckCost(cost);
      if c.Failure? {
        return Failure(c.error);
      }
      var h := AsHost(hostname);
      if h.None? {
        return Failure(TypeError);
      }
      if h.value in neighborTable {
        return Failure(ValueError);
      }
      neighborTable := neighborTable[h.value := c.value];
      routingTable := routingTable[h.value := RouteEntry(Some(h.value), c.value)];
      return Success(());
    }

    /** `update_neighbor`: the same checks, with ValueError for a name that
        is not a neighbour; an equal cost answers false and changes nothing,
        another stores it and answers true. Routes are never touched. */
    method UpdateNeighbor(hostname: Value, cost: Value) returns (r: Result<bool>)
      modifies this`neighborTable
      ensures CheckCost(cost).Failure? ==> r == Failure(CheckCost(cost).error)
      ensures CheckCost(cost).Success? && AsHost(hostname).None? ==> r == Failure(TypeError)
      ensures CheckCost(cost).Success? && AsHost(hostname).Some? && AsHost(hostname).value !in old(neighborTable) ==>
        r == Failure(ValueError)
      ensures r.Success? ==>
        && CheckCost(cost).Success? && AsHost(hostname).Some? && AsHost(hostname).value in old(neighborTable)
        && (r.value <==> old(neighborTable)[AsHost(hostname).value] != CheckCost(cost).value)
        && neighborTable == old(neighborTable)[AsHost(hostname).value := CheckCost(cost).value]
      ensures r.Failure? ==> neighborTable == old(neighborTable)
    {
      var c := CheckCost(cost);
      if c.Failure? {
        return Failure(c.error);
      }
      var h := AsHost(hostname);
      if h.None? {
        return Failure(TypeError);
      }
      if h.value !in neighborTable {
        return Failure(ValueError);
      }
      if neighborTable[h.value] == c.value {
        return Success(false);
      }
      neighborTable := neighborTable[h.value := c.value];
      return Success(true);
    }

    /** `remove_neighbor` as written: after dropping the link it pops, while
        iterating the routing table, the first route whose next hop is the
        neighbour; the iterator's next step then raises RuntimeError, so at
        most one such route goes and the call fails whenever there was
        one. */
    method RemoveNeighborAsWritten(hostname: Value) returns (r: Result<()>)
      modifies this`neighborTable, this`routingTable
      ensures AsHost(hostname).None? ==> r == Failure(TypeError)
      ensures AsHost(hostname).Some? && AsHost(hostname).value !in old(neighborTable) ==> r == Failure(ValueError)
      ensures AsHost(hostname).None? || AsHost(hostname).value !in old(neighborTable) ==>
        neighborTable == old(neighborTable) && routingTable == old(routingTable)
      ensures AsHost(hostname).Some? && AsHost(hostname).value in old(neighborTable) ==>
        var h := AsHost(hostname).value;
        && neighborTable == old(neighborTable) - {h}
        && (r == Failure(RuntimeError) <==> exists k :: k in old(routingTable) && old(routingTable)[k].next == Some(h))
        && (r.Failure? ==> exists k :: k in old(routingTable) && old(routingTable)[k].next == Some(h)
                                       && routingTable == old(routingTable) - {k})
        && (r.Success? ==> routingTable == old(routingTable))
    {
      var host := AsHost(hostname);
      if host.None? {
        return Failure(TypeError);
      }
      var h := host.value;
      if h !in neighborTable {
        return Failure(ValueError);
      }
      neighborTable := neighborTable - {h};
      var todo := routingTable.Keys;
      while todo != {}
        invariant todo <= routingTable.Keys
        invariant routingTable == old(routingTable) && neighborTable == old(neighborTable) - {h}
        invariant forall k :: k in routingTable && k !in todo ==> routingTable[k].next != Some(h)
        decreases todo
      {
        var k :| k in todo;
        if routingTable[k].next == Some(h) {
          routingTable := routingTable - {k};
          return Failure(RuntimeError);
        }
        todo := todo - {k};
      }
      return Success(());
    }

    /** `remove_neighbor` as intended: drop the link and every route whose
        next hop is the neighbour, keeping every other route. */
    method RemoveNeighbor(hostname: Value) returns (r: Result<()>)
      modifies this`neighborTable, this`routingTable
      ensures AsHost(hostname).None? ==> r == Failure(TypeError)
      ensures AsHost(hostname).Some? && AsHost(hostname).value !in old(neighborTable) ==> r == Failure(ValueError)
      ensures r.Failure? ==> neighborTable == old(neighborTable) && routingTable == old(routingTable)
      ensures r.Success? ==>
        var h := AsHost(hostname).value;
        && AsHost(hostname).Some? && h in old(neighborTable)
        && neighborTable == old(neighborTable) - {h}
        && routingTable.Keys <= old(routingTable).Keys
        && (forall k :: k in routingTable ==> routingTable[k] == old(routingTable)[k] && routingTable[k].next != Some(h))
        && (forall k :: k in old(routingTable) && old(routingTable)[k].next != Some(h) ==> k in routingTable)
    {
      var host := AsHost(hostname);
      if host.None? {
        return Failure(TypeError);
      }
      var h := host.value;
      if h !in neighborTable {
        return Failure(ValueError);
      }
      neighborTable := neighborTable - {h};
      routingTable := map k | k in routingTable && routingTable[k].next != Some(h) :: routingTable[k];
      return Success(());
    }

    /** `set_controller`: TypeError unless a string. */
    method SetController(hostname: Value) returns (r: Result<()>)
      modifies this`controller
      ensures r.Success? <==> AsHost(hostname).Some?
      ensures r.Failure? ==> r.error == TypeError && controller == old(controller)
      ensures r.Success? ==> controller == AsHost(hostname)
    {
      var h := AsHost(hostname);
      if h.None? {
        return Failure(TypeError);
      }
      controller := h;
      return Success(());
    }

    /** The decision part of `run`: once running nothing happens; otherwise
        the role is recorded and the router starts, except a centralized
        member with no controller, which raises RuntimeError. */
    method Run(isCtl: bool) returns (r: Result<()>)
      modifies this`running, this`isController
      ensures old(running) ==> r == Success(()) && running && isController == old(isController)
      ensures !old(running) ==> isController == isCtl
      ensures !old(running) ==>
        (r == Failure(RuntimeError) <==> algorithm != DV && algorithm != LS && !isCtl && controller.None?)
      ensures !old(running) ==> (running <==> r.Success?)
      ensures r.Failure? ==> r.error == RuntimeError
    {
      if running {
        return Success(());
      }
      isController := isCtl;
      if algorithm != DV && algorithm != LS && !isCtl && controller.None? {
        return Failure(RuntimeError);
      }
      running := true;
      return Success(());
    }

    // -------------------------------------------------------------------
    // Next-hop search (router.py:792-820, 1004-1048)
    // -------------------------------------------------------------------

    /** `search`: TypeError unless a string; self is its own next hop;
        another host has the next hop its route names, or ValueError when
        it has no route. */
    function Search(hostname: Value): (r: Result<Option<Host>>)
      reads this`routingTable
      ensures r.Success? <==> AsHost(hostname).Some? && (AsHost(hostname).value == name || AsHost(hostname).value in routingTable)
      ensures AsHost(hostname).None? ==> r == Failure(TypeError)
      ensures AsHost(hostname).Some? && !r.Success? ==> r == Failure(ValueError)
      ensures r.Success? && AsHost(hostname).value == name ==> r.value == Some(name)
      ensures r.Success? && AsHost(hostname).value != name ==> r.value == routingTable[AsHost(hostname).value].next
    {
      match AsHost(hostname)
      case None => Failure(TypeError)
      case Some(h) =>
        if h == name then Success(Some(name))
        else if h in routingTable then Success(routingTable[h].next)
        else Failure(ValueError)
    }

    /** `_get_next_name` and `_get_next_address` together: the next hop
        towards `dest` and its address, or None when either raises
        ValueError (no route, or a next hop the mapping table lacks). */
    function NextHop(dest: Host): (r: Option<(Host, Address)>)
      reads this`routingTable, this`mapping
      ensures r.Some? <==> Search(StrVal(dest)).Success? && Search(StrVal(dest)).value.Some?
                           && Search(StrVal(dest)).value.value in mapping
      ensures r.Some? ==> Search(StrVal(dest)) == Success(Some(r.value.0)) && r.value.1 == mapping[r.value.0]
    {
      match Search(StrVal(dest))
      case Failure(_) => None
      case Success(next) =>
        if next.Some? && next.value in mapping then Some((next.value, mapping[next.value])) else None
    }

    // -------------------------------------------------------------------
    // Sending (router.py:850-947)
    // -------------------------------------------------------------------

    /** The copy of `p` sent towards flood neighbour `n`: its next hop is
        both next and destination name. */
    function Relayed(p: Packet, n: Host): seq<Packet>
      reads this`routingTable, this`mapping
    {
      match NextHop(n)
      case None => []
      case Some(hop) => [p.(nextAddress := hop.1, nextName := hop.0, destName := hop.0)]
    }

    function FloodPackets(p: Packet, targets: seq<Host>): seq<Packet>
      reads this`routingTable, this`mapping
    {
      if targets == [] then []
      else FloodPackets(p, targets[..|targets| - 1]) + Relayed(p, targets[|targets| - 1])
    }

    /** The neighbours a type-3 packet goes to: each current neighbour not
        yet visited whose next hop resolves, each once. */
    ghost predicate FloodTargets(targets: seq<Host>, visited: seq<Host>)
      reads this`routingTable, this`mapping, this`neighborTable
    {
      && (forall i, j :: 0 <= i < j < |targets| ==> targets[i] != targets[j])
      && (set n | n in targets) == set n | n in neighborTable && n !in visited && NextHop(n).Some?
    }

    /** `_send`. TypeError unless source and destination are strings,
        ValueError unless the type is an int in 0..4; then the own name is
        appended to `visited` (to the shared default list when none is
        passed). Type 4 goes to the name server. Otherwise an unresolvable
        next hop ends the call silently; type 3 sends a copy to every
        unvisited neighbour whose next hop resolves, any other type one packet
        towards the destination. */
    method Send(source: Value, destination: Value, kind: Value, data: Content, visited: Option<seq<Host>>)
      returns (r: Result<()>, ghost targets: seq<Host>)
      modifies this`outbox, this`defaultVisited
      ensures AsHost(source).None? || AsHost(destination).None? ==> r == Failure(TypeError)
      ensures AsHost(source).Some? && AsHost(destination).Some? && !ValidKind(kind) ==> r == Failure(ValueError)
      ensures r.Success? <==> AsHost(source).Some? && AsHost(destination).Some? && ValidKind(kind)
      ensures r.Failure? ==> outbox == old(outbox) && defaultVisited == old(defaultVisited)
      ensures r.Success? ==>
        defaultVisited == if visited.None? then old(defaultVisited) + [name] else old(defaultVisited)
      ensures r.Success? ==>
        var src, dest, k := AsHost(source).value, AsHost(destination).value, AsInt(kind).value;
        var v := (if visited.None? then old(defaultVisited) else visited.value) + [name];
        if k == 4 then
          outbox == old(outbox) + [Packet(address, name, hnsAddress, "sb", src, dest, 4, v, data)]
        else if NextHop(dest).None? then
          outbox == old(outbox)
        else
          var p := Packet(address, name, NextHop(dest).value.1, NextHop(dest).value.0, src, dest, k, v, data);
          if k == 3 then
            outbox == old(outbox) + FloodPackets(p, targets) && FloodTargets(targets, v)
          else
            outbox == old(outbox) + [p]
    {
      targets := [];
      var src, dest := AsHost(source), AsHost(destination);
      if src.None? || dest.None? {
        return Failure(TypeError), targets;
      }
      var k := AsInt(kind);
      if k.None? || k.value < 0 || k.value > 4 {
        return Failure(ValueError), targets;
      }
      var v;
      if visited.None? {
        defaultVisited := defaultVisited + [name];
        v := defaultVisited;
      } else {
        v := visited.value + [name];
      }
      if k.value == 4 {
        outbox := outbox + [Packet(address, name, hnsAddress, "sb", src.value, dest.value, 4, v, data)];
        return Success(()), targets;
      }
      var hop := NextHop(dest.value);
      if hop.None? {
        return Success(()), targets;
      }
      var p := Packet(address, name, hop.value.1, hop.value.0, src.value, dest.value, k.value, v, data);
      if k.value != 3 {
        outbox := outbox + [p];
        return Success(()), targets;
      }
      targets := Flood(p, v);
      return Success(()), targets;
    }

    /** The type-3 loop of `_send`: a copy of `p` to every neighbour not in
        `visited` whose next hop resolves. */
    method Flood(p: Packet, visited: seq<Host>) returns (ghost targets: seq<Host>)
      modifies this`outbox
      ensures outbox == old(outbox) + FloodPackets(p, targets) && FloodTargets(targets, visited)
    {
      targets := [];
      var sent: seq<Packet> := [];
      var todo := neighborTable.Keys;
      while todo != {}
        invariant todo <= neighborTable.Keys
        invariant sent == FloodPackets(p, targets)
        invariant forall i :: 0 <= i < |targets| ==> targets[i] !in todo
        invariant forall i, j :: 0 <= i < j < |targets| ==> targets[i] != targets[j]
        invariant forall m :: m in targets <==> m in neighborTable && m !in todo && m !in visited && NextHop(m).Some?
        decreases todo
      {
        var n :| n in todo;
        if n !in visited && NextHop(n).Some? {
          sent := sent + Relayed(p, n);
          assert (targets + [n])[..|targets + [n]| - 1] == targets;
          targets := targets + [n];
        }
        todo := todo - {n};
      }
      assert (set m | m in targets) == set m | m in neighborTable && m !in visited && NextHop(m).Some?;
      outbox := outbox + sent;
    }

    /** The public `send` as written passes the undefined global name
        `_get_self_name`, so evaluating its arguments raises NameError and
        nothing is sent. */
    method SendDataAsWritten(destination: Value, data: Content) returns (r: Result<()>)
      ensures r == Failure(NameError)
    {
      return Failure(NameError);
    }

    /** `send` as intended, from self with a fresh `visited`: TypeError for a
        non-string destination; otherwise one type-0 packet towards it when its
        next hop resolves, and nothing when it does not. */
    method SendData(destination: Value, data: Content) returns (r: Result<()>)
      modifies this`outbox, this`defaultVisited
      ensures r.Success? <==> AsHost(destination).Some?
      ensures r.Failure? ==> r.error == TypeError
      ensures defaultVisited == old(defaultVisited)
      ensures r.Failure? ==> outbox == old(outbox)
      ensures r.Success? ==>
        var dest := AsHost(destination).value;
        outbox == old(outbox) +
          if NextHop(dest).None? then []
          else [Packet(address, name, NextHop(dest).value.1, NextHop(dest).value.0, name, dest, 0, [name], data)]
    {
      ghost var targets;
      r, targets := Send(StrVal(name), destination, IntVal(0), data, Some([]));
      assert [] + [name] == [name];
    }

    /** A type-1 packet from self carrying `content` to a neighbour, sent
        to the next hop and address the routing and mapping tables give. */
    ghost predicate Advertisement(q: Packet, content: Content)
      reads this`routingTable, this`mapping, this`neighborTable
    {
      && q.kind == 1 && q.srcName == name && q.lastName == name && q.lastAddress == address
      && q.data == content && q.destName in neighborTable
      && NextHop(q.destName) == Some((q.nextName, q.nextAddress))
    }

    /** `sent` holds one advertisement for each neighbour outside `todo`
        whose next hop resolves, and nothing else. */
    ghost predicate AdvertRun(sent: seq<Packet>, content: Content, todo: set<Host>)
      reads this`routingTable, this`mapping, this`neighborTable
    {
      && (forall i :: 0 <= i < |sent| ==> Advertisement(sent[i], content) && sent[i].destName !in todo)
      && (forall i, j :: 0 <= i < j < |sent| ==> sent[i].destName != sent[j].destName)
      && (forall h :: h in neighborTable && h !in todo && NextHop(h).Some? ==>
            exists i :: 0 <= i < |sent| && sent[i].destName == h)
    }

    lemma AdvertRunStep(sent: seq<Packet>, content: Content, todo: set<Host>, h: Host, q: seq<Packet>)
      requires AdvertRun(sent, content, todo) && h in todo && h in neighborTable
      requires NextHop(h).None? ==> q == []
      requires NextHop(h).Some? ==> |q| == 1 && Advertisement(q[0], content) && q[0].destName == h
      ensures AdvertRun(sent + q, content, todo - {h})
    {
      var s := sent + q;
      forall g | g in neighborTable && g !in todo - {h} && NextHop(g).Some?
        ensures exists i :: 0 <= i < |s| && s[i].destName == g
      {
        if g == h {
          assert s[|sent|].destName == g;
        } else {
          var i :| 0 <= i < |sent| && sent[i].destName == g;
          assert s[i] == sent[i];
        }
      }
    }

    /** The `visited` lists of `sent`, after `c` calls through the shared
        default list `dv0`: each is `dv0` followed by between 1 and `c`
        copies of self, and they grow from one packet to the next. */
    ghost predicate VisitedGrowth(sent: seq<Packet>, dv0: seq<Host>, c: nat)
    {
      && (forall i :: 0 <= i < |sent| ==>
            && |dv0| < |sent[i].visited| <= |dv0| + c
            && sent[i].visited == dv0 + Repeat(name, |sent[i].visited| - |dv0|))
      && (forall i, j :: 0 <= i < j < |sent| ==> |sent[i].visited| < |sent[j].visited|)
    }

    lemma VisitedGrowthStep(sent: seq<Packet>, dv0: seq<Host>, c: nat, q: seq<Packet>)
      requires VisitedGrowth(sent, dv0, c) && |q| <= 1
      requires forall j :: 0 <= j < |q| ==> q[j].visited == dv0 + Repeat(name, c + 1)
      ensures VisitedGrowth(sent + q, dv0, c + 1)
    {
    }

    /** What a round of advertisements from the shared default `visited`
        list `dv0` leaves behind: `AdvertRun`, and the list, now `dv`, gains
        self once per neighbour, sent to or not; each packet carries the list
        as it stood right after its own call appended self. */
    ghost predicate Advertised(sent: seq<Packet>, content: Content, dv0: seq<Host>, dv: seq<Host>)
      reads this`routingTable, this`mapping, this`neighborTable
    {
      && AdvertRun(sent, content, {})
      && dv == dv0 + Repeat(name, |neighborTable.Keys|)
      && VisitedGrowth(sent, dv0, |neighborTable.Keys|)
    }

    /** The account the advertisement loop keeps with `todo` still to
        visit: `c` calls made, the shared list grown from `dv0` to `dv`. */
    ghost predicate AdvertState(sent: seq<Packet>, content: Content, todo: set<Host>, dv0: seq<Host>, dv: seq<Host>, c: nat)
      reads this`routingTable, this`mapping, this`neighborTable
    {
      && todo <= neighborTable.Keys
      && c == |neighborTable.Keys| - |todo|
      && AdvertRun(sent, content, todo)
      && dv == dv0 + Repeat(name, c)
      && VisitedGrowth(sent, dv0, c)
    }

    lemma AdvertStateStep(sent: seq<Packet>, content: Content, todo: set<Host>, dv0: seq<Host>, dv: seq<Host>, c: nat,
                          h: Host, q: seq<Packet>)
      requires AdvertState(sent, content, todo, dv0, dv, c) && h in todo
      requires NextHop(h).None? ==> q == []
      requires NextHop(h).Some? ==> |q| == 1 && Advertisement(q[0], content) && q[0].destName == h
      requires forall j :: 0 <= j < |q| ==> q[j].visited == dv + [name]
      ensures AdvertState(sent + q, content, todo - {h}, dv0, dv + [name], c + 1)
    {
      assert Repeat(name, c) + [name] == Repeat(name, c + 1);
      AdvertRunStep(sent, content, todo, h, q);
      VisitedGrowthStep(sent, dv0, c, q);
    }

    /** One call of the advertisement loop: `_send` of a type-1 packet from
        self to neighbour `h` through the shared default `visited` list;
        `q` is what it sent, and the loop's account moves on by `h`. */
    method AdvertiseTo(h: Host, content: Content, ghost sent: seq<Packet>, ghost todo: set<Host>,
                       ghost dv0: seq<Host>, ghost c: nat) returns (ghost q: seq<Packet>)
      requires h in todo && AdvertState(sent, content, todo, dv0, defaultVisited, c)
      modifies this`outbox, this`defaultVisited
      ensures outbox == old(outbox) + q
      ensures defaultVisited == old(defaultVisited) + [name]
      ensures NextHop(h).None? ==> q == []
      ensures NextHop(h).Some? ==> |q| == 1 && Advertisement(q[0], content) && q[0].destName == h
      ensures forall j :: 0 <= j < |q| ==> q[j].visited == old(defaultVisited) + [name]
      ensures AdvertState(sent + q, content, todo - {h}, dv0, defaultVisited, c + 1)
    {
      ghost var before := outbox;
      ghost var dv := defaultVisited;
      var r;
      ghost var targets;
      r, targets := Send(StrVal(name), StrVal(h), IntVal(1), content, None);
      q := outbox[|before|..];
      assert outbox == before + q;
      AdvertStateStep(sent, content, todo, dv0, dv, c, h, q);
    }

    /** The re-advertisement at the end of `_dv_receive`: a type-1 packet to
        every neighbour whose next hop resolves, each through the shared
        default `visited` list. The ghost result is what was sent. */
    method Advertise(content: Content) returns (ghost sent: seq<Packet>)
      modifies this`outbox, this`defaultVisited
      ensures outbox == old(outbox) + sent
      ensures Advertised(sent, content, old(defaultVisited), defaultVisited)
    {
      sent := [];
      var todo := neighborTable.Keys;
      ghost var c: nat := 0;
      while todo != {}
        invariant outbox == old(outbox) + sent
        invariant AdvertState(sent, content, todo, old(defaultVisited), defaultVisited, c)
        decreases todo
      {
        var h :| h in todo;
        ghost var q := AdvertiseTo(h, content, sent, todo, old(defaultVisited), c);
        AppendAssoc(old(outbox), sent, q);
        sent := sent + q;
        todo := todo - {h};
        c := c + 1;
      }
    }

    // -------------------------------------------------------------------
    // Receive handlers (router.py:473-536, 630-790)
    // -------------------------------------------------------------------

    /** The table part of `_dv_receive`: stamp self and the sender, drop
        every local and advertised entry that leads to or through a dead
        host, then relax, as `DvReconciled` states it. */
    method DvReconcile(source: Host, data: RouteMap, now: int) returns (r: Result<bool>)
      modifies this`alive, this`routingTable
      ensures alive == old(alive)[name := now][source := now]
      ensures DvReconciled(old(routingTable), source, data, DeadHosts(alive, now, overtime), routingTable, r)
    {
      alive := alive[name := now][source := now];
      var dead := DeadHosts(alive, now, overtime);
      var purged := routingTable.Keys * dead != {};
      var kept := FilterRoutes(routingTable, dead);
      var heard := FilterRoutes(data, dead);
      if heard != map[] && source !in kept {
        routingTable := kept;
        return Failure(KeyError);
      }
      var rt, changed := RelaxRoutes(kept, source, heard);
      routingTable := rt;
      r := Success(purged || changed);
    }

    /** `_dv_receive`: reconcile, and re-advertise the table to every
        neighbour when anything changed. */
    method DvReceive(source: Host, data: RouteMap, now: int) returns (r: Result<bool>, ghost advertised: seq<Packet>)
      modifies this`alive, this`routingTable, this`outbox, this`defaultVisited
      ensures alive == old(alive)[name := now][source := now]
      ensures DvReconciled(old(routingTable), source, data, DeadHosts(alive, now, overtime), routingTable, r)
      ensures outbox == old(outbox) + advertised
      ensures r != Success(true) ==> advertised == [] && defaultVisited == old(defaultVisited)
      ensures r == Success(true) ==> Advertised(advertised, Routes(routingTable), old(defaultVisited), defaultVisited)
    {
      advertised := [];
      r := DvReconcile(source, data, now);
      if r == Success(true) {
        advertised := Advertise(Routes(routingTable));
      }
    }

    /** `_ls_receive`, as `LsReceived` states it; the database stays closed. */
    method LsReceive(source: Host, neighbor: Adjacency, reported: AliveMap, now: int)
      requires Valid() && overtime >= 0
      modifies this`alive, this`linkState, this`routingTable
      ensures LsReceived(old(alive), old(linkState), name, neighborTable, source, neighbor, reported, now, overtime,
                         alive, linkState, routingTable)
    {
      alive, linkState, routingTable :=
        LinkStateStep(alive, linkState, name, neighborTable, source, neighbor, reported, now, overtime);
    }

    /** `_central_ls_controller_receive`: stamp the sender, take in its
        links, and purge the controller itself and every timed-out host. */
    method ControllerReceive(source: Host, data: Adjacency, now: int)
      requires Valid()
      modifies this`alive, this`linkState
      ensures Valid()
      ensures alive == old(alive)[source := now]
      ensures linkState == Purge(Installed(old(linkState), source, data), DeadHosts(alive, now, overtime) + {name})
      ensures name !in linkState && forall x, v :: x in linkState && v in linkState[x] ==> v != name
      ensures forall x :: x in linkState ==> x !in DeadHosts(alive, now, overtime)
      ensures forall x, v :: x in linkState && v in linkState[x] ==> v !in DeadHosts(alive, now, overtime)
    {
      alive := alive[source := now];
      var dead := CollectDead(alive, now, overtime);
      var ls := Install(linkState, source, data);
      ls := PurgeDead(ls, dead + {name});
      PurgedInstall(linkState, source, data, dead + {name});
      linkState := ls;
    }

    /** `_central_ls_member_receive`: read the link cost to the controller
        (KeyError when no controller is set or it is not a neighbour, before
        anything changes), adopt the controller's database, route by it, and
        reach the controller over the direct link. A database without self
        makes Dijkstra raise KeyError once it has been adopted. */
    method MemberReceive(source: Host, data: LinkStateMap) returns (r: Result<()>)
      requires Valid() && Closed(data)
      modifies this`linkState, this`routingTable
      ensures Valid()
      ensures MemberReceived(old(linkState), old(routingTable), data, r)
    {
      if controller.None? || controller.value !in neighborTable {
        return Failure(KeyError);
      }
      var c := controller.value;
      var cost := neighborTable[c];
      linkState := data;
      if name !in linkState {
        return Failure(KeyError);
      }
      var rt := ComputeRoutes(linkState, name);
      routingTable := rt[c := RouteEntry(Some(c), cost)];
      r := Success(());
    }

    /** The outcome of `_central_ls_member_receive` from database `ls0` and
        routes `rt0`. */
    ghost predicate MemberReceived(ls0: LinkStateMap, rt0: RouteMap, data: LinkStateMap, r: Result<()>)
      reads this`controller, this`neighborTable, this`linkState, this`routingTable
    {
      && (r.Success? <==> controller.Some? && controller.value in neighborTable && name in data)
      && (r.Failure? ==> r.error == KeyError && routingTable == rt0)
      && linkState == (if controller.Some? && controller.value in neighborTable then data else ls0)
      && (r.Success? ==>
            exists rt :: RoutedBy(data, name, rt)
              && routingTable == rt[controller.value := RouteEntry(controller, neighborTable[controller.value])])
    }

    /** The shape `update` expects of the data for the running algorithm
        and role; the link-state handler also needs a non-negative timeout,
        so that self never times itself out. */
    ghost predicate Accepts(data: Content)
      reads this`algorithm, this`isController, this`overtime
    {
      if algorithm == LS then data.LinkReport? && overtime >= 0
      else if algorithm == DV then data.Routes?
      else if isController then data.Links?
      else data.Database? && Closed(data.database)
    }

    /** The outcome of `update` from alive map `alive0`, database `ls0`,
        routes `rt0` and shared `visited` list `dv0`, with `sent` the packets
        the distance-vector handler re-advertised and `dv` the list after. */
    ghost predicate Updated(alive0: AliveMap, ls0: LinkStateMap, rt0: RouteMap, dv0: seq<Host>, dv: seq<Host>,
                            source: Host, data: Content, now: int, r: Result<()>, sent: seq<Packet>)
      reads this`alive, this`linkState, this`routingTable, this`algorithm,
            this`isController, this`overtime, this`neighborTable, this`mapping, this`controller
    {
      && (r.Failure? ==> r.error == KeyError)
      && (algorithm != DV ==> sent == [] && dv == dv0)
      && (algorithm == LS ==>
            && data.LinkReport? && r.Success?
            && LsReceived(alive0, ls0, name, neighborTable, source, data.neighbor, data.alive, now,
                          overtime, alive, linkState, routingTable))
      && (algorithm == DV ==>
            && data.Routes? && linkState == ls0 && alive == alive0[name := now][source := now]
            && exists m :: DvReconciled(rt0, source, data.routes, DeadHosts(alive, now, overtime), routingTable, m)
                 && (r.Success? <==> m.Success?)
                 && (m != Success(true) ==> sent == [] && dv == dv0)
                 && (m == Success(true) ==> Advertised(sent, Routes(routingTable), dv0, dv)))
      && (algorithm != LS && algorithm != DV && isController ==>
            && data.Links? && r.Success? && routingTable == rt0 && alive == alive0[source := now]
            && linkState == Purge(Installed(ls0, source, data.links), DeadHosts(alive, now, overtime) + {name}))
      && (algorithm != LS && algorithm != DV && !isController ==>
            data.Database? && alive == alive0 && MemberReceived(ls0, rt0, data.database, r))
    }

    /** `update`: hand the data to the receive handler of the algorithm and
        role in force; a KeyError raised by the handler escapes. Only the
        distance-vector handler sends: the re-advertisement `sent`. */
    method Update(source: Host, data: Content, now: int) returns (r: Result<()>, ghost sent: seq<Packet>)
      requires Valid() && Accepts(data)
      modifies this`alive, this`linkState, this`routingTable, this`outbox, this`defaultVisited
      ensures Valid()
      ensures outbox == old(outbox) + sent
      ensures Updated(old(alive), old(linkState), old(routingTable), old(defaultVisited), defaultVisited,
                      source, data, now, r, sent)
    {
      sent := [];
      if algorithm == LS {
        LsReceive(source, data.neighbor, data.alive, now);
        r := Success(());
      } else if algorithm == DV {
        var m;
        m, sent := DvReceive(source, data.routes, now);
        r := if m.Success? then Success(()) else Failure(m.error);
      } else if isController {
        ControllerReceive(source, data.links, now);
        r := Success(());
      } else {
        r := MemberReceive(source, data.database);
      }
    }

    /** `_handle_mapping_table`: copy the received pairs and merge them in;
        received names overwrite, others stay. */
    method HandleMappingTable(entries: map<Host, Address>)
      modifies this`mapping
      ensures mapping == old(mapping) + entries
    {
      var mt: map<Host, Address> := map[];
      var todo := entries.Keys;
      while todo != {}
        invariant todo <= entries.Keys
        invariant mt == map k | k in entries && k !in todo :: entries[k]
        decreases todo
      {
        var k :| k in todo;
        mt := mt[k := entries[k]];
        todo := todo - {k};
      }
      assert mt == entries;
      mapping := mapping + mt;
    }

    // -------------------------------------------------------------------
    // Parsing (router.py:955-1108)
    // -------------------------------------------------------------------

    /** The routing branch of `_parse` (types 1-3 for self): `update`, then
        for type 3 `_handle_broadcast`, which re-broadcasts under the
        packet's own `visited`; a KeyError from the update escapes first. */
    method HandleRouter(p: Packet, now: int) returns (r: Result<()>, ghost sent: seq<Packet>, ghost targets: seq<Host>)
      requires Valid() && p.destName == name && 1 <= p.kind <= 3 && Accepts(p.data)
      modifies this`alive, this`linkState, this`routingTable, this`outbox, this`defaultVisited
      ensures Valid()
      ensures Updated(old(alive), old(linkState), old(routingTable), old(defaultVisited), defaultVisited,
                p.srcName, p.data, now, r, sent)
      ensures
        var v := p.visited + [name];
        var rebroadcast := p.kind == 3 && r.Success? && NextHop(name).Some?;
        && outbox == old(outbox) + sent +
             (if rebroadcast then FloodPackets(Packet(address, name, NextHop(name).value.1, NextHop(name).value.0,
                                                      p.srcName, name, 3, v, p.data), targets)
              else [])
        && (rebroadcast ==> FloodTargets(targets, v))
    {
      targets := [];
      r, sent := Update(p.srcName, p.data, now);
      if r.Success? && p.kind == 3 {
        targets := Broadcast(p, old(alive), old(linkState), old(routingTable), old(defaultVisited), now, r, sent);
      }
    }

    /** `_handle_broadcast`: `_send` of the packet from its source to self
        as type 3, under the packet's own `visited` list. It leaves alone
        what `Updated` says of the update that came before it. */
    method Broadcast(p: Packet, ghost alive0: AliveMap, ghost ls0: LinkStateMap, ghost rt0: RouteMap,
                     ghost dv0: seq<Host>, ghost now: int, ghost r: Result<()>, ghost sent: seq<Packet>)
      returns (ghost targets: seq<Host>)
      requires Updated(alive0, ls0, rt0, dv0, defaultVisited, p.srcName, p.data, now, r, sent)
      modifies this`outbox, this`defaultVisited
      ensures defaultVisited == old(defaultVisited)
      ensures Updated(alive0, ls0, rt0, dv0, defaultVisited, p.srcName, p.data, now, r, sent)
      ensures
        var v := p.visited + [name];
        if NextHop(name).None? then outbox == old(outbox)
        else
          && outbox == old(outbox) + FloodPackets(Packet(address, name, NextHop(name).value.1, NextHop(name).value.0,
                                                         p.srcName, name, 3, v, p.data), targets)
          && FloodTargets(targets, v)
    {
      var res;
      res, targets := Send(StrVal(p.srcName), StrVal(name), IntVal(3), p.data, Some(p.visited));
    }

    /** `_parse`: a packet for self is handled by type (0 normal, 1-3 the
        routing update, with type 3 re-broadcast under the packet's own
        `visited` unless the update raised, 4 the mapping table, any other
        ValueError); any other packet is forwarded through the shared default
        `visited` list, which raises ValueError for a type outside 0..4. */
    method Parse(p: Packet, now: int) returns (r: Result<()>, ghost sent: seq<Packet>, ghost targets: seq<Host>)
      requires Valid()
      requires p.destName == name && 1 <= p.kind <= 3 ==> Accepts(p.data)
      requires p.destName == name && p.kind == 4 ==> p.data.Mapping?
      modifies this`alive, this`linkState, this`routingTable, this`outbox, this`defaultVisited, this`mapping
      ensures Valid()
      ensures !(0 <= p.kind <= 4) ==>
        && r == Failure(ValueError) && outbox == old(outbox) && defaultVisited == old(defaultVisited)
        && alive == old(alive) && linkState == old(linkState) && routingTable == old(routingTable)
        && mapping == old(mapping)
      ensures 0 <= p.kind <= 4 && !(p.destName == name && 1 <= p.kind <= 3) ==> r.Success?
      ensures r.Failure? ==> r.error == ValueError || (p.destName == name && 1 <= p.kind <= 3 && r.error == KeyError)
      ensures p.destName == name && p.kind == 0 ==>
        && outbox == old(outbox) && defaultVisited == old(defaultVisited)
        && alive == old(alive) && linkState == old(linkState)
        && routingTable == old(routingTable) && mapping == old(mapping)
      ensures p.destName == name && p.kind == 4 ==>
        && mapping == old(mapping) + p.data.entries && routingTable == old(routingTable)
        && alive == old(alive) && linkState == old(linkState)
        && outbox == old(outbox) && defaultVisited == old(defaultVisited)
      ensures p.destName != name ==>
        && mapping == old(mapping) && routingTable == old(routingTable)
        && alive == old(alive) && linkState == old(linkState)
        && (r.Success? ==> defaultVisited == old(defaultVisited) + [name])
      ensures p.destName != name && 0 <= p.kind <= 4 && p.kind != 3 ==>
        var v := old(defaultVisited) + [name];
        outbox == old(outbox) +
          if p.kind == 4 then [Packet(address, name, hnsAddress, "sb", p.srcName, p.destName, 4, v, p.data)]
          else if NextHop(p.destName).None? then []
          else [Packet(address, name, NextHop(p.destName).value.1, NextHop(p.destName).value.0,
                       p.srcName, p.destName, p.kind, v, p.data)]
      ensures p.destName != name && p.kind == 3 ==>
        var v := old(defaultVisited) + [name];
        if NextHop(p.destName).None? then outbox == old(outbox)
        else
          && outbox == old(outbox) + FloodPackets(Packet(address, name, NextHop(p.destName).value.1,
                                     NextHop(p.destName).value.0, p.srcName, p.destName, 3, v, p.data), targets)
          && FloodTargets(targets, v)
      ensures p.destName == name && 1 <= p.kind <= 3 ==>
        && mapping == old(mapping)
        && Updated(old(alive), old(linkState), old(routingTable), old(defaultVisited), defaultVisited,
                p.srcName, p.data, now, r, sent)
        && var v := p.visited + [name];
           var rebroadcast := p.kind == 3 && r.Success? && NextHop(name).Some?;
           && outbox == old(outbox) + sent +
                (if rebroadcast then FloodPackets(Packet(address, name, NextHop(name).value.1, NextHop(name).value.0,
                                                         p.srcName, name, 3, v, p.data), targets)
                 else [])
           && (rebroadcast ==> FloodTargets(targets, v))
    {
      sent, targets := [], [];
      if p.destName == name {
        if p.kind == 0 {
          return Success(()), sent, targets;
        } else if 1 <= p.kind <= 3 {
          r, sent, targets := HandleRouter(p, now);
          return;
        } else if p.kind == 4 {
          HandleMappingTable(p.data.entries);
          return Success(()), sent, targets;
        }
        return Failure(ValueError), sent, targets;
      }
      r, targets := Send(StrVal(p.srcName), StrVal(p.destName), IntVal(p.kind), p.data, None);
    }
  }
}
