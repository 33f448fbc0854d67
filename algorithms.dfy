/** The routing algorithms of src/routing/algorithm.py: distance vector,
    link state, and the centralized member and controller.

    Each algorithm is a class over the tables it keeps. The neighbour table
    is passed in as the snapshot `neighbor.get()` returns, and `time.time()`
    as the integer `now`. Each `receive` pushes its routing table into the
    shared routing model it was built with. */
module Algorithms {
  import opened Common
  import opened ShortestPaths
  import opened Liveness
  import opened RoutingTables

  // ---------------------------------------------------------------------
  // Distance vector: the specification of one recomputation
  // ---------------------------------------------------------------------

  /** The routing tables heard from neighbours, plus self's own row. */
  type NeighborRouting = map<Host, RouteMap>

  /** `{self: (self, 0)}` overlaid with a direct route to each neighbour at
      its link cost: self's own row, and the table `_reset_default_routing`
      restores. */
  function DefaultRoutes(self: Host, neighbors: Adjacency): RouteMap
  {
    map h | h in neighbors.Keys + {self} ::
      if h in neighbors then RouteEntry(Some(h), neighbors[h]) else RouteEntry(Some(self), 0)
  }

  /** Every host that is a neighbour-routing key or appears in one of the
      rows. */
  function Destinations(nr: NeighborRouting): set<Host>
  {
    nr.Keys + set n, d | n in nr && d in nr[n] :: d
  }

  /** The recomputation of `dest` reads `nr[self][n]` for every `n` whose
      row holds `dest`; it raises KeyError unless each such `n` is in self's
      own row. */
  ghost predicate LinkedFor(nr: NeighborRouting, self: Host, dest: Host)
  {
    && self in nr
    && forall n :: n in nr && dest in nr[n] ==> n in nr[self]
  }

  /** The cost of reaching `dest` through `n`: the cost self's row gives `n`
      plus what `n` advertises for `dest`. */
  function Via(nr: NeighborRouting, self: Host, n: Host, dest: Host): int
    requires self in nr && n in nr[self] && n in nr && dest in nr[n]
  {
    nr[self][n].cost + nr[n][dest].cost
  }

  /** `e` is a route the min-over-neighbours rule may pick for `dest`: none
      at cost -1 when no row holds `dest`; otherwise the cost through some
      row holding it, minimal among all of them, with that neighbour as next
      hop (or `dest` itself when the row is self's own). */
  ghost predicate IsBestRoute(nr: NeighborRouting, self: Host, dest: Host, e: RouteEntry)
    requires LinkedFor(nr, self, dest)
  {
    if forall n :: n in nr ==> dest !in nr[n] then
      e == RouteEntry(None, -1)
    else
      exists n :: n in nr && dest in nr[n]
        && e.cost == Via(nr, self, n, dest)
        && e.next == Some(if n != self then n else dest)
        && forall m :: m in nr && dest in nr[m] ==> e.cost <= Via(nr, self, m, dest)
  }

  /** The inner loop over neighbours for one destination: KeyError at the
      first row holding `dest` whose sender self's row lacks. */
  method BestRoute(nr: NeighborRouting, self: Host, dest: Host) returns (r: Result<RouteEntry>)
    requires self in nr
    ensures r.Success? <==> LinkedFor(nr, self, dest)
    ensures r.Failure? ==> r.error == KeyError
    ensures r.Success? ==> IsBestRoute(nr, self, dest, r.value)
  {
    var minNext: Option<Host> := None;
    var minCost := -1;
    ghost var chosen: Host := self;
    var todo := nr.Keys;
    while todo != {}
      invariant todo <= nr.Keys
      invariant forall m :: m in nr && m !in todo && dest in nr[m] ==> m in nr[self]
      invariant minNext.None? ==> minCost == -1
      invariant minNext.None? <==> forall n :: n in nr && n !in todo ==> dest !in nr[n]
      invariant minNext.Some? ==>
        && chosen in nr && dest in nr[chosen] && chosen in nr[self]
        && minCost == Via(nr, self, chosen, dest)
        && minNext == Some(if chosen != self then chosen else dest)
        && forall m :: m in nr && m !in todo && dest in nr[m] ==> minCost <= Via(nr, self, m, dest)
      decreases todo
    {
      var n :| n in todo;
      if dest in nr[n] {
        if n !in nr[self] {
          return Failure(KeyError);
        }
        var indirect := nr[self][n].cost + nr[n][dest].cost;
        if minNext.None? || indirect < minCost {
          minCost := indirect;
          minNext := Some(if n != self then n else dest);
          chosen := n;
        }
      }
      todo := todo - {n};
    }
    r := Success(RouteEntry(minNext, minCost));
  }

  /** With positive link costs, non-negative advertised costs and no
      neighbour named like self, the recomputation always routes self to
      itself at cost 0. */
  lemma BestRouteToSelf(nr: NeighborRouting, self: Host, neighbors: Adjacency, e: RouteEntry)
    requires LinkedFor(nr, self, self) && nr[self] == DefaultRoutes(self, neighbors) && self !in neighbors
    requires forall h :: h in neighbors ==> neighbors[h] > 0
    requires forall n, d :: n in nr && n != self && d in nr[n] ==> nr[n][d].cost >= 0
    requires IsBestRoute(nr, self, self, e)
    ensures e == RouteEntry(Some(self), 0)
  {
    assert self in nr[self];
    var n :| n in nr && self in nr[n]
        && e.cost == Via(nr, self, n, self)
        && e.next == Some(if n != self then n else self)
        && forall m :: m in nr && self in nr[m] ==> e.cost <= Via(nr, self, m, self);
    assert e.cost <= Via(nr, self, self, self) == 0;
  }

  /** A neighbour's route is never costlier than the direct link to it,
      when self's own row routes self at cost 0. */
  lemma BestRouteNoWorseThanLink(nr: NeighborRouting, self: Host, neighbors: Adjacency, h: Host, e: RouteEntry)
    requires LinkedFor(nr, self, h) && nr[self] == DefaultRoutes(self, neighbors) && self !in neighbors
    requires h in neighbors && IsBestRoute(nr, self, h, e)
    ensures e.next.Some? && e.cost <= neighbors[h]
  {
    assert h in nr[self] && self in nr[self];
    assert Via(nr, self, self, h) == neighbors[h];
  }

  /** `_update_neighbor_routing`'s inner loop and `_reset_default_routing`:
      start from `{self: (self, 0)}` and add each neighbour. */
  method BuildDefaultRoutes(self: Host, neighbors: Adjacency) returns (r: RouteMap)
    ensures r == DefaultRoutes(self, neighbors)
  {
    r := map[self := RouteEntry(Some(self), 0)];
    var todo := neighbors.Keys;
    while todo != {}
      invariant todo <= neighbors.Keys
      invariant r.Keys == (neighbors.Keys - todo) + {self}
      invariant forall h :: h in r ==>
        r[h] == if h in neighbors && h !in todo then RouteEntry(Some(h), neighbors[h]) else RouteEntry(Some(self), 0)
      decreases todo
    {
      var h :| h in todo;
      r := r[h := RouteEntry(Some(h), neighbors[h])];
      todo := todo - {h};
    }
  }

  /** `_get_destinations`: every key and every host of every row. */
  method GetDestinations(nr: NeighborRouting) returns (dests: set<Host>)
    ensures dests == Destinations(nr)
  {
    dests := {};
    var todo := nr.Keys;
    while todo != {}
      invariant todo <= nr.Keys
      invariant dests == (nr.Keys - todo) + set m, d | m in nr && m !in todo && d in nr[m] :: d
      decreases todo
    {
      var n :| n in todo;
      ghost var before := dests;
      dests := dests + {n};
      var inner := nr[n].Keys;
      while inner != {}
        invariant inner <= nr[n].Keys
        invariant dests == before + {n} + (nr[n].Keys - inner)
        decreases inner
      {
        var d :| d in inner;
        dests := dests + {d};
        inner := inner - {d};
      }
      todo := todo - {n};
    }
  }

  /** Every entry of `r` is the one in `rt`, or a best route for a
      destination of `dests`. */
  ghost predicate KeptOrBest(nr: NeighborRouting, self: Host, dests: set<Host>, rt: RouteMap, r: RouteMap)
  {
    forall d :: d in r ==>
      || (d in rt && r[d] == rt[d])
      || (d in dests && LinkedFor(nr, self, d) && IsBestRoute(nr, self, d, r[d]))
  }

  /** The loop over destinations in `receive`, updating the table in place:
      each destination in `dests` gets a best route, every other entry is
      kept. A KeyError for one destination ends the loop with the entries
      written so far in place. */
  method RecomputeRoutes(nr: NeighborRouting, self: Host, dests: set<Host>, rt: RouteMap)
    returns (r: RouteMap, res: Result<()>)
    requires self in nr
    ensures res.Success? <==> forall d :: d in dests ==> LinkedFor(nr, self, d)
    ensures res.Failure? ==> res.error == KeyError
    ensures rt.Keys <= r.Keys <= rt.Keys + dests
    ensures KeptOrBest(nr, self, dests, rt, r)
    ensures forall d :: d in rt && d !in dests ==> r[d] == rt[d]
    ensures res.Success? ==> r.Keys == rt.Keys + dests
    ensures res.Success? ==>
      forall d :: d in dests ==> LinkedFor(nr, self, d) && IsBestRoute(nr, self, d, r[d])
  {
    r := rt;
    var todo := dests;
    while todo != {}
      invariant todo <= dests
      invariant r.Keys == rt.Keys + (dests - todo)
      invariant forall d :: d in dests && d !in todo ==> LinkedFor(nr, self, d) && IsBestRoute(nr, self, d, r[d])
      invariant forall d :: d in rt && (d !in dests || d in todo) ==> r[d] == rt[d]
      decreases todo
    {
      var d :| d in todo;
      var e := BestRoute(nr, self, d);
      if e.Failure? {
        return r, Failure(KeyError);
      }
      r := r[d := e.value];
      todo := todo - {d};
    }
    res := Success(());
  }

  // ---------------------------------------------------------------------
  // Distance vector: the class
  // ---------------------------------------------------------------------

  class DistanceVector {
    const hostname: Host
    const timeout: int
    /** The shared routing model this algorithm pushes to. */
    const routing: RoutingTable
    var routingTable: RouteMap
    var alive: AliveMap
    var neighborRouting: NeighborRouting

    /** DV's `_check_timeout` is the base class's no-op. */
    constructor(hostname: Host, timeout: int, routing: RoutingTable)
      ensures this.hostname == hostname && this.timeout == timeout && this.routing == routing
      ensures routingTable == SelfRoute(hostname) && alive == map[] && neighborRouting == map[]
    {
      this.hostname := hostname;
      this.timeout := timeout;
      this.routing := routing;
      routingTable := SelfRoute(hostname);
      alive := map[];
      neighborRouting := map[];
    }

    /** The neighbour routing after hearing `advertised` from `src`. */
    function Reconciled(src: Host, advertised: RouteMap, neighbors: Adjacency): NeighborRouting
      reads this
    {
      neighborRouting[src := advertised][hostname := DefaultRoutes(hostname, neighbors)]
    }

    /** An advertisement is stale when it names a host the sender's own
        alive report shows as timed out. */
    ghost predicate Stale(advertised: RouteMap, reported: AliveMap, now: int)
      reads this
    {
      exists h :: h in advertised && h in DeadHosts(reported, now, timeout)
    }

    /** `_have_timeout`. */
    method HaveTimeout(advertised: RouteMap, reported: AliveMap, now: int) returns (stale: bool)
      ensures stale <==> Stale(advertised, reported, now)
    {
      var dead := CollectDead(reported, now, timeout);
      var todo := advertised.Keys;
      while todo != {}
        invariant todo <= advertised.Keys
        invariant forall h :: h in advertised && h !in todo ==> h !in dead
        decreases todo
      {
        var h :| h in todo;
        if h in dead {
          return true;
        }
        todo := todo - {h};
      }
      return false;
    }

    /** `_update_neighbor_routing`: store the advertised table under `src`,
        then rebuild self's own row from the neighbour table. */
    method UpdateNeighborRouting(src: Host, advertised: RouteMap, neighbors: Adjacency)
      modifies this`neighborRouting
      ensures neighborRouting == old(Reconciled(src, advertised, neighbors))
    {
      var own := BuildDefaultRoutes(hostname, neighbors);
      neighborRouting := neighborRouting[src := advertised][hostname := own];
    }

    /** `receive`: a stale advertisement changes nothing; otherwise merge
        the alive report, store the advertisement, and recompute every
        destination any row names by the min-over-neighbours rule, then
        push the table. Entries for hosts no row names stay as they were.
        A destination held by a row whose sender self's own row lacks
        raises KeyError: the loop stops with the entries written so far,
        and nothing is pushed. */
    method Receive(src: Host, advertised: RouteMap, reported: AliveMap, neighbors: Adjacency, now: int)
      returns (discarded: bool, r: Result<()>)
      modifies this, routing
      ensures discarded <==> old(Stale(advertised, reported, now))
      ensures discarded ==>
        && r.Success?
        && routingTable == old(routingTable) && alive == old(alive)
        && neighborRouting == old(neighborRouting) && routing.table == old(routing.table)
      ensures !discarded ==>
        && alive == Merged(old(alive), hostname, now, reported)
        && neighborRouting == old(Reconciled(src, advertised, neighbors))
        && hostname in neighborRouting
        && (r.Success? <==> forall d :: d in Destinations(neighborRouting) ==> LinkedFor(neighborRouting, hostname, d))
        && (r.Failure? ==> r.error == KeyError && routing.table == old(routing.table))
        && old(routingTable).Keys <= routingTable.Keys <= old(routingTable).Keys + Destinations(neighborRouting)
        && KeptOrBest(neighborRouting, hostname, Destinations(neighborRouting), old(routingTable), routingTable)
        && (forall d :: d in old(routingTable) && d !in Destinations(neighborRouting) ==>
              routingTable[d] == old(routingTable)[d])
        && (r.Success? ==>
              && routingTable.Keys == old(routingTable).Keys + Destinations(neighborRouting)
              && (forall d :: d in Destinations(neighborRouting) ==>
                    LinkedFor(neighborRouting, hostname, d) && IsBestRoute(neighborRouting, hostname, d, routingTable[d]))
              && routing.table == routingTable)
    {
      discarded := HaveTimeout(advertised, reported, now);
      if discarded {
        return true, Success(());
      }
      alive := MergeAlive(alive, hostname, now, reported);
      UpdateNeighborRouting(src, advertised, neighbors);
      var dests := GetDestinations(neighborRouting);
      var rt;
      rt, r := RecomputeRoutes(neighborRouting, hostname, dests, routingTable);
      routingTable := rt;
      if r.Failure? {
        return;
      }
      routing.Update(routingTable);
    }

    /** `_reset_default_routing`. */
    method ResetDefaultRouting(neighbors: Adjacency)
      modifies this`routingTable
      ensures routingTable == DefaultRoutes(hostname, neighbors)
    {
      routingTable := BuildDefaultRoutes(hostname, neighbors);
    }

    /** `_neighbor_routing_timeout`: forget the rows of dead hosts. */
    method NeighborRoutingTimeout(dead: set<Host>)
      modifies this`neighborRouting
      ensures neighborRouting == map n | n in old(neighborRouting) && n !in dead :: old(neighborRouting)[n]
    {
      var todo := dead;
      while todo != {}
        invariant todo <= dead
        invariant neighborRouting.Keys == old(neighborRouting).Keys - (dead - todo)
        invariant forall n :: n in neighborRouting ==> neighborRouting[n] == old(neighborRouting)[n]
        decreases todo
      {
        var h :| h in todo;
        if h in neighborRouting {
          neighborRouting := map n | n in neighborRouting && n != h :: neighborRouting[n];
        }
        todo := todo - {h};
      }
    }

    /** The table part of `_notice_neighbor`: stamp self, forget the rows of
        timed-out hosts and, when there are any, fall back to the default
        routes and push them. Answers the timed-out hosts and the alive
        table and routing table it advertises to every neighbour. */
    method NoticeNeighbor(neighbors: Adjacency, now: int)
      returns (timedOut: set<Host>, reportAlive: AliveMap, reportRouting: RouteMap)
      modifies this, routing
      ensures alive == old(alive)[hostname := now]
      ensures timedOut == DeadHosts(alive, now, timeout)
      ensures neighborRouting == map n | n in old(neighborRouting) && n !in timedOut :: old(neighborRouting)[n]
      ensures timedOut == {} ==> routingTable == old(routingTable) && routing.table == old(routing.table)
      ensures timedOut != {} ==> routingTable == DefaultRoutes(hostname, neighbors) && routing.table == routingTable
      ensures reportAlive == alive && reportRouting == routingTable
    {
      alive := alive[hostname := now];
      timedOut := CollectDead(alive, now, timeout);
      reportAlive := alive;
      NeighborRoutingTimeout(timedOut);
      if timedOut != {} {
        ResetDefaultRouting(neighbors);
        routing.Update(routingTable);
      }
      reportRouting := routingTable;
    }
  }

  // ---------------------------------------------------------------------
  // Link state
  // ---------------------------------------------------------------------

  class LinkState {
    const hostname: Host
    const timeout: int
    const routing: RoutingTable
    var routingTable: RouteMap
    var linkState: LinkStateMap
    var alive: AliveMap

    /** Every host a list names is a key, so Dijkstra never misses one; a
        non-negative timeout keeps self alive, so self stays a key. */
    ghost predicate Valid()
      reads this
    {
      timeout >= 0 && Closed(linkState)
    }

    /** Construction runs `_check_timeout` once; nothing is dead yet, so the
        database is self's links with placeholders. */
    constructor(hostname: Host, timeout: int, routing: RoutingTable, neighbors: Adjacency, now: int)
      requires timeout >= 0
      modifies routing
      ensures Valid()
      ensures this.hostname == hostname && this.timeout == timeout && this.routing == routing
      ensures alive == map[hostname := now]
      ensures linkState == Installed(map[], hostname, neighbors)
      ensures RoutedBy(linkState, hostname, routingTable) && routing.table == routingTable
    {
      this.hostname := hostname;
      this.timeout := timeout;
      this.routing := routing;
      routingTable := SelfRoute(hostname);
      linkState := map[];
      alive := map[];
      new;
      var timedOut := CheckTimeout(neighbors, now);
      assert timedOut == {} by {
        assert alive == map[hostname := now];
      }
      PurgeNothing(Installed(map[], hostname, neighbors));
    }

    /** Dijkstra followed by `_update_routing`, then the push. */
    method Recompute()
      requires hostname in linkState && Closed(linkState)
      modifies this`routingTable, routing
      ensures RoutedBy(linkState, hostname, routingTable) && routing.table == routingTable
    {
      routingTable := ComputeRoutes(linkState, hostname);
      routing.Update(routingTable);
    }

    /** `receive`: merge the alive report, drop and time out the dead, take
        in self's and the sender's links, purge the dead and recompute. */
    method Receive(source: Host, incoming: Adjacency, reported: AliveMap, neighbors: Adjacency, now: int)
      returns (timedOut: set<Host>)
      requires Valid()
      modifies this`alive, this`linkState, this`routingTable, routing
      ensures Valid()
      ensures timedOut == DeadHosts(Merged(old(alive), hostname, now, reported), now, timeout)
      ensures alive == Without(Merged(old(alive), hostname, now, reported), timedOut)
      ensures linkState == Reconcile(old(linkState), hostname, neighbors, source, incoming, timedOut)
      ensures hostname in linkState
      ensures RoutedBy(linkState, hostname, routingTable) && routing.table == routingTable
    {
      var merged := MergeAlive(alive, hostname, now, reported);
      timedOut := CollectDead(merged, now, timeout);
      SelfSurvivesMerge(old(alive), hostname, now, reported, timeout);
      alive := DropHosts(merged, timedOut);
      linkState := ReconcileLinks(linkState, hostname, neighbors, source, incoming, timedOut);
      Recompute();
    }

    /** `_check_timeout` without its re-arming timer: stamp self, drop and
        time out the dead, refresh self's links, purge and recompute. */
    method CheckTimeout(neighbors: Adjacency, now: int) returns (timedOut: set<Host>)
      requires Valid()
      modifies this, routing
      ensures Valid()
      ensures timedOut == DeadHosts(old(alive)[hostname := now], now, timeout)
      ensures alive == Without(old(alive)[hostname := now], timedOut)
      ensures linkState == Purge(Installed(old(linkState), hostname, neighbors), timedOut)
      ensures hostname in linkState
      ensures RoutedBy(linkState, hostname, routingTable) && routing.table == routingTable
    {
      var stamped := alive[hostname := now];
      timedOut := CollectDead(stamped, now, timeout);
      alive := DropHosts(stamped, timedOut);
      var ls := Install(linkState, hostname, neighbors);
      ls := PurgeDead(ls, timedOut);
      PurgedInstall(linkState, hostname, neighbors, timedOut);
      linkState := ls;
      Recompute();
    }
  }

  // ---------------------------------------------------------------------
  // Centralized link state
  // ---------------------------------------------------------------------

  class CentralizedMember {
    const hostname: Host
    const central: Host
    const routing: RoutingTable
    var routingTable: RouteMap
    var linkState: LinkStateMap

    /** A member's `_check_timeout` is a no-op, so construction only sets
        the fields. */
    constructor(central: Host, hostname: Host, routing: RoutingTable)
      ensures this.central == central && this.hostname == hostname && this.routing == routing
      ensures routingTable == SelfRoute(hostname) && linkState == map[]
    {
      this.central := central;
      this.hostname := hostname;
      this.routing := routing;
      routingTable := SelfRoute(hostname);
      linkState := map[];
    }

    /** `receive`: read the link cost to the controller (KeyError when the
        controller is not a neighbour, before anything changes), time out
        the reported dead that are neighbours, adopt the controller's
        database, route by it, and always reach the controller over the
        direct link. A database without self makes Dijkstra raise KeyError
        once it has been adopted. */
    method Receive(dead: seq<Host>, link: LinkStateMap, neighbors: Adjacency)
      returns (timedOut: set<Host>, r: Result<()>)
      requires Closed(link)
      modifies this, routing
      ensures r.Success? <==> central in neighbors && hostname in link
      ensures r.Failure? ==> r.error == KeyError
      ensures central !in neighbors ==>
        && timedOut == {} && linkState == old(linkState)
        && routingTable == old(routingTable) && routing.table == old(routing.table)
      ensures central in neighbors ==>
        && timedOut == (set h | h in dead && h in neighbors)
        && linkState == link
      ensures r.Failure? ==> routingTable == old(routingTable) && routing.table == old(routing.table)
      ensures r.Success? ==>
        && (exists rt ::
              && RoutedBy(link, hostname, rt)
              && routingTable == rt[central := RouteEntry(Some(central), neighbors[central])])
        && routing.table == routingTable
        && routingTable[central] == RouteEntry(Some(central), neighbors[central])
    {
      if central !in neighbors {
        return {}, Failure(KeyError);
      }
      var centralCost := neighbors[central];
      timedOut := {};
      var i := 0;
      while i < |dead|
        invariant 0 <= i <= |dead|
        invariant timedOut == set h | h in dead[..i] && h in neighbors
      {
        if dead[i] in neighbors {
          timedOut := timedOut + {dead[i]};
        }
        assert dead[..i + 1] == dead[..i] + [dead[i]];
        i := i + 1;
      }
      assert dead[..i] == dead;
      linkState := link;
      if hostname !in link {
        return timedOut, Failure(KeyError);
      }
      var rt := ComputeRoutes(link, hostname);
      routingTable := rt[central := RouteEntry(Some(central), centralCost)];
      routing.Update(routingTable);
      r := Success(());
    }
  }

  class CentralizedController {
    const hostname: Host
    const timeout: int
    var alive: AliveMap
    var linkState: LinkStateMap

    /** The controller's database is closed and never holds the controller
        itself. */
    ghost predicate Valid()
      reads this
    {
      Closed(linkState) && hostname !in linkState
    }

    constructor(hostname: Host, timeout: int)
      ensures Valid()
      ensures this.hostname == hostname && this.timeout == timeout
      ensures alive == map[] && linkState == map[]
    {
      this.hostname := hostname;
      this.timeout := timeout;
      alive := map[];
      linkState := map[];
    }

    /** `receive`: stamp the sender, take in its links, and purge the
        controller and every timed-out host. The alive table keeps its dead
        entries. */
    method Receive(src: Host, incoming: Adjacency, now: int) returns (timedOut: set<Host>)
      requires Valid()
      modifies this
      ensures Valid()
      ensures alive == old(alive)[src := now]
      ensures timedOut == DeadHosts(alive, now, timeout)
      ensures linkState == Purge(Installed(old(linkState), src, incoming), timedOut + {hostname})
      ensures forall x :: x in linkState ==> x !in timedOut && x != hostname
      ensures forall x, v :: x in linkState && v in linkState[x] ==> v !in timedOut && v != hostname
    {
      alive := alive[src := now];
      timedOut := CollectDead(alive, now, timeout);
      var ls := Install(linkState, src, incoming);
      ls := PurgeDead(ls, timedOut + {hostname});
      PurgedInstall(linkState, src, incoming, timedOut + {hostname});
      linkState := ls;
    }

    /** The decision part of `run`: the hosts heard from within the timeout
        receive the database and the dead list; the rest are the dead. */
    method Run(now: int) returns (recipients: set<Host>, dead: set<Host>, link: LinkStateMap)
      ensures recipients == AliveHosts(alive, now, timeout)
      ensures dead == DeadHosts(alive, now, timeout)
      ensures recipients + dead == alive.Keys && recipients * dead == {}
      ensures link == linkState
    {
      recipients := AliveHosts(alive, now, timeout);
      dead := alive.Keys - recipients;
      AliveDeadPartition(alive, now, timeout);
      link := linkState;
    }
  }

  // ---------------------------------------------------------------------
  // The neighbour-table observer (Algorithm._neighbor_update)
  // ---------------------------------------------------------------------

  /** The direct routes a neighbour table implies: one per neighbour whose
      cost is known (not -1). */
  function DirectRoutes(neighbors: Adjacency): RouteMap
  {
    map h | h in neighbors && neighbors[h] != -1 :: RouteEntry(Some(h), neighbors[h])
  }

  /** Some neighbour has a known cost, so the observer reaches `update_one`. */
  ghost predicate ReachesUpdateOne(neighbors: Adjacency)
  {
    exists h :: h in neighbors && neighbors[h] != -1
  }

  /** `_neighbor_update` as written: it stores the first direct route and
      then calls `update_one`, which the routing model does not define, so
      AttributeError ends the loop and escapes into the neighbour table's
      notification. */
  method NeighborUpdateAsWritten(rt: RouteMap, neighbors: Adjacency)
    returns (next: RouteMap, r: Result<()>)
    ensures r.Failure? <==> ReachesUpdateOne(neighbors)
    ensures r.Failure? ==>
      && r.error == AttributeError
      && exists h :: h in neighbors && neighbors[h] != -1 && next == rt[h := RouteEntry(Some(h), neighbors[h])]
    ensures r.Success? ==> next == rt
  {
    var todo := neighbors.Keys;
    while todo != {}
      invariant todo <= neighbors.Keys
      invariant forall h :: h in neighbors && h !in todo ==> neighbors[h] == -1
      decreases todo
    {
      var h :| h in todo;
      if neighbors[h] != -1 {
        next := rt[h := RouteEntry(Some(h), neighbors[h])];
        return next, Failure(AttributeError);
      }
      todo := todo - {h};
    }
    return rt, Success(());
  }

  /** Any table with one real link makes the observer fail. */
  lemma NeighborUpdateFailsOnOneLink(h: Host, cost: int)
    requires cost != -1
    ensures ReachesUpdateOne(map[h := cost])
  {
    assert h in map[h := cost];
  }

  /** `_neighbor_update` as intended, with `update_one(d, n, c)` setting the
      model's entry for `d` to `(n, c)`: both the algorithm's table and the
      model gain every direct route and keep everything else. */
  method NeighborUpdate(rt: RouteMap, model: RouteMap, neighbors: Adjacency)
    returns (next: RouteMap, nextModel: RouteMap)
    ensures next.Keys == rt.Keys + DirectRoutes(neighbors).Keys
    ensures nextModel.Keys == model.Keys + DirectRoutes(neighbors).Keys
    ensures forall h :: h in neighbors && neighbors[h] != -1 ==>
      next[h] == RouteEntry(Some(h), neighbors[h]) && nextModel[h] == RouteEntry(Some(h), neighbors[h])
    ensures forall d :: d in rt && d !in DirectRoutes(neighbors) ==> next[d] == rt[d]
    ensures forall d :: d in model && d !in DirectRoutes(neighbors) ==> nextModel[d] == model[d]
  {
    next, nextModel := rt, model;
    var todo := neighbors.Keys;
    while todo != {}
      invariant todo <= neighbors.Keys
      invariant forall d :: d in next <==> d in rt || (d in neighbors && d !in todo && neighbors[d] != -1)
      invariant forall d :: d in nextModel <==> d in model || (d in neighbors && d !in todo && neighbors[d] != -1)
      invariant forall h :: h in neighbors && h !in todo && neighbors[h] != -1 ==>
        next[h] == RouteEntry(Some(h), neighbors[h]) && nextModel[h] == RouteEntry(Some(h), neighbors[h])
      invariant forall d :: d in rt && (d !in DirectRoutes(neighbors) || d in todo) ==> next[d] == rt[d]
      invariant forall d :: d in model && (d !in DirectRoutes(neighbors) || d in todo) ==> nextModel[d] == model[d]
      decreases todo
    {
      var h :| h in todo;
      if neighbors[h] != -1 {
        next := next[h := RouteEntry(Some(h), neighbors[h])];
        nextModel := nextModel[h := RouteEntry(Some(h), neighbors[h])];
      }
      todo := todo - {h};
    }
  }
}
