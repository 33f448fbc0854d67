/** Liveness bookkeeping and link-state reconciliation shared by every
    link-state and distance-vector variant: the alive-table merge, the dead
    set, and the installation and purge of adjacency lists in the
    link-state database. */
module Liveness {
  import opened Common

  // ---------------------------------------------------------------------
  // The alive table (src/routing/algorithm.py:193-209, 293-304)
  // ---------------------------------------------------------------------

  /** The alive table after stamping self with `now` and keeping, for every
      host the peer reports, the later of the local and reported times. */
  function Merged(alive: AliveMap, self: Host, now: int, incoming: AliveMap): (r: AliveMap)
    ensures r.Keys == alive.Keys + incoming.Keys + {self}
  {
    var base := alive[self := now];
    map h | h in base.Keys + incoming.Keys ::
      if h in incoming && (h !in base || incoming[h] > base[h]) then incoming[h] else base[h]
  }

  /** The merge keeps the maximum: every entry is one of the two candidate
      timestamps and is at least as late as each of them. */
  lemma MergedIsLatest(alive: AliveMap, self: Host, now: int, incoming: AliveMap, h: Host)
    requires h in Merged(alive, self, now, incoming)
    ensures var r := Merged(alive, self, now, incoming);
      && (h == self ==> r[h] >= now)
      && (h != self && h in alive ==> r[h] >= alive[h])
      && (h in incoming ==> r[h] >= incoming[h])
      && (|| (h == self && r[h] == now)
          || (h != self && h in alive && r[h] == alive[h])
          || (h in incoming && r[h] == incoming[h]))
  {
  }

  /** Merging the same report twice changes nothing. */
  lemma MergeIdempotent(alive: AliveMap, self: Host, now: int, incoming: AliveMap)
    ensures Merged(Merged(alive, self, now, incoming), self, now, incoming)
         == Merged(alive, self, now, incoming)
  {
    var r := Merged(alive, self, now, incoming);
    var r2 := Merged(r, self, now, incoming);
    assert r2.Keys == r.Keys;
    forall h | h in r
      ensures r2[h] == r[h]
    {
      MergedIsLatest(alive, self, now, incoming, h);
      MergedIsLatest(r, self, now, incoming, h);
    }
  }

  /** The loop that stamps self and folds the reported times in. */
  method MergeAlive(alive: AliveMap, self: Host, now: int, incoming: AliveMap) returns (r: AliveMap)
    ensures r == Merged(alive, self, now, incoming)
  {
    r := alive[self := now];
    ghost var base := r;
    var todo := incoming.Keys;
    while todo != {}
      invariant todo <= incoming.Keys
      invariant r.Keys == base.Keys + (incoming.Keys - todo)
      invariant forall h :: h in r ==>
        r[h] == if h in incoming && h !in todo && (h !in base || incoming[h] > base[h])
                then incoming[h] else base[h]
      decreases todo
    {
      var h :| h in todo;
      if h !in r || incoming[h] > r[h] {
        r := r[h := incoming[h]];
      }
      todo := todo - {h};
    }
  }

  /** Hosts last seen more than `timeout` seconds before `now`. */
  function DeadHosts(alive: AliveMap, now: int, timeout: int): (dead: set<Host>)
    ensures dead <= alive.Keys
  {
    set h | h in alive && now - alive[h] > timeout
  }

  /** Hosts seen within the last `timeout` seconds. */
  function AliveHosts(alive: AliveMap, now: int, timeout: int): (live: set<Host>)
    ensures live <= alive.Keys
  {
    set h | h in alive && now - alive[h] <= timeout
  }

  /** Every known host is exactly one of alive and dead. */
  lemma AliveDeadPartition(alive: AliveMap, now: int, timeout: int)
    ensures AliveHosts(alive, now, timeout) + DeadHosts(alive, now, timeout) == alive.Keys
    ensures AliveHosts(alive, now, timeout) * DeadHosts(alive, now, timeout) == {}
  {
  }

  /** A host stamped at `now` or later is never dead under a non-negative
      timeout; in particular self, right after the merge. */
  lemma FreshNotDead(alive: AliveMap, now: int, timeout: int, h: Host)
    requires h in alive && alive[h] >= now && timeout >= 0
    ensures h !in DeadHosts(alive, now, timeout) && h in AliveHosts(alive, now, timeout)
  {
  }

  lemma SelfSurvivesMerge(alive: AliveMap, self: Host, now: int, incoming: AliveMap, timeout: int)
    requires timeout >= 0
    ensures self !in DeadHosts(Merged(alive, self, now, incoming), now, timeout)
  {
    MergedIsLatest(alive, self, now, incoming, self);
  }

  /** The scan `for h in alive: if now - alive[h] > timeout: dead.append(h)`. */
  method CollectDead(alive: AliveMap, now: int, timeout: int) returns (dead: set<Host>)
    ensures dead == DeadHosts(alive, now, timeout)
  {
    dead := {};
    var todo := alive.Keys;
    while todo != {}
      invariant todo <= alive.Keys
      invariant dead == set h | h in alive && h !in todo && now - alive[h] > timeout
      decreases todo
    {
      var h :| h in todo;
      if now - alive[h] > timeout {
        dead := dead + {h};
      }
      todo := todo - {h};
    }
  }

  /** A map without the keys in `dead`: an adjacency list without its links
      to dead hosts, or an alive table after their entries are popped. */
  function Without(adj: Adjacency, dead: set<Host>): Adjacency
  {
    map k | k in adj && k !in dead :: adj[k]
  }

  /** `for h in dead: alive.pop(h)`. */
  method DropHosts(alive: AliveMap, dead: set<Host>) returns (r: AliveMap)
    ensures r == Without(alive, dead)
  {
    r := alive;
    var todo := dead;
    while todo != {}
      invariant todo <= dead
      invariant r.Keys == alive.Keys - (dead - todo)
      invariant forall h :: h in r ==> r[h] == alive[h]
      decreases todo
    {
      var h :| h in todo;
      if h in r {
        r := map k | k in r && k != h :: r[k];
      }
      todo := todo - {h};
    }
    assert r.Keys == Without(alive, dead).Keys;
  }

  // ---------------------------------------------------------------------
  // Link-state installation and purge (src/routing/algorithm.py:308-334,
  // 471-489, 579-593; router.py:506-524, 729-742)
  // ---------------------------------------------------------------------

  /** `ls[h] = adj`, then an empty placeholder for every host `adj` names
      that is not yet a key. */
  function Installed(ls: LinkStateMap, h: Host, adj: Adjacency): (r: LinkStateMap)
    ensures r.Keys == ls.Keys + {h} + adj.Keys
  {
    var s := ls[h := adj];
    map x | x in s.Keys + adj.Keys :: if x in s then s[x] else map[]
  }

  /** Installing keeps every other host's list, gives `h` exactly `adj`,
      and gives new hosts an empty list. */
  lemma InstalledEntries(ls: LinkStateMap, h: Host, adj: Adjacency, x: Host)
    requires x in Installed(ls, h, adj)
    ensures Installed(ls, h, adj)[x] ==
      if x == h then adj else if x in ls then ls[x] else map[]
  {
  }

  /** Installing an adjacency list keeps the database closed. */
  lemma InstalledClosed(ls: LinkStateMap, h: Host, adj: Adjacency)
    requires Closed(ls)
    ensures Closed(Installed(ls, h, adj))
  {
    var r := Installed(ls, h, adj);
    forall x, v | x in r && v in r[x]
      ensures v in r
    {
      InstalledEntries(ls, h, adj, x);
    }
  }

  /** The loop that stores `adj` under `h` and adds the placeholders. */
  method Install(ls: LinkStateMap, h: Host, adj: Adjacency) returns (r: LinkStateMap)
    ensures r == Installed(ls, h, adj)
  {
    r := ls[h := adj];
    ghost var s := r;
    var todo := adj.Keys;
    while todo != {}
      invariant todo <= adj.Keys
      invariant r.Keys == s.Keys + (adj.Keys - todo)
      invariant forall x :: x in r ==> r[x] == if x in s then s[x] else map[]
      decreases todo
    {
      var x :| x in todo;
      if x !in r {
        r := r[x := map[]];
      }
      todo := todo - {x};
    }
  }

  /** The database without the keys in `dead` and without every link to a
      host in `dead`. */
  function Purge(ls: LinkStateMap, dead: set<Host>): (r: LinkStateMap)
    ensures r.Keys == ls.Keys - dead
  {
    map h | h in ls && h !in dead :: Without(ls[h], dead)
  }

  /** After the purge no dead host is a key or a link target, every
      surviving link keeps its cost, and the database stays closed. */
  lemma PurgeRemovesDead(ls: LinkStateMap, dead: set<Host>)
    ensures forall h :: h in Purge(ls, dead) ==> h !in dead && h in ls
    ensures forall h, v :: h in Purge(ls, dead) && v in Purge(ls, dead)[h] ==>
      v !in dead && v in ls[h] && Purge(ls, dead)[h][v] == ls[h][v]
    ensures forall h, v :: h in ls && h !in dead && v in ls[h] && v !in dead ==>
      v in Purge(ls, dead)[h]
    ensures Closed(ls) ==> Closed(Purge(ls, dead))
  {
  }

  /** Purging nothing changes nothing. */
  lemma PurgeNothing(ls: LinkStateMap)
    ensures Purge(ls, {}) == ls
  {
    forall h | h in ls
      ensures Without(ls[h], {}) == ls[h]
    {
    }
  }

  /** Installing `adj` under `h` and then purging `dead` leaves a closed
      database with no dead host anywhere in it, in which `h`, unless dead,
      links to exactly its surviving neighbours. */
  lemma PurgedInstall(ls: LinkStateMap, h: Host, adj: Adjacency, dead: set<Host>)
    requires Closed(ls)
    ensures var r := Purge(Installed(ls, h, adj), dead);
      && Closed(r)
      && (forall x :: x in r ==> x !in dead)
      && (forall x, v :: x in r && v in r[x] ==> v !in dead)
      && (h !in dead ==> h in r && r[h] == Without(adj, dead))
  {
    InstalledClosed(ls, h, adj);
    PurgeRemovesDead(Installed(ls, h, adj), dead);
    if h !in dead {
      InstalledEntries(ls, h, adj, h);
    }
  }

  /** The two loops: pop every dead key, then rebuild each list without the
      dead hosts. */
  method PurgeDead(ls: LinkStateMap, dead: set<Host>) returns (r: LinkStateMap)
    ensures r == Purge(ls, dead)
  {
    r := ls;
    var todo := dead;
    while todo != {}
      invariant todo <= dead
      invariant r.Keys == ls.Keys - (dead - todo)
      invariant forall h :: h in r ==> r[h] == ls[h]
      decreases todo
    {
      var h :| h in todo;
      if h in r {
        r := map k | k in r && k != h :: r[k];
      }
      todo := todo - {h};
    }
    var keys := r.Keys;
    todo := keys;
    while todo != {}
      invariant todo <= keys && r.Keys == keys
      invariant keys == ls.Keys - dead
      invariant forall h :: h in r ==> r[h] == if h in todo then ls[h] else Without(ls[h], dead)
      decreases todo
    {
      var h :| h in todo;
      r := r[h := Without(r[h], dead)];
      todo := todo - {h};
    }
  }

  /** The database a link-state `receive` builds in both revisions: self's
      links, then the sender's, each with placeholders, and every dead host
      purged. */
  function Reconcile(ls: LinkStateMap, self: Host, neighbors: Adjacency,
                     source: Host, incoming: Adjacency, dead: set<Host>): LinkStateMap
  {
    Purge(Installed(Installed(ls, self, neighbors), source, incoming), dead)
  }

  /** Reconciling keeps the database closed and free of dead hosts; the
      sender's surviving links are exactly what it reported, and self's are
      the live part of its neighbour table unless the sender claims to be
      self. */
  lemma ReconcileFacts(ls: LinkStateMap, self: Host, neighbors: Adjacency,
                       source: Host, incoming: Adjacency, dead: set<Host>)
    requires Closed(ls)
    ensures var r := Reconcile(ls, self, neighbors, source, incoming, dead);
      && Closed(r)
      && (forall x :: x in r ==> x !in dead)
      && (forall x, v :: x in r && v in r[x] ==> v !in dead)
      && (source !in dead ==> source in r && r[source] == Without(incoming, dead))
      && (self !in dead ==> self in r)
      && (self !in dead && source != self ==> r[self] == Without(neighbors, dead))
  {
    var s := Installed(ls, self, neighbors);
    InstalledClosed(ls, self, neighbors);
    PurgedInstall(s, source, incoming, dead);
    InstalledEntries(ls, self, neighbors, self);
    if self !in dead {
      assert self in Installed(s, source, incoming);
      if source != self {
        InstalledEntries(s, source, incoming, self);
      }
    }
  }

  /** The reconciliation as the receive handlers perform it: install the
      two adjacency lists, then purge the dead. */
  method ReconcileLinks(ls: LinkStateMap, self: Host, neighbors: Adjacency,
                        source: Host, incoming: Adjacency, dead: set<Host>) returns (r: LinkStateMap)
    requires Closed(ls) && self !in dead
    ensures r == Reconcile(ls, self, neighbors, source, incoming, dead)
    ensures Closed(r) && self in r
  {
    r := Install(ls, self, neighbors);
    r := Install(r, source, incoming);
    r := PurgeDead(r, dead);
    ReconcileFacts(ls, self, neighbors, source, incoming, dead);
  }
}
