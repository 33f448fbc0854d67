/** The link-state shortest-path engine: Dijkstra over the link-state
    database followed by the rebuild of the routing table from the `prev`
    table. The same procedure appears twice in the repository, in
    router.py (`RouterCtrl._dijkstra`, `_update_routing`) and in
    src/routing/algorithm.py (`LS._dijkstra`, `LS._update_routing`). */
module ShortestPaths {
  import opened Common

  /** One row of the `prev` table: the predecessor on the best known path
      and that path's cost, or `Unknown` when no path has been found. */
  datatype PrevEntry = PrevEntry(prev: Option<Host>, cost: int)

  type PrevTable = map<Host, PrevEntry>

  /** The sentinel cost the source uses for "not reached yet". */
  const Unknown: int := -1

  // ---------------------------------------------------------------------
  // Properties of a prev table
  // ---------------------------------------------------------------------

  /** Following `prev` entries from any host that has one strictly
      decreases `rank` until the walk reaches a host whose `prev` is self;
      `rank` is the order in which Dijkstra visited the hosts, self first. */
  ghost predicate Tree(prev: PrevTable, self: Host, rank: map<Host, nat>)
  {
    && self in prev && self in rank && rank[self] == 0
    && (prev[self].prev.Some? ==> prev[self].prev.value == self)
    && forall v :: v in prev && v != self && prev[v].prev.Some? ==>
         && v in rank
         && prev[v].prev.value in prev
         && prev[v].prev.value in rank
         && rank[prev[v].prev.value] < rank[v]
         && (prev[v].prev.value == self || prev[prev[v].prev.value].prev.Some?)
  }

  /** Every `prev` entry follows a link of the database. */
  ghost predicate EdgesToPrev(ls: LinkStateMap, prev: PrevTable)
  {
    forall v :: v in prev && prev[v].prev.Some? ==>
      prev[v].prev.value in ls && v in ls[prev[v].prev.value]
  }

  /** A host's cost is its predecessor's cost plus the link between them. */
  ghost predicate Consistent(ls: LinkStateMap, prev: PrevTable)
  {
    forall v :: v in prev && prev[v].prev.Some? && prev[v].prev.value in prev
                && prev[v].prev.value in ls && v in ls[prev[v].prev.value] ==>
      prev[v].cost == prev[prev[v].prev.value].cost + ls[prev[v].prev.value][v]
  }

  /** Reached hosts are exactly those with a predecessor (and self), and no
      link out of a reached host can lower the cost of its target. */
  ghost predicate Settled(ls: LinkStateMap, self: Host, prev: PrevTable)
  {
    && (forall v :: v in prev && v != self ==> (prev[v].cost == Unknown <==> prev[v].prev.None?))
    && (forall u, v :: u in prev && prev[u].cost != Unknown && u in ls && v in ls[u] ==>
          v in prev && prev[v].cost != Unknown && prev[v].cost <= prev[u].cost + ls[u][v])
  }

  /** The conditions under which Dijkstra computes shortest paths: no
      negative link and no link from self to itself (such a link would
      overwrite self's own row while the table is seeded). */
  ghost predicate Wellformed(ls: LinkStateMap, self: Host)
    requires self in ls
  {
    NonNegative(ls) && self !in ls[self]
  }

  /** Everything `Dijkstra` guarantees about its result. */
  ghost predicate DijkstraResult(ls: LinkStateMap, self: Host, prev: PrevTable, rank: map<Host, nat>)
    requires self in ls
  {
    && prev.Keys == ls.Keys
    && Tree(prev, self, rank)
    && EdgesToPrev(ls, prev)
    && (self !in ls[self] ==> prev[self] == PrevEntry(None, 0))
    && (self !in ls[self] ==> Consistent(ls, prev))
    && (Wellformed(ls, self) ==> Settled(ls, self, prev))
  }

  // ---------------------------------------------------------------------
  // Dijkstra (src/routing/algorithm.py:374-434, router.py:538-599)
  // ---------------------------------------------------------------------

  /** The seeded table: self at cost 0, every direct link of self with self
      as predecessor, every other host unknown. */
  function InitialPrev(ls: LinkStateMap, self: Host): (p: PrevTable)
    requires self in ls
  {
    map h | h in ls.Keys + ls[self].Keys ::
      if h in ls[self] then PrevEntry(Some(self), ls[self][h])
      else if h == self then PrevEntry(None, 0)
      else PrevEntry(None, Unknown)
  }

  /** The relaxation test: `v` is new, or unvisited and unknown or dearer. */
  predicate Improves(prev: PrevTable, visited: seq<Host>, v: Host, c: int)
  {
    v !in prev || (v !in visited && (prev[v].cost == Unknown || prev[v].cost > c))
  }

  /** The table after relaxing every link out of `w`, reached at cost `base`. */
  function RelaxStep(ls: LinkStateMap, prev: PrevTable, visited: seq<Host>, w: Host, base: int): PrevTable
    requires w in ls
  {
    map v | v in prev.Keys + ls[w].Keys ::
      if v in ls[w] && Improves(prev, visited, v, base + ls[w][v])
      then PrevEntry(Some(w), base + ls[w][v])
      else prev[v]
  }

  /** The scan for the unvisited host of least known cost. */
  method FindNearest(prev: PrevTable, visited: seq<Host>) returns (nearest: Option<Host>)
    ensures nearest.None? ==>
      forall h :: h in prev && h !in visited ==> prev[h].cost == Unknown
    ensures nearest.Some? ==>
      nearest.value in prev && nearest.value !in visited && prev[nearest.value].cost != Unknown
    ensures nearest.Some? ==>
      forall h :: h in prev && h !in visited && prev[h].cost != Unknown ==>
        prev[nearest.value].cost <= prev[h].cost
  {
    nearest := None;
    var nearestCost := Unknown;
    var scan := prev.Keys;
    while scan != {}
      invariant scan <= prev.Keys
      invariant nearest.None? ==> nearestCost == Unknown
      invariant nearest.None? ==>
        forall h :: h in prev && h !in scan && h !in visited ==> prev[h].cost == Unknown
      invariant nearest.Some? ==>
        && nearest.value in prev && nearest.value !in visited
        && prev[nearest.value].cost == nearestCost && nearestCost != Unknown
      invariant nearest.Some? ==>
        forall h :: h in prev && h !in scan && h !in visited && prev[h].cost != Unknown ==>
          nearestCost <= prev[h].cost
      decreases scan
    {
      var h :| h in scan;
      if h !in visited && prev[h].cost != Unknown && (nearestCost == Unknown || prev[h].cost < nearestCost) {
        nearest := Some(h);
        nearestCost := prev[h].cost;
      }
      scan := scan - {h};
    }
  }

  /** The relaxation loop over `w`'s links. */
  method Relax(ls: LinkStateMap, prev: PrevTable, visited: seq<Host>, w: Host, base: int)
    returns (next: PrevTable)
    requires w in ls && w in visited
    ensures next == RelaxStep(ls, prev, visited, w, base)
  {
    next := prev;
    var todo := ls[w].Keys;
    while todo != {}
      invariant todo <= ls[w].Keys
      invariant next.Keys == prev.Keys + (ls[w].Keys - todo)
      invariant forall v :: v in next ==>
        next[v] == if v in ls[w] && v !in todo && Improves(prev, visited, v, base + ls[w][v])
                   then PrevEntry(Some(w), base + ls[w][v])
                   else prev[v]
      decreases todo
    {
      var v :| v in todo;
      if v !in next || (v !in visited && (next[v].cost == Unknown || next[v].cost > base + ls[w][v])) {
        next := next[v := PrevEntry(Some(w), base + ls[w][v])];
      }
      todo := todo - {v};
    }
  }

  // ---------------------------------------------------------------------
  // The loop invariant of Dijkstra, piece by piece
  // ---------------------------------------------------------------------

  /** How one relaxation step changes the table: every row stays, or a row
      outside `d` is redirected through `w` at a strictly lower cost. */
  ghost predicate Updated(ls: LinkStateMap, p: PrevTable, q: PrevTable, w: Host, base: int, d: set<Host>)
    requires w in ls
  {
    && q.Keys == p.Keys
    && (forall v :: v in q ==>
         || q[v] == p[v]
         || (&& v in ls[w] && v !in d
             && q[v] == PrevEntry(Some(w), base + ls[w][v])
             && (p[v].cost == Unknown || p[v].cost > base + ls[w][v])))
    && (forall v :: v in p && v in ls[w] && v !in d ==>
         q[v] == if p[v].cost == Unknown || p[v].cost > base + ls[w][v]
                 then PrevEntry(Some(w), base + ls[w][v]) else p[v])
  }

  lemma RelaxRows(ls: LinkStateMap, p: PrevTable, visited: seq<Host>, d: set<Host>, w: Host, base: int)
    requires w in ls && Closed(ls) && p.Keys == ls.Keys
    requires forall x :: x in visited <==> x in d
    ensures Updated(ls, p, RelaxStep(ls, p, visited, w, base), w, base, d)
  {
  }

  /** Only visited hosts are predecessors. */
  ghost predicate Frozen(p: PrevTable, d: set<Host>)
  {
    forall v :: v in p && p[v].prev.Some? ==> p[v].prev.value in d
  }

  /** Every reached host other than self has a predecessor. */
  ghost predicate Reached(p: PrevTable, self: Host)
  {
    forall v :: v in p && v != self && p[v].cost != Unknown ==> p[v].prev.Some?
  }

  /** Every visited host other than self is reached. */
  ghost predicate DoneKnown(p: PrevTable, self: Host, d: set<Host>)
  {
    forall u :: u in d && u != self ==> u in p && p[u].cost != Unknown
  }

  /** Visited hosts carry ranks below `n`. */
  ghost predicate RankBound(rank: map<Host, nat>, d: set<Host>, n: nat)
  {
    forall u :: u in d ==> u in rank && rank[u] < n
  }

  /** The rank map after visiting `w` as the `n`-th host and relaxing its links. */
  ghost function NextRank(q: PrevTable, rank: map<Host, nat>, w: Host, n: nat): map<Host, nat>
    requires q.Keys <= rank.Keys
  {
    map v | v in q :: if v != w && q[v].prev == Some(w) then n + 1 else if v == w then n else rank[v]
  }

  lemma TreeStep(ls: LinkStateMap, self: Host, p: PrevTable, q: PrevTable, rank: map<Host, nat>,
                 d: set<Host>, w: Host, base: int, n: nat)
    requires w in ls && w in p && w !in d && self in d && p[w].cost != Unknown
    requires Tree(p, self, rank) && rank.Keys == p.Keys
    requires Frozen(p, d) && RankBound(rank, d, n) && Reached(p, self)
    requires Updated(ls, p, q, w, base, d + {w})
    ensures Tree(q, self, NextRank(q, rank, w, n))
    ensures RankBound(NextRank(q, rank, w, n), d + {w}, n + 1)
    ensures Frozen(q, d + {w})
  {
    var r := NextRank(q, rank, w, n);
    assert w != self;
    assert q[self] == p[self];
    forall v | v in q && v != self && q[v].prev.Some?
      ensures && v in r && q[v].prev.value in q && q[v].prev.value in r
              && r[q[v].prev.value] < r[v]
              && (q[v].prev.value == self || q[q[v].prev.value].prev.Some?)
    {
      var x := q[v].prev.value;
      if q[v] != p[v] {
        assert q[w] == p[w];
      } else {
        assert x in d && q[x] == p[x];
      }
    }
    forall u | u in d + {w} ensures u in r && r[u] < n + 1 {
      if u != w {
        assert q[u] == p[u];
      }
    }
  }

  lemma ConsistentStep(ls: LinkStateMap, p: PrevTable, q: PrevTable, d: set<Host>, w: Host)
    requires w in ls && w in p && w !in d
    requires Consistent(ls, p) && Frozen(p, d)
    requires Updated(ls, p, q, w, p[w].cost, d + {w})
    ensures Consistent(ls, q)
  {
    forall v | v in q && q[v].prev.Some? && q[v].prev.value in q
               && q[v].prev.value in ls && v in ls[q[v].prev.value]
      ensures q[v].cost == q[q[v].prev.value].cost + ls[q[v].prev.value][v]
    {
      var x := q[v].prev.value;
      if q[v] == p[v] {
        assert x in d;
      }
      assert q[x] == p[x];
    }
  }

  lemma SmallStep(ls: LinkStateMap, self: Host, p: PrevTable, q: PrevTable, d: set<Host>, w: Host, base: int)
    requires w in ls && w in p && w !in d && self in d && self in p && p[w].cost != Unknown
    requires EdgesToPrev(ls, p) && Reached(p, self) && DoneKnown(p, self, d)
    requires Updated(ls, p, q, w, base, d + {w})
    ensures EdgesToPrev(ls, q) && Reached(q, self) && DoneKnown(q, self, d + {w})
    ensures q[self] == p[self]
  {
  }

  /** Costs are -1 or non-negative, and -1 means no predecessor. */
  ghost predicate Signs(p: PrevTable, self: Host)
  {
    && (forall v :: v in p && v != self ==> (p[v].cost == Unknown <==> p[v].prev.None?))
    && (forall v :: v in p ==> p[v].cost == Unknown || p[v].cost >= 0)
  }

  /** Every link out of a visited host has been relaxed. */
  ghost predicate DoneRelaxed(ls: LinkStateMap, p: PrevTable, d: set<Host>)
  {
    forall u, v :: u in d && u in ls && v in ls[u] ==>
      v in p && u in p && p[v].cost != Unknown && p[v].cost <= p[u].cost + ls[u][v]
  }

  /** No visited host is dearer than an unvisited reached one. */
  ghost predicate DoneCheaper(p: PrevTable, d: set<Host>)
  {
    forall u, x :: u in d && u in p && x in p && x !in d && p[x].cost != Unknown ==>
      p[u].cost <= p[x].cost
  }

  lemma SignsStep(ls: LinkStateMap, self: Host, p: PrevTable, q: PrevTable, d: set<Host>, w: Host)
    requires w in ls && w in p && w !in d && p[w].cost != Unknown && NonNegative(ls)
    requires Signs(p, self) && self in d
    requires Updated(ls, p, q, w, p[w].cost, d + {w})
    ensures Signs(q, self)
  {
  }

  lemma RelaxedStep(ls: LinkStateMap, self: Host, p: PrevTable, q: PrevTable, d: set<Host>, w: Host)
    requires w in ls && w in p && w !in d && p[w].cost != Unknown && NonNegative(ls)
    requires Closed(ls) && p.Keys == ls.Keys
    requires self in d && self in p && p[self].cost == 0
    requires Signs(p, self) && DoneKnown(p, self, d) && DoneRelaxed(ls, p, d) && DoneCheaper(p, d)
    requires forall h :: h in p && h !in d && p[h].cost != Unknown ==> p[w].cost <= p[h].cost
    requires Updated(ls, p, q, w, p[w].cost, d + {w})
    ensures DoneRelaxed(ls, q, d + {w})
  {
    var b := p[w].cost;
    forall u, v | u in d + {w} && u in ls && v in ls[u]
      ensures v in q && u in q && q[v].cost != Unknown && q[v].cost <= q[u].cost + ls[u][v]
    {
      assert ls[u][v] >= 0;
      if u == w {
        assert q[w] == p[w];
        assert v in q;
        if q[v] == p[v] {
          if v in d {
            assert p[v].cost != Unknown;
            assert p[v].cost <= b;
          } else if v != w {
            assert v in ls[w];
          }
        }
      } else {
        assert q[u] == p[u];
        assert p[v].cost != Unknown && p[v].cost <= p[u].cost + ls[u][v];
      }
    }
  }

  lemma CheaperStep(ls: LinkStateMap, self: Host, p: PrevTable, q: PrevTable, d: set<Host>, w: Host)
    requires w in ls && w in p && w !in d && p[w].cost != Unknown && NonNegative(ls)
    requires DoneCheaper(p, d)
    requires forall h :: h in p && h !in d && p[h].cost != Unknown ==> p[w].cost <= p[h].cost
    requires Updated(ls, p, q, w, p[w].cost, d + {w})
    ensures DoneCheaper(q, d + {w})
  {
    forall u, x | u in d + {w} && u in q && x in q && x !in d + {w} && q[x].cost != Unknown
      ensures q[u].cost <= q[x].cost
    {
      assert q[u] == p[u];
      if q[x] != p[x] {
        assert ls[w][x] >= 0;
      }
    }
  }

  /** The whole loop invariant of Dijkstra. */
  ghost predicate DijkstraInv(ls: LinkStateMap, self: Host, prev: PrevTable, rank: map<Host, nat>,
                              visited: seq<Host>, done: set<Host>)
    requires self in ls
  {
    && prev.Keys == ls.Keys && rank.Keys == ls.Keys
    && self in done && done <= ls.Keys
    && (forall x :: x in visited <==> x in done)
    && Tree(prev, self, rank) && RankBound(rank, done, |visited|)
    && Frozen(prev, done) && EdgesToPrev(ls, prev) && Reached(prev, self)
    && DoneKnown(prev, self, done)
    && (self !in ls[self] ==> prev[self] == PrevEntry(None, 0))
    && (self !in ls[self] ==> Consistent(ls, prev))
    && (Wellformed(ls, self) ==> Signs(prev, self) && DoneRelaxed(ls, prev, done) && DoneCheaper(prev, done))
  }

  /** The rank map the first iteration starts from. */
  ghost function InitialRank(p: PrevTable, self: Host): map<Host, nat>
  {
    map h | h in p :: if h == self then 0 else 1
  }

  lemma InitTree(ls: LinkStateMap, self: Host, p: PrevTable)
    requires self in ls && Closed(ls) && p == InitialPrev(ls, self)
    ensures p.Keys == ls.Keys && Tree(p, self, InitialRank(p, self))
    ensures Frozen(p, {self}) && EdgesToPrev(ls, p) && Reached(p, self)
    ensures InitialRank(p, self).Keys == ls.Keys && RankBound(InitialRank(p, self), {self}, 1)
  {
    assert p.Keys == ls.Keys;
  }

  lemma InitConsistent(ls: LinkStateMap, self: Host, p: PrevTable)
    requires self in ls && self !in ls[self] && p == InitialPrev(ls, self)
    ensures p[self] == PrevEntry(None, 0) && Consistent(ls, p)
  {
  }

  lemma InitWellformed(ls: LinkStateMap, self: Host, p: PrevTable)
    requires self in ls && Closed(ls) && Wellformed(ls, self) && p == InitialPrev(ls, self)
    ensures Signs(p, self) && DoneRelaxed(ls, p, {self}) && DoneCheaper(p, {self})
  {
    assert p[self] == PrevEntry(None, 0);
    assert Signs(p, self);
  }

  lemma InitInv(ls: LinkStateMap, self: Host, p: PrevTable)
    requires self in ls && Closed(ls) && p == InitialPrev(ls, self)
    ensures DijkstraInv(ls, self, p, InitialRank(p, self), [self], {self})
  {
    InitTree(ls, self, p);
    if self !in ls[self] {
      InitConsistent(ls, self, p);
    }
    if Wellformed(ls, self) {
      InitWellformed(ls, self, p);
    }
    InitCombine(ls, self, p, InitialRank(p, self));
  }

  lemma InitCombine(ls: LinkStateMap, self: Host, p: PrevTable, rank: map<Host, nat>)
    requires self in ls
    requires p.Keys == ls.Keys && rank.Keys == ls.Keys && Tree(p, self, rank) && RankBound(rank, {self}, 1)
    requires Frozen(p, {self}) && EdgesToPrev(ls, p) && Reached(p, self)
    requires self !in ls[self] ==> p[self] == PrevEntry(None, 0) && Consistent(ls, p)
    requires Wellformed(ls, self) ==> Signs(p, self) && DoneRelaxed(ls, p, {self}) && DoneCheaper(p, {self})
    ensures DijkstraInv(ls, self, p, rank, [self], {self})
  {
  }

  lemma StepInv(ls: LinkStateMap, self: Host, p: PrevTable, q: PrevTable, rank: map<Host, nat>,
                visited: seq<Host>, done: set<Host>, w: Host)
    requires self in ls && Closed(ls)
    requires DijkstraInv(ls, self, p, rank, visited, done)
    requires w in p && w !in visited && p[w].cost != Unknown
    requires forall h :: h in p && h !in visited && p[h].cost != Unknown ==> p[w].cost <= p[h].cost
    requires Updated(ls, p, q, w, p[w].cost, done + {w})
    ensures DijkstraInv(ls, self, q, NextRank(q, rank, w, |visited|), visited + [w], done + {w})
  {
    var base := p[w].cost;
    TreeStep(ls, self, p, q, rank, done, w, base, |visited|);
    SmallStep(ls, self, p, q, done, w, base);
    if self !in ls[self] {
      ConsistentStep(ls, p, q, done, w);
    }
    if Wellformed(ls, self) {
      SignsStep(ls, self, p, q, done, w);
      RelaxedStep(ls, self, p, q, done, w);
      CheaperStep(ls, self, p, q, done, w);
    }
  }

  lemma FinalInv(ls: LinkStateMap, self: Host, p: PrevTable, rank: map<Host, nat>,
                 visited: seq<Host>, done: set<Host>)
    requires self in ls && Closed(ls)
    requires DijkstraInv(ls, self, p, rank, visited, done)
    requires forall h :: h in p && h !in visited ==> p[h].cost == Unknown
    ensures DijkstraResult(ls, self, p, rank)
  {
    if Wellformed(ls, self) {
      forall u, v | u in p && p[u].cost != Unknown && u in ls && v in ls[u]
        ensures v in p && p[v].cost != Unknown && p[v].cost <= p[u].cost + ls[u][v]
      {
        assert u in visited;
      }
    }
  }

  /** Dijkstra over the link-state database from `self`. The source reads
      `ls[self]` and `ls[w]` for every visited `w`: both must exist. */
  method Dijkstra(ls: LinkStateMap, self: Host) returns (prev: PrevTable, ghost rank: map<Host, nat>)
    requires self in ls && Closed(ls)
    ensures DijkstraResult(ls, self, prev, rank)
  {
    var visited := [self];
    prev := InitialPrev(ls, self);
    rank := InitialRank(prev, self);
    ghost var done := {self};
    InitInv(ls, self, prev);
    while true
      invariant DijkstraInv(ls, self, prev, rank, visited, done)
      decreases ls.Keys - done
    {
      var nearest := FindNearest(prev, visited);
      if nearest.None? {
        FinalInv(ls, self, prev, rank, visited, done);
        break;
      }
      var w := nearest.value;
      var base := prev[w].cost;
      ghost var p := prev;
      ghost var n := |visited|;
      visited := visited + [w];
      prev := Relax(ls, prev, visited, w, base);
      RelaxRows(ls, p, visited, done + {w}, w, base);
      StepInv(ls, self, p, prev, rank, visited[..n], done, w);
      rank := NextRank(prev, rank, w, n);
      done := done + {w};
    }
  }

  // ---------------------------------------------------------------------
  // The routing-table rebuild (src/routing/algorithm.py:436-462,
  // router.py:601-628)
  // ---------------------------------------------------------------------

  /** The host on `d`'s prev chain whose own `prev` is self: the first hop
      from self towards `d`. */
  ghost function FirstHop(prev: PrevTable, self: Host, rank: map<Host, nat>, d: Host): (h: Host)
    requires Tree(prev, self, rank) && d in prev && prev[d].prev.Some?
    ensures h in prev && prev[h].prev == Some(self)
    decreases rank[d]
  {
    if prev[d].prev.value == self then d
    else FirstHop(prev, self, rank, prev[d].prev.value)
  }

  /** The routing table the rebuild must produce: self at `(self, 0)`
      unless self's own row has a predecessor, and every host with a
      predecessor routed through its first hop at its `prev` cost. */
  ghost function RoutingFrom(prev: PrevTable, self: Host, rank: map<Host, nat>): RouteMap
    requires Tree(prev, self, rank)
  {
    map d | d in prev.Keys + {self} && (d == self || prev[d].prev.Some?) ::
      if d in prev && prev[d].prev.Some?
      then RouteEntry(Some(FirstHop(prev, self, rank, d)), prev[d].cost)
      else RouteEntry(Some(self), 0)
  }

  /** `_update_routing`: clear the table, put self at `(self, 0)`, and for
      every host with a predecessor walk its prev chain back to the host
      whose predecessor is self. */
  method UpdateRouting(prev: PrevTable, self: Host, ghost rank: map<Host, nat>) returns (rt: RouteMap)
    requires Tree(prev, self, rank)
    ensures rt == RoutingFrom(prev, self, rank)
    ensures rt.Keys == {self} + set d | d in prev && prev[d].prev.Some?
    ensures prev[self].prev.None? ==> rt[self] == RouteEntry(Some(self), 0)
    ensures forall d :: d in prev && prev[d].prev.Some? ==>
      rt[d].cost == prev[d].cost && rt[d].next.Some? && rt[d].next.value in prev
      && prev[rt[d].next.value].prev == Some(self)
  {
    rt := map[self := RouteEntry(Some(self), 0)];
    var todo := prev.Keys;
    while todo != {}
      invariant todo <= prev.Keys
      invariant self in rt && rt[self] == (if self !in todo && prev[self].prev.Some?
        then RouteEntry(Some(FirstHop(prev, self, rank, self)), prev[self].cost)
        else RouteEntry(Some(self), 0))
      invariant forall k :: k in rt <==> k == self || (k in prev && k !in todo && prev[k].prev.Some?)
      invariant forall d :: d in rt && d != self ==>
        rt[d] == RouteEntry(Some(FirstHop(prev, self, rank, d)), prev[d].cost)
      decreases todo
    {
      var d :| d in todo;
      todo := todo - {d};
      if prev[d].prev.Some? {
        var last := WalkToFirstHop(prev, self, rank, d);
        rt := rt[d := RouteEntry(Some(last), prev[d].cost)];
      }
    }
    assert rt.Keys == RoutingFrom(prev, self, rank).Keys;
  }

  /** The inner loop of `_update_routing`: follow `prev` from `d` until
      the host whose predecessor is self. */
  method WalkToFirstHop(prev: PrevTable, self: Host, ghost rank: map<Host, nat>, d: Host) returns (last: Host)
    requires Tree(prev, self, rank) && d in prev && prev[d].prev.Some?
    ensures last == FirstHop(prev, self, rank, d)
  {
    last := d;
    while prev[last].prev != Some(self)
      invariant last in prev && prev[last].prev.Some?
      invariant FirstHop(prev, self, rank, last) == FirstHop(prev, self, rank, d)
      decreases rank[last]
    {
      last := prev[last].prev.value;
    }
  }

  // ---------------------------------------------------------------------
  // Paths and optimality
  // ---------------------------------------------------------------------

  /** `p` is a walk along links of the database. */
  ghost predicate IsPath(ls: LinkStateMap, p: seq<Host>)
  {
    && |p| >= 1
    && forall i :: 0 <= i < |p| - 1 ==> p[i] in ls && p[i + 1] in ls[p[i]]
  }

  /** A walk from `src` to `dst`. */
  ghost predicate PathFrom(ls: LinkStateMap, src: Host, dst: Host, p: seq<Host>)
  {
    IsPath(ls, p) && p[0] == src && p[|p| - 1] == dst
  }

  /** The sum of the link costs along a walk. */
  ghost function PathCost(ls: LinkStateMap, p: seq<Host>): int
    requires IsPath(ls, p)
    decreases |p|
  {
    if |p| == 1 then 0
    else PathCost(ls, p[..|p| - 1]) + ls[p[|p| - 2]][p[|p| - 1]]
  }

  /** `c` is the length of a shortest walk from `src` to `dst`. */
  ghost predicate ShortestDistance(ls: LinkStateMap, src: Host, dst: Host, c: int)
  {
    && (exists p :: PathFrom(ls, src, dst, p) && PathCost(ls, p) == c)
    && (forall p :: PathFrom(ls, src, dst, p) ==> c <= PathCost(ls, p))
  }

  /** The prev chain from self to `d`, read forwards. */
  ghost function PrevPath(prev: PrevTable, self: Host, rank: map<Host, nat>, d: Host): (p: seq<Host>)
    requires Tree(prev, self, rank) && d in prev && (d == self || prev[d].prev.Some?)
    ensures |p| >= 1 && p[0] == self && p[|p| - 1] == d
    decreases rank[d]
  {
    if d == self then [self]
    else PrevPath(prev, self, rank, prev[d].prev.value) + [d]
  }

  /** A settled table bounds from below the cost of every walk out of self. */
  lemma {:induction false} PathCostLowerBound(ls: LinkStateMap, self: Host, prev: PrevTable, p: seq<Host>)
    requires Settled(ls, self, prev) && self in prev && prev[self].cost == 0
    requires IsPath(ls, p) && p[0] == self
    ensures p[|p| - 1] in prev && prev[p[|p| - 1]].cost != Unknown
    ensures prev[p[|p| - 1]].cost <= PathCost(ls, p)
    decreases |p|
  {
    if |p| > 1 {
      var q := p[..|p| - 1];
      assert IsPath(ls, q);
      PathCostLowerBound(ls, self, prev, q);
      assert p[|p| - 2] == q[|q| - 1];
    }
  }

  /** The prev chain is a walk whose cost is the recorded cost, and its
      second host is the first hop. */
  lemma {:induction false} PrevPathIsPath(ls: LinkStateMap, self: Host, prev: PrevTable, rank: map<Host, nat>, d: Host)
    requires Tree(prev, self, rank) && EdgesToPrev(ls, prev) && Consistent(ls, prev)
    requires prev[self] == PrevEntry(None, 0)
    requires d in prev && (d == self || prev[d].prev.Some?)
    ensures PathFrom(ls, self, d, PrevPath(prev, self, rank, d))
    ensures PathCost(ls, PrevPath(prev, self, rank, d)) == prev[d].cost
    ensures d != self ==> (|PrevPath(prev, self, rank, d)| >= 2
      && PrevPath(prev, self, rank, d)[1] == FirstHop(prev, self, rank, d))
    decreases rank[d]
  {
    if d != self {
      var w := prev[d].prev.value;
      PrevPathIsPath(ls, self, prev, rank, w);
      var q := PrevPath(prev, self, rank, w);
      var p := q + [d];
      assert PrevPath(prev, self, rank, d) == p;
      assert p[..|p| - 1] == q;
      assert IsPath(ls, p) by {
        forall i | 0 <= i < |p| - 1
          ensures p[i] in ls && p[i + 1] in ls[p[i]]
        {
          if i < |p| - 2 {
            assert p[i] == q[i] && p[i + 1] == q[i + 1];
          }
        }
      }
    }
  }

  /** With non-negative links and no self-loop at self, Dijkstra's result
      reaches exactly the hosts a walk from self reaches, and each reached
      host's cost is its shortest distance from self, realised by its prev
      chain. */
  lemma ShortestPathsCorrect(ls: LinkStateMap, self: Host, prev: PrevTable, rank: map<Host, nat>, d: Host)
    requires self in ls && Wellformed(ls, self) && DijkstraResult(ls, self, prev, rank)
    requires d in ls
    ensures prev[d].cost != Unknown <==> exists p :: PathFrom(ls, self, d, p)
    ensures prev[d].cost != Unknown ==> ShortestDistance(ls, self, d, prev[d].cost)
  {
    if prev[d].cost != Unknown {
      ReachedHasPrevPath(ls, self, prev, rank, d);
      var p := PrevPath(prev, self, rank, d);
      forall p' | PathFrom(ls, self, d, p')
        ensures prev[d].cost <= PathCost(ls, p')
      {
        PathCostLowerBound(ls, self, prev, p');
      }
    }
    if exists p :: PathFrom(ls, self, d, p) {
      var p :| PathFrom(ls, self, d, p);
      PathCostLowerBound(ls, self, prev, p);
    }
  }

  /** A reached host has a prev chain. */
  lemma ReachedHasPrevPath(ls: LinkStateMap, self: Host, prev: PrevTable, rank: map<Host, nat>, d: Host)
    requires self in ls && Wellformed(ls, self) && DijkstraResult(ls, self, prev, rank)
    requires d in ls && prev[d].cost != Unknown
    ensures d == self || prev[d].prev.Some?
    ensures PathFrom(ls, self, d, PrevPath(prev, self, rank, d))
    ensures PathCost(ls, PrevPath(prev, self, rank, d)) == prev[d].cost
  {
    PrevPathIsPath(ls, self, prev, rank, d);
  }

  /** The rebuilt routing table sends every reachable destination to a
      direct neighbour of self that starts a shortest walk to it, at that
      walk's cost; unreachable destinations are absent. */
  lemma RoutesAreShortest(ls: LinkStateMap, self: Host, prev: PrevTable, rank: map<Host, nat>, d: Host)
    requires self in ls && Wellformed(ls, self) && DijkstraResult(ls, self, prev, rank)
    requires d in ls
    ensures var rt := RoutingFrom(prev, self, rank);
      && rt[self] == RouteEntry(Some(self), 0)
      && (d != self ==> (d in rt <==> exists p :: PathFrom(ls, self, d, p)))
      && (d != self && d in rt ==>
            && rt[d].next.Some? && rt[d].next.value in ls[self]
            && ShortestDistance(ls, self, d, rt[d].cost)
            && exists p :: PathFrom(ls, self, d, p) && PathCost(ls, p) == rt[d].cost
                           && p[1] == rt[d].next.value)
  {
    var rt := RoutingFrom(prev, self, rank);
    ShortestPathsCorrect(ls, self, prev, rank, d);
    if d != self && d in rt {
      PrevPathIsPath(ls, self, prev, rank, d);
      var p := PrevPath(prev, self, rank, d);
      assert PathFrom(ls, self, d, p) && PathCost(ls, p) == rt[d].cost && p[1] == rt[d].next.value;
    }
  }

  /** `rt` is what `_update_routing` builds for `ls` from `self` out of
      some predecessor table with Dijkstra's guarantees (`DijkstraResult`). */
  ghost predicate RoutedBy(ls: LinkStateMap, self: Host, rt: RouteMap)
    requires self in ls
  {
    exists prev, rank :: DijkstraResult(ls, self, prev, rank) && rt == RoutingFrom(prev, self, rank)
  }

  /** Running Dijkstra and then the rebuild gives a table `RoutedBy`
      describes. */
  method ComputeRoutes(ls: LinkStateMap, self: Host) returns (rt: RouteMap)
    requires self in ls && Closed(ls)
    ensures RoutedBy(ls, self, rt)
  {
    var prev, rank := Dijkstra(ls, self);
    rt := UpdateRouting(prev, self, rank);
  }

  /** For a link-state database with non-negative links and no self-loop at
      self, a table `RoutedBy` describes routes self to itself at cost 0,
      holds exactly the other hosts a walk reaches, and sends each of them to
      a neighbour of self that starts a shortest walk, at that walk's cost. */
  lemma RoutedByIsShortest(ls: LinkStateMap, self: Host, rt: RouteMap, d: Host)
    requires self in ls && Wellformed(ls, self) && RoutedBy(ls, self, rt)
    requires d in ls
    ensures rt[self] == RouteEntry(Some(self), 0)
    ensures d != self ==> (d in rt <==> exists p :: PathFrom(ls, self, d, p))
    ensures d != self && d in rt ==>
      && rt[d].next.Some? && rt[d].next.value in ls[self]
      && ShortestDistance(ls, self, d, rt[d].cost)
      && exists p :: PathFrom(ls, self, d, p) && PathCost(ls, p) == rt[d].cost && p[1] == rt[d].next.value
  {
    var prev, rank :| DijkstraResult(ls, self, prev, rank) && rt == RoutingFrom(prev, self, rank);
    RoutesAreShortest(ls, self, prev, rank, d);
  }

  // ---------------------------------------------------------------------
  // The four-router topology of the driver scripts
  // ---------------------------------------------------------------------

  /** A-B costs 2, A-C 1, B-D 3, C-D 4, every link in both directions. */
  function Example(): (ls: LinkStateMap)
    ensures Closed(ls) && NonNegative(ls) && "A" in ls && "A" !in ls["A"]
  {
    map["A" := map["B" := 2, "C" := 1],
        "B" := map["A" := 2, "D" := 3],
        "C" := map["A" := 1, "D" := 4],
        "D" := map["B" := 3, "C" := 4]]
  }

  /** One settled table for `Example()` from A, written out by hand. */
  function ExampleTable(): PrevTable
  {
    map["A" := PrevEntry(None, 0), "B" := PrevEntry(Some("A"), 2),
        "C" := PrevEntry(Some("A"), 1), "D" := PrevEntry(Some("C"), 5)]
  }

  lemma ExampleTableSettled()
    ensures Settled(Example(), "A", ExampleTable())
  {
    var ls, t := Example(), ExampleTable();
    forall u, v | u in t && t[u].cost != Unknown && u in ls && v in ls[u]
      ensures v in t && t[v].cost != Unknown && t[v].cost <= t[u].cost + ls[u][v]
    {
      assert u == "A" || u == "B" || u == "C" || u == "D";
    }
  }

  /** The walks A-B, A-C and A-C-D and their costs. */
  lemma ExampleWalks()
    ensures PathFrom(Example(), "A", "B", ["A", "B"]) && PathCost(Example(), ["A", "B"]) == 2
    ensures PathFrom(Example(), "A", "C", ["A", "C"]) && PathCost(Example(), ["A", "C"]) == 1
    ensures PathFrom(Example(), "A", "D", ["A", "C", "D"]) && PathCost(Example(), ["A", "C", "D"]) == 5
  {
    assert ["A", "C", "D"][..2] == ["A", "C"];
    assert ["A", "C"][..1] == ["A"];
    assert ["A", "B"][..1] == ["A"];
  }

  /** Whatever order Dijkstra breaks ties in, router A ends with B at 2,
      C at 1 and D at 5. */
  lemma ExampleCosts(prev: PrevTable, rank: map<Host, nat>)
    requires DijkstraResult(Example(), "A", prev, rank)
    ensures prev["A"].cost == 0 && prev["B"].cost == 2 && prev["C"].cost == 1 && prev["D"].cost == 5
  {
    ExampleWalks();
    ExampleCost(prev, rank, "B", ["A", "B"]);
    ExampleCost(prev, rank, "C", ["A", "C"]);
    ExampleCost(prev, rank, "D", ["A", "C", "D"]);
  }

  lemma ExampleCost(prev: PrevTable, rank: map<Host, nat>, d: Host, p: seq<Host>)
    requires DijkstraResult(Example(), "A", prev, rank)
    requires d in ExampleTable() && PathFrom(Example(), "A", d, p)
    requires PathCost(Example(), p) == ExampleTable()[d].cost
    ensures prev[d].cost == ExampleTable()[d].cost
  {
    ExampleTableSettled();
    SettledCostsAgree(Example(), "A", prev, rank, ExampleTable(), d, p);
  }

  /** Any settled table that holds 0 for self and whose cost for `d` some
      walk realises holds the same cost for `d` as Dijkstra's result. */
  lemma SettledCostsAgree(ls: LinkStateMap, self: Host, prev: PrevTable, rank: map<Host, nat>,
                          t: PrevTable, d: Host, p: seq<Host>)
    requires self in ls && Wellformed(ls, self) && DijkstraResult(ls, self, prev, rank)
    requires Settled(ls, self, t) && self in t && t[self].cost == 0
    requires d in ls && d in t && PathFrom(ls, self, d, p) && PathCost(ls, p) == t[d].cost
    ensures prev[d].cost == t[d].cost
  {
    ShortestPathsCorrect(ls, self, prev, rank, d);
    PathCostLowerBound(ls, self, prev, p);
    var q :| PathFrom(ls, self, d, q) && PathCost(ls, q) == prev[d].cost;
    PathCostLowerBound(ls, self, t, q);
  }
}
