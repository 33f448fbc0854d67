/** Types shared by every part of the router model. */
module Common {

  /** A router's logical identity. */
  type Host = string

  datatype Option<+T> = None | Some(value: T)

  /** The exceptions the router code raises on its own or lets escape. */
  datatype Error = TypeError | ValueError | KeyError | RuntimeError | NameError | AttributeError

  datatype Result<+T> = Success(value: T) | Failure(error: Error)

  /** A UDP endpoint, `(ip, port)`. */
  datatype Address = Address(ip: string, port: int)

  /** A routing-table entry `{next, cost}`; `next` is None only where the
      distance-vector recomputation found no neighbour advertising the
      destination. */
  datatype RouteEntry = RouteEntry(next: Option<Host>, cost: int)

  type RouteMap = map<Host, RouteEntry>

  /** One host's adjacency list: neighbour -> link cost. */
  type Adjacency = map<Host, int>

  /** The link-state database: host -> adjacency list. */
  type LinkStateMap = map<Host, Adjacency>

  /** Last-seen timestamps, in whole seconds. */
  type AliveMap = map<Host, int>

  /** Every host named in an adjacency list is itself a key of the database. */
  ghost predicate Closed(ls: LinkStateMap)
  {
    forall h, v :: h in ls && v in ls[h] ==> v in ls
  }

  /** No link cost is negative. */
  ghost predicate NonNegative(ls: LinkStateMap)
  {
    forall h, v :: h in ls && v in ls[h] ==> ls[h][v] >= 0
  }

  /** The table a router starts with: only `self -> {next: self, cost: 0}`. */
  function SelfRoute(self: Host): (r: RouteMap)
    ensures r.Keys == {self} && r[self] == RouteEntry(Some(self), 0)
  {
    map[self := RouteEntry(Some(self), 0)]
  }

  /** `n` copies of `h`: a list that gains `h` once per step, `n` times. */
  function Repeat(h: Host, n: nat): (r: seq<Host>)
    ensures |r| == n && forall i :: 0 <= i < n ==> r[i] == h
  {
    if n == 0 then [] else Repeat(h, n - 1) + [h]
  }

  /** Regrouping a concatenation of three sequences. */
  lemma AppendAssoc<T>(a: seq<T>, b: seq<T>, c: seq<T>)
    ensures a + b + c == a + (b + c)
  {
  }
}
