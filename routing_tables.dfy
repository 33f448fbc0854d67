/** The shared routing model (src/routing/routing_table.py): the table the
    algorithm pushes and the transport reads next hops from. */
module RoutingTables {
  import opened Common

  class RoutingTable {
    const hostname: Host
    var table: RouteMap

    /** A new table routes only self, to self, at cost 0. */
    constructor(hostname: Host)
      ensures this.hostname == hostname && table == SelfRoute(hostname)
    {
      this.hostname := hostname;
      table := SelfRoute(hostname);
    }

    /** `update` replaces the whole table. */
    method Update(t: RouteMap)
      modifies this
      ensures table == t
    {
      table := t;
    }

    /** The next hop towards `destination`, or ValueError ("hostname
        unreachable") when the table has no entry for it. */
    function Get(destination: Host): (r: Result<Option<Host>>)
      reads this
      ensures r.Success? <==> destination in table
      ensures r.Success? ==> r.value == table[destination].next
      ensures r.Failure? ==> r.error == ValueError
    {
      if destination in table then Success(table[destination].next) else Failure(ValueError)
    }

    /** The destinations the table knows. */
    function GetAlive(): (r: set<Host>)
      reads this
      ensures r == table.Keys
    {
      table.Keys
    }

    /** A destination is listed alive exactly when `get` succeeds for it. */
    lemma GetAliveIffGet(destination: Host)
      ensures destination in GetAlive() <==> Get(destination).Success?
    {
    }

    /** Right after construction, `get` succeeds for self alone and names
        self as its own next hop. */
    lemma FreshTableRoutesSelf(destination: Host)
      requires table == SelfRoute(hostname)
      ensures Get(destination).Success? <==> destination == hostname
      ensures Get(hostname) == Success(Some(hostname))
    {
    }
  }
}
