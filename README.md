# Routing simulation: a verified model of the router core

The model covers the routing core of the routing-simulation router. A router has a name and a UDP endpoint. It keeps these tables:

- its neighbours and their link costs;
- a routing table from destination to `{next, cost}`;
- a link-state database of every host's adjacency list;
- an alive table of last-seen timestamps;
- a mapping table from names to addresses, which it learns from a name server.

Routers exchange JSON packets. Each packet carries a type: 0 is a normal packet, 1 to 3 are routing updates (3 is also flooded), and 4 goes to the name server. A router keeps its tables current in one of four ways:

- link state: Dijkstra over the database;
- distance vector: Bellman-Ford relaxation against a neighbour's advertised table;
- centralized, member side;
- centralized, controller side.

The source has two generations of this logic:

- `router.py`, the monolithic `RouterCtrl`;
- the `src/routing` package. It splits out a transport layer, a data dispatcher, a shared routing model, a neighbour table with observers, and one class per algorithm.

Both are modelled.

Modules, one per concern of the source:

- `Common`: the shared types, such as hosts, route entries, adjacency lists, the link-state database and `Result`.
- `ShortestPaths`: `_dijkstra` and `_update_routing`, which are identical in `router.py` and `algorithm.py`. It proves that the table they build routes every reachable host along a shortest walk, through a direct neighbour.
- `Liveness`: merging alive reports, the dead set, and installing and purging adjacency lists. It proves that the database stays closed and free of dead hosts.
- `Algorithms`: the four classes of `algorithm.py`.
- `Monolith`: `RouterCtrl`. This covers argument validation, next-hop search, `_send` with its flooding, the three receive handlers, `update`, `_parse` and `_handle_mapping_table`.
- `TransportLayer`, `RoutingTables`, `NeighborTables` and `Dispatching`: the rest of the `src/routing` package.

Classes model the objects whose fields the source updates in place. Their methods state the whole new state. That state is given by specification functions (`Merged`, `DeadHosts`, `Installed`, `Purge`, `RoutingFrom`, `Relaxed`, `DefaultRoutes`, `Deliverable`, `Notifications`), and the lemmas beside them prove what the source promises about those functions.

Inputs from the outside become parameters or logs:

- The clock (`time.time()`) is a `now` parameter, in whole seconds.
- A neighbour-table snapshot is an `Adjacency` parameter wherever `algorithm.py` calls `self._neighbor.get()`.
- The socket is an append-only log. It is `outbox` of packets in `RouterCtrl` and `sent` of frames with their address in `Transport`.
- An observer or a dispatcher receiver is only a name. The calls made to it are logged (`notifications`, `calls`). The one exception is the transport itself: a dispatch to its own tag also runs its `receive` on the mapping.

The source raises Python exceptions. The model returns these as the `Failure` arm of `Result`:

- `TypeError`, `ValueError` and `RuntimeError` raised on purpose;
- a `KeyError` that escapes a handler;
- the `NameError` and `AttributeError` of the findings below.

## Model

| member | source | states |
|---|---|---|
| Common.SelfRoute | src/routing/routing_table.py:5-23 | the initial table routes only self, to self, at cost 0 |
| RoutingTables.RoutingTable.constructor | src/routing/routing_table.py:5-23 | a new routing model holds exactly the self route |
| RoutingTables.RoutingTable.Update | src/routing/routing_table.py:25-30 | `update` replaces the whole table |
| RoutingTables.RoutingTable.Get | src/routing/routing_table.py:32-41 | the next hop for a known destination; ValueError exactly when the destination is unknown |
| RoutingTables.RoutingTable.GetAlive | src/routing/routing_table.py:43-50 | the alive destinations are exactly the table's keys |
| RoutingTables.RoutingTable.GetAliveIffGet | src/routing/routing_table.py:32-50 | a destination is listed alive if and only if `get` succeeds for it |
| RoutingTables.RoutingTable.FreshTableRoutesSelf | src/routing/routing_table.py:5-41 | on a fresh table `get` succeeds for self alone, naming self |
| NeighborTables.Notifications | src/routing/neighbor_table.py:55-57 | one notification per observer, in registration order, each with the same snapshot |
| NeighborTables.NeighborTable.constructor | src/routing/neighbor_table.py:17-20 | no neighbours, no observers, nothing notified |
| NeighborTables.NeighborTable.OnUpdate | src/routing/neighbor_table.py:22-23 | the observer is appended; the table and the notifications are unchanged |
| NeighborTables.NeighborTable.Get | src/routing/neighbor_table.py:25-26 | the snapshot is the table, every key with its cost; being a value, later changes do not reach it |
| NeighborTables.NeighborTable.GetCost | src/routing/neighbor_table.py:28-29 | Some cost exactly for a neighbour, with its stored cost |
| NeighborTables.NeighborTable.GetCostAgreesWithGet | src/routing/neighbor_table.py:25-29 | `get_cost` agrees with the snapshot `get` returns |
| NeighborTables.NeighborTable.Update | src/routing/neighbor_table.py:31-33 | the cost is stored unchecked and every observer is notified of the new table |
| NeighborTables.NeighborTable.NotifyAll | src/routing/neighbor_table.py:55-57 | each observer called once in order with the current table; nothing else changes |
| NeighborTables.NeighborTable.RemoveEntry | src/routing/neighbor_table.py:47-52 | exactly the host's entry goes (nothing for a non-neighbour); no observer is told |
| NeighborTables.NeighborTable.RemoveAsWritten | src/routing/neighbor_table.py:38-41 | the call blocks and nothing changes |
| NeighborTables.NeighborTable.Remove | src/routing/neighbor_table.py:38-52 | returns; the host is gone, every other entry kept, and observers notified of the new table |
| Dispatching.DataDispatcher.constructor | src/routing/dispatcher.py:2-3 | an empty registry and no calls |
| Dispatching.DataDispatcher.Register | src/routing/dispatcher.py:5-9 | the last registration for a tag wins; other tags keep theirs |
| Dispatching.DataDispatcher.Lookup | src/routing/dispatcher.py:11-21 | Some receiver exactly for a registered tag, the registered one |
| Dispatching.DataDispatcher.Dispatch | src/routing/dispatcher.py:11-21 | handled if and only if the tag is registered; then exactly one call to its receiver, else none; the registry is unchanged |
| Liveness.Merged | src/routing/algorithm.py:297-305 | self is stamped `now`; every other reported host keeps the later of the two times |
| Liveness.MergedIsLatest | src/routing/algorithm.py:299-305 | every merged entry is one of the candidates and no smaller than either |
| Liveness.MergeIdempotent | src/routing/algorithm.py:299-305 | merging the same report twice changes nothing |
| Liveness.MergeAlive | src/routing/algorithm.py:297-305 | the merge loop computes `Merged` |
| Liveness.DeadHosts | src/routing/algorithm.py:307-310 | the known hosts last seen more than the timeout ago |
| Liveness.AliveHosts | src/routing/algorithm.py:607-633 | the known hosts seen within the timeout |
| Liveness.AliveDeadPartition | src/routing/algorithm.py:307-310 | every known host is exactly one of alive and dead |
| Liveness.FreshNotDead | src/routing/algorithm.py:307-310 | with a non-negative timeout a host stamped `now` or later is never dead |
| Liveness.SelfSurvivesMerge | src/routing/algorithm.py:297-313 | with a non-negative timeout self stays alive after the merge and the pop of the dead |
| Liveness.CollectDead | src/routing/algorithm.py:307-310 | the scan collects exactly `DeadHosts` |
| Liveness.DropHosts | src/routing/algorithm.py:312-313 | the pop loop removes exactly the dead keys |
| Liveness.Installed | src/routing/algorithm.py:322-330 | `h` gets `adj`, every host `adj` names becomes a key, every other list is kept |
| Liveness.InstalledEntries | src/routing/algorithm.py:322-330 | installing keeps other lists, gives `h` exactly `adj`, and adds only empty placeholders |
| Liveness.InstalledClosed | src/routing/algorithm.py:322-330 | installing into a closed database keeps it closed |
| Liveness.Install | src/routing/algorithm.py:322-330 | the install loop computes `Installed` |
| Liveness.Purge | src/routing/algorithm.py:332-340 | no dead host remains as a key or as a link target; other lists are kept without their dead links |
| Liveness.PurgeRemovesDead | src/routing/algorithm.py:332-340 | after the purge no dead host is a key or a target; every surviving link is an original one |
| Liveness.PurgeNothing | src/routing/algorithm.py:332-340 | purging the empty set changes nothing |
| Liveness.PurgedInstall | src/routing/algorithm.py:322-340 | installing and then purging keeps a closed database closed |
| Liveness.PurgeDead | src/routing/algorithm.py:332-340 | the two purge loops compute `Purge` |
| Liveness.ReconcileFacts | src/routing/algorithm.py:319-340 | the reconciled database is closed, free of dead hosts, and holds self when self is not dead |
| Liveness.ReconcileLinks | src/routing/algorithm.py:319-340 | the receive handler's install-install-purge sequence computes `Reconcile` |
| ShortestPaths.FindNearest | src/routing/algorithm.py:406-420 | None exactly when no unvisited host is reached; otherwise an unvisited reached host of least cost |
| ShortestPaths.Relax | src/routing/algorithm.py:422-432 | the relaxation loop over `w`'s links computes `RelaxStep` |
| ShortestPaths.Dijkstra | src/routing/algorithm.py:374-434 | the prev table is a tree along database links, consistent in costs, and settled: no link out of a reached host offers a cheaper cost |
| ShortestPaths.FirstHop | src/routing/algorithm.py:451-462 | the host on `d`'s prev chain whose predecessor is self |
| ShortestPaths.UpdateRouting | src/routing/algorithm.py:436-462 | self at `(self, 0)`; every host with a predecessor routed through its first hop at its prev cost; nothing else |
| ShortestPaths.WalkToFirstHop | src/routing/algorithm.py:456-457 | the inner `while` walk ends at `FirstHop` |
| ShortestPaths.PrevPath | src/routing/algorithm.py:451-462 | the prev chain read forwards starts at self and ends at `d` |
| ShortestPaths.PathCostLowerBound | src/routing/algorithm.py:406-432 | a settled table's cost never exceeds the cost of any walk out of self |
| ShortestPaths.PrevPathIsPath | src/routing/algorithm.py:436-462 | the prev chain is a walk whose cost is the recorded cost, and its second host is the first hop |
| ShortestPaths.ReachedHasPrevPath | src/routing/algorithm.py:374-434 | every reached host has a prev chain realising its cost |
| ShortestPaths.ShortestPathsCorrect | src/routing/algorithm.py:374-434 | with non-negative links and no self-loop at self: reached if and only if some walk exists, at the shortest distance |
| ShortestPaths.RoutesAreShortest | src/routing/algorithm.py:436-462 | the rebuilt table holds exactly the reachable hosts, each via a direct neighbour starting a shortest walk, at its cost |
| ShortestPaths.ComputeRoutes | src/routing/algorithm.py:342-343 | Dijkstra followed by the rebuild yields a table `RoutedBy` describes |
| ShortestPaths.RoutedByIsShortest | router.py:538-628 | any table `RoutedBy` describes routes self at 0, holds exactly the reachable hosts, and each goes via a neighbour along a shortest walk |
| ShortestPaths.Example | A.py:4-37 | the four-router topology is closed, non-negative, and has no self-loop at A |
| ShortestPaths.ExampleCosts | A.py:4-37 | from A whatever the tie-breaking: B costs 2, C 1, D 5 |
| ShortestPaths.ExampleCost | A.py:4-37 | a hand-settled cost realised by a walk is what Dijkstra computes |
| ShortestPaths.SettledCostsAgree | src/routing/algorithm.py:374-434 | any settled table realised by a walk agrees with Dijkstra's cost |
| Algorithms.BestRoute | src/routing/algorithm.py:148-163 | KeyError exactly when a row holding `dest` has a sender missing from self's row; otherwise a minimum-cost route over all rows holding `dest` (none at -1 when no row does) |
| Algorithms.BestRouteToSelf | src/routing/algorithm.py:148-163 | with positive links and non-negative adverts, self is routed to itself at 0 |
| Algorithms.BestRouteNoWorseThanLink | src/routing/algorithm.py:148-163 | a neighbour's chosen route is never dearer than the direct link |
| Algorithms.BuildDefaultRoutes | src/routing/algorithm.py:271-284 | the loop builds `DefaultRoutes`: self at 0 and each neighbour directly at its link cost |
| Algorithms.GetDestinations | src/routing/algorithm.py:211-219 | every neighbour-routing key and every host in any row |
| Algorithms.RecomputeRoutes | src/routing/algorithm.py:148-163 | succeeds if and only if every destination's rows are linked; on success every destination has a best route and every other entry is kept; on KeyError each entry is kept or best |
| Algorithms.DistanceVector.constructor | src/routing/algorithm.py:120-130 | empty alive and neighbour-routing tables, the self route, the given timeout and model |
| Algorithms.DistanceVector.HaveTimeout | src/routing/algorithm.py:179-191 | true if and only if an advertised destination is timed out in the sender's alive report |
| Algorithms.DistanceVector.UpdateNeighborRouting | src/routing/algorithm.py:221-236 | the advert is stored under the sender, and self's row is rebuilt to the default routes |
| Algorithms.DistanceVector.Receive | src/routing/algorithm.py:132-168 | stale: nothing changes; otherwise alive merged, rows reconciled, KeyError exactly when some destination is unlinked, else every destination gets a best route, pushed to the model |
| Algorithms.DistanceVector.ResetDefaultRouting | src/routing/algorithm.py:271-284 | the table becomes the default routes |
| Algorithms.DistanceVector.NeighborRoutingTimeout | src/routing/algorithm.py:286-290 | exactly the dead hosts' rows are forgotten |
| Algorithms.DistanceVector.NoticeNeighbor | src/routing/algorithm.py:238-269 | self stamped; the timed-out are `DeadHosts`; their rows go; with any timed out the table resets to the defaults and is pushed |
| Algorithms.LinkState.constructor | src/routing/algorithm.py:22-77 | alive is self at `now`; the database is self's links with placeholders; routes are `RoutedBy` it and pushed |
| Algorithms.LinkState.Recompute | src/routing/algorithm.py:342-344 | the table is `RoutedBy` the database and pushed to the model |
| Algorithms.LinkState.Receive | src/routing/algorithm.py:293-353 | alive merged without the dead; the database is `Reconcile` of both lists minus the dead, closed and holding self; routes `RoutedBy` it |
| Algorithms.LinkState.CheckTimeout | src/routing/algorithm.py:464-513 | self stamped; the dead timed out and dropped; self's links refreshed and purged; routes `RoutedBy` the database |
| Algorithms.CentralizedMember.constructor | src/routing/algorithm.py:516-526 | the self route and an empty database |
| Algorithms.CentralizedMember.Receive | src/routing/algorithm.py:528-555 | KeyError exactly when the controller is no neighbour or self is absent from the database, with routes unchanged; the dead neighbours are timed out; on success the routes are `RoutedBy` the database with the controller entry set |
| Algorithms.CentralizedController.constructor | src/routing/algorithm.py:22-77 | empty alive table and database |
| Algorithms.CentralizedController.Receive | src/routing/algorithm.py:575-605 | the sender is stamped; its links are installed; the controller and the timed-out hosts are purged as keys and as targets |
| Algorithms.CentralizedController.Run | src/routing/algorithm.py:607-633 | the recipients are the alive hosts and the dead list the rest, a partition of the alive table; the database is sent unchanged |
| Algorithms.NeighborUpdateAsWritten | src/routing/algorithm.py:101-110 | AttributeError if and only if some neighbour has a known cost, after storing only the first direct route |
| Algorithms.NeighborUpdateFailsOnOneLink | src/routing/algorithm.py:101-110 | any table with one real link makes the observer fail |
| Algorithms.NeighborUpdate | src/routing/algorithm.py:101-110 | both tables gain a direct route for every neighbour with a known cost and keep every other entry |
| Monolith.FilterRoutesRemovesDead | router.py:660-668 | the filter keeps exactly the entries that neither lead to nor pass through a dead host |
| Monolith.RelaxedMinimum | router.py:670-681 | each relaxed cost is the lesser of the old cost and the cost through the sender, and is one of the two |
| Monolith.RelaxIdempotent | router.py:670-681 | without a negative self-advertisement, relaxing against the same table twice changes nothing more |
| Monolith.RelaxRoutes | router.py:670-681 | adds exactly the advertised keys; each entry kept or moved strictly cheaper onto the sender; changed if and only if some entry differs; `Relaxed` when the sender's self-cost is safe |
| Monolith.LinkStateStep | router.py:473-536 | the alive report merged, the database reconciled and closed, routes `RoutedBy` it (`LsReceived`) |
| Monolith.RouterCtrl.constructor | router.py:26-52 | empty tables, not running, and exactly one type-4 query to the name server in the outbox |
| Monolith.RouterCtrl.Init | router.py:57-135 | ValueError for an unknown method, TypeError for a non-int interval, ValueError below 1, nothing changed on failure; on success the tables are reset with the method and interval recorded |
| Monolith.RouterCtrl.AddNeighbor | router.py:137-174 | cost errors first, then TypeError for a non-string and ValueError for an existing neighbour; on success the link and a direct route are added |
| Monolith.RouterCtrl.UpdateNeighbor | router.py:176-209 | the same checks with ValueError for a non-neighbour; false and no change for an equal cost, else the new link cost |
| Monolith.RouterCtrl.RemoveNeighborAsWritten | router.py:211-239 | TypeError and ValueError as checked; with a route through the neighbour, RuntimeError after popping one; otherwise success |
| Monolith.RouterCtrl.RemoveNeighbor | router.py:211-239 | the link and every route through the neighbour go, every other route kept |
| Monolith.RouterCtrl.SetController | router.py:241-261 | succeeds if and only if the name is a string, then recorded; TypeError leaves it unchanged |
| Monolith.RouterCtrl.Run | router.py:263-289 | already running: nothing happens; else the role is recorded, and a centralized member without a controller gets RuntimeError |
| Monolith.RouterCtrl.Search | router.py:792-820 | TypeError for a non-string; self for self; the route's next hop for a known host; ValueError otherwise |
| Monolith.RouterCtrl.NextHop | router.py:1004-1048 | Some exactly when `search` finds a next hop that the mapping table addresses, with that address |
| Monolith.RouterCtrl.Send | router.py:850-936 | TypeError or ValueError as validated and nothing sent; otherwise the own name appended to `visited`, and the exact packets sent (flood copies for type 3, one packet towards the next hop otherwise) |
| Monolith.RouterCtrl.Flood | router.py:899-928 | one relayed copy to each unvisited neighbour whose next hop resolves, each once |
| Monolith.RouterCtrl.SendDataAsWritten | router.py:938-947 | always NameError, nothing sent |
| Monolith.RouterCtrl.SendData | router.py:938-947 | TypeError for a non-string destination; otherwise one type-0 packet from self when the next hop resolves |
| Monolith.RouterCtrl.AdvertiseTo | router.py:688-700 | one `_send` of an advertisement: the shared default `visited` gains self; one packet to the neighbour through its next hop, carrying that list, or none |
| Monolith.RouterCtrl.Advertise | router.py:688-700 | one type-1 advertisement to each neighbour whose next hop resolves, and nothing else; the shared default `visited` gains self once per neighbour and each packet carries it as its own call left it, so the lists grow from packet to packet (`Advertised`) |
| Monolith.RouterCtrl.DvReconcile | router.py:638-686 | self and sender stamped; the dead filtered from both tables; KeyError when the sender has no surviving route; else relaxed, with `modified` if and only if a dead key existed or an entry changed |
| Monolith.RouterCtrl.DvReceive | router.py:630-700 | `DvReconcile`, then exactly when modified the outbox grows by the re-advertisement (`Advertised`); otherwise nothing is sent and the shared `visited` is unchanged |
| Monolith.RouterCtrl.LsReceive | router.py:473-536 | `LsReceived`, keeping the database closed |
| Monolith.RouterCtrl.ControllerReceive | router.py:702-748 | sender stamped; its links installed; the controller and the dead purged as keys and targets |
| Monolith.RouterCtrl.MemberReceive | router.py:750-790 | success if and only if a controller is set, is a neighbour and self is in the data; KeyError otherwise with routes unchanged; on success routes `RoutedBy` the data with the controller entry |
| Monolith.RouterCtrl.Update | router.py:428-471 | `Updated`: the handler of the algorithm and role in force, with its outcome; failures are KeyError; the outbox grows only by the distance-vector re-advertisement |
| Monolith.RouterCtrl.HandleRouter | router.py:978-983 | `Updated` for the update; after a successful type-3 update, the outbox grows further by the flood of the packet under its own `visited` plus self, when self's next hop resolves |
| Monolith.RouterCtrl.Broadcast | router.py:1099-1108 | the flood from the packet's source under its own `visited` plus self, the shared default list untouched, and the update's outcome kept |
| Monolith.RouterCtrl.HandleMappingTable | router.py:1110-1114 | received names overwrite, every other mapping entry stays |
| Monolith.RouterCtrl.Parse | router.py:955-997 | ValueError for a bad type; for self, type 0 changes nothing (no table, list or outbox), types 1-3 give `Updated` and the type-3 re-broadcast under the packet's `visited`, type 4 merges the mapping and nothing else; any other packet is forwarded through the shared default `visited` (a type-3 one flooded) with the tables and the alive map unchanged |
| Common.Repeat | src/routing/transport.py:248-271 | `n` copies of the host: self as the shared `visited` list gains it once per frame |
| TransportLayer.Deliverable | src/routing/transport.py:226-246 | only frames whose next name has an address are handed over, each with that address |
| TransportLayer.DeliverableExactly | src/routing/transport.py:226-246 | a frame is handed over if and only if it was made and its next name resolves |
| TransportLayer.Transport.constructor | src/routing/transport.py:26-48 | the mapping holds only the name server under `hns`; nothing sent |
| TransportLayer.Transport.MakeFrame | src/routing/transport.py:293-331 | next name is `dest` in privileged or broadcasting mode, else the routing model's next hop; no frame without a route |
| TransportLayer.Transport.GetAddress | src/routing/transport.py:333-348 | Some address exactly for a mapped name |
| TransportLayer.Transport.SendByFrame | src/routing/transport.py:226-246 | the frame is sent to its address, or dropped when none |
| TransportLayer.Transport.SendData | src/routing/transport.py:192-223 | KeyError and nothing sent without `passed_by`; otherwise the framed datagram carries `passed_by + [self]` and is sent when made |
| TransportLayer.Transport.Send | src/routing/transport.py:185-189 | a frame from self is made if and only if privileged or the destination is routed, leaving with `passed_by == [self]` |
| TransportLayer.Transport.FloodTo | src/routing/transport.py:248-271 | the flood frame to one neighbour, sent straight to it |
| TransportLayer.Transport.Broadcasting | src/routing/transport.py:248-271 | exactly one frame to each neighbour not in `visited`, addressed to it, with the shared `visited` |
| TransportLayer.Transport.Receive | src/routing/transport.py:97-112 | `stop` changes nothing; a mapping overwrites the reported names and keeps the rest |
| TransportLayer.Transport.Run | src/routing/transport.py:50-62 | the transport becomes the receiver of its own tag, other tags kept; a privileged frame from self goes to the name server |
| TransportLayer.Transport.Process | src/routing/transport.py:137-183 | a flooded frame is first relayed to every neighbour not in its `visited`, one frame each with the shared `visited` (`FloodRun`), addressed under the mapping as it was; a frame for self is dispatched by tag and, when the tag is the transport's own, its mapping data is merged as `Receive` does; any other frame is forwarded |

## Left out

- Sockets, threads, locks and timers are left out. Time is a `now` parameter and sending is an append to a log. The listener loop, `stop` and the re-arming `threading.Timer`s, among them the retry of `_send_to_hns` (src/routing/transport.py:64-94, 114-135), are not modelled; the first `_send_to_hns` is part of `TransportLayer.Transport.Run`.
- JSON encoding and decoding, logging and `print` output are left out. The name-server program and the driver scripts are not part of this model, apart from the topology of A.py used in `ShortestPaths.Example`.
- The periodic send loops are left out: `LinkState.run`, `DistanceVector.run`, the member's `run`, and the sending half of `_notice_neighbor`. Each only reports tables the model already states. For `CentralizedController.Run` and `DistanceVector.NoticeNeighbor` the model keeps only the decision of what to send to whom.
- The order in which a Python dict yields its keys is not modelled. Where ties are broken by that order, the model proves the result for every tie-breaking order: among equal-cost nearest hosts in Dijkstra, among equal-cost neighbours in distance vector, and in the order of flood targets.
- `Monolith.RouterCtrl.Flood` and `TransportLayer.Transport.Broadcasting`: the contracts give the set of targets and one packet each, not the order of the list.
- `Algorithms.LinkState.Receive`, `Algorithms.LinkState.CheckTimeout`, `Algorithms.CentralizedMember.Receive` and `Monolith.RouterCtrl.MemberReceive` require the database to be closed (every host a list names is a key). The source raises KeyError in Dijkstra otherwise, and that path is not modelled: the handlers always install placeholders, so it arises only from a controller's malformed database.
- `Algorithms.LinkState.constructor` and `Monolith.RouterCtrl.LsReceive` require a non-negative timeout, which keeps self alive and so a key of the database. A negative timeout would make Dijkstra raise KeyError on self.
- `Monolith.RouterCtrl.Update` and `Monolith.RouterCtrl.Parse` require (`Accepts`) that the received data has the JSON shape of the running algorithm. A malformed packet's TypeError or KeyError from indexing the JSON is not modelled.
- The constructors' wiring, `dispatcher.register(ALGORITHM_TYPE, self)` and `neighbor.on_update(self._neighbor_update)` (src/routing/algorithm.py:75-76), is not modelled: the algorithm classes are called directly rather than through the dispatcher and a neighbour-table observer.
- The first send of `RouterCtrl.run` is not modelled: `run` calls `_dv_interval`, `_ls_interval` or `_central_ls_*` once synchronously (router.py:278-287), and those send tables before re-arming their timers (router.py:301-426). `Monolith.RouterCtrl.Run` states only the set-up.
- `TransportLayer.Transport.Process`: the data a dispatch to the transport's own tag hands to `Receive` is a parameter, because JSON decoding is not modelled; a dispatch to any other tag is recorded as a call and what that receiver does is not part of this model.
- The port type check in `RouterCtrl.__init__` (router.py:46-47) is not modelled: the address is typed.
- Aliasing of shared dicts is not modelled: the model copies everything by value. This covers `_ls_receive` storing the neighbour table itself as self's list (router.py:506), an alias the next rebuild breaks anyway.
- `Algorithms.DistanceVector.Receive`: `_push_to_routing_model` (src/routing/algorithm.py:94-99) hands the algorithm's own dict to the routing model, which keeps the reference (src/routing/routing_table.py:25-30), so after the first push the two are one dict. When `receive` raises KeyError mid-loop (src/routing/algorithm.py:153), the entries already written (src/routing/algorithm.py:160) show through the routing model as well; the model states the routing model unchanged on that path.
- `Algorithms.NeighborUpdateAsWritten`, `Algorithms.LinkState.constructor`, `Algorithms.LinkState.Recompute`, `Algorithms.LinkState.Receive`, `Algorithms.LinkState.CheckTimeout` and `Algorithms.CentralizedMember.Receive`: the same sharing holds for them. `LinkState.receive` and `_check_timeout` push a copy (src/routing/algorithm.py:344, 504) but then call `_push_to_routing_model`, which hands over the live dict (src/routing/algorithm.py:353, 511); `CentralizedMember.receive` hands over only the live dict (src/routing/algorithm.py:555). From then on, `_update_routing`'s clear and refill (src/routing/algorithm.py:436-462) and the entry the base `_neighbor_update` stores before its AttributeError (src/routing/algorithm.py:106-110) are written straight into the routing model. The model keeps the two tables apart: it states the routing model after each push, and `NeighborUpdateAsWritten` does not say that its stored entry reaches the routing model.
- Timestamps are whole seconds (`int`), not floats.
- The dead-host list `DistanceVector.receive` computes (src/routing/algorithm.py:139) is unused by the source and is computed but ignored here too.
- Calls made before `init` has created the attributes are not modelled. They raise AttributeError in the source. The model's constructor creates every field.
- `Monolith.RelaxRoutes`: equality with the single-pass relaxation `Relaxed` is stated only when the sender does not advertise a negative cost to itself. Otherwise the sender's own entry can drop mid-loop; every entry is still proved kept or strictly improved onto the sender.
- `TransportLayer.Transport.SendData`: a frame that cannot be made (no route) is a silent return in the source. The model returns it as Failure(ValueError) with nothing sent.
- The `visited` list that `broadcasting` shares among all its frames is modelled by value. Frame `i` (counting from 0) carries `visited` plus `i + 1` copies of self (`Repeat`), one more than the frames made before it, as the shared list has when that frame is serialised.
- `_configure_mapping_table` (router.py:1050-1064), which reads a configuration file, is left out. Only the table merge `_handle_mapping_table` is modelled.
- The neighbour-timeout calls of `algorithm.py` (`_neighbor_timeout`, which calls `NeighborTable.timeout`) block forever as written (see Findings). The algorithm classes therefore return the timed-out set (`timedOut`) instead of calling into the table.

## Findings

| source | as written | input that shows it | evidently intended | confidence | as-written member | corrected member |
|---|---|---|---|---|---|---|
| router.py:235-237 | `remove_neighbor` pops routes from the routing table while iterating it | a neighbour that is the next hop of some route: the pop is followed by the next iteration step, which raises RuntimeError (dictionary changed size) after one route is gone | remove every route through the neighbour | not executed | Monolith.RouterCtrl.RemoveNeighborAsWritten | Monolith.RouterCtrl.RemoveNeighbor |
| router.py:947 | `send` passes `_get_self_name`, an undefined global, instead of `self._get_self_name()` | any call `send(dest, data)`: NameError before anything is sent | send a type-0 packet from self | not executed | Monolith.RouterCtrl.SendDataAsWritten | Monolith.RouterCtrl.SendData |
| src/routing/algorithm.py:101-110 | the neighbour observer calls `update_one`, which the routing model does not define | a neighbour table with one link of known cost (`NeighborUpdateFailsOnOneLink`): AttributeError after the first route is stored | store a direct route for every neighbour of known cost | not executed | Algorithms.NeighborUpdateAsWritten | Algorithms.NeighborUpdate |
| src/routing/neighbor_table.py:38-41 | `remove` takes the non-reentrant table lock and calls itself | any `remove(h)` or `timeout(h)`: the nested acquire never returns | drop the entry and notify the observers | not executed | NeighborTables.NeighborTable.RemoveAsWritten | NeighborTables.NeighborTable.Remove |
