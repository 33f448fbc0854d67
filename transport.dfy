/** The transport layer (src/routing/transport.py): wrapping application
    data into datagrams and frames, choosing the next hop, flooding to
    neighbours, merging the name-to-address mapping, and deciding whether an
    inbound frame is delivered here or forwarded. The UDP socket is replaced
    by a log of the frames handed to it. */
module TransportLayer {
  import opened Common
  import opened RoutingTables
  import opened NeighborTables
  import opened Dispatching

  /** Application data, carried opaquely (its JSON text). */
  type Body = string

  /** `{type, data, passed_by}`; frames that were flooded carry no
      `passed_by` at all, hence the Option. */
  datatype Payload = Payload(kind: string, body: Body, passedBy: Option<seq<Host>>)

  /** `_make_datagram` yields exactly `{src, dest, data}`. */
  datatype Datagram = Datagram(src: Host, dest: Host, data: Payload)

  /** `{next_name, last_name, broadcasting, visited, datagram}`. The next
      name can be None when a distance-vector route has no next hop. */
  datatype Frame = Frame(nextName: Option<Host>, lastName: Host, broadcasting: bool,
                         visited: seq<Host>, datagram: Datagram)

  /** One frame handed to the socket, and the address it went to. */
  datatype Sent = Sent(frame: Frame, to: Address)

  /** The tag of the data the transport exchanges with the name server,
      and the transport as a receiver of the dispatcher. */
  const TransportTag: Tag := "Transport"
  const TransportId: ReceiverId := "Transport"

  /** What `receive` is given: the 'stop' marker or a mapping table. */
  datatype HnsData = Stop | Mapping(entries: map<Host, Address>)

  /** What `broadcasting` is given: fresh data from this host, or a flooded
      frame's `visited`, `src` and data to pass on. */
  datatype Flood = Originate(data: Payload) | Relay(visited: seq<Host>, src: Host, data: Payload)

  /** The frames in `made` the mapping can address, each with its address:
      `_send_by_frame` drops a frame whose next name it cannot resolve. */
  function Deliverable(made: seq<Frame>, mapping: map<Host, Address>): (r: seq<Sent>)
    ensures |r| <= |made|
    ensures forall s :: s in r ==> (s.frame in made && s.frame.nextName.Some?
      && s.frame.nextName.value in mapping && s.to == mapping[s.frame.nextName.value])
  {
    if made == [] then []
    else
      var rest := Deliverable(made[..|made| - 1], mapping);
      var f := made[|made| - 1];
      if f.nextName.Some? && f.nextName.value in mapping then rest + [Sent(f, mapping[f.nextName.value])]
      else rest
  }

  lemma DeliverableAppend(made: seq<Frame>, f: Frame, mapping: map<Host, Address>)
    ensures Deliverable(made + [f], mapping) == Deliverable(made, mapping) + Deliverable([f], mapping)
  {
    assert (made + [f])[..|made|] == made;
    assert [f][..0] == [];
  }

  /** Every frame whose next name the mapping resolves is handed over, and
      only those. */
  lemma {:induction false} DeliverableExactly(made: seq<Frame>, mapping: map<Host, Address>, f: Frame)
    ensures (exists s :: s in Deliverable(made, mapping) && s.frame == f) <==>
      (f in made && f.nextName.Some? && f.nextName.value in mapping)
  {
    if made != [] {
      var init := made[..|made| - 1];
      DeliverableExactly(init, mapping, f);
      assert made == init + [made[|made| - 1]];
      if f in made && f !in init {
        assert f == made[|made| - 1];
      }
    }
  }

  class Transport {
    const name: Host
    const address: Address
    var mapping: map<Host, Address>
    const routing: RoutingTable
    const dispatcher: DataDispatcher<Body>
    const neighbor: NeighborTable
    /** Every frame handed to the socket so far, oldest first. */
    var sent: seq<Sent>

    /** The mapping starts with the name server under 'hns'. */
    constructor(name: Host, address: Address, hnsAddress: Address, routing: RoutingTable,
                dispatcher: DataDispatcher<Body>, neighbor: NeighborTable)
      ensures this.name == name && this.address == address && mapping == map["hns" := hnsAddress]
      ensures this.routing == routing && this.dispatcher == dispatcher && this.neighbor == neighbor
      ensures sent == []
    {
      this.name := name;
      this.address := address;
      mapping := map["hns" := hnsAddress];
      this.routing := routing;
      this.dispatcher := dispatcher;
      this.neighbor := neighbor;
      sent := [];
    }

    /** `_make_frame`. The next name is `dest` itself in privileged or
        broadcasting mode and the routing model's next hop otherwise; when
        the routing model has no entry the frame is not made. A flooded
        frame's `visited` gets self appended (in the source, in place: the
        caller's list grows too). */
    function MakeFrame(dest: Host, datagram: Datagram, broadcasting: bool, visited: seq<Host>,
                       privileged: bool): (r: Option<Frame>)
      reads this, routing
      ensures (privileged || broadcasting) ==> r.Some? && r.value.nextName == Some(dest)
      ensures !(privileged || broadcasting) ==>
        (r.Some? <==> dest in routing.table)
        && (r.Some? ==> r.value.nextName == routing.table[dest].next)
      ensures r.Some? ==> (r.value.lastName == name && r.value.broadcasting == broadcasting
        && r.value.datagram == datagram
        && r.value.visited == if broadcasting then visited + [name] else visited)
    {
      var next :=
        if privileged || broadcasting then Success(Some(dest)) else routing.Get(dest);
      if next.Failure? then None
      else Some(Frame(next.value, name, broadcasting,
                      if broadcasting then visited + [name] else visited, datagram))
    }

    /** `_get_address`: None for a name the mapping does not know. */
    function GetAddress(n: Option<Host>): (r: Option<Address>)
      reads this
      ensures r.Some? <==> n.Some? && n.value in mapping
      ensures r.Some? ==> r.value == mapping[n.value]
    {
      if n.Some? && n.value in mapping then Some(mapping[n.value]) else None
    }

    /** `_send_by_frame`: hand the frame to the socket, or drop it when its
        next name has no address. */
    method SendByFrame(frame: Frame)
      modifies this`sent
      ensures sent == old(sent) + Deliverable([frame], mapping)
      ensures mapping == old(mapping)
    {
      var to := GetAddress(frame.nextName);
      if to.None? {
        return;
      }
      sent := sent + [Sent(frame, to.value)];
    }

    /** `_send`: append self to `passed_by`, wrap and frame the data, and
        send the frame unless no frame could be made. Data without a
        `passed_by` list makes the append fail with KeyError. */
    method SendData(src: Host, dest: Host, data: Payload, privileged: bool) returns (r: Result<Frame>)
      modifies this`sent
      ensures mapping == old(mapping)
      ensures data.passedBy.None? ==> r == Failure(KeyError) && sent == old(sent)
      ensures data.passedBy.Some? ==>
        var stamped := data.(passedBy := Some(data.passedBy.value + [name]));
        var made := MakeFrame(dest, Datagram(src, dest, stamped), false, [], privileged);
        && (made.None? ==> r == Failure(ValueError) && sent == old(sent))
        && (made.Some? ==> (r == Success(made.value)
              && sent == old(sent) + Deliverable([made.value], mapping)))
    {
      if data.passedBy.None? {
        return Failure(KeyError);
      }
      var stamped := data.(passedBy := Some(data.passedBy.value + [name]));
      var frame := MakeFrame(dest, Datagram(src, dest, stamped), false, [], privileged);
      if frame.None? {
        return Failure(ValueError);
      }
      SendByFrame(frame.value);
      return Success(frame.value);
    }

    /** `send`: originate data here, with `passed_by` reset to empty, so
        the datagram leaves with `passed_by == [self]`. */
    method Send(dest: Host, data: Payload, privileged: bool) returns (r: Result<Frame>)
      modifies this`sent
      ensures mapping == old(mapping)
      ensures r.Success? ==> (r.value.datagram.src == name && r.value.datagram.dest == dest
        && r.value.datagram.data == data.(passedBy := Some([name])))
      ensures r.Success? <==> privileged || dest in routing.table
      ensures r.Success? && privileged ==> r.value.nextName == Some(dest)
      ensures r.Success? ==> sent == old(sent) + Deliverable([r.value], mapping)
      ensures r.Failure? ==> sent == old(sent)
    {
      assert [] + [name] == [name];
      r := SendData(name, dest, data.(passedBy := Some([])), privileged);
    }

    /** The hosts a run of frames is addressed to. */
    ghost function Dests(made: seq<Frame>): set<Host>
    {
      set i | 0 <= i < |made| :: made[i].datagram.dest
    }

    /** The `i`-th frame `broadcasting` makes when it floods to `n`. */
    function FloodFrame(n: Host, i: nat, visited: seq<Host>, src: Host, data: Payload): Frame
    {
      Frame(Some(n), name, true, visited + Repeat(name, i + 1), Datagram(src, n, data))
    }

    /** `made` is a run of flood frames to distinct hosts of `targets`. */
    ghost predicate FloodRun(made: seq<Frame>, targets: set<Host>, visited: seq<Host>, src: Host, data: Payload)
    {
      && (forall i :: 0 <= i < |made| ==>
            made[i].datagram.dest in targets && made[i] == FloodFrame(made[i].datagram.dest, i, visited, src, data))
      && (forall i, j :: 0 <= i < j < |made| ==> made[i].datagram.dest != made[j].datagram.dest)
    }

    lemma FloodRunStep(made: seq<Frame>, targets: set<Host>, visited: seq<Host>, src: Host, data: Payload, n: Host)
      requires FloodRun(made, targets, visited, src, data)
      requires n in targets && n !in Dests(made)
      ensures FloodRun(made + [FloodFrame(n, |made|, visited, src, data)], targets, visited, src, data)
      ensures Dests(made + [FloodFrame(n, |made|, visited, src, data)]) == Dests(made) + {n}
    {
      var f := FloodFrame(n, |made|, visited, src, data);
      var m := made + [f];
      forall i | 0 <= i < |made|
        ensures made[i].datagram.dest != n
      {
        assert made[i].datagram.dest in Dests(made);
      }
      assert Dests(m) == Dests(made) + {n} by {
        forall x | x in Dests(m)
          ensures x in Dests(made) + {n}
        {
          var i :| 0 <= i < |m| && m[i].datagram.dest == x;
          if i < |made| {
            assert made[i].datagram.dest == x;
          }
        }
        forall x | x in Dests(made)
          ensures x in Dests(m)
        {
          var i :| 0 <= i < |made| && made[i].datagram.dest == x;
          assert m[i] == made[i];
        }
        assert m[|made|].datagram.dest == n;
      }
    }

    /** Make the flood frame for neighbour `n` and send it. */
    method FloodTo(n: Host, visited: seq<Host>, src: Host, data: Payload) returns (frame: Frame)
      modifies this`sent
      ensures frame == Frame(Some(n), name, true, visited + [name], Datagram(src, n, data))
      ensures sent == old(sent) + Deliverable([frame], mapping)
      ensures mapping == old(mapping)
    {
      var made := MakeFrame(n, Datagram(src, n, data), true, visited, false);
      frame := made.value;
      SendByFrame(frame);
    }

    /** `broadcasting`: one frame to every current neighbour that is not in
        `visited`, each addressed to that neighbour and sent straight to it.
        The `visited` list is shared by all the frames and gains self once
        per frame, so the `i`-th frame carries `visited` followed by `i + 1`
        copies of self. The ghost result lists the frames made, in order. */
    method Broadcasting(request: Flood) returns (ghost made: seq<Frame>)
      modifies this`sent
      ensures mapping == old(mapping)
      ensures sent == old(sent) + Deliverable(made, mapping)
      ensures var src := if request.Relay? then request.src else name;
        var visited := if request.Relay? then request.visited else [];
        var targets := neighbor.table.Keys - (set x | x in visited);
        && FloodRun(made, targets, visited, src, request.data)
        && targets - {name} <= Dests(made)
    {
      var src := if request.Relay? then request.src else name;
      var visited := if request.Relay? then request.visited else [];
      ghost var visited0 := visited;
      ghost var keys := neighbor.table.Keys;
      ghost var targets := keys - (set x | x in visited0);
      var data := request.data;
      var todo := neighbor.Get().Keys;
      made := [];
      while todo != {}
        invariant FloodState(made, keys, visited0, visited, src, data, todo)
        invariant sent == old(sent) + Deliverable(made, mapping)
        decreases todo
      {
        var n :| n in todo;
        todo := todo - {n};
        if n !in visited {
          FloodLoopStep(made, keys, visited0, visited, src, data, todo, n);
          var frame := FloodTo(n, visited, src, data);
          visited := visited + [name];
          DeliverableAppend(made, frame, mapping);
          AppendAssoc(old(sent), Deliverable(made, mapping), Deliverable([frame], mapping));
          made := made + [frame];
        } else {
          assert n != name ==> n !in targets;
        }
      }
    }

    /** The account the flood loop keeps, with `todo` still to visit: the
        shared `visited` has gained self once per frame, and the frames made
        reach every target visited so far. */
    ghost predicate FloodState(made: seq<Frame>, keys: set<Host>, visited0: seq<Host>, visited: seq<Host>,
                               src: Host, data: Payload, todo: set<Host>)
    {
      var targets := keys - (set x | x in visited0);
      && todo <= keys
      && visited == visited0 + Repeat(name, |made|)
      && FloodRun(made, targets, visited0, src, data)
      && Dests(made) !! todo
      && targets - {name} - todo <= Dests(made)
    }

    /** One flood step keeps the loop's account of the frames made. */
    lemma FloodLoopStep(made: seq<Frame>, keys: set<Host>, visited0: seq<Host>, visited: seq<Host>,
                        src: Host, data: Payload, todo: set<Host>, n: Host)
      requires FloodState(made, keys, visited0, visited, src, data, todo + {n})
      requires n in keys && n !in visited && n !in todo
      ensures var f := FloodFrame(n, |made|, visited0, src, data);
        && f == Frame(Some(n), name, true, visited + [name], Datagram(src, n, data))
        && FloodState(made + [f], keys, visited0, visited + [name], src, data, todo)
    {
      var targets := keys - (set x | x in visited0);
      assert n in targets by {
        assert forall x :: x in visited0 ==> x in visited;
      }
      assert visited + [name] == visited0 + Repeat(name, |made| + 1);
      FloodRunStep(made, targets, visited0, src, data, n);
    }

    /** `receive`: ignore 'stop'; otherwise overwrite the mapping entries
        for the reported names and keep every other entry. */
    method Receive(src: Host, data: HnsData)
      modifies this`mapping
      ensures data.Stop? ==> mapping == old(mapping)
      ensures data.Mapping? ==> mapping == old(mapping) + data.entries
      ensures sent == old(sent)
    {
      if data.Stop? {
        return;
      }
      var mt := map[];
      var todo := data.entries.Keys;
      while todo != {}
        invariant todo <= data.entries.Keys
        invariant mt.Keys == data.entries.Keys - todo
        invariant forall k :: k in mt ==> mt[k] == data.entries[k]
        decreases todo
      {
        var key :| key in todo;
        mt := mt[key := data.entries[key]];
        todo := todo - {key};
      }
      assert mt == data.entries;
      mapping := mapping + mt;
    }

    /** `run`: register this transport as the receiver of its own tag,
        then `_send_to_hns`: a privileged frame to the name server carrying
        `registration`, the JSON text of self's name and address. */
    method Run(registration: Body) returns (r: Result<Frame>)
      modifies this`sent, dispatcher
      ensures dispatcher.registry == old(dispatcher.registry)[TransportTag := TransportId]
      ensures dispatcher.calls == old(dispatcher.calls) && mapping == old(mapping)
      ensures r.Success? && r.value.nextName == Some("hns")
      ensures r.value.datagram == Datagram(name, "hns", Payload(TransportTag, registration, Some([name])))
      ensures sent == old(sent) + Deliverable([r.value], mapping)
    {
      dispatcher.Register(TransportTag, TransportId);
      r := Send("hns", Payload(TransportTag, registration, None), true);
    }

    /** `_process`: a flooded frame is first passed on to the neighbours
        not in its `visited`, with its own source and data. Then a frame
        for this host is dispatched by its data's tag, and any other frame
        is forwarded towards its destination with its original source; a
        forward the routing model cannot route is dropped quietly. After a
        dispatch the source logs the `passed_by` list; a flooded frame has
        none, so that step raises KeyError (after the dispatch). A dispatch
        to this transport's own tag reaches `Receive`, with `hns` the data
        as it decodes there. */
    method Process(frame: Frame, hns: HnsData) returns (r: Result<()>, ghost flooded: seq<Frame>)
      modifies this`sent, this`mapping, dispatcher
      ensures dispatcher.registry == old(dispatcher.registry)
      ensures !frame.broadcasting ==> flooded == []
      ensures frame.broadcasting ==>
        var targets := neighbor.table.Keys - (set x | x in frame.visited);
        && FloodRun(flooded, targets, frame.visited, frame.datagram.src, frame.datagram.data)
        && targets - {name} <= Dests(flooded)
      ensures var d := frame.datagram;
        var own := d.dest == name && d.data.kind in dispatcher.registry
                   && dispatcher.registry[d.data.kind] == TransportId;
        mapping == if own && hns.Mapping? then old(mapping) + hns.entries else old(mapping)
      ensures var d := frame.datagram;
        if d.dest == name then
          && sent == old(sent) + Deliverable(flooded, old(mapping))
          && dispatcher.calls == old(dispatcher.calls)
               + (if d.data.kind in dispatcher.registry
                  then [Call(dispatcher.registry[d.data.kind], d.src, d.data.body)] else [])
          && (r.Failure? <==> d.data.passedBy.None?)
        else
          && dispatcher.calls == old(dispatcher.calls)
          && (d.data.passedBy.None? ==>
                r == Failure(KeyError) && sent == old(sent) + Deliverable(flooded, mapping))
          && (d.data.passedBy.Some? ==>
                var stamped := d.data.(passedBy := Some(d.data.passedBy.value + [name]));
                var f := MakeFrame(d.dest, Datagram(d.src, d.dest, stamped), false, [], false);
                && r == Success(())
                && sent == old(sent) + Deliverable(flooded, mapping)
                           + (if f.Some? then Deliverable([f.value], mapping) else []))
    {
      flooded := [];
      if frame.broadcasting {
        flooded := Broadcasting(Relay(frame.visited, frame.datagram.src, frame.datagram.data));
      }
      var d := frame.datagram;
      if d.dest == name {
        var handled := dispatcher.Dispatch(d.data.kind, d.src, d.data.body);
        if handled && dispatcher.registry[d.data.kind] == TransportId {
          Receive(d.src, hns);
        }
        if d.data.passedBy.None? {
          return Failure(KeyError), flooded;
        }
        return Success(()), flooded;
      }
      var forwarded := SendData(d.src, d.dest, d.data, false);
      if forwarded == Failure(KeyError) {
        return Failure(KeyError), flooded;
      }
      return Success(()), flooded;
    }
  }
}
