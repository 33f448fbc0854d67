/** The data dispatcher (src/routing/dispatcher.py): a registry from data
    tag to the module that receives data of that tag. */
module Dispatching {
  import opened Common

  type Tag = string

  /** A receiving module, identified by name; what its `receive` does is
      that module's business and is not part of this model. */
  type ReceiverId = string

  /** One `receiver.receive(source, data)` call. */
  datatype Call<D> = Call(receiver: ReceiverId, source: Host, data: D)

  class DataDispatcher<D> {
    var registry: map<Tag, ReceiverId>
    /** Every receive call made so far, oldest first. */
    var calls: seq<Call<D>>

    constructor()
      ensures registry == map[] && calls == []
    {
      registry := map[];
      calls := [];
    }

    /** The last registration for a tag wins; other tags keep theirs. */
    method Register(t: Tag, receiver: ReceiverId)
      modifies this
      ensures registry == old(registry)[t := receiver]
      ensures calls == old(calls)
    {
      registry := registry[t := receiver];
    }

    /** The receiver registered for `t`, if any. */
    function Lookup(t: Tag): (r: Option<ReceiverId>)
      reads this
      ensures r.Some? <==> t in registry
      ensures r.Some? ==> r.value == registry[t]
    {
      if t in registry then Some(registry[t]) else None
    }

    /** Hand the data to the receiver of its tag. An unknown tag calls
        nothing and answers false; a known one calls its receiver once and
        answers true. The registry never changes. */
    method Dispatch(t: Tag, source: Host, data: D) returns (handled: bool)
      modifies this
      ensures handled <==> t in registry
      ensures registry == old(registry)
      ensures calls == if handled then old(calls) + [Call(registry[t], source, data)] else old(calls)
    {
      var receiver := Lookup(t);
      if receiver.None? {
        return false;
      }
      calls := calls + [Call(receiver.value, source, data)];
      return true;
    }
  }
}
