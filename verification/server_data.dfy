/** What a worker's server keeps between requests: the two superstep message stores, the
    vertices arriving for its partitions and the pending vertex mutations. */
module Comm {
  import opened MessageStores
  import Handoff

  /** How a superstep boundary ends: normally, or with the fatal error that aborts the
      worker. */
  datatype Outcome = Done | Fatal(message: string)

  const ClearFailedMessage := "Failed to clear previous message store"

  /** Partition id to the vertices other workers sent for it. One object, shared with the
      request handlers that fill it in place. */
  class PartitionVertexMap<Vtx> {
    var entries: map<int, seq<Vtx>>

    constructor ()
      ensures entries == map[]
    {
      entries := map[];
    }
  }

  /** Vertex id to the mutations other workers sent for it. One object, shared with the
      request handlers that fill it in place. */
  class VertexMutationMap<I(==), Mutations> {
    var entries: map<I, Mutations>

    constructor ()
      ensures entries == map[]
    {
      entries := map[];
    }
  }

  /** I: vertex id, Vtx: vertex, Mutations: a vertex's pending mutations, M: message. */
  class ServerData<I(==), Vtx, Mutations, M> {
    /** Vertices arriving for this worker's partitions. */
    const inPartitionVertexMap: PartitionVertexMap<Vtx>
    const messageStoreFactory: MessageStoreFactory<M>
    /** Messages that will be consumed in the next superstep. */
    var incomingMessageStore: MessageStore?<M>
    /** Messages received in the previous superstep, consumed in this one. */
    var currentMessageStore: MessageStore?<M>
    /** Mutations pending for this worker's vertices. */
    const vertexMutations: VertexMutationMap<I, Mutations>

    /** Both roles are filled, and by two different stores. */
    ghost predicate Valid()
      reads this
    {
      currentMessageStore != null && incomingMessageStore != null &&
      currentMessageStore != incomingMessageStore
    }

    /** The contents of the two stores. */
    ghost function Stores(): Handoff.Buffer<M>
      requires Valid()
      reads this, currentMessageStore, incomingMessageStore
    {
      Handoff.Buffer(currentMessageStore.messages, incomingMessageStore.messages)
    }

    constructor (messageStoreFactory: MessageStoreFactory<M>)
      ensures Valid()
      ensures fresh(currentMessageStore) && fresh(incomingMessageStore)
      ensures Stores() == Handoff.Initial()
      ensures this.messageStoreFactory == messageStoreFactory
      ensures fresh(inPartitionVertexMap) && fresh(vertexMutations)
      ensures inPartitionVertexMap.entries == map[] && vertexMutations.entries == map[]
    {
      inPartitionVertexMap := new PartitionVertexMap();
      vertexMutations := new VertexMutationMap();
      this.messageStoreFactory := messageStoreFactory;
      var current := messageStoreFactory.NewStore();
      var incoming := messageStoreFactory.NewStore();
      currentMessageStore := current;
      incomingMessageStore := incoming;
    }

    /** The live map itself: what a caller adds to it, the server holds. */
    method GetPartitionVertexMap() returns (m: PartitionVertexMap<Vtx>)
      ensures m == inPartitionVertexMap
    {
      m := inPartitionVertexMap;
    }

    /** The store that collects messages for the next superstep; changes nothing. */
    method GetIncomingMessageStore() returns (s: MessageStore<M>)
      requires Valid()
      ensures s == incomingMessageStore && s != currentMessageStore
    {
      s := incomingMessageStore;
    }

    /** The store this superstep's computation reads; changes nothing. */
    method GetCurrentMessageStore() returns (s: MessageStore<M>)
      requires Valid()
      ensures s == currentMessageStore && s != incomingMessageStore
    {
      s := currentMessageStore;
    }

    /** The superstep boundary. The old current store is cleared first; if that fails
        (`clearFails`) the worker gets a fatal error and no role changes. Otherwise the
        incoming store becomes current and a new empty store becomes incoming. */
    method PrepareSuperstep(clearFails: bool) returns (r: Outcome)
      requires Valid()
      modifies this, currentMessageStore
      ensures Valid()
      ensures r == if clearFails then Fatal(ClearFailedMessage) else Done
      ensures r.Done? ==> old(currentMessageStore).messages == []
      ensures r.Done? ==> currentMessageStore == old(incomingMessageStore)
      ensures r.Done? ==> fresh(incomingMessageStore)
      ensures r.Done? ==> Stores() == Handoff.Advance(old(Stores()))
      ensures r.Fatal? ==> currentMessageStore == old(currentMessageStore)
      ensures r.Fatal? ==> incomingMessageStore == old(incomingMessageStore)
      ensures r.Fatal? ==> incomingMessageStore.messages == old(incomingMessageStore.messages)
      ensures unchanged(inPartitionVertexMap, vertexMutations)
    {
      if currentMessageStore != null {
        var cleared := currentMessageStore.ClearAll(clearFails);
        if !cleared {
          return Fatal(ClearFailedMessage);
        }
      }
      currentMessageStore := incomingMessageStore;
      incomingMessageStore := messageStoreFactory.NewStore();
      r := Done;
    }

    /** The live map itself: what a caller adds to it, the server holds. */
    method GetVertexMutations() returns (m: VertexMutationMap<I, Mutations>)
      ensures m == vertexMutations
    {
      m := vertexMutations;
    }
  }
}
