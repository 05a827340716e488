/** The message store a worker fills during one superstep and reads during the next.
    Its per-partition indexing is abstracted away: a store is the sequence of messages
    it holds, in arrival order. */
module MessageStores {

  class MessageStore<M> {
    /** Every message the store currently holds. */
    var messages: seq<M>

    constructor ()
      ensures messages == []
    {
      messages := [];
    }

    /** Peers' message requests add to a store. */
    method AddMessages(ms: seq<M>)
      modifies this
      ensures messages == old(messages) + ms
    {
      messages := messages + ms;
    }

    /** Empties the store. `ioError` is the outcome of the store's own I/O: when it fails
        the call reports failure and the contents are unknown. */
    method ClearAll(ioError: bool) returns (ok: bool)
      modifies this
      ensures ok == !ioError
      ensures ok ==> messages == []
    {
      ok := !ioError;
      if ok {
        messages := [];
      }
    }
  }

  /** Hands out a fresh, empty store on each call. */
  class MessageStoreFactory<M> {
    constructor ()
    {
    }

    method NewStore() returns (s: MessageStore<M>)
      ensures fresh(s) && s.messages == []
    {
      s := new MessageStore();
    }
  }
}
