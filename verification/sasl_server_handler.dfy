/** The server-side handler of a worker's connections: it may drop the very first request
    of the process to simulate a failure, runs SASL token messages itself with the
    channel's session, and passes every other request on. */
module NettyHandler {
  import opened Dispatch

  /** The process-wide "first request already closed" flag; every handler holds the same
      object, as every handler instance reads and writes the one static field. */
  class FirstRequestFlag {
    var alreadyClosed: bool

    constructor ()
      ensures !alreadyClosed
    {
      alreadyClosed := false;
    }
  }

  /** The process-wide map from channel to SASL server session. `created` counts the
      sessions ever constructed and gives each a distinct identity. */
  class SessionRegistry {
    var sessions: map<Channel, Session>
    var created: nat

    constructor ()
      ensures sessions == map[] && created == 0
    {
      sessions := map[];
      created := 0;
    }

    method Get(ch: Channel) returns (found: Option<Session>)
      ensures found.Some? <==> ch in sessions
      ensures found.Some? ==> found.value == sessions[ch]
    {
      found := if ch in sessions then Some(sessions[ch]) else None;
    }

    /** Constructs a session different from every one constructed before. */
    method NewSession() returns (session: Session)
      modifies this
      ensures session.serial == old(created) && created == old(created) + 1
      ensures sessions == old(sessions)
    {
      session := Session(created);
      created := created + 1;
    }

    method Set(ch: Channel, session: Session)
      modifies this
      ensures sessions == old(sessions)[ch := session] && created == old(created)
    {
      sessions := sessions[ch := session];
    }
  }

  class SaslServerHandler {
    /** Close the connection on the first request, to simulate a failure. */
    const closeFirstRequest: bool
    const firstRequest: FirstRequestFlag
    const registry: SessionRegistry

    /** `closeFirstRequest` is the job's simulated-first-request-closed option. */
    constructor (firstRequest: FirstRequestFlag, registry: SessionRegistry, closeFirstRequest: bool)
      ensures this.firstRequest == firstRequest && this.registry == registry
      ensures this.closeFirstRequest == closeFirstRequest
    {
      this.firstRequest := firstRequest;
      this.registry := registry;
      this.closeFirstRequest := closeFirstRequest;
    }

    /** The state shared with every other handler of the process. */
    function State(): Shared
      reads firstRequest, registry
    {
      Shared(firstRequest.alreadyClosed, registry.sessions, registry.created)
    }

    method MessageReceived(ch: Channel, req: Request) returns (a: Action)
      modifies firstRequest, registry
      ensures (State(), a) == Receive(old(State()), closeFirstRequest, ch, req)
    {
      if closeFirstRequest && !firstRequest.alreadyClosed {
        firstRequest.alreadyClosed := true;
        return CloseChannel(ch);
      }
      if req.kind == SaslTokenMessage {
        var found := registry.Get(ch);
        var session: Session;
        if found.None? {
          session := registry.NewSession();
          registry.Set(ch, session);
        } else {
          session := found.value;
        }
        a := DoRequest(session, req);
      } else {
        a := SendUpstream(req);
      }
    }

    method ChannelConnected(ch: Channel) returns (a: Action)
      ensures (State(), a) == Handle(State(), closeFirstRequest, Connected(ch))
    {
      a := NoAction;
    }

    method ChannelClosed(ch: Channel) returns (a: Action)
      ensures (State(), a) == Handle(State(), closeFirstRequest, Closed(ch))
    {
      a := NoAction;
    }

    method ExceptionCaught(ch: Channel) returns (a: Action)
      ensures (State(), a) == Handle(State(), closeFirstRequest, Failed(ch))
    {
      a := NoAction;
    }
  }

  /** Two handlers of one process share the static flag and the channel-session map, and
      start from `Dispatch.Start()`, where the registry invariant holds. With the option on,
      the first request either handler sees is dropped and the next one is not. */
  method TwoHandlersShareOneDrop(ch1: Channel, ch2: Channel, req: Request)
    returns (h1: SaslServerHandler, h2: SaslServerHandler, first: Action, second: Action)
    ensures h1.firstRequest == h2.firstRequest && h1.registry == h2.registry
    ensures first == CloseChannel(ch1)
    ensures req.kind == SaslTokenMessage ==> second == DoRequest(Session(0), req)
    ensures req.kind != SaslTokenMessage ==> second == SendUpstream(req)
  {
    var flag := new FirstRequestFlag();
    var registry := new SessionRegistry();
    h1 := new SaslServerHandler(flag, registry, true);
    h2 := new SaslServerHandler(flag, registry, true);
    assert h1.State() == h2.State() == Start();
    assert Valid(h2.State());
    first := h1.MessageReceived(ch1, req);
    second := h2.MessageReceived(ch2, req);
  }
}
