/** What a worker's request handlers decide for each channel event, and the process-wide
    state they share: the one-shot "first request already closed" flag and the registry
    of SASL server sessions, one per channel. */
module Dispatch {

  datatype Option<T> = None | Some(value: T)

  /** A network connection from a peer, by identity. */
  datatype Channel = Channel(id: nat)

  /** Only the SASL token message is told apart by the handler. */
  datatype RequestType = SaslTokenMessage | Other(name: string)

  datatype Request = Request(kind: RequestType, clientId: int, requestId: int)

  /** A SASL server session, identified by the order in which it was created. */
  datatype Session = Session(serial: nat)

  /** What the handler does with an event. */
  datatype Action =
    | CloseChannel(channel: Channel)                 // drop: close the connection
    | DoRequest(session: Session, request: Request)  // run a SASL request locally
    | SendUpstream(request: Request)                 // hand the request to the next handler
    | NoAction

  /** The events a handler is called for. */
  datatype Event =
    | Connected(channel: Channel)
    | Message(channel: Channel, request: Request)
    | Closed(channel: Channel)
    | Failed(channel: Channel)

  /** An event delivered to a handler whose simulated-failure option is `closeFirstRequest`. */
  datatype Delivery = Delivery(closeFirstRequest: bool, event: Event)

  /** State shared by every handler of the process. `created` counts the sessions ever
      created; the next one gets that number as its serial. */
  datatype Shared = Shared(alreadyClosedFirstRequest: bool, sessions: map<Channel, Session>, created: nat)

  /** Every registered session was created earlier, and no two channels share one. */
  ghost predicate Valid(s: Shared)
  {
    (forall ch :: ch in s.sessions ==> s.sessions[ch].serial < s.created) &&
    (forall c, d :: c in s.sessions && d in s.sessions && c != d ==> s.sessions[c] != s.sessions[d])
  }

  /** The state before any handler has seen anything. */
  function Start(): (s: Shared)
    ensures Valid(s)
  {
    Shared(false, map[], 0)
  }

  /** A request received on `ch`. The simulated failure comes first and fires once for the
      whole process: the channel is closed and nothing else happens. Otherwise a SASL token
      message is run locally with the channel's session, created on first use; any other
      request is passed on untouched. */
  function Receive(s: Shared, closeFirstRequest: bool, ch: Channel, req: Request): (r: (Shared, Action))
    // the drop happens exactly when the option is on and the flag still unset
    ensures r.1.CloseChannel? <==> closeFirstRequest && !s.alreadyClosedFirstRequest
    // the flag is set afterwards exactly when it was set before or the option is on
    ensures r.0.alreadyClosedFirstRequest <==> s.alreadyClosedFirstRequest || closeFirstRequest
    // a drop closes this channel and touches no session
    ensures r.1.CloseChannel? ==> r.1.channel == ch && r.0.sessions == s.sessions && r.0.created == s.created
    // a SASL token message that is not dropped runs with this channel's session, never upstream
    ensures !r.1.CloseChannel? && req.kind == SaslTokenMessage ==>
              ch in r.0.sessions && r.1 == DoRequest(r.0.sessions[ch], req)
    // an existing session is reused, no new one is made
    ensures ch in s.sessions ==> r.0.sessions == s.sessions && r.0.created == s.created
    // a missing one is created once, registered for this channel, and differs from all others
    ensures ch !in s.sessions && r.1.DoRequest? ==>
              r.0.sessions == s.sessions[ch := r.1.session] && r.0.created == s.created + 1
    ensures Valid(s) && ch !in s.sessions && r.1.DoRequest? ==> r.1.session !in s.sessions.Values
    // anything else is forwarded unchanged and leaves the sessions alone
    ensures !r.1.CloseChannel? && req.kind != SaslTokenMessage ==>
              r.1 == SendUpstream(req) && r.0.sessions == s.sessions && r.0.created == s.created
    // other channels' sessions are untouched
    ensures forall c :: c != ch ==> (c in r.0.sessions <==> c in s.sessions)
    ensures forall c :: c != ch && c in s.sessions ==> r.0.sessions[c] == s.sessions[c]
    ensures Valid(s) ==> Valid(r.0)
  {
    if closeFirstRequest && !s.alreadyClosedFirstRequest then
      (s.(alreadyClosedFirstRequest := true), CloseChannel(ch))
    else if req.kind == SaslTokenMessage then
      if ch in s.sessions then
        (s, DoRequest(s.sessions[ch], req))
      else
        var session := Session(s.created);
        (s.(sessions := s.sessions[ch := session], created := s.created + 1), DoRequest(session, req))
    else
      (s, SendUpstream(req))
  }

  /** Any event: connecting, closing and failing only log. */
  function Handle(s: Shared, closeFirstRequest: bool, e: Event): (Shared, Action)
  {
    match e
    case Message(ch, req) => Receive(s, closeFirstRequest, ch, req)
    case _ => (s, NoAction)
  }

  /** The shared state and the actions after a sequence of deliveries, possibly to
      different handlers. */
  function Run(s: Shared, ds: seq<Delivery>): (r: (Shared, seq<Action>))
    ensures |r.1| == |ds|
    decreases |ds|
  {
    if ds == [] then (s, [])
    else
      var step := Handle(s, ds[0].closeFirstRequest, ds[0].event);
      var rest := Run(step.0, ds[1..]);
      (rest.0, [step.1] + rest.1)
  }

  /** How many channels were closed to simulate a failure. */
  function Drops(actions: seq<Action>): nat
    decreases |actions|
  {
    if actions == [] then 0 else (if actions[0].CloseChannel? then 1 else 0) + Drops(actions[1..])
  }

  /** The flag is never reset, and across all handlers at most one request is dropped:
      exactly one when the run is what set the flag, none otherwise. */
  lemma {:induction false} FirstRequestClosedOnce(s: Shared, ds: seq<Delivery>)
    ensures s.alreadyClosedFirstRequest ==> Run(s, ds).0.alreadyClosedFirstRequest
    ensures Drops(Run(s, ds).1) ==
              if !s.alreadyClosedFirstRequest && Run(s, ds).0.alreadyClosedFirstRequest then 1 else 0
    decreases |ds|
  {
    if ds != [] {
      var step := Handle(s, ds[0].closeFirstRequest, ds[0].event);
      FirstRequestClosedOnce(step.0, ds[1..]);
      assert Run(s, ds).1 == [step.1] + Run(step.0, ds[1..]).1;
      assert step.0.alreadyClosedFirstRequest == (s.alreadyClosedFirstRequest || step.1.CloseChannel?);
    }
  }

  /** Handlers with the option off never drop a request and never change the flag. */
  lemma {:induction false} DisabledNeverDrops(s: Shared, ds: seq<Delivery>)
    requires forall i :: 0 <= i < |ds| ==> !ds[i].closeFirstRequest
    ensures Run(s, ds).0.alreadyClosedFirstRequest == s.alreadyClosedFirstRequest
    ensures Drops(Run(s, ds).1) == 0
    decreases |ds|
  {
    if ds != [] {
      var step := Handle(s, ds[0].closeFirstRequest, ds[0].event);
      assert !ds[0].closeFirstRequest;
      DisabledNeverDrops(step.0, ds[1..]);
      assert Run(s, ds).1 == [step.1] + Run(step.0, ds[1..]).1;
    }
  }

  /** A delivery that can trigger the simulated failure: a request reaching a handler whose
      option is on. */
  predicate Qualifies(d: Delivery)
  {
    d.closeFirstRequest && d.event.Message?
  }

  /** Once the flag is set, no later event is dropped. */
  lemma {:induction false} NoDropsAfterSet(s: Shared, ds: seq<Delivery>)
    requires s.alreadyClosedFirstRequest
    ensures forall i :: 0 <= i < |ds| ==> !Run(s, ds).1[i].CloseChannel?
    decreases |ds|
  {
    if ds != [] {
      var step := Handle(s, ds[0].closeFirstRequest, ds[0].event);
      NoDropsAfterSet(step.0, ds[1..]);
      var acts := Run(s, ds).1;
      assert acts == [step.1] + Run(step.0, ds[1..]).1;
      forall i | 0 <= i < |ds|
        ensures !acts[i].CloseChannel?
      {
        if i > 0 {
          assert acts[i] == Run(step.0, ds[1..]).1[i - 1];
        }
      }
    }
  }

  /** While the flag is unset, the request dropped is precisely the first one that reaches a
      handler with the option on, whichever handler and channel that is; nothing else in
      the run is dropped. */
  lemma {:induction false} FirstQualifyingRequestDropped(s: Shared, ds: seq<Delivery>, k: nat)
    requires !s.alreadyClosedFirstRequest
    requires k < |ds| && Qualifies(ds[k])
    requires forall j :: 0 <= j < k ==> !Qualifies(ds[j])
    ensures forall i :: 0 <= i < |ds| ==> (Run(s, ds).1[i].CloseChannel? <==> i == k)
    decreases |ds|
  {
    var step := Handle(s, ds[0].closeFirstRequest, ds[0].event);
    var acts := Run(s, ds).1;
    assert acts == [step.1] + Run(step.0, ds[1..]).1;
    if k == 0 {
      assert step.1.CloseChannel? && step.0.alreadyClosedFirstRequest;
      NoDropsAfterSet(step.0, ds[1..]);
    } else {
      assert !Qualifies(ds[0]);
      assert !step.1.CloseChannel? && !step.0.alreadyClosedFirstRequest;
      forall j | 0 <= j < k - 1
        ensures !Qualifies(ds[1..][j])
      {
        assert ds[1..][j] == ds[j + 1];
      }
      FirstQualifyingRequestDropped(step.0, ds[1..], k - 1);
    }
    forall i | 0 < i < |ds|
      ensures acts[i] == Run(step.0, ds[1..]).1[i - 1]
    {
    }
  }

  /** Once registered, a channel's session is never removed or replaced, whatever events
      follow (closing the channel included). */
  lemma {:induction false} SessionsPersist(s: Shared, ds: seq<Delivery>)
    ensures forall ch :: ch in s.sessions ==>
              ch in Run(s, ds).0.sessions && Run(s, ds).0.sessions[ch] == s.sessions[ch]
    ensures s.created <= Run(s, ds).0.created
    decreases |ds|
  {
    if ds != [] {
      var step := Handle(s, ds[0].closeFirstRequest, ds[0].event);
      SessionsPersist(step.0, ds[1..]);
    }
  }

  /** One event creates a session exactly when it registers a new channel. */
  lemma HandleRegistersWhatItCreates(s: Shared, closeFirstRequest: bool, e: Event)
    requires Valid(s)
    ensures Valid(Handle(s, closeFirstRequest, e).0)
    ensures s.sessions.Keys <= Handle(s, closeFirstRequest, e).0.sessions.Keys
    ensures Handle(s, closeFirstRequest, e).0.created - s.created ==
              |Handle(s, closeFirstRequest, e).0.sessions.Keys - s.sessions.Keys|
  {
  }

  lemma CardinalityOfNested<T>(k0: set<T>, k1: set<T>, kf: set<T>)
    requires k0 <= k1 <= kf
    ensures |kf - k0| == |kf - k1| + |k1 - k0|
  {
  }

  /** Exactly one session is created per channel that gets one: the number of sessions a
      run creates is the number of channels it newly registers, and the registry stays
      valid. */
  lemma {:induction false} OneSessionPerChannel(s: Shared, ds: seq<Delivery>)
    requires Valid(s)
    ensures Valid(Run(s, ds).0)
    ensures s.sessions.Keys <= Run(s, ds).0.sessions.Keys
    ensures Run(s, ds).0.created - s.created == |Run(s, ds).0.sessions.Keys - s.sessions.Keys|
    decreases |ds|
  {
    if ds == [] {
      assert Run(s, ds).0.sessions.Keys - s.sessions.Keys == {};
    } else {
      var s1 := Handle(s, ds[0].closeFirstRequest, ds[0].event).0;
      HandleRegistersWhatItCreates(s, ds[0].closeFirstRequest, ds[0].event);
      OneSessionPerChannel(s1, ds[1..]);
      var fin := Run(s1, ds[1..]).0;
      assert Run(s, ds).0 == fin;
      CardinalityOfNested(s.sessions.Keys, s1.sessions.Keys, fin.sessions.Keys);
    }
  }

  /** Every action fits its event: a request is either dropped or, if it is a SASL token
      message, run locally with some session and never forwarded, or otherwise forwarded
      unchanged; connecting, closing and failing do nothing. */
  ghost predicate Fits(e: Event, a: Action)
  {
    match e
    case Message(ch, req) =>
      a == CloseChannel(ch) ||
      (if req.kind == SaslTokenMessage then a.DoRequest? && a.request == req else a == SendUpstream(req))
    case _ => a == NoAction
  }

  lemma {:induction false} RunActionsFit(s: Shared, ds: seq<Delivery>)
    ensures forall i :: 0 <= i < |ds| ==> Fits(ds[i].event, Run(s, ds).1[i])
    decreases |ds|
  {
    if ds != [] {
      var step := Handle(s, ds[0].closeFirstRequest, ds[0].event);
      RunActionsFit(step.0, ds[1..]);
      var acts := Run(s, ds).1;
      assert acts == [step.1] + Run(step.0, ds[1..]).1;
      forall i | 0 <= i < |ds|
        ensures Fits(ds[i].event, acts[i])
      {
        if i > 0 {
          assert ds[i] == ds[1..][i - 1];
        }
      }
    }
  }

  /** Connecting, closing and failing, however many and in whatever order, change no
      shared state: in particular a closed channel keeps its session. */
  lemma {:induction false} LifecycleEventsChangeNothing(s: Shared, ds: seq<Delivery>)
    requires forall i :: 0 <= i < |ds| ==> !ds[i].event.Message?
    ensures Run(s, ds).0 == s
    ensures forall i :: 0 <= i < |ds| ==> Run(s, ds).1[i] == NoAction
    decreases |ds|
  {
    if ds != [] {
      var step := Handle(s, ds[0].closeFirstRequest, ds[0].event);
      assert !ds[0].event.Message?;
      LifecycleEventsChangeNothing(step.0, ds[1..]);
      var acts := Run(s, ds).1;
      assert acts == [step.1] + Run(step.0, ds[1..]).1;
      forall i | 0 <= i < |ds|
        ensures acts[i] == NoAction
      {
        if i > 0 {
          assert ds[i] == ds[1..][i - 1];
        }
      }
    }
  }
}
