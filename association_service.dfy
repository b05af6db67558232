/**
 * `AssociationService`: the default handlers for the association PDUs a DICOM node
 * receives (association establishment and release, DICOM PS3.8 section 9.2) and the
 * events they raise. Each handler raises its event, then updates the association:
 * its state, agreed presentation contexts, user information, time of last activity
 * and queue of outbound messages, and what it sends or releases.
 */
module AssociationServices {
  import opened Wrappers

  /** The states of an association the handlers set; every other state is `OtherState`. */
  datatype NetworkState =
    | TRANSPORT_CONNECTION_OPEN
    | ASSOCIATION_ESTABLISHED_WAITING_ON_DATA
    | CLOSING_ASSOCIATION
    | OtherState(code: nat)

  datatype PresentationContext = PresentationContext(id: nat, abstractSyntax: string, transferSyntaxes: seq<string>)

  datatype UserInfo = UserInfo(maxPduLength: nat, implementationClassUid: string)

  /** A DIMSE message waiting to be sent in P-DATA. */
  datatype Dimse = Dimse(commandField: nat, messageId: nat)

  /** The association PDUs a node receives. */
  datatype Incoming =
    | Abort
    | Request(requestContexts: seq<PresentationContext>, requestUserInfo: UserInfo)
    | Accept(acceptContexts: seq<PresentationContext>, acceptUserInfo: UserInfo)
    | Reject
    | ReleaseRequest
    | ReleaseResponse

  /** The events of the service, one per incoming PDU. */
  datatype EventKind =
    | AbortRequestReceived
    | AssociationRequestReceived
    | AssociationAcceptanceReceived
    | AssociationRejectionReceived
    | ReleaseRequestReceived
    | ReleaseResponseReceived

  function EventOf(pdu: Incoming): EventKind {
    match pdu
    case Abort => AbortRequestReceived
    case Request(_, _) => AssociationRequestReceived
    case Accept(_, _) => AssociationAcceptanceReceived
    case Reject => AssociationRejectionReceived
    case ReleaseRequest => ReleaseRequestReceived
    case ReleaseResponse => ReleaseResponseReceived
  }

  /** What the node sends: an accept generated from the request and the agreed contexts, a reject, a release response or a message. */
  datatype Outgoing =
    | SentAccept(request: Incoming, contexts: seq<PresentationContext>)
    | SentReject
    | SentReleaseResponse
    | SentData(message: Dimse)

  /** What can be observed of a handler, in order: subscribers notified, a PDU sent, the association released. */
  datatype Effect =
    | Notified(event: Incoming, stateSeen: NetworkState)
    | Sent(pdu: Outgoing)
    | Released

  /** The fields of an association the handlers read and write, and the effects so far. */
  datatype AssociationState = AssociationState(
    state: NetworkState,
    presentationContexts: seq<PresentationContext>,
    userInfo: UserInfo,
    lastActive: int,
    outbound: seq<Dimse>,
    trace: seq<Effect>
  )

  /** The `Raise*` methods: the subscribers are called only when there are any. */
  function Notify(subscribed: set<EventKind>, pdu: Incoming, state: NetworkState): seq<Effect> {
    if EventOf(pdu) in subscribed then [Notified(pdu, state)] else []
  }

  /** Every queued message sent as P-DATA, in queue order. */
  function SendAll(messages: seq<Dimse>): (effects: seq<Effect>)
    ensures |effects| == |messages|
    ensures forall i :: 0 <= i < |messages| ==> effects[i] == Sent(SentData(messages[i]))
  {
    if |messages| == 0 then [] else [Sent(SentData(messages[0]))] + SendAll(messages[1..])
  }

  /**
   * The default handler for `pdu`. `negotiate` stands for `GetResponseContexts` and
   * `finalContexts` for `SetFinalContexts`, which are not part of this model; `now` is
   * the clock reading the handler stores.
   */
  function Handle(
    negotiate: seq<PresentationContext> -> seq<PresentationContext>,
    finalContexts: (seq<PresentationContext>, Incoming) -> seq<PresentationContext>,
    subscribed: set<EventKind>, s: AssociationState, pdu: Incoming, now: int): AssociationState
  {
    var t := s.trace + Notify(subscribed, pdu, s.state);
    match pdu
    case Request(contexts, info) =>
      var ctxs := negotiate(contexts);
      if |ctxs| > 0 then
        s.(userInfo := info, state := ASSOCIATION_ESTABLISHED_WAITING_ON_DATA, lastActive := now,
           presentationContexts := ctxs, trace := t + [Sent(SentAccept(pdu, ctxs))])
      else
        s.(state := CLOSING_ASSOCIATION, lastActive := now, trace := t + [Sent(SentReject)])
    case Accept(_, info) =>
      var ctxs := finalContexts(s.presentationContexts, pdu);
      if |ctxs| > 0 then
        s.(presentationContexts := ctxs, userInfo := info, state := TRANSPORT_CONNECTION_OPEN,
           outbound := [], trace := t + SendAll(s.outbound))
      else
        s.(presentationContexts := ctxs, trace := t + [Released])
    case ReleaseRequest =>
      s.(trace := t + [Sent(SentReleaseResponse), Released])
    case _ =>
      s.(trace := t + [Released])
  }

  /** The PDUs among the effects, in order. */
  function SentPdus(effects: seq<Effect>): seq<Outgoing> {
    if |effects| == 0 then []
    else (if effects[0].Sent? then [effects[0].pdu] else []) + SentPdus(effects[1..])
  }

  lemma {:induction false} SentPdusAppend(a: seq<Effect>, b: seq<Effect>)
    ensures SentPdus(a + b) == SentPdus(a) + SentPdus(b)
  {
    if |a| > 0 {
      SentPdusAppend(a[1..], b);
      assert (a + b)[1..] == a[1..] + b;
    } else {
      assert a + b == b;
    }
  }

  lemma {:induction false} SentPdusOfSendAll(messages: seq<Dimse>)
    ensures SentPdus(SendAll(messages)) == seq(|messages|, i requires 0 <= i < |messages| => SentData(messages[i]))
  {
    if |messages| > 0 {
      SentPdusOfSendAll(messages[1..]);
      assert SendAll(messages)[1..] == SendAll(messages[1..]);
    }
  }

  /** A handler only appends to what has been observed, and starts with its event, seen in the state before any change. */
  lemma EventBeforeChange(
    negotiate: seq<PresentationContext> -> seq<PresentationContext>,
    finalContexts: (seq<PresentationContext>, Incoming) -> seq<PresentationContext>,
    subscribed: set<EventKind>, s: AssociationState, pdu: Incoming, now: int)
    ensures var r := Handle(negotiate, finalContexts, subscribed, s, pdu, now);
            |r.trace| >= |s.trace| && r.trace[..|s.trace|] == s.trace
            && (EventOf(pdu) in subscribed <==> |r.trace| > |s.trace| && r.trace[|s.trace|] == Notified(pdu, s.state))
            && forall i :: |s.trace| < i < |r.trace| ==> !r.trace[i].Notified?
  {
    var r := Handle(negotiate, finalContexts, subscribed, s, pdu, now);
    var t := s.trace + Notify(subscribed, pdu, s.state);
    assert r.trace[..|t|] == t;
    if pdu.Accept? && |finalContexts(s.presentationContexts, pdu)| > 0 {
      assert r.trace == t + SendAll(s.outbound);
    }
  }

  /**
   * A request is accepted exactly when some of its contexts are supported; then the
   * negotiated contexts and the request's user information are stored, otherwise neither changes.
   */
  lemma RequestAcceptedIffContexts(
    negotiate: seq<PresentationContext> -> seq<PresentationContext>,
    finalContexts: (seq<PresentationContext>, Incoming) -> seq<PresentationContext>,
    subscribed: set<EventKind>, s: AssociationState, req: Incoming, now: int)
    requires req.Request?
    ensures var r := Handle(negotiate, finalContexts, subscribed, s, req, now);
            var ctxs := negotiate(req.requestContexts);
            SentPdus(r.trace) == SentPdus(s.trace) + [if |ctxs| > 0 then SentAccept(req, ctxs) else SentReject]
            && r.lastActive == now && r.outbound == s.outbound
            && (|ctxs| > 0 <==> r.state == ASSOCIATION_ESTABLISHED_WAITING_ON_DATA)
            && (|ctxs| == 0 <==> r.state == CLOSING_ASSOCIATION)
            && (|ctxs| > 0 ==> r.userInfo == req.requestUserInfo && r.presentationContexts == ctxs)
            && (|ctxs| == 0 ==> r.presentationContexts == s.presentationContexts && r.userInfo == s.userInfo)
  {
    var r := Handle(negotiate, finalContexts, subscribed, s, req, now);
    var ctxs := negotiate(req.requestContexts);
    var t := s.trace + Notify(subscribed, req, s.state);
    var last := if |ctxs| > 0 then SentAccept(req, ctxs) else SentReject;
    SentPdusAppend(s.trace, Notify(subscribed, req, s.state));
    SentPdusAppend(t, [Sent(last)]);
    assert SentPdus(Notify(subscribed, req, s.state)) == [];
  }

  /**
   * An accept with agreed contexts stores the accept's user information, sends every
   * queued message, in queue order, and empties the queue; one without releases the
   * association and sends nothing.
   */
  lemma AcceptDrainsQueueInOrder(
    negotiate: seq<PresentationContext> -> seq<PresentationContext>,
    finalContexts: (seq<PresentationContext>, Incoming) -> seq<PresentationContext>,
    subscribed: set<EventKind>, s: AssociationState, acc: Incoming, now: int)
    requires acc.Accept?
    ensures var r := Handle(negotiate, finalContexts, subscribed, s, acc, now);
            var ctxs := finalContexts(s.presentationContexts, acc);
            r.presentationContexts == ctxs && r.lastActive == s.lastActive
            && (|ctxs| > 0 ==> r.outbound == [] && r.state == TRANSPORT_CONNECTION_OPEN && r.userInfo == acc.acceptUserInfo
                               && SentPdus(r.trace) == SentPdus(s.trace)
                                  + seq(|s.outbound|, i requires 0 <= i < |s.outbound| => SentData(s.outbound[i])))
            && (|ctxs| == 0 ==> r.outbound == s.outbound && r.state == s.state && r.userInfo == s.userInfo
                                && SentPdus(r.trace) == SentPdus(s.trace) && r.trace[|r.trace| - 1] == Released)
  {
    var ctxs := finalContexts(s.presentationContexts, acc);
    var n := Notify(subscribed, acc, s.state);
    SentPdusAppend(s.trace, n);
    assert SentPdus(n) == [];
    if |ctxs| > 0 {
      SentPdusAppend(s.trace + n, SendAll(s.outbound));
      SentPdusOfSendAll(s.outbound);
    } else {
      SentPdusAppend(s.trace + n, [Released]);
    }
  }

  /**
   * Abort, reject and release response release the association and send nothing;
   * a release request sends a release response, then releases. No field changes.
   */
  lemma ReleasingHandlers(
    negotiate: seq<PresentationContext> -> seq<PresentationContext>,
    finalContexts: (seq<PresentationContext>, Incoming) -> seq<PresentationContext>,
    subscribed: set<EventKind>, s: AssociationState, pdu: Incoming, now: int)
    requires pdu in {Abort, Reject, ReleaseRequest, ReleaseResponse}
    ensures var r := Handle(negotiate, finalContexts, subscribed, s, pdu, now);
            r.(trace := s.trace) == s
            && SentPdus(r.trace) == SentPdus(s.trace) + (if pdu == ReleaseRequest then [SentReleaseResponse] else [])
            && r.trace[|r.trace| - 1] == Released
  {
    var n := Notify(subscribed, pdu, s.state);
    var tail := if pdu == ReleaseRequest then [Sent(SentReleaseResponse), Released] else [Released];
    assert Handle(negotiate, finalContexts, subscribed, s, pdu, now) == s.(trace := s.trace + n + tail);
    assert SentPdus(n) == [];
    assert SentPdus([Released]) == [];
    assert pdu == ReleaseRequest ==> tail[1..] == [Released];
    assert SentPdus(tail) == (if pdu == ReleaseRequest then [SentReleaseResponse] else []);
    SentPdusAppend(s.trace, n);
    SentPdusAppend(s.trace + n, tail);
  }

  // ---------------------------------------------------------------------------
  // The association and the service, as objects
  // ---------------------------------------------------------------------------

  class Association {
    /** `GetResponseContexts`: the supported contexts among those a request proposes. */
    const negotiate: seq<PresentationContext> -> seq<PresentationContext>
    /** `SetFinalContexts`: the contexts left agreed once an accept arrives. */
    const finalContexts: (seq<PresentationContext>, Incoming) -> seq<PresentationContext>
    var state: NetworkState
    var presentationContexts: seq<PresentationContext>
    var userInfo: UserInfo
    var lastActive: int
    var outbound: seq<Dimse>
    var trace: seq<Effect>

    constructor (negotiate: seq<PresentationContext> -> seq<PresentationContext>,
                 finalContexts: (seq<PresentationContext>, Incoming) -> seq<PresentationContext>,
                 initial: AssociationState)
      ensures this.negotiate == negotiate && this.finalContexts == finalContexts
      ensures Fields() == initial
    {
      this.negotiate := negotiate;
      this.finalContexts := finalContexts;
      state := initial.state;
      presentationContexts := initial.presentationContexts;
      userInfo := initial.userInfo;
      lastActive := initial.lastActive;
      outbound := initial.outbound;
      trace := initial.trace;
    }

    function Fields(): AssociationState
      reads this
    {
      AssociationState(state, presentationContexts, userInfo, lastActive, outbound, trace)
    }

    /** The messengers' sends: the PDU goes out on the association. */
    method Send(pdu: Outgoing)
      modifies this
      ensures Fields() == old(Fields()).(trace := old(trace) + [Sent(pdu)])
    {
      trace := trace + [Sent(pdu)];
    }

    /** Release: the association is released (its teardown is not part of this model). */
    method Release()
      modifies this
      ensures Fields() == old(Fields()).(trace := old(trace) + [Released])
    {
      trace := trace + [Released];
    }

    /** `OutboundMessages.TryDequeue`: the oldest queued message, removed from the queue. */
    method TryDequeue() returns (r: Option<Dimse>)
      modifies this
      ensures |old(outbound)| == 0 ==> r == None && Fields() == old(Fields())
      ensures |old(outbound)| > 0 ==> r == Some(old(outbound)[0]) && Fields() == old(Fields()).(outbound := old(outbound)[1..])
    {
      if |outbound| == 0 {
        return None;
      }
      r := Some(outbound[0]);
      outbound := outbound[1..];
    }
  }

  class AssociationService {
    /** The events that have at least one subscriber. */
    var subscribed: set<EventKind>

    constructor (subscribed: set<EventKind>)
      ensures this.subscribed == subscribed
    {
      this.subscribed := subscribed;
    }

    /** The `Raise*` methods: subscribers of the event are called with the PDU; with none, nothing happens. */
    method Raise(pdu: Incoming, asc: Association)
      modifies asc
      ensures asc.Fields() == old(asc.Fields()).(trace := old(asc.trace) + Notify(subscribed, pdu, old(asc.state)))
    {
      if EventOf(pdu) in subscribed {
        asc.trace := asc.trace + [Notified(pdu, asc.state)];
      }
    }

    method AbortReceived(asc: Association)
      modifies asc
      ensures asc.Fields() == Handle(asc.negotiate, asc.finalContexts, subscribed, old(asc.Fields()), Abort, old(asc.lastActive))
    {
      Raise(Abort, asc);
      asc.Release();
    }

    method AssociationRequestReceived(req: Incoming, asc: Association, now: int)
      requires req.Request?
      modifies asc
      ensures asc.Fields() == Handle(asc.negotiate, asc.finalContexts, subscribed, old(asc.Fields()), req, now)
    {
      Raise(req, asc);
      var ctxs := asc.negotiate(req.requestContexts);
      if |ctxs| > 0 {
        asc.userInfo := req.requestUserInfo;
        asc.state := ASSOCIATION_ESTABLISHED_WAITING_ON_DATA;
        asc.lastActive := now;
        asc.presentationContexts := ctxs;
        asc.Send(SentAccept(req, ctxs));
      } else {
        asc.state := CLOSING_ASSOCIATION;
        asc.lastActive := now;
        asc.Send(SentReject);
      }
    }

    /** The loop of the acceptance handler: while the connection is open, every queued message is dequeued and sent. */
    method SendQueued(asc: Association)
      requires asc.state == TRANSPORT_CONNECTION_OPEN
      modifies asc
      ensures asc.Fields() == old(asc.Fields()).(outbound := [], trace := old(asc.trace) + SendAll(old(asc.outbound)))
    {
      ghost var sent: seq<Dimse> := [];
      while |asc.outbound| > 0
        invariant asc.Fields() == old(asc.Fields()).(outbound := asc.outbound, trace := old(asc.trace) + SendAll(sent))
        invariant old(asc.outbound) == sent + asc.outbound
        decreases |asc.outbound|
      {
        if asc.state == TRANSPORT_CONNECTION_OPEN {
          var dimse := asc.TryDequeue();
          if dimse.Some? {
            SendAllSnoc(sent, dimse.value);
            asc.Send(SentData(dimse.value));
            sent := sent + [dimse.value];
          }
        }
      }
      assert sent == old(asc.outbound);
    }

    /** The accept handler: with contexts left agreed, the queued messages are sent; otherwise the association is released. */
    method AssociationAcceptanceReceived(acc: Incoming, asc: Association)
      requires acc.Accept?
      modifies asc
      ensures asc.Fields() == Handle(asc.negotiate, asc.finalContexts, subscribed, old(asc.Fields()), acc, old(asc.lastActive))
    {
      Raise(acc, asc);
      asc.presentationContexts := asc.finalContexts(asc.presentationContexts, acc);
      if |asc.presentationContexts| > 0 {
        asc.userInfo := acc.acceptUserInfo;
        asc.state := TRANSPORT_CONNECTION_OPEN;
        SendQueued(asc);
      } else {
        asc.Release();
      }
    }

    method AssociationRejectionReceived(asc: Association)
      modifies asc
      ensures asc.Fields() == Handle(asc.negotiate, asc.finalContexts, subscribed, old(asc.Fields()), Reject, old(asc.lastActive))
    {
      Raise(Reject, asc);
      asc.Release();
    }

    method ReleaseRequestReceived(asc: Association)
      modifies asc
      ensures asc.Fields() == Handle(asc.negotiate, asc.finalContexts, subscribed, old(asc.Fields()), ReleaseRequest, old(asc.lastActive))
    {
      Raise(ReleaseRequest, asc);
      asc.Send(SentReleaseResponse);
      asc.Release();
    }

    method ReleaseResponseReceived(asc: Association)
      modifies asc
      ensures asc.Fields() == Handle(asc.negotiate, asc.finalContexts, subscribed, old(asc.Fields()), ReleaseResponse, old(asc.lastActive))
    {
      Raise(ReleaseResponse, asc);
      asc.Release();
    }
  }

  lemma {:induction false} SendAllSnoc(messages: seq<Dimse>, m: Dimse)
    ensures SendAll(messages + [m]) == SendAll(messages) + [Sent(SentData(m))]
  {
  }
}
