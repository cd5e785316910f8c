/**
 * The per-peer Jingle (XEP-0166) signalling state machine of the Jabber
 * client: the remote JID, the bound session-initiate packet that supplies
 * to/from/SID for every later packet, and the call-peer state.
 *
 * Everything the peer does to the outside world is one interleaved log of
 * effects: state changes (the inherited `setState`), address-change events,
 * packets handed to the connection, and the start of media.  The media
 * handler's answers and the generated session id are parameters.
 *
 * Each operation is first a pure step over a `Peer` snapshot; the class
 * `CallPeer` performs the same operation in place and its methods are
 * proved to agree with the step.
 */
module CallPeerJabber {
  import opened Wrappers
  import JingleContent

  type Jid = string
  type Sid = string
  type ContentList = seq<JingleContent.ContentPacketExtension>

  /** The call-peer states the peer distinguishes; `Other` is any further framework state. */
  datatype CallPeerState =
    | Connected
    | OnHoldLocally | OnHoldRemotely | OnHoldMutually
    | Connecting | ConnectingWithEarlyMedia | AlertingRemoteSide
    | IncomingCall
    | Busy | Failed | Disconnected
    | Other(name: string)

  /** `CallPeerState.isOnHold`. */
  predicate IsOnHold(s: CallPeerState)
  {
    s.OnHoldLocally? || s.OnHoldRemotely? || s.OnHoldMutually?
  }

  /** The reason code the peer itself puts in a session-terminate. */
  datatype Reason = IncompatibleParameters

  /** What a Jingle packet does; one alternative per packet factory the peer uses. */
  datatype JingleAction =
    | SessionInitiate(offer: ContentList)
    | Ringing
    | SessionAccept(answer: ContentList)
    | Bye
    | Cancel
    | BusyHere
    | SessionTerminate(reason: Reason, text: string)

  /** A Jingle IQ packet, reduced to its action, addressing and session id. */
  datatype JingleIQ = JingleIQ(action: JingleAction, from: Jid, to: Jid, sid: Sid)

  /** The exceptions that leave the peer's operations. */
  datatype Fault =
    | NullSessionInitIQ          // the session id was read before a session was bound
    | OperationFailed(message: string)   // the media handler failed

  datatype Outcome = Completed | Thrown(fault: Fault)

  /** The answer of a media-handler call that returns nothing. */
  datatype MediaOutcome = MediaOk | MediaError(message: string)

  /** One observable effect of the peer, in the order it happens. */
  datatype Effect =
    | StateChanged(oldState: CallPeerState, newState: CallPeerState, reason: Option<string>)
    | AddressChanged(oldAddress: Jid, newAddress: Jid)
    | PacketSent(packet: JingleIQ)
    | MediaStarted

  /** The peer's whole state: our JID (from the protocol provider), the remote JID,
      the bound session-initiate, the call-peer state and the effects so far. */
  datatype Peer = Peer(ourJid: Jid, peerJid: Jid, sessionInitIQ: Option<JingleIQ>,
                       state: CallPeerState, log: seq<Effect>)

  datatype Step = Step(peer: Peer, outcome: Outcome)

  /** The packets among the effects, in order: what the connection was asked to send. */
  function SentPackets(log: seq<Effect>): seq<JingleIQ>
  {
    if log == [] then []
    else if log[0].PacketSent? then [log[0].packet] + SentPackets(log[1..])
    else SentPackets(log[1..])
  }

  /** The inherited `setState`: assign the state and record the change. */
  function WithState(p: Peer, s: CallPeerState, reason: Option<string>): Peer
  {
    p.(state := s, log := p.log + [StateChanged(p.state, s, reason)])
  }

  /** `getConnection().sendPacket`. */
  function WithPacket(p: Peer, iq: JingleIQ): Peer
  {
    p.(log := p.log + [PacketSent(iq)])
  }

  /** `getJingleSID`: the bound packet's session id; dereferencing an unbound one throws. */
  function JingleSid(init: Option<JingleIQ>): (r: Result<Sid, Fault>)
    ensures r.Success? <==> init.Some?
    ensures r.Success? ==> r.value == init.value.sid
    ensures r.Failure? ==> r.error == NullSessionInitIQ
  {
    match init
    case None => Failure(NullSessionInitIQ)
    case Some(iq) => Success(iq.sid)
  }

  /** `setAddress`. */
  function SetAddressStep(p: Peer, address: Jid): Peer
  {
    if p.peerJid == address then p
    else p.(peerJid := address, log := p.log + [AddressChanged(p.peerJid, address)])
  }

  /** `processSessionInitiate`, given whether the media handler accepted the offer. */
  function ProcessSessionInitiateStep(p: Peer, init: JingleIQ, offer: MediaOutcome): Peer
  {
    var bound := p.(sessionInitIQ := Some(init));
    match offer
    case MediaError(msg) =>
      var errResp := JingleIQ(SessionTerminate(IncompatibleParameters, msg), init.to, init.from, init.sid);
      WithPacket(WithState(bound, Failed, Some("Error: " + msg)), errResp)
    case MediaOk =>
      WithPacket(bound, JingleIQ(Ringing, init.to, init.from, init.sid))
  }

  /** `initiateSession`, given the media handler's offer and the generated session id. */
  function InitiateSessionStep(p: Peer, offer: Result<ContentList, string>, sid: Sid): Step
  {
    match offer
    case Failure(msg) => Step(p, Thrown(OperationFailed(msg)))
    case Success(contents) =>
      var iq := JingleIQ(SessionInitiate(contents), p.ourJid, p.peerJid, sid);
      Step(WithPacket(p.(sessionInitIQ := Some(iq)), iq), Completed)
  }

  /** `answer`, given the media handler's accept payload and the result of starting media. */
  function AnswerStep(p: Peer, answer: Result<ContentList, string>, started: MediaOutcome): Step
  {
    match answer
    case Failure(msg) => Step(p, Thrown(OperationFailed(msg)))
    case Success(contents) =>
      match p.sessionInitIQ
      case None => Step(p, Thrown(NullSessionInitIQ))
      case Some(init) =>
        var sent := WithPacket(p, JingleIQ(SessionAccept(contents), init.to, init.from, init.sid));
        var afterStart := sent.(log := sent.log + [MediaStarted]);
        match started
        case MediaError(msg) => Step(afterStart, Thrown(OperationFailed(msg)))
        case MediaOk => Step(WithState(afterStart, Connected, None), Completed)
  }

  /** The packet `hangup` picks, as written: the cancel test reads the state held
      AFTER the peer was set to DISCONNECTED (`current`), not the previous one. */
  function HangupAction(prev: CallPeerState, current: CallPeerState): Option<JingleAction>
  {
    if prev == Connected || IsOnHold(prev) then Some(Bye)
    else if current == Connecting || current == ConnectingWithEarlyMedia || current == AlertingRemoteSide then Some(Cancel)
    else if prev == IncomingCall then Some(BusyHere)
    else None
  }

  /** The packet the hangup doc comment describes: cancel is chosen from the previous state. */
  function IntendedHangupAction(prev: CallPeerState): Option<JingleAction>
  {
    if prev == Connected || IsOnHold(prev) then Some(Bye)
    else if prev == Connecting || prev == ConnectingWithEarlyMedia || prev == AlertingRemoteSide then Some(Cancel)
    else if prev == IncomingCall then Some(BusyHere)
    else None
  }

  /** The tail of `hangup` once the state is DISCONNECTED: build the chosen packet
      (reading the session id) and send it. */
  function HangupSend(q: Peer, action: Option<JingleAction>): Step
  {
    match action
    case None => Step(q, Completed)
    case Some(a) =>
      match JingleSid(q.sessionInitIQ)
      case Failure(f) => Step(q, Thrown(f))
      case Success(sid) => Step(WithPacket(q, JingleIQ(a, q.ourJid, q.peerJid, sid)), Completed)
  }

  predicate HasEnded(s: CallPeerState)
  {
    s == Disconnected || s == Failed
  }

  /** `hangup` as written. */
  function HangupStep(p: Peer): Step
  {
    if HasEnded(p.state) then Step(p, Completed)
    else
      var q := WithState(p, Disconnected, None);
      HangupSend(q, HangupAction(p.state, q.state))
  }

  /** `hangup` as its doc comment describes it. */
  function CorrectedHangupStep(p: Peer): Step
  {
    if HasEnded(p.state) then Step(p, Completed)
    else
      var q := WithState(p, Disconnected, None);
      HangupSend(q, IntendedHangupAction(p.state))
  }

  /** One call peer; its methods change the fields in place. */
  class CallPeer {
    const ourJid: Jid
    var peerJid: Jid
    var sessionInitIQ: Option<JingleIQ>
    var state: CallPeerState
    var log: seq<Effect>

    function Snapshot(): Peer
      reads this
    {
      Peer(ourJid, peerJid, sessionInitIQ, state, log)
    }

    /** A new peer for `peerAddress`; the base class's initial state is a parameter. */
    constructor (ourJid: Jid, peerAddress: Jid, initialState: CallPeerState)
      ensures Snapshot() == Peer(ourJid, peerAddress, None, initialState, [])
    {
      this.ourJid := ourJid;
      peerJid := peerAddress;
      sessionInitIQ := None;
      state := initialState;
      log := [];
    }

    function GetAddress(): Jid
      reads this
    {
      peerJid
    }

    /** The inherited `setState`. */
    method SetState(s: CallPeerState, reason: Option<string>)
      modifies this
      ensures Snapshot() == WithState(old(Snapshot()), s, reason)
    {
      log := log + [StateChanged(state, s, reason)];
      state := s;
    }

    method SendPacket(iq: JingleIQ)
      modifies this
      ensures Snapshot() == WithPacket(old(Snapshot()), iq)
    {
      log := log + [PacketSent(iq)];
    }

    method SetAddress(address: Jid)
      modifies this
      ensures Snapshot() == SetAddressStep(old(Snapshot()), address)
    {
      var oldAddress := GetAddress();
      if peerJid == address {
        return;
      }
      peerJid := address;
      log := log + [AddressChanged(oldAddress, address)];
    }

    method ProcessSessionInitiate(init: JingleIQ, offer: MediaOutcome)
      modifies this
      ensures Snapshot() == ProcessSessionInitiateStep(old(Snapshot()), init, offer)
    {
      sessionInitIQ := Some(init);
      if offer.MediaError? {
        var errResp := JingleIQ(SessionTerminate(IncompatibleParameters, offer.message),
                                init.to, init.from, init.sid);
        SetState(Failed, Some("Error: " + offer.message));
        SendPacket(errResp);
        return;
      }
      var ringing := JingleIQ(Ringing, init.to, init.from, init.sid);
      SendPacket(ringing);
    }

    method InitiateSession(offer: Result<ContentList, string>, sid: Sid) returns (outcome: Outcome)
      modifies this
      ensures Step(Snapshot(), outcome) == InitiateSessionStep(old(Snapshot()), offer, sid)
    {
      if offer.Failure? {
        return Thrown(OperationFailed(offer.error));
      }
      var iq := JingleIQ(SessionInitiate(offer.value), ourJid, peerJid, sid);
      sessionInitIQ := Some(iq);
      SendPacket(iq);
      outcome := Completed;
    }

    method Answer(answer: Result<ContentList, string>, started: MediaOutcome) returns (outcome: Outcome)
      modifies this
      ensures Step(Snapshot(), outcome) == AnswerStep(old(Snapshot()), answer, started)
    {
      if answer.Failure? {
        return Thrown(OperationFailed(answer.error));
      }
      var sid := JingleSid(sessionInitIQ);
      if sid.Failure? {
        return Thrown(sid.error);
      }
      var init := sessionInitIQ.value;
      var response := JingleIQ(SessionAccept(answer.value), init.to, init.from, sid.value);
      SendPacket(response);
      log := log + [MediaStarted];
      if started.MediaError? {
        return Thrown(OperationFailed(started.message));
      }
      SetState(Connected, None);
      outcome := Completed;
    }

    method Hangup() returns (outcome: Outcome)
      modifies this
      ensures Step(Snapshot(), outcome) == HangupStep(old(Snapshot()))
    {
      if state == Disconnected || state == Failed {
        return Completed;
      }
      var prevPeerState := state;
      SetState(Disconnected, None);
      var response := HangupAction(prevPeerState, state);
      outcome := Completed;
      if response.Some? {
        var sid := JingleSid(sessionInitIQ);
        if sid.Failure? {
          return Thrown(sid.error);
        }
        SendPacket(JingleIQ(response.value, ourJid, peerJid, sid.value));
      }
    }
  }
}
