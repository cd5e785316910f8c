/**
 * What the Jingle call peer promises: the effect of each operation on the
 * state, the bound session and the packets sent, the hangup table and its
 * idempotence, and whole calls built from several operations.
 */
module CallPeerJabberProperties {
  import opened Wrappers
  import opened CallPeerJabber

  /** The packets an effect contributes: one for a send, none otherwise. */
  function PacketsOf(e: Effect): seq<JingleIQ>
  {
    if e.PacketSent? then [e.packet] else []
  }

  lemma {:induction false} SentPacketsAppend(a: seq<Effect>, b: seq<Effect>)
    ensures SentPackets(a + b) == SentPackets(a) + SentPackets(b)
  {
    if a == [] {
      assert a + b == b;
    } else {
      assert (a + b)[0] == a[0];
      assert (a + b)[1..] == a[1..] + b;
      SentPacketsAppend(a[1..], b);
    }
  }

  /** The packets picked out are exactly the packets the log records as sent. */
  lemma {:induction false} SentPacketsMembers(log: seq<Effect>)
    ensures forall iq :: iq in SentPackets(log) <==> PacketSent(iq) in log
  {
    if log != [] {
      SentPacketsMembers(log[1..]);
      assert log == [log[0]] + log[1..];
    }
  }

  /** Appending one effect adds exactly the packet it sends, if any. */
  lemma SentPacketsSnoc(log: seq<Effect>, e: Effect)
    ensures SentPackets(log + [e]) == SentPackets(log) + PacketsOf(e)
  {
    SentPacketsAppend(log, [e]);
    assert [e][1..] == [];
  }

  // ---------------------------------------------------------------- setAddress

  /** Setting the address the peer already has changes nothing and fires no event. */
  lemma SetAddressUnchangedIsNoOp(p: Peer)
    ensures SetAddressStep(p, p.peerJid) == p
  {
  }

  /** A new address replaces the old one and fires exactly one address-change event
      carrying (old, new); nothing is sent and nothing else changes. */
  lemma SetAddressChangedFiresOneEvent(p: Peer, address: Jid)
    requires address != p.peerJid
    ensures var r := SetAddressStep(p, address);
      && r.peerJid == address
      && r.log == p.log + [AddressChanged(p.peerJid, address)]
      && SentPackets(r.log) == SentPackets(p.log)
      && r.state == p.state && r.sessionInitIQ == p.sessionInitIQ && r.ourJid == p.ourJid
  {
    SentPacketsSnoc(p.log, AddressChanged(p.peerJid, address));
  }

  // ---------------------------------------------------- processSessionInitiate

  /** Whatever the media handler answers, the incoming packet is bound and exactly
      one reply, carrying its session id and addressed back to its sender, is sent. */
  lemma ProcessSessionInitiateBindsAndReplies(p: Peer, init: JingleIQ, offer: MediaOutcome)
    ensures var r := ProcessSessionInitiateStep(p, init, offer);
      && r.sessionInitIQ == Some(init)
      && JingleSid(r.sessionInitIQ) == Success(init.sid)
      && r.peerJid == p.peerJid && r.ourJid == p.ourJid
      && |SentPackets(r.log)| == |SentPackets(p.log)| + 1
      && SentPackets(r.log)[..|SentPackets(p.log)|] == SentPackets(p.log)
      && var reply := SentPackets(r.log)[|SentPackets(p.log)|];
         reply.sid == init.sid && reply.from == init.to && reply.to == init.from
  {
    var r := ProcessSessionInitiateStep(p, init, offer);
    match offer
    case MediaOk =>
      SentPacketsSnoc(p.log, r.log[|p.log|]);
      assert r.log == p.log + [r.log[|p.log|]];
    case MediaError(msg) =>
      var s := WithState(p.(sessionInitIQ := Some(init)), Failed, Some("Error: " + msg));
      SentPacketsSnoc(p.log, s.log[|p.log|]);
      SentPacketsSnoc(s.log, r.log[|s.log|]);
  }

  /** A rejected offer: the state becomes FAILED first, then exactly one
      session-terminate(INCOMPATIBLE_PARAMETERS) with the incoming session id is sent,
      and no ringing. */
  lemma ProcessSessionInitiateRejected(p: Peer, init: JingleIQ, msg: string)
    ensures var r := ProcessSessionInitiateStep(p, init, MediaError(msg));
      var terminate := JingleIQ(SessionTerminate(IncompatibleParameters, msg), init.to, init.from, init.sid);
      && r.state == Failed
      && r.log == p.log + [StateChanged(p.state, Failed, Some("Error: " + msg)), PacketSent(terminate)]
      && SentPackets(r.log) == SentPackets(p.log) + [terminate]
  {
    var s := WithState(p.(sessionInitIQ := Some(init)), Failed, Some("Error: " + msg));
    SentPacketsSnoc(p.log, StateChanged(p.state, Failed, Some("Error: " + msg)));
    SentPacketsSnoc(s.log, PacketSent(JingleIQ(SessionTerminate(IncompatibleParameters, msg), init.to, init.from, init.sid)));
  }

  /** An accepted offer: exactly one ringing packet is sent and the state is left alone. */
  lemma ProcessSessionInitiateAccepted(p: Peer, init: JingleIQ)
    ensures var r := ProcessSessionInitiateStep(p, init, MediaOk);
      var ringing := JingleIQ(Ringing, init.to, init.from, init.sid);
      && r.state == p.state
      && r.log == p.log + [PacketSent(ringing)]
      && SentPackets(r.log) == SentPackets(p.log) + [ringing]
  {
    SentPacketsSnoc(p.log, PacketSent(JingleIQ(Ringing, init.to, init.from, init.sid)));
  }

  // ----------------------------------------------------------- initiateSession

  /** With an offer from the media handler, one session-initiate from our JID to the
      peer with the given session id is sent and bound; the state is left alone. */
  lemma InitiateSessionSendsOffer(p: Peer, offer: ContentList, sid: Sid)
    ensures var r := InitiateSessionStep(p, Success(offer), sid);
      var iq := JingleIQ(SessionInitiate(offer), p.ourJid, p.peerJid, sid);
      && r.outcome == Completed
      && r.peer.sessionInitIQ == Some(iq)
      && JingleSid(r.peer.sessionInitIQ) == Success(sid)
      && r.peer.state == p.state && r.peer.peerJid == p.peerJid
      && SentPackets(r.peer.log) == SentPackets(p.log) + [iq]
  {
    SentPacketsSnoc(p.log, PacketSent(JingleIQ(SessionInitiate(offer), p.ourJid, p.peerJid, sid)));
  }

  /** Without an offer the media handler's failure propagates and nothing changes. */
  lemma InitiateSessionFailsUnchanged(p: Peer, msg: string, sid: Sid)
    ensures InitiateSessionStep(p, Failure(msg), sid) == Step(p, Thrown(OperationFailed(msg)))
  {
  }

  // -------------------------------------------------------------------- answer

  /** With a bound session, answer sends session-accept (echoing the bound session id,
      addressed back to the initiator) before starting media, and only then sets CONNECTED. */
  lemma AnswerAcceptsThenStarts(p: Peer, answer: ContentList)
    requires p.sessionInitIQ.Some?
    ensures var r := AnswerStep(p, Success(answer), MediaOk);
      var init := p.sessionInitIQ.value;
      var accept := JingleIQ(SessionAccept(answer), init.to, init.from, init.sid);
      && r.outcome == Completed
      && r.peer.state == Connected
      && r.peer.log == p.log + [PacketSent(accept), MediaStarted, StateChanged(p.state, Connected, None)]
      && SentPackets(r.peer.log) == SentPackets(p.log) + [accept]
  {
    var init := p.sessionInitIQ.value;
    var accept := JingleIQ(SessionAccept(answer), init.to, init.from, init.sid);
    SentPacketsSnoc(p.log, PacketSent(accept));
    SentPacketsSnoc(p.log + [PacketSent(accept)], MediaStarted);
    SentPacketsSnoc(p.log + [PacketSent(accept)] + [MediaStarted], StateChanged(p.state, Connected, None));
  }

  /** If starting media fails, the accept has already gone out but the state is not CONNECTED. */
  lemma AnswerStartFails(p: Peer, answer: ContentList, msg: string)
    requires p.sessionInitIQ.Some?
    ensures var r := AnswerStep(p, Success(answer), MediaError(msg));
      var init := p.sessionInitIQ.value;
      var accept := JingleIQ(SessionAccept(answer), init.to, init.from, init.sid);
      && r.outcome == Thrown(OperationFailed(msg))
      && r.peer.state == p.state
      && r.peer.log == p.log + [PacketSent(accept), MediaStarted]
      && SentPackets(r.peer.log) == SentPackets(p.log) + [accept]
  {
    var init := p.sessionInitIQ.value;
    var accept := JingleIQ(SessionAccept(answer), init.to, init.from, init.sid);
    SentPacketsSnoc(p.log, PacketSent(accept));
    SentPacketsSnoc(p.log + [PacketSent(accept)], MediaStarted);
  }

  /** Without an accept payload, or before a session is bound, answer throws and
      changes nothing: no packet, no media start, no state change. */
  lemma AnswerFailsUnchanged(p: Peer, answer: Result<ContentList, string>, started: MediaOutcome)
    requires answer.Failure? || p.sessionInitIQ.None?
    ensures var r := AnswerStep(p, answer, started);
      && r.peer == p
      && r.outcome == if answer.Failure? then Thrown(OperationFailed(answer.error)) else Thrown(NullSessionInitIQ)
  {
  }

  // -------------------------------------------------------------------- hangup

  /** Hanging up a peer that is already DISCONNECTED or FAILED does nothing. */
  lemma HangupWhenEndedIsNoOp(p: Peer)
    requires HasEnded(p.state)
    ensures HangupStep(p) == Step(p, Completed)
  {
  }

  /** From any other state the peer ends DISCONNECTED; that change is the first new
      effect, and at most one packet follows it. */
  lemma HangupDisconnectsBeforeSending(p: Peer)
    requires !HasEnded(p.state)
    ensures var r := HangupStep(p).peer;
      && r.state == Disconnected
      && r.peerJid == p.peerJid && r.sessionInitIQ == p.sessionInitIQ && r.ourJid == p.ourJid
      && |p.log| < |r.log| <= |p.log| + 2
      && r.log[..|p.log|] == p.log
      && r.log[|p.log|] == StateChanged(p.state, Disconnected, None)
      && (|r.log| == |p.log| + 2 ==> r.log[|p.log| + 1].PacketSent?)
      && |SentPackets(p.log)| <= |SentPackets(r.log)| <= |SentPackets(p.log)| + 1
  {
    var q := WithState(p, Disconnected, None);
    var r := HangupStep(p).peer;
    SentPacketsSnoc(p.log, StateChanged(p.state, Disconnected, None));
    if |r.log| == |q.log| + 1 {
      SentPacketsSnoc(q.log, r.log[|q.log|]);
      assert r.log == q.log + [r.log[|q.log|]];
    } else {
      assert r == q;
    }
  }

  /** A second hangup right after the first is a no-op. */
  lemma HangupIdempotent(p: Peer)
    ensures var once := HangupStep(p).peer;
      HangupStep(once) == Step(once, Completed)
  {
    if !HasEnded(p.state) {
      HangupDisconnectsBeforeSending(p);
    }
  }

  /** `n` hangups in a row. */
  function HangupTimes(p: Peer, n: nat): Peer
    decreases n
  {
    if n == 0 then p else HangupTimes(HangupStep(p).peer, n - 1)
  }

  lemma {:induction false} HangupTimesWhenEnded(p: Peer, n: nat)
    requires HasEnded(p.state)
    ensures HangupTimes(p, n) == p
  {
    if n > 0 {
      HangupTimesWhenEnded(p, n - 1);
    }
  }

  /** Any number of repeated hangups has the effect of one. */
  lemma HangupRepeated(p: Peer, n: nat)
    requires n >= 1
    ensures HangupTimes(p, n) == HangupStep(p).peer
  {
    var once := HangupStep(p).peer;
    if !HasEnded(p.state) {
      HangupDisconnectsBeforeSending(p);
    }
    HangupTimesWhenEnded(once, n - 1);
  }

  /** From CONNECTED or an on-hold state with a bound session: exactly one bye from
      our JID to the peer, carrying the bound session id. */
  lemma HangupFromConnectedSendsBye(p: Peer)
    requires p.state == Connected || IsOnHold(p.state)
    requires p.sessionInitIQ.Some?
    ensures var r := HangupStep(p);
      && r.outcome == Completed
      && r.peer.state == Disconnected
      && SentPackets(r.peer.log)
         == SentPackets(p.log) + [JingleIQ(Bye, p.ourJid, p.peerJid, p.sessionInitIQ.value.sid)]
  {
    var bye := JingleIQ(Bye, p.ourJid, p.peerJid, p.sessionInitIQ.value.sid);
    SentPacketsSnoc(p.log, StateChanged(p.state, Disconnected, None));
    SentPacketsSnoc(p.log + [StateChanged(p.state, Disconnected, None)], PacketSent(bye));
  }

  /** From INCOMING_CALL with a bound session: exactly one busy instead. */
  lemma HangupFromIncomingSendsBusy(p: Peer)
    requires p.state == IncomingCall
    requires p.sessionInitIQ.Some?
    ensures var r := HangupStep(p);
      && r.outcome == Completed
      && r.peer.state == Disconnected
      && SentPackets(r.peer.log)
         == SentPackets(p.log) + [JingleIQ(BusyHere, p.ourJid, p.peerJid, p.sessionInitIQ.value.sid)]
  {
    var busy := JingleIQ(BusyHere, p.ourJid, p.peerJid, p.sessionInitIQ.value.sid);
    SentPacketsSnoc(p.log, StateChanged(p.state, Disconnected, None));
    SentPacketsSnoc(p.log + [StateChanged(p.state, Disconnected, None)], PacketSent(busy));
  }

  /** When a bye or busy is due but no session is bound, reading the session id throws
      after the state has already become DISCONNECTED, and nothing is sent. */
  lemma HangupWithoutSessionThrows(p: Peer)
    requires p.state == Connected || IsOnHold(p.state) || p.state == IncomingCall
    requires p.sessionInitIQ.None?
    ensures var r := HangupStep(p);
      && r.outcome == Thrown(NullSessionInitIQ)
      && r.peer.state == Disconnected
      && r.peer.log == p.log + [StateChanged(p.state, Disconnected, None)]
      && SentPackets(r.peer.log) == SentPackets(p.log)
  {
    SentPacketsSnoc(p.log, StateChanged(p.state, Disconnected, None));
  }

  /** From CONNECTING, CONNECTING_WITH_EARLY_MEDIA, ALERTING_REMOTE_SIDE, BUSY or any
      other state, hangup only records DISCONNECTED: the cancel test reads the state
      after it was set to DISCONNECTED, so no cancel is ever sent. */
  lemma HangupFromOtherStatesSendsNothing(p: Peer)
    requires !HasEnded(p.state)
    requires !(p.state == Connected || IsOnHold(p.state) || p.state == IncomingCall)
    ensures var r := HangupStep(p);
      && r.outcome == Completed
      && r.peer.state == Disconnected
      && r.peer.log == p.log + [StateChanged(p.state, Disconnected, None)]
      && SentPackets(r.peer.log) == SentPackets(p.log)
  {
    SentPacketsSnoc(p.log, StateChanged(p.state, Disconnected, None));
  }

  /** Whatever the state, hangup as written sends nothing or exactly one packet,
      and that packet is a bye or a busy, never a cancel. */
  lemma HangupNeverSendsCancel(p: Peer)
    ensures var before := SentPackets(p.log);
      var after := SentPackets(HangupStep(p).peer.log);
      || after == before
      || (&& |after| == |before| + 1
          && after[..|before|] == before
          && after[|before|].action in {Bye, BusyHere})
  {
    if HasEnded(p.state) {
    } else if p.sessionInitIQ.None? {
      var r := HangupStep(p).peer;
      SentPacketsSnoc(p.log, StateChanged(p.state, Disconnected, None));
      assert r.log == p.log + [StateChanged(p.state, Disconnected, None)];
    } else if p.state == Connected || IsOnHold(p.state) {
      HangupFromConnectedSendsBye(p);
    } else if p.state == IncomingCall {
      HangupFromIncomingSendsBusy(p);
    } else {
      HangupFromOtherStatesSendsNothing(p);
    }
  }

  /** Hangup as the doc comment describes it sends one cancel, with the bound session id,
      from CONNECTING, CONNECTING_WITH_EARLY_MEDIA and ALERTING_REMOTE_SIDE. */
  lemma CorrectedHangupSendsCancel(p: Peer)
    requires p.state == Connecting || p.state == ConnectingWithEarlyMedia || p.state == AlertingRemoteSide
    requires p.sessionInitIQ.Some?
    ensures var r := CorrectedHangupStep(p);
      && r.outcome == Completed
      && r.peer.state == Disconnected
      && SentPackets(r.peer.log)
         == SentPackets(p.log) + [JingleIQ(Cancel, p.ourJid, p.peerJid, p.sessionInitIQ.value.sid)]
  {
    var cancel := JingleIQ(Cancel, p.ourJid, p.peerJid, p.sessionInitIQ.value.sid);
    var q := WithState(p, Disconnected, None);
    assert IntendedHangupAction(p.state) == Some(Cancel);
    assert CorrectedHangupStep(p) == Step(WithPacket(q, cancel), Completed);
    SentPacketsSnoc(p.log, StateChanged(p.state, Disconnected, None));
    SentPacketsSnoc(q.log, PacketSent(cancel));
  }

  /** Outside those three states the corrected hangup is exactly hangup as written. */
  lemma CorrectedHangupAgreesElsewhere(p: Peer)
    requires !(p.state == Connecting || p.state == ConnectingWithEarlyMedia || p.state == AlertingRemoteSide)
    ensures CorrectedHangupStep(p) == HangupStep(p)
  {
  }

  // ------------------------------------------------------------- whole calls

  /** An incoming call that is rung and then declined: one ringing and one busy, both
      with the incoming session id and both addressed back to the caller. */
  lemma IncomingCallDeclined(p: Peer, init: JingleIQ)
    requires p.ourJid == init.to && p.peerJid == init.from && p.log == []
    ensures var rung := ProcessSessionInitiateStep(p, init, MediaOk);
      var ringingState := WithState(rung, IncomingCall, None);
      var r := HangupStep(ringingState);
      && r.peer.state == Disconnected
      && SentPackets(r.peer.log)
         == [JingleIQ(Ringing, init.to, init.from, init.sid), JingleIQ(BusyHere, init.to, init.from, init.sid)]
  {
    var rung := ProcessSessionInitiateStep(p, init, MediaOk);
    ProcessSessionInitiateAccepted(p, init);
    var ringingState := WithState(rung, IncomingCall, None);
    SentPacketsSnoc(rung.log, StateChanged(rung.state, IncomingCall, None));
    HangupFromIncomingSendsBusy(ringingState);
  }

  /** An incoming call that is answered and later hung up: ringing, session-accept and
      bye, all three carrying the incoming session id. */
  lemma IncomingCallAnsweredThenHungUp(p: Peer, init: JingleIQ, answer: ContentList)
    requires p.ourJid == init.to && p.peerJid == init.from && p.log == []
    ensures var rung := WithState(ProcessSessionInitiateStep(p, init, MediaOk), IncomingCall, None);
      var answered := AnswerStep(rung, Success(answer), MediaOk);
      var r := HangupStep(answered.peer);
      && answered.outcome == Completed && answered.peer.state == Connected
      && r.peer.state == Disconnected
      && SentPackets(r.peer.log)
         == [JingleIQ(Ringing, init.to, init.from, init.sid),
             JingleIQ(SessionAccept(answer), init.to, init.from, init.sid),
             JingleIQ(Bye, init.to, init.from, init.sid)]
  {
    var first := ProcessSessionInitiateStep(p, init, MediaOk);
    ProcessSessionInitiateAccepted(p, init);
    var rung := WithState(first, IncomingCall, None);
    SentPacketsSnoc(first.log, StateChanged(first.state, IncomingCall, None));
    AnswerAcceptsThenStarts(rung, answer);
    var answered := AnswerStep(rung, Success(answer), MediaOk);
    HangupFromConnectedSendsBye(answered.peer);
  }

  /** An outgoing call hung up while the remote side is alerted: as written only the
      session-initiate ever leaves; the corrected hangup follows it with a cancel
      carrying the generated session id. */
  lemma OutgoingCallHungUpWhileAlerting(p: Peer, offer: ContentList, sid: Sid)
    ensures var initiated := InitiateSessionStep(p, Success(offer), sid).peer;
      var alerting := WithState(initiated, AlertingRemoteSide, None);
      var iq := JingleIQ(SessionInitiate(offer), p.ourJid, p.peerJid, sid);
      && SentPackets(HangupStep(alerting).peer.log) == SentPackets(p.log) + [iq]
      && SentPackets(CorrectedHangupStep(alerting).peer.log)
         == SentPackets(p.log) + [iq, JingleIQ(Cancel, p.ourJid, p.peerJid, sid)]
  {
    var initiated := InitiateSessionStep(p, Success(offer), sid).peer;
    InitiateSessionSendsOffer(p, offer, sid);
    var alerting := WithState(initiated, AlertingRemoteSide, None);
    SentPacketsSnoc(initiated.log, StateChanged(initiated.state, AlertingRemoteSide, None));
    HangupFromOtherStatesSendsNothing(alerting);
    CorrectedHangupSendsCancel(alerting);
  }
}
