# Jingle call peer and content element

A Dafny model of two pieces of the Jingle (XEP-0166) call-signalling layer
of the Jabber protocol provider:

- **`CallPeerJabberImpl`**: the per-peer signalling state machine. It holds
  the remote JID (`peerJID`), the bound session-initiate packet
  (`sessionInitIQ`, which supplies to/from/SID for every later packet) and
  the call-peer state. Its operations are `setAddress`,
  `processSessionInitiate`, `initiateSession`, `answer`, `hangup` and
  `getJingleSID`.
- **`ContentPacketExtension`**: the Jingle `content` element (section 7.3 of
  XEP-0166). It is an attribute store keyed by `creator`, `disposition`,
  `name` and `senders`. The two enumerated attributes are decoded with
  Java's case-sensitive `Enum.valueOf`.

Files:

- `wrappers.dfy`: `Option` (a nullable Java reference) and `Result` (a value,
  or the exception that replaced it).
- `jingle_content.dfy`, module `JingleContent`, has three parts:
  - the attribute store, a `map<string, string>`;
  - the enum decoding, with its two failure modes: a null name, or a name
    that is not a member;
  - pure `With*` updates, and the class `ContentPacketExtension`, whose
    constructors and setters update the store in place.
- `call_peer_jabber.dfy`, module `CallPeerJabber`, has three parts:
  - the states and the packets;
  - a pure step function per operation over a `Peer` snapshot;
  - the class `CallPeer`, whose methods change its fields in place. Each
    method is proved to agree with its step function.
- `call_peer_jabber_properties.dfy`, module `CallPeerJabberProperties`, holds
  what the peer promises: the hangup table, idempotence, ordering of effects,
  and whole calls built from several operations.

How the collaborators are modelled:

- Everything the peer does outside itself goes into one interleaved log of
  effects, in order. The effects are:
  - state changes (the inherited `setState`);
  - address-change events;
  - packets handed to the connection;
  - the call to the media handler's `start`.

  `SentPackets` picks the packets out of that log.
- The media handler's answers are parameters of the operations. For
  `processOffer` and `start` the parameter is success or failure with a
  message. For `createContentList` and `generateSessionAccept` it is a
  content list or a failure message.
- The session id that `initiateSession` generates is a parameter.

Where the code and its documentation disagree, the model follows the code:

- `initiateSession` sends and binds the session-initiate but does not change
  the peer state.
- A successful `processSessionInitiate` sends ringing but does not change the
  peer state either.
- `hangup` is not free of exceptions. It reads the session id after setting
  DISCONNECTED, so with no bound session it throws instead of sending a bye
  or busy.
- `hangup` never sends a cancel (see Findings).
- `ContentPacketExtension` validates nothing on construction.
- An absent disposition reads as absent, not as "session".
- `getCreator` does not default to "initiator". A missing or unknown value is
  a failure.

Assumptions about base classes whose code is not part of this model:

- `setState` assigns the state and records one state-change event, every
  time it is called.
- `setAttribute` stores the string form of a non-null value. For a null value
  it removes the key, so a null disposition or name reads back as absent.
- `getAttributeAsString` returns the stored string, or null for a missing key.
- The packet factories build the packets as follows:
  - `createRinging(init)` answers from `init.to` to `init.from` with
    `init.sid`;
  - `createBye`, `createCancel` and `createBusy` carry the from, to and session
    id they are given.

## Model

| member | source | states |
|---|---|---|
| `JingleContent.ValueOfCreator` | src/net/java/sip/communicator/impl/protocol/jabber/extensions/jingle/ContentPacketExtension.java:49-62 | succeeds exactly on the lowercase names "initiator" and "responder" and then returns the member with that name. A null name fails with NameIsNull. Any other name fails with NoEnumConstant carrying that name, with no default. |
| `JingleContent.ValueOfSenders` | src/net/java/sip/communicator/impl/protocol/jabber/extensions/jingle/ContentPacketExtension.java:67-89 | succeeds exactly on "initiator", "none", "responder" and "both" and then returns the member with that name. A null or unknown name fails in the same two ways. |
| `JingleContent.CreatorNameRoundTrip` | src/net/java/sip/communicator/impl/protocol/jabber/extensions/jingle/ContentPacketExtension.java:49-62 | decoding a creator member's own name gives that member back |
| `JingleContent.SendersNameRoundTrip` | src/net/java/sip/communicator/impl/protocol/jabber/extensions/jingle/ContentPacketExtension.java:67-89 | decoding a senders member's own name gives that member back |
| `JingleContent.DecodingIsCaseSensitive` | src/net/java/sip/communicator/impl/protocol/jabber/extensions/jingle/ContentPacketExtension.java:152-155 | "Initiator" and "BOTH" are not members and fail with NoEnumConstant |
| `JingleContent.SetAttribute` | src/net/java/sip/communicator/impl/protocol/jabber/extensions/jingle/ContentPacketExtension.java:116-119 | afterwards the key reads back exactly the value stored, absent for null. Every other key reads as before, and no new key other than this one appears. |
| `JingleContent.GetCreator` | src/net/java/sip/communicator/impl/protocol/jabber/extensions/jingle/ContentPacketExtension.java:152-155 | succeeds exactly when the `creator` attribute holds a member name, and that name is the result's name. A missing attribute fails with NameIsNull rather than defaulting to initiator. A present but unknown value fails with NoEnumConstant carrying that value. |
| `JingleContent.GetSenders` | src/net/java/sip/communicator/impl/protocol/jabber/extensions/jingle/ContentPacketExtension.java:256-259 | succeeds exactly when the `senders` attribute holds a member name, and that name is the result's name. A missing attribute fails with NameIsNull. A present but unknown value fails with NoEnumConstant carrying that value. |
| `JingleContent.GetDisposition` | src/net/java/sip/communicator/impl/protocol/jabber/extensions/jingle/ContentPacketExtension.java:188-191 | returns the stored disposition exactly when the attribute is present. An unset disposition reads as absent, not as the "session" default the doc comment names. |
| `JingleContent.GetName` | src/net/java/sip/communicator/impl/protocol/jabber/extensions/jingle/ContentPacketExtension.java:224-227 | returns the stored name exactly when the attribute is present, and absent otherwise |
| `JingleContent.WithCreator` | src/net/java/sip/communicator/impl/protocol/jabber/extensions/jingle/ContentPacketExtension.java:171-174 | getCreator then returns the creator set. Disposition, name, senders and every other key are unchanged. |
| `JingleContent.WithDisposition` | src/net/java/sip/communicator/impl/protocol/jabber/extensions/jingle/ContentPacketExtension.java:205-208 | getDisposition then returns the value set. Creator, name, senders and every other key are unchanged. |
| `JingleContent.WithName` | src/net/java/sip/communicator/impl/protocol/jabber/extensions/jingle/ContentPacketExtension.java:243-246 | getName then returns the value set. Creator, disposition, senders and every other key are unchanged. |
| `JingleContent.WithSenders` | src/net/java/sip/communicator/impl/protocol/jabber/extensions/jingle/ContentPacketExtension.java:269-272 | stores the member's name, and getSenders then returns the senders set. Creator, disposition, name and every other key are unchanged. |
| `JingleContent.NewContent` | src/net/java/sip/communicator/impl/protocol/jabber/extensions/jingle/ContentPacketExtension.java:110-120 | the four getters return the supplied creator, disposition, name and senders, and no attribute outside the four keys is present |
| `JingleContent.NewContentWithName` | src/net/java/sip/communicator/impl/protocol/jabber/extensions/jingle/ContentPacketExtension.java:131-136 | creator and name read back as supplied and disposition is absent. getSenders fails with NameIsNull. Only the creator and name keys may be present. |
| `JingleContent.ContentPacketExtension.Empty` | src/net/java/sip/communicator/impl/protocol/jabber/extensions/jingle/ContentPacketExtension.java:94-97 | a new element has no attributes |
| `JingleContent.ContentPacketExtension.constructor` | src/net/java/sip/communicator/impl/protocol/jabber/extensions/jingle/ContentPacketExtension.java:110-120 | the element's attributes are those of NewContent for the same arguments |
| `JingleContent.ContentPacketExtension.WithCreatorAndName` | src/net/java/sip/communicator/impl/protocol/jabber/extensions/jingle/ContentPacketExtension.java:131-136 | the element's attributes are those of NewContentWithName for the same arguments |
| `JingleContent.ContentPacketExtension.SetCreator` | src/net/java/sip/communicator/impl/protocol/jabber/extensions/jingle/ContentPacketExtension.java:171-174 | the new attributes are WithCreator of the old ones |
| `JingleContent.ContentPacketExtension.SetDisposition` | src/net/java/sip/communicator/impl/protocol/jabber/extensions/jingle/ContentPacketExtension.java:205-208 | the new attributes are WithDisposition of the old ones |
| `JingleContent.ContentPacketExtension.SetName` | src/net/java/sip/communicator/impl/protocol/jabber/extensions/jingle/ContentPacketExtension.java:243-246 | the new attributes are WithName of the old ones |
| `JingleContent.ContentPacketExtension.SetSenders` | src/net/java/sip/communicator/impl/protocol/jabber/extensions/jingle/ContentPacketExtension.java:269-272 | the new attributes are WithSenders of the old ones |
| `CallPeerJabber.JingleSid` | src/net/java/sip/communicator/impl/protocol/jabber/CallPeerJabberImpl.java:295-298 | succeeds exactly when a session-initiate is bound and returns its session id. With none bound it fails with NullSessionInitIQ. |
| `CallPeerJabber.CallPeer.constructor` | src/net/java/sip/communicator/impl/protocol/jabber/CallPeerJabberImpl.java:51-58 | a new peer has the given address, no bound session and no effects |
| `CallPeerJabber.CallPeer.SetAddress` | src/net/java/sip/communicator/impl/protocol/jabber/CallPeerJabberImpl.java:77-90 | the peer's new state is SetAddressStep of its old state |
| `CallPeerJabber.CallPeer.ProcessSessionInitiate` | src/net/java/sip/communicator/impl/protocol/jabber/CallPeerJabberImpl.java:138-172 | the peer's new state is ProcessSessionInitiateStep of its old state |
| `CallPeerJabber.CallPeer.InitiateSession` | src/net/java/sip/communicator/impl/protocol/jabber/CallPeerJabberImpl.java:181-197 | the peer's new state and the outcome are InitiateSessionStep of its old state |
| `CallPeerJabber.CallPeer.Answer` | src/net/java/sip/communicator/impl/protocol/jabber/CallPeerJabberImpl.java:209-227 | the peer's new state and the outcome are AnswerStep of its old state |
| `CallPeerJabber.CallPeer.Hangup` | src/net/java/sip/communicator/impl/protocol/jabber/CallPeerJabberImpl.java:236-288 | the peer's new state and the outcome are HangupStep of its old state, which follows the code as written |
| `CallPeerJabberProperties.SetAddressUnchangedIsNoOp` | src/net/java/sip/communicator/impl/protocol/jabber/CallPeerJabberImpl.java:77-82 | setting the current address changes nothing and fires no event |
| `CallPeerJabberProperties.SetAddressChangedFiresOneEvent` | src/net/java/sip/communicator/impl/protocol/jabber/CallPeerJabberImpl.java:79-89 | a different address replaces peerJID and fires exactly one address-change event carrying (old, new). Nothing is sent, and state and session are unchanged. |
| `CallPeerJabberProperties.ProcessSessionInitiateBindsAndReplies` | src/net/java/sip/communicator/impl/protocol/jabber/CallPeerJabberImpl.java:140-171 | whatever the offer outcome, sessionInitIQ is bound to the argument and getJingleSID then yields its session id. Exactly one reply is sent, carrying that session id, from the packet's `to` back to its `from`. |
| `CallPeerJabberProperties.ProcessSessionInitiateRejected` | src/net/java/sip/communicator/impl/protocol/jabber/CallPeerJabberImpl.java:149-163 | a rejected offer sets FAILED first, with reason "Error: " plus the message. Exactly one session-terminate follows, with INCOMPATIBLE_PARAMETERS, the message and the incoming session id. No ringing is sent. |
| `CallPeerJabberProperties.ProcessSessionInitiateAccepted` | src/net/java/sip/communicator/impl/protocol/jabber/CallPeerJabberImpl.java:166-171 | an accepted offer sends exactly one ringing packet and leaves the state unchanged |
| `CallPeerJabberProperties.InitiateSessionSendsOffer` | src/net/java/sip/communicator/impl/protocol/jabber/CallPeerJabberImpl.java:185-196 | exactly one session-initiate is sent, from our JID to peerJID, with the offer and the generated session id. It becomes the bound session and the state is unchanged. |
| `CallPeerJabberProperties.InitiateSessionFailsUnchanged` | src/net/java/sip/communicator/impl/protocol/jabber/CallPeerJabberImpl.java:185-186 | if the media handler produces no offer, its failure propagates and the peer is unchanged |
| `CallPeerJabberProperties.AnswerAcceptsThenStarts` | src/net/java/sip/communicator/impl/protocol/jabber/CallPeerJabberImpl.java:212-226 | with a bound session the effects are, in order: the session-accept (echoing the bound session id, addressed back to the initiator), the media start, then the change to CONNECTED. Exactly one packet is sent. |
| `CallPeerJabberProperties.AnswerStartFails` | src/net/java/sip/communicator/impl/protocol/jabber/CallPeerJabberImpl.java:219-226 | if media start fails the accept has already been sent, the failure propagates and the state is not set to CONNECTED |
| `CallPeerJabberProperties.AnswerFailsUnchanged` | src/net/java/sip/communicator/impl/protocol/jabber/CallPeerJabberImpl.java:212-217 | with no accept payload or no bound session, answer throws and the peer is unchanged. There is no packet, no media start and no state change. |
| `CallPeerJabberProperties.HangupWhenEndedIsNoOp` | src/net/java/sip/communicator/impl/protocol/jabber/CallPeerJabberImpl.java:240-247 | from DISCONNECTED or FAILED, hangup changes nothing and sends nothing |
| `CallPeerJabberProperties.HangupDisconnectsBeforeSending` | src/net/java/sip/communicator/impl/protocol/jabber/CallPeerJabberImpl.java:253-287 | from any other state the peer ends DISCONNECTED, and that change is the first new effect. At most one further effect follows, and it is a packet. Address and session are unchanged. |
| `CallPeerJabberProperties.HangupIdempotent` | src/net/java/sip/communicator/impl/protocol/jabber/CallPeerJabberImpl.java:239-254 | a second hangup right after a first one is a no-op |
| `CallPeerJabberProperties.HangupRepeated` | src/net/java/sip/communicator/impl/protocol/jabber/CallPeerJabberImpl.java:239-254 | any number n of hangups in a row, with n at least one, leaves the peer exactly as one hangup does |
| `CallPeerJabberProperties.HangupFromConnectedSendsBye` | src/net/java/sip/communicator/impl/protocol/jabber/CallPeerJabberImpl.java:257-261 | from CONNECTED or an on-hold state with a bound session, exactly one bye is sent, from our JID to peerJID with the bound session id |
| `CallPeerJabberProperties.HangupFromIncomingSendsBusy` | src/net/java/sip/communicator/impl/protocol/jabber/CallPeerJabberImpl.java:270-274 | from INCOMING_CALL with a bound session, exactly one busy is sent, from our JID to peerJID with the bound session id |
| `CallPeerJabberProperties.HangupWithoutSessionThrows` | src/net/java/sip/communicator/impl/protocol/jabber/CallPeerJabberImpl.java:253-261 | when a bye or busy is due but no session is bound, hangup throws NullSessionInitIQ after setting DISCONNECTED and sends nothing |
| `CallPeerJabberProperties.HangupFromOtherStatesSendsNothing` | src/net/java/sip/communicator/impl/protocol/jabber/CallPeerJabberImpl.java:263-284 | from CONNECTING, CONNECTING_WITH_EARLY_MEDIA, ALERTING_REMOTE_SIDE, BUSY or any other state, hangup records only the change to DISCONNECTED and sends nothing. The cancel test reads the already updated state. |
| `CallPeerJabberProperties.HangupNeverSendsCancel` | src/net/java/sip/communicator/impl/protocol/jabber/CallPeerJabberImpl.java:253-287 | from any state, hangup as written sends no packet or exactly one, and that packet is a bye or a busy, never a cancel |
| `CallPeerJabberProperties.CorrectedHangupSendsCancel` | src/net/java/sip/communicator/impl/protocol/jabber/CallPeerJabberImpl.java:229-232 | with the cancel test reading the previous state, hangup from CONNECTING, CONNECTING_WITH_EARLY_MEDIA or ALERTING_REMOTE_SIDE sends exactly one cancel with the bound session id and ends DISCONNECTED |
| `CallPeerJabberProperties.CorrectedHangupAgreesElsewhere` | src/net/java/sip/communicator/impl/protocol/jabber/CallPeerJabberImpl.java:253-287 | outside those three states the corrected hangup is exactly the hangup as written |
| `CallPeerJabberProperties.IncomingCallDeclined` | src/net/java/sip/communicator/impl/protocol/jabber/CallPeerJabberImpl.java:270-273 | for an accepted incoming session-initiate that is then declined from INCOMING_CALL, the only packets ever sent are a ringing and a busy. Both carry the incoming session id and go back to the caller. |
| `CallPeerJabberProperties.IncomingCallAnsweredThenHungUp` | src/net/java/sip/communicator/impl/protocol/jabber/CallPeerJabberImpl.java:209-227 | for an incoming call that is rung, answered and hung up, the packets are ringing, session-accept and bye, in that order, all with the incoming session id. |
| `CallPeerJabberProperties.OutgoingCallHungUpWhileAlerting` | src/net/java/sip/communicator/impl/protocol/jabber/CallPeerJabberImpl.java:263-269 | for an outgoing call hung up in ALERTING_REMOTE_SIDE, as written only the session-initiate is ever sent. The corrected hangup follows it with a cancel carrying the generated session id. |

## Findings

| source | as written | input that shows it | evidently intended | confidence | as-written member | corrected member |
|---|---|---|---|---|---|---|
| src/net/java/sip/communicator/impl/protocol/jabber/CallPeerJabberImpl.java:263-265 | the cancel branch tests `getState()`, but line 254 has already set it to DISCONNECTED, so the branch can never be taken | `hangup` on a peer in ALERTING_REMOTE_SIDE (or CONNECTING, CONNECTING_WITH_EARLY_MEDIA) with a bound session: the state becomes DISCONNECTED and nothing is sent | test `prevPeerState` and send one cancel, as the doc comment at lines 230-232 says | not executed; follows from the proved lemmas | `CallPeerJabberProperties.HangupFromOtherStatesSendsNothing` | `CallPeerJabberProperties.CorrectedHangupSendsCancel` |

`CallPeer.Hangup` keeps the code's behaviour, because the class models what
the peer actually does. The corrected behaviour is
`CallPeerJabber.CorrectedHangupStep`. `CorrectedHangupAgreesElsewhere` proves
it differs from the code only in the three states named above.
`OutgoingCallHungUpWhileAlerting` shows both on the same call.

## Left out

- `getDisplayName` and `getContact` (CallPeerJabberImpl.java:97-128) are
  presence lookups through the protocol provider, with no logic of their own.
- Logging is a diagnostic side channel only.
- The `synchronized` modifiers and locking are not modelled. Operations are
  sequential steps on one peer.
- Packet construction and serialisation are not modelled: the packet
  factories, the XML of `JingleIQ`, and the element name and namespace of the
  `content` element. A packet is an abstract record of action, from, to and
  session id.
- The text that `createBye`, `createCancel` and `createBusy` put in a packet is
  not modelled.
- The random session id of `JingleIQ.generateSID()` is a parameter.
- The media handler's internals (`processOffer`, `createContentList`,
  `generateSessionAccept`, `start`) are not modelled: codec and transport
  negotiation. Each is a success or failure, and content lists are opaque.
- The owning call and the protocol provider are not modelled. Our JID is a
  constant of the peer.
- Null enum arguments are not modelled. `setCreator(null)` and a null
  creator or senders in a constructor would remove the attribute, and
  `setSenders(null)` throws NullPointerException; the model's enum
  parameters are never null.
- Null addresses are not modelled. `setAddress(null)` assigns and then throws
  NullPointerException from `address.toString()`; the model's addresses are
  never null.
- A null exception message is not modelled. The failure message of
  `processOffer` is always a string.
