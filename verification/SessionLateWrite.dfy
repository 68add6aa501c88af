/** The cap of three datagrams is not quite kept: a run of both gates in which the responder puts four on the wire
    before it is active. SessionPair shows that a write under way when CompleteChallenge freezes the trace is the
    only cause. Every datagram that arrives in this run was sent in it. */
module SessionLateWrite {
  import opened Basics
  import opened SessionGate
  import opened SessionPair

  ghost predicate AtRest(g: Gate) reads g {
    && g.Inv() && g.writer == NoWrite && g.reader == NoRead && g.inFlight == 0
    && g.finish == FinishNot && g.buffered == None && !g.peerFinishConfirmed
  }

  /** Readiness is done; only packets have been counted since. */
  ghost predicate InChallenge(g: Gate, outbound: seq<MessageType>, inbound: seq<MessageType>) reads g {
    && AtRest(g) && g.phase.Capped? && g.consumerReady && g.outbound == outbound && g.inbound == inbound
    && g.readinessWrites == 1 && g.readinessReads == 1 && g.completionReads == 0 && g.completionWrites == 0
    && g.sent == |outbound| + 1
  }

  // ----- readiness ----------------------------------------------------------------------------------

  method Opens(g: Gate) returns (d: Datagram)
    requires AtRest(g) && g.role.Initiator? && g.phase.Standby? && g.sent == 0
    modifies g
    ensures AtRest(g) && g.phase.Capped? && g.ready.ReadyRead? && g.sent == 1 && d == ReadySeal(Initiator)
  {
    g.BeginChallenge();
    g.ReadyEnter();
    g.ReadyLock();
    g.ReadyCharge();
    d := g.ReadyEmit();
  }

  method Listens(g: Gate)
    requires AtRest(g) && g.role.Responder? && g.phase.Standby? && g.sent == 0
    modifies g
    ensures AtRest(g) && g.phase.Capped? && g.ready.ReadyRead? && !g.consumerReady && g.sent == 0
  {
    g.BeginChallenge();
    g.ReadyEnter();
    g.ReadyLock();
  }

  method Takes(g: Gate)
    requires AtRest(g) && g.role.Responder? && g.phase.Capped? && g.ready.ReadyRead? && !g.consumerReady && g.sent == 0
    modifies g
    ensures AtRest(g) && g.phase.Capped? && g.ready.ReadySend? && g.sent == 0 && g.readinessWrites == 1
  {
    g.ReadyTake(ReadySeal(Initiator));
    g.ReadyCharge();
  }

  method Answers(g: Gate) returns (d: Datagram)
    requires AtRest(g) && g.role.Responder? && g.phase.Capped? && g.ready.ReadyRead? && !g.consumerReady && g.sent == 0
    modifies g
    ensures InChallenge(g, [], []) && d == ReadySeal(Responder)
  {
    Takes(g);
    d := g.ReadyEmit();
    g.ReadyPublish();
  }

  method Concludes(g: Gate)
    requires AtRest(g) && g.role.Initiator? && g.phase.Capped? && g.ready.ReadyRead? && g.sent == 1
    modifies g
    ensures InChallenge(g, [], [])
  {
    g.ReadyTake(ReadySeal(Responder));
    g.ReadyPublish();
  }

  // ----- packets --------------------------------------------------------------------------------------

  method Receives(g: Gate, kind: MessageType)
    requires InChallenge(g, g.outbound, g.inbound) && |g.inbound| < 2 && kind !in g.inbound && !kind.CookieReply?
    modifies g
    ensures InChallenge(g, old(g.outbound), old(g.inbound) + [kind])
  {
    g.ReadEnter();
    g.ReadLeave(Wire(kind));
  }

  method Sends(g: Gate, kind: MessageType) returns (d: Datagram)
    requires InChallenge(g, g.outbound, g.inbound) && |g.outbound| < 2 && kind !in g.outbound && !kind.CookieReply?
    modifies g
    ensures InChallenge(g, old(g.outbound) + [kind], old(g.inbound)) && d == Wire(kind)
  {
    g.WriteEnter(Wire(kind));
    d := g.WriteEmit();
    g.WriteLeave();
  }

  // ----- the responder completes while a packet is with the transport ---------------------------------------

  method FreezeDuringWrite(g: Gate)
    requires g.role.Responder? && InChallenge(g, [Response], [Initiation, TransportData])
    modifies g
    ensures g.Inv() && g.phase.Drain? && g.drain.Draining? && g.lateWrite && g.sent == 2 && g.buffered == None
    ensures g.writer == Writing(Wire(TransportData), Capped, false) && g.reader == NoRead && g.finish == FinishNot
    ensures !g.peerFinishConfirmed
  {
    g.WriteEnter(Wire(TransportData));
    g.CompleteFreeze();
  }

  method DrainAfterWrite(g: Gate) returns (d: Datagram)
    requires g.Inv() && g.phase.Drain? && g.drain.Draining? && g.buffered == None && !g.peerFinishConfirmed
    requires g.writer == Writing(Wire(TransportData), Capped, false) && g.reader == NoRead && g.finish == FinishNot
    modifies g
    ensures AtRest(g) && g.phase.Passed? && g.sent == old(g.sent) + 1 && g.lateWrite == old(g.lateWrite)
    ensures d == Wire(TransportData)
  {
    d := g.WriteEmit();
    g.WriteLeave();
    g.CompletePoll();
    g.CompletePass();
  }

  method Records(g: Gate)
    requires AtRest(g) && g.role.Responder? && g.phase.Passed?
    modifies g
    ensures g.Inv() && g.phase.Confirming? && g.finish == FinishAfterDurable
    ensures g.sent == old(g.sent) && g.lateWrite == old(g.lateWrite)
  {
    g.FinishEnter();
    g.FinishLock();
    g.FinishStart();
    g.FinishCommit();
    g.FinishRecord();
  }

  method Confirms(g: Gate) returns (d: Datagram)
    requires g.Inv() && g.role.Responder? && g.phase.Confirming? && g.finish == FinishAfterDurable
    modifies g
    ensures g.Inv() && g.phase.Confirming? && g.finish == FinishBeforeDetach && d == FinishSeal(Responder) && g.durable
    ensures g.sent == old(g.sent) + 1 && g.lateWrite == old(g.lateWrite)
  {
    g.FinishConfirm();
    g.FinishCharge();
    d := g.FinishEmit();
  }

  method Activates(g: Gate)
    requires g.Inv() && g.phase.Confirming? && g.finish == FinishBeforeDetach && g.buffered == None
    modifies g
    ensures g.Inv() && g.phase.Active? && g.finish == FinishOver && g.buffered == None && g.durable == old(g.durable)
      && g.writer == NoWrite
    ensures g.sent == old(g.sent) && g.lateWrite == old(g.lateWrite)
      && g.peerFinishConfirmed == old(g.peerFinishConfirmed)
  {
    g.FinishRelease();
    g.FinishDetachLease();
    g.FinishUnlock();
  }

  // ----- the initiator completes without a hitch -------------------------------------------------------------

  method Passes(g: Gate)
    requires g.role.Initiator? && InChallenge(g, [Initiation, TransportData], [Response])
    modifies g
    ensures AtRest(g) && g.phase.Passed? && g.InboundSpent() == 2
  {
    g.CompleteFreeze();
    g.CompletePoll();
    g.CompletePass();
  }

  method Awaits(g: Gate)
    requires AtRest(g) && g.role.Initiator? && g.phase.Passed? && g.InboundSpent() == 2
    modifies g
    ensures g.Inv() && g.phase.Confirming? && g.finish == FinishReading && g.buffered == None && !g.peerFinishConfirmed
  {
    g.FinishEnter();
    g.FinishLock();
    g.FinishStart();
    g.FinishTake();
  }

  method Commits(g: Gate)
    requires g.Inv() && g.role.Initiator? && g.phase.Confirming? && g.finish == FinishReading && g.buffered == None
    modifies g
    ensures g.Inv() && g.phase.Confirming? && g.finish == FinishBeforeDetach && g.buffered == None
  {
    g.FinishArrive(FinishSeal(Responder));
    g.FinishOpenFrame();
    g.FinishCommit();
    g.FinishRecord();
    g.FinishConfirm();
  }

  // ----- the run ---------------------------------------------------------------------------------------------

  predicate Unconfirmed(p: Pair)
    reads p
  {
    FinishSeal(Responder) !in p.wire
  }

  method BothReady(p: Pair)
    requires p.Valid() && AtRest(p.i) && AtRest(p.r) && p.i.phase.Standby? && p.r.phase.Standby?
    requires p.i.sent == 0 && p.r.sent == 0 && p.wire == {}
    modifies p, p.i, p.r
    ensures p.Valid() && InChallenge(p.i, [], []) && InChallenge(p.r, [], []) && Unconfirmed(p)
  {
    var d := Opens(p.i);
    p.Put(d);
    Listens(p.r);
    assert p.MayArrive(ReadyTake(ReadySeal(Initiator)));
    d := Answers(p.r);
    p.Put(d);
    assert p.MayArrive(ReadyTake(ReadySeal(Responder)));
    Concludes(p.i);
  }

  /** A packet of the initiator gets through. */
  method Forth(p: Pair, kind: MessageType)
    requires p.Valid() && Unconfirmed(p) && !kind.CookieReply?
    requires InChallenge(p.i, p.i.outbound, p.i.inbound) && |p.i.outbound| < 2 && kind !in p.i.outbound
    requires InChallenge(p.r, p.r.outbound, p.r.inbound) && |p.r.inbound| < 2 && kind !in p.r.inbound
    modifies p, p.i, p.r
    ensures p.Valid() && Unconfirmed(p)
    ensures InChallenge(p.i, old(p.i.outbound) + [kind], old(p.i.inbound))
    ensures InChallenge(p.r, old(p.r.outbound), old(p.r.inbound) + [kind])
  {
    var d := Sends(p.i, kind);
    p.Put(d);
    assert p.MayArrive(ReadLeave(d));
    Receives(p.r, kind);
  }

  /** A packet of the responder gets through. */
  method Back(p: Pair, kind: MessageType)
    requires p.Valid() && Unconfirmed(p) && !kind.CookieReply?
    requires InChallenge(p.r, p.r.outbound, p.r.inbound) && |p.r.outbound| < 2 && kind !in p.r.outbound
    requires InChallenge(p.i, p.i.outbound, p.i.inbound) && |p.i.inbound| < 2 && kind !in p.i.inbound
    modifies p, p.i, p.r
    ensures p.Valid() && Unconfirmed(p)
    ensures InChallenge(p.r, old(p.r.outbound) + [kind], old(p.r.inbound))
    ensures InChallenge(p.i, old(p.i.outbound), old(p.i.inbound) + [kind])
  {
    var d := Sends(p.r, kind);
    p.Put(d);
    assert p.MayArrive(ReadLeave(d));
    Receives(p.i, kind);
  }

  method BothTraced(p: Pair)
    requires p.Valid() && Unconfirmed(p) && InChallenge(p.i, [], []) && InChallenge(p.r, [], [])
    modifies p, p.i, p.r
    ensures p.Valid() && Unconfirmed(p) && InChallenge(p.i, [Initiation, TransportData], [Response])
    ensures InChallenge(p.r, [Response], [Initiation, TransportData])
  {
    Forth(p, Initiation);
    Back(p, Response);
    Forth(p, TransportData);
  }

  /** The packet that was under way at the freeze is sent before the drain ends. */
  method LatePacket(p: Pair)
    requires p.Valid() && Unconfirmed(p) && AtRest(p.i) && InChallenge(p.r, [Response], [Initiation, TransportData])
    modifies p, p.r
    ensures p.Valid() && AtRest(p.r) && p.r.phase.Passed? && p.r.lateWrite && p.r.sent == 3
  {
    FreezeDuringWrite(p.r);
    var d := DrainAfterWrite(p.r);
    p.Put(d);
  }

  /** Readiness, response, the late packet and the confirmation. */
  method ResponderSendsFour(p: Pair)
    requires p.Valid() && AtRest(p.r) && p.r.phase.Passed? && p.r.lateWrite && p.r.sent == 3
    modifies p, p.r
    ensures p.Valid() && p.r.phase.Active? && p.r.lateWrite && p.r.sent == 4 && FinishSeal(Responder) in p.wire
  {
    Records(p.r);
    var d := Confirms(p.r);
    p.Put(d);
    Activates(p.r);
  }

  method InitiatorFollows(p: Pair)
    requires p.Valid() && FinishSeal(Responder) in p.wire && InChallenge(p.i, [Initiation, TransportData], [Response])
    modifies p.i
    ensures p.Valid() && p.i.phase.Active?
  {
    Passes(p.i);
    Awaits(p.i);
    assert p.MayArrive(FinishArrive(FinishSeal(Responder)));
    Commits(p.i);
    Activates(p.i);
  }

  /** Both gates get to Active, and the responder has sent four datagrams before that. */
  method FourDatagrams() returns (p: Pair)
    ensures p.Valid() && p.Committed() && p.i.phase.Active? && p.r.phase.Active? && p.r.lateWrite && p.r.sent == 4
  {
    p := new Pair();
    BothReady(p);
    BothTraced(p);
    LatePacket(p);
    ResponderSendsFour(p);
    InitiatorFollows(p);
    p.ValidCommits();
  }
}
