/** One WireGuard session gate (internal/probeio/wireguard_session_gate.go,
    wireguard_consumer_ready.go, wireguard_consumer_finish.go).

    A method is one section under the gate's mutex, or one transport call
    outside it. The read, write and finish mutexes show as program counters, so
    that any interleaving of the callers is a sequence of method calls.
    Deadlines and cancellation may strike at any step and lead to Close. */
module SessionGate {
  import opened Basics

  datatype Role = Initiator | Responder

  function Peer(role: Role): Role { if role.Initiator? then Responder else Initiator }

  datatype MessageType = Initiation | Response | CookieReply | TransportData

  /** What travels: WireGuard packets, the two sealed control frames, and anything an outsider may send.
      A forged frame bears the FINISH prefix but no valid seal. */
  datatype Datagram =
    | Wire(kind: MessageType)
    | ReadySeal(signer: Role)
    | FinishSeal(signer: Role)
    | FinishForged(sized: bool)
    | Junk

  predicate HasFinishPrefix(d: Datagram) { d.FinishSeal? || d.FinishForged? }

  predicate FinishSized(d: Datagram) { d.FinishSeal? || (d.FinishForged? && d.sized) }

  datatype Phase = Standby | Capped | Drain | Passed | Confirming | Active | Closed

  /** A packet call that entered in the given phase; `sent` once the transport took the packet. */
  datatype WriteCall = NoWrite | Writing(packet: Datagram, entered: Phase, sent: bool)

  datatype ReadCall = NoRead | Reading(entered: Phase)

  datatype ReadyPc = ReadyNot | ReadyWaiting | ReadyWrite | ReadySend | ReadyRead | ReadyCheck | ReadyOver

  datatype DrainPc = DrainNot | Draining | Drained | DrainOver

  datatype FinishPc =
    | FinishNot | FinishWaiting | FinishBegin | FinishReceive | FinishReading | FinishOpen(frame: Datagram)
    | FinishBeforeDurable | FinishDurable | FinishAfterDurable | FinishSealing | FinishSending
    | FinishBeforeDetach | FinishDetach | FinishActivate | FinishOver

  const CHALLENGE_PACKETS: nat := 3

  function One(b: bool): nat { if b then 1 else 0 }

  predicate Frozen(p: Phase) { p.Drain? || p.Passed? || p.Confirming? || p.Active? }

  /** FINISH has been recorded from here on. */
  predicate PastDurable(f: FinishPc) {
    || f.FinishAfterDurable? || f.FinishSealing? || f.FinishSending? || f.FinishBeforeDetach?
    || f.FinishDetach? || f.FinishActivate?
  }

  predicate PastSending(f: FinishPc) { f.FinishBeforeDetach? || f.FinishDetach? || f.FinishActivate? }

  /** The exact packet trace that completes the challenge. */
  predicate TraceOf(role: Role, outbound: seq<MessageType>, inbound: seq<MessageType>) {
    if role.Initiator? then outbound == [Initiation, TransportData] && inbound == [Response]
    else outbound == [Response] && inbound == [Initiation, TransportData]
  }

  /** Each message type at most once, and never a cookie reply. */
  predicate Clean(trace: seq<MessageType>) {
    CookieReply !in trace && forall i, j :: 0 <= i < j < |trace| ==> trace[i] != trace[j]
  }

  class Gate {
    const role: Role
    var phase: Phase
    var outbound: seq<MessageType>
    var inbound: seq<MessageType>
    var consumerReady: bool
    var readinessWrites: nat
    var readinessReads: nat
    var buffered: Option<Datagram>
    var completionReads: nat
    var completionWrites: nat
    var peerFinishConfirmed: bool
    var finishRecorded: bool
    var leaseDetached: bool
    var detached: bool
    var inFlight: int

    // Where each caller stands.
    var writer: WriteCall
    var reader: ReadCall
    var ready: ReadyPc
    var drain: DrainPc
    var finish: FinishPc

    // What an observer of the socket and of the journal counts.
    ghost var sent: nat
    ghost var accepted: nat
    ghost var durable: bool
    ghost var lateWrite: bool

    predicate TraceComplete() reads this {
      consumerReady && readinessWrites == 1 && readinessReads == 1 && TraceOf(role, outbound, inbound)
    }

    function OutboundSpent(): nat reads this { |outbound| + readinessWrites + completionWrites }

    function InboundSpent(): nat reads this { |inbound| + readinessReads + completionReads }

    predicate ReadyHoldsLocks() reads this {
      ready.ReadyWrite? || ready.ReadySend? || ready.ReadyRead? || ready.ReadyCheck?
    }

    predicate FinishRuns() reads this { !finish.FinishNot? && !finish.FinishOver? }

    predicate FinishHoldsLocks() reads this { FinishRuns() && !finish.FinishWaiting? }

    predicate CappedWrite() reads this { writer.Writing? && writer.entered.Capped? }

    predicate CappedRead() reads this { reader.Reading? && reader.entered.Capped? }

    /** Datagrams that calls already under way may still put on the wire. */
    ghost function SendsAhead(): nat reads this {
      One(ready.ReadySend?) + One(CappedWrite() && !writer.sent) + One(finish.FinishSending?)
    }

    /** Datagrams that calls already under way may still take from the wire. */
    ghost function ReadsAhead(): nat reads this {
      One(ready.ReadyRead? || (role.Initiator? && (ready.ReadyWrite? || ready.ReadySend?))) +
      One(CappedRead()) + One(finish.FinishReading?)
    }

    // ----- the invariant ------------------------------------------------------------

    /** Who may be where in which phase. */
    ghost predicate Callers() reads this {
      && inFlight == One(writer.Writing?) + One(reader.Reading?) + One(finish.FinishReading? || finish.FinishSending?)
      && (writer.Writing? ==> (writer.entered.Capped? && writer.packet.Wire?) || writer.entered.Active?)
      && (CappedWrite() ==> !writer.packet.kind.CookieReply? && (phase.Capped? ==> writer.packet.kind !in outbound))
      && (reader.Reading? ==> reader.entered.Capped? || reader.entered.Active?)
      && (CappedWrite() || CappedRead() ==> consumerReady && (phase.Capped? || phase.Drain? || phase.Closed?))
      && (writer.Writing? && writer.entered.Active? ==> phase.Active? || phase.Closed?)
      && (reader.Reading? && reader.entered.Active? ==> phase.Active? || phase.Closed?)
      && (ReadyHoldsLocks() || FinishRuns() ==> writer.NoWrite? && reader.NoRead?)
      && (phase.Passed? || phase.Confirming? ==> writer.NoWrite? && reader.NoRead?)
      && (drain.Drained? && phase.Drain? ==> writer.NoWrite? && reader.NoRead?)
      && (phase.Confirming? ==> FinishRuns())
      && (phase.Active? ==> finish.FinishOver?)
      && (FinishRuns() ==> phase.Confirming? || phase.Closed?)
      && (!finish.FinishNot? ==> consumerReady || phase.Closed?)
      && (FinishRuns() ==> consumerReady)
      && (finish.FinishReceive? || finish.FinishReading? || finish.FinishOpen? ==> role.Initiator?)
      && (finish.FinishSealing? || finish.FinishSending? ==> role.Responder?)
    }

    /** The readiness barrier comes first and happens once. */
    ghost predicate Barrier() reads this {
      && (phase.Standby? ==> ready.ReadyNot?)
      && (consumerReady ==> ready.ReadyOver?)
      && (!consumerReady ==> outbound == [] && inbound == [] && completionReads == 0 && completionWrites == 0)
      && (!consumerReady ==> accepted == readinessReads && readinessReads <= 1)
      && (ready.ReadyNot? || ready.ReadyWaiting? ==> readinessReads == 0 && readinessWrites == 0)
      && (ready.ReadyWrite? ==> readinessWrites == 0 && readinessReads == One(role.Responder?))
      && (ready.ReadySend? ==> readinessWrites == 1 && readinessReads == One(role.Responder?))
      && (ready.ReadyRead? ==> readinessReads == 0 && readinessWrites == One(role.Initiator?))
      && (ready.ReadyCheck? || consumerReady ==> readinessReads == 1 && readinessWrites == 1)
      && (!consumerReady && ready.ReadyOver? ==> phase.Closed?)
      && readinessWrites <= 1
    }

    /** Every datagram out is paid for. */
    ghost predicate OutboundPaid() reads this {
      && sent + SendsAhead() <= CHALLENGE_PACKETS + One(lateWrite)
      && (lateWrite ==> role.Responder?)
      && (phase.Standby? || phase.Capped? ==>
            && !lateWrite && completionWrites == 0
            && OutboundSpent() + One(CappedWrite()) <= CHALLENGE_PACKETS
            && sent + SendsAhead() == OutboundSpent() + One(CappedWrite()))
      && (Frozen(phase) ==>
            && TraceComplete()
            && completionWrites ==
               One(role.Responder? && (finish.FinishSending? || PastSending(finish) || phase.Active?))
            && (CappedWrite() ==> lateWrite)
            && sent + SendsAhead() == OutboundSpent() + One(lateWrite))
    }

    /** Every datagram in is paid for. */
    ghost predicate InboundPaid() reads this {
      && accepted + ReadsAhead() <= CHALLENGE_PACKETS
      && (!phase.Closed? || FinishRuns() ==> accepted == InboundSpent())
      && (CappedRead() && !phase.Closed? ==> completionReads == 0)
      && (buffered.Some? ==> completionReads == 1 && !finish.FinishReading?)
      && (buffered.Some? ==> FinishSized(buffered.value) && Response in inbound)
      && (role.Responder? ==> completionReads == 0)
    }

    /** Activation comes after detach, detach after FINISH, and the initiator's FINISH after the peer's confirmation. */
    ghost predicate Ordered() reads this {
      && finishRecorded == durable
      && (PastDurable(finish) ==> durable)
      && (finish.FinishActivate? ==> leaseDetached)
      && (leaseDetached ==> durable)
      && (detached ==> leaseDetached)
      && (phase.Active? ==> detached)
      && (role.Initiator? && (finish.FinishBeforeDurable? || finish.FinishDurable? || durable) ==> peerFinishConfirmed)
    }

    ghost predicate Inv() reads this {
      Callers() && Barrier() && OutboundPaid() && InboundPaid() && Ordered() && Clean(outbound) && Clean(inbound)
    }

    /** A completion frame the gate keeps but has not opened. */
    ghost predicate Keeps(d: Datagram) reads this {
      buffered == Some(d) || finish == FinishOpen(d)
    }

    constructor (role: Role)
      ensures this.role == role && phase == Standby && outbound == [] && inbound == []
      ensures sent == 0 && accepted == 0 && !durable && !lateWrite && buffered == None && finish == FinishNot
        && !peerFinishConfirmed
      ensures ready == ReadyNot && drain == DrainNot && writer == NoWrite && reader == NoRead && inFlight == 0
      ensures readinessWrites == readinessReads == completionReads == completionWrites == 0
      ensures Inv()
    {
      this.role, phase, outbound, inbound := role, Standby, [], [];
      consumerReady, readinessWrites, readinessReads := false, 0, 0;
      buffered, completionReads, completionWrites := None, 0, 0;
      peerFinishConfirmed, finishRecorded, leaseDetached, detached := false, false, false, false;
      inFlight, writer, reader, ready, drain, finish := 0, NoWrite, NoRead, ReadyNot, DrainNot, FinishNot;
      sent, accepted, durable, lateWrite := 0, 0, false, false;
    }

    method Close()
      requires Inv()
      modifies this`phase, this`buffered
      ensures phase == Closed && buffered == None && Inv()
    {
      phase, buffered := Closed, None;
    }

    method BeginChallenge()
      requires Inv()
      modifies this`phase
      ensures phase == if old(phase).Standby? then Capped else old(phase)
      ensures Inv()
    {
      if phase.Standby? { phase := Capped; }
    }

    // ----- the readiness barrier --------------------------------------------------------

    /** ConsumerReady is entered; a second call, or one outside the challenge, closes the gate. */
    method ReadyEnter()
      requires Inv()
      modifies this`phase, this`buffered, this`ready
      ensures if old(phase).Capped? && old(ready).ReadyNot?
              then phase == old(phase) && buffered == old(buffered) && ready == ReadyWaiting
              else phase == Closed && buffered == None && ready == old(ready)
      ensures Inv()
    {
      if !phase.Capped? || !ready.ReadyNot? { Close(); } else { ready := ReadyWaiting; }
    }

    method ReadyLock()
      requires Inv()
      modifies this`ready
      ensures ready == if old(ready).ReadyWaiting? && writer.NoWrite? && reader.NoRead? && !FinishHoldsLocks()
                       then (if role.Initiator? then ReadyWrite else ReadyRead) else old(ready)
      ensures Inv()
    {
      if ready.ReadyWaiting? && writer.NoWrite? && reader.NoRead? && !FinishHoldsLocks() {
        ready := if role.Initiator? then ReadyWrite else ReadyRead;
      }
    }

    /** The readiness frame is charged before it is sent. */
    method ReadyCharge()
      requires Inv() && ready.ReadyWrite?
      modifies this`phase, this`buffered, this`ready, this`readinessWrites
      ensures if old(phase).Capped?
              then phase == old(phase) && buffered == old(buffered) && ready == ReadySend && readinessWrites == 1
              else phase == Closed && ready == ReadyOver && readinessWrites == old(readinessWrites)
      ensures buffered == old(buffered) || buffered == None
      ensures Inv()
    {
      if !phase.Capped? || |outbound| + readinessWrites >= CHALLENGE_PACKETS {
        ReadyAbort();
      } else {
        readinessWrites, ready := readinessWrites + 1, ReadySend;
      }
    }

    /** The readiness call fails, at any of its sections. */
    method ReadyAbort()
      requires Inv() && ReadyHoldsLocks()
      modifies this`phase, this`buffered, this`ready
      ensures phase == Closed && buffered == None && ready == ReadyOver
      ensures Inv()
    {
      phase, buffered, ready := Closed, None, ReadyOver;
    }

    method ReadyEmit() returns (emitted: Datagram)
      requires Inv() && ready.ReadySend?
      modifies this`ready, this`sent
      ensures emitted == ReadySeal(role) && sent == old(sent) + 1
      ensures ready == if role.Initiator? then ReadyRead else ReadyCheck
      ensures Inv()
    {
      emitted, sent := ReadySeal(role), sent + 1;
      ready := if role.Initiator? then ReadyRead else ReadyCheck;
    }

    /** One datagram is taken, whatever it is; only the peer's seal goes on. */
    method ReadyTake(d: Datagram)
      requires Inv() && ready.ReadyRead?
      modifies this`phase, this`buffered, this`ready, this`accepted, this`readinessReads
      ensures accepted == old(accepted) + 1 && readinessReads == old(readinessReads) + 1
      ensures if d == ReadySeal(Peer(role))
              then
                && phase == old(phase) && buffered == old(buffered)
                && ready == (if role.Initiator? then ReadyCheck else ReadyWrite)
              else phase == Closed && buffered == None && ready == ReadyOver
      ensures Inv()
    {
      accepted, readinessReads := accepted + 1, readinessReads + 1;
      ready := if role.Initiator? then ReadyCheck else ReadyWrite;
      if d != ReadySeal(Peer(role)) { ReadyAbort(); }
    }

    method ReadyPublish()
      requires Inv() && ready.ReadyCheck?
      modifies this`phase, this`buffered, this`ready, this`consumerReady
      ensures ready == ReadyOver
      ensures if old(phase).Capped? then phase == old(phase) && buffered == old(buffered) && consumerReady
              else phase == Closed && buffered == None && consumerReady == old(consumerReady)
      ensures Inv()
    {
      if phase.Capped? { consumerReady, ready := true, ReadyOver; } else { ReadyAbort(); }
    }

    // ----- packet I/O ----------------------------------------------------------------------

    predicate WriteAllowed(packet: Datagram) reads this {
      && OutboundSpent() < CHALLENGE_PACKETS && consumerReady
      && packet.Wire? && !packet.kind.CookieReply? && packet.kind !in outbound
    }

    /** WritePacket up to the transport call: the challenge allows each type once and three datagrams in all;
        an active session sends any bytes. */
    method WriteEnter(packet: Datagram)
      requires Inv() && writer.NoWrite? && !ReadyHoldsLocks() && !FinishHoldsLocks()
      modifies this`phase, this`buffered, this`inFlight, this`writer
      ensures old(phase).Capped? && !old(WriteAllowed(packet)) ==>
                phase == Closed && buffered == None && writer == NoWrite && inFlight == old(inFlight)
      ensures old(phase).Capped? && old(WriteAllowed(packet)) ==>
                && phase == Capped && buffered == old(buffered)
                && writer == Writing(packet, Capped, false) && inFlight == old(inFlight) + 1
      ensures !old(phase).Capped? ==>
                && phase == old(phase) && buffered == old(buffered)
                && if phase.Active?
                   then writer == Writing(packet, Active, false) && inFlight == old(inFlight) + 1
                   else writer == NoWrite && inFlight == old(inFlight)
      ensures Inv()
    {
      if phase.Capped? {
        if !WriteAllowed(packet) { Close(); }
        else { inFlight, writer := inFlight + 1, Writing(packet, Capped, false); }
      } else if phase.Active? {
        inFlight, writer := inFlight + 1, Writing(packet, Active, false);
      }
    }

    /** The transport takes the packet; one whose call then fails may have been taken too. */
    method WriteEmit() returns (emitted: Datagram)
      requires Inv() && writer.Writing? && !writer.sent
      modifies this`writer, this`sent
      ensures emitted == old(writer).packet
      ensures writer == Writing(old(writer).packet, old(writer).entered, true)
      ensures sent == old(sent) + One(old(writer).entered.Capped?)
      ensures Inv()
    {
      emitted := writer.packet;
      if writer.entered.Capped? { sent := sent + 1; }
      writer := Writing(writer.packet, writer.entered, true);
    }

    /** WritePacket after a transport call that went well: recorded only while the challenge still runs. */
    method WriteLeave()
      requires Inv() && writer.Writing? && writer.sent
      modifies this`inFlight, this`writer, this`outbound
      ensures writer == NoWrite && inFlight == old(inFlight) - 1
      ensures outbound == old(outbound) + if old(CappedWrite()) && phase.Capped? then [old(writer).packet.kind] else []
      ensures Inv()
    {
      if writer.entered.Capped? && phase.Capped? { WriteRecord(); } else { WriteForget(); }
    }

    method WriteRecord()
      requires Inv() && CappedWrite() && writer.sent && phase.Capped?
      modifies this`inFlight, this`writer, this`outbound
      ensures writer == NoWrite && inFlight == old(inFlight) - 1
      ensures outbound == old(outbound) + [old(writer).packet.kind]
      ensures Inv()
    {
      outbound, inFlight, writer := outbound + [writer.packet.kind], inFlight - 1, NoWrite;
    }

    method WriteForget()
      requires Inv() && writer.Writing? && writer.sent && !(CappedWrite() && phase.Capped?)
      modifies this`inFlight, this`writer
      ensures writer == NoWrite && inFlight == old(inFlight) - 1
      ensures Inv()
    {
      inFlight, writer := inFlight - 1, NoWrite;
    }

    method WriteAbort()
      requires Inv() && writer.Writing?
      modifies this`phase, this`buffered, this`inFlight, this`writer
      ensures writer == NoWrite && inFlight == old(inFlight) - 1 && phase == Closed && buffered == None
      ensures Inv()
    {
      Close();
      DropWrite();
    }

    method DropWrite()
      requires Inv() && writer.Writing? && phase.Closed?
      modifies this`inFlight, this`writer
      ensures writer == NoWrite && inFlight == old(inFlight) - 1
      ensures Inv()
    {
      inFlight, writer := inFlight - 1, NoWrite;
    }

    method ReadEnter()
      requires Inv() && consumerReady && reader.NoRead? && !ReadyHoldsLocks() && !FinishHoldsLocks()
      modifies this`phase, this`buffered, this`inFlight, this`reader
      ensures reader == NoRead || reader == Reading(old(phase))
      ensures inFlight == old(inFlight) + One(reader.Reading?)
      ensures reader.Reading? <==>
        old(phase).Active? || (old(phase).Capped? && completionReads == 0 && InboundSpent() < CHALLENGE_PACKETS)
      ensures if old(phase).Capped? && completionReads == 0 && InboundSpent() >= CHALLENGE_PACKETS && !TraceComplete()
              then phase == Closed && buffered == None else phase == old(phase) && buffered == old(buffered)
      ensures Inv()
    {
      if phase.Active? {
        StartRead();
      } else if phase.Capped? && completionReads == 0 {
        if InboundSpent() < CHALLENGE_PACKETS { StartRead(); } else if !TraceComplete() { Close(); }
      }
    }

    method StartRead()
      requires Inv() && consumerReady && reader.NoRead? && !FinishHoldsLocks()
      requires phase.Active? || (phase.Capped? && completionReads == 0 && InboundSpent() < CHALLENGE_PACKETS)
      modifies this`inFlight, this`reader
      ensures reader == Reading(phase) && inFlight == old(inFlight) + 1
      ensures Inv()
    {
      inFlight, reader := inFlight + 1, Reading(phase);
    }

    predicate MayBuffer(d: Datagram) reads this {
      && CappedRead() && (phase.Capped? || phase.Drain?) && role.Initiator? && consumerReady
      && completionReads == 0 && FinishSized(d) && Response in inbound && InboundSpent() < CHALLENGE_PACKETS
    }

    predicate MayRecord(d: Datagram) reads this {
      CappedRead() && phase.Capped? && d.Wire? && !d.kind.CookieReply? && d.kind !in inbound
    }

    /** A FINISH frame that came early is kept, unopened. */
    method ReadKeep(d: Datagram)
      requires Inv() && CappedRead() && !phase.Closed? && role.Initiator? && completionReads == 0
      requires FinishSized(d) && Response in inbound
      modifies this`buffered, this`inFlight, this`reader, this`accepted, this`completionReads
      ensures reader == NoRead && inFlight == old(inFlight) - 1 && accepted == old(accepted) + 1
      ensures completionReads == old(completionReads) + 1 && buffered == Some(d)
      ensures Inv()
    {
      ReadStop();
      accepted, completionReads, buffered := accepted + 1, completionReads + 1, Some(d);
    }

    method ReadRecord(d: Datagram)
      requires Inv() && CappedRead() && phase.Capped? && d.Wire? && !d.kind.CookieReply? && d.kind !in inbound
      modifies this`inFlight, this`reader, this`accepted, this`inbound
      ensures reader == NoRead && inFlight == old(inFlight) - 1 && accepted == old(accepted) + 1
      ensures inbound == old(inbound) + [d.kind]
      ensures Inv()
    {
      ReadStop();
      accepted, inbound := accepted + 1, inbound + [d.kind];
    }

    method ReadReject()
      requires Inv() && reader.Reading?
      modifies this`phase, this`buffered, this`inFlight, this`reader, this`accepted
      ensures reader == NoRead && inFlight == old(inFlight) - 1 && accepted == old(accepted) + One(old(CappedRead()))
      ensures phase == Closed && buffered == None
      ensures Inv()
    {
      Close();
      if CappedRead() { TakeClosed(); } else { ReadStop(); }
    }

    /** A challenge datagram is taken, and the gate is closed. */
    method TakeClosed()
      requires Inv() && CappedRead() && phase.Closed?
      modifies this`inFlight, this`reader, this`accepted
      ensures reader == NoRead && inFlight == old(inFlight) - 1 && accepted == old(accepted) + 1
      ensures Inv()
    {
      inFlight, reader, accepted := inFlight - 1, NoRead, accepted + 1;
    }

    /** ReadPacket returned without a challenge datagram: its context or the drain ended it, or it read active data. */
    method ReadStop()
      requires Inv() && reader.Reading?
      modifies this`inFlight, this`reader
      ensures reader == NoRead && inFlight == old(inFlight) - 1
      ensures Inv()
    {
      inFlight, reader := inFlight - 1, NoRead;
    }

    /** ReadPacket after the transport returned d. */
    method ReadLeave(d: Datagram)
      requires Inv() && reader.Reading?
      modifies this`phase, this`buffered, this`inFlight, this`reader, this`accepted, this`inbound, this`completionReads
      ensures reader == NoRead && inFlight == old(inFlight) - 1
      ensures accepted == old(accepted) + One(old(CappedRead()))
      ensures inbound == if !HasFinishPrefix(d) && old(MayRecord(d)) then old(inbound) + [d.kind] else old(inbound)
      ensures completionReads == old(completionReads) + One(HasFinishPrefix(d) && old(MayBuffer(d)))
      ensures HasFinishPrefix(d) && old(MayBuffer(d)) ==> phase == old(phase) && buffered == Some(d)
      ensures !HasFinishPrefix(d) && (old(MayRecord(d)) || !old(CappedRead())) ==>
        phase == old(phase) && buffered == old(buffered)
      ensures old(reader).entered.Active? && (d.FinishSeal? || d.FinishForged?) ==> phase == Closed
      ensures (if HasFinishPrefix(d) then !old(MayBuffer(d)) else old(CappedRead()) && !old(MayRecord(d))) ==>
        phase == Closed && buffered == None
      ensures Inv()
    {
      if HasFinishPrefix(d) {
        if MayBuffer(d) { ReadKeep(d); } else { ReadReject(); }
      } else if MayRecord(d) {
        ReadRecord(d);
      } else if CappedRead() {
        ReadReject();
      } else {
        ReadStop();
      }
    }

    // ----- completing the challenge ------------------------------------------------------------

    /** CompleteChallenge freezes the trace. A write still with the transport at this moment escapes the record. */
    method CompleteFreeze()
      requires Inv()
      modifies this`phase, this`drain, this`lateWrite
      ensures if old(phase).Capped? && TraceComplete()
              then phase == Drain && drain == Draining && lateWrite == writer.Writing?
              else phase == old(phase) && drain == old(drain) && lateWrite == old(lateWrite)
      ensures Inv()
    {
      if phase.Capped? && TraceComplete() {
        phase, drain, lateWrite := Drain, Draining, writer.Writing?;
      }
    }

    method CompletePoll()
      requires Inv()
      modifies this`drain
      ensures drain == if old(drain).Draining? && phase.Drain? && inFlight == 0 then Drained else old(drain)
      ensures Inv()
    {
      if drain.Draining? && phase.Drain? && inFlight == 0 { drain := Drained; }
    }

    method CompletePass()
      requires Inv() && drain.Drained? && phase.Drain?
      modifies this`phase, this`drain
      ensures phase == Passed && drain == DrainOver
      ensures Inv()
    {
      phase, drain := Passed, DrainOver;
    }

    /** The lease refused, or the gate was closed meanwhile. */
    method CompleteFail()
      requires Inv() && drain.Drained?
      modifies this`phase, this`drain, this`buffered
      ensures phase == Closed && drain == DrainOver && buffered == None
      ensures Inv()
    {
      phase, drain, buffered := Closed, DrainOver, None;
    }

    // ----- FINISH and activation ---------------------------------------------------------------

    method FinishEnter()
      requires Inv() && !FinishRuns()
      modifies this`phase, this`buffered, this`finish
      ensures if old(phase).Passed? && inFlight == 0 && !ready.ReadyNot?
              then phase == Confirming && finish == FinishWaiting && buffered == old(buffered)
              else phase == Closed && buffered == None && finish == old(finish)
      ensures Inv()
    {
      if phase.Passed? && inFlight == 0 && !ready.ReadyNot? { phase, finish := Confirming, FinishWaiting; }
      else { Close(); }
    }

    method FinishLock()
      requires Inv()
      modifies this`finish
      ensures if old(finish).FinishWaiting? && writer.NoWrite? && reader.NoRead? && !ReadyHoldsLocks()
              then finish == FinishBegin else finish == old(finish)
      ensures Inv()
    {
      if finish.FinishWaiting? && writer.NoWrite? && reader.NoRead? && !ReadyHoldsLocks() { finish := FinishBegin; }
    }

    /** Any failure on the way: the gate closes and never unlocks. */
    method FinishAbort()
      requires Inv() && FinishHoldsLocks()
      modifies this`phase, this`buffered, this`finish, this`inFlight
      ensures phase == Closed && buffered == None && finish == FinishOver
      ensures inFlight == 0
      ensures Inv()
    {
      if finish.FinishReading? || finish.FinishSending? { inFlight := inFlight - 1; }
      phase, buffered, finish := Closed, None, FinishOver;
    }

    /** Locks held: the initiator waits for its peer, the responder goes first. */
    method FinishStart()
      requires Inv() && finish.FinishBegin?
      modifies this`finish
      ensures finish == if role.Initiator? then FinishReceive else FinishBeforeDurable
      ensures Inv()
    {
      finish := if role.Initiator? then FinishReceive else FinishBeforeDurable;
    }

    /** The contexts still stand: the durable callback is about to run. */
    method FinishCommit()
      requires Inv() && finish.FinishBeforeDurable?
      modifies this`finish
      ensures finish == FinishDurable
      ensures Inv()
    {
      finish := FinishDurable;
    }

    /** The contexts still stand after FINISH: the responder confirms, the initiator goes on to detach. */
    method FinishConfirm()
      requires Inv() && finish.FinishAfterDurable?
      modifies this`finish
      ensures finish == if role.Responder? then FinishSealing else FinishBeforeDetach
      ensures Inv()
    {
      finish := if role.Responder? then FinishSealing else FinishBeforeDetach;
    }

    method FinishRelease()
      requires Inv() && finish.FinishBeforeDetach?
      modifies this`finish
      ensures finish == FinishDetach
      ensures Inv()
    {
      finish := FinishDetach;
    }

    /** receiveCompletion: the kept frame if there is one, else one more read within the cap. */
    method FinishTake()
      requires Inv() && finish.FinishReceive?
      modifies this`phase, this`buffered, this`finish, this`inFlight
      ensures buffered == None
      ensures old(buffered).Some? ==>
        finish == FinishOpen(old(buffered).value) && phase == old(phase) && inFlight == old(inFlight)
      ensures old(buffered).None? && InboundSpent() < CHALLENGE_PACKETS ==>
        finish == FinishReading && phase == old(phase) && inFlight == old(inFlight) + 1
      ensures old(buffered).None? && InboundSpent() >= CHALLENGE_PACKETS ==>
        finish == FinishOver && phase == Closed && inFlight == 0
      ensures Inv()
    {
      if buffered.Some? { finish, buffered := FinishOpen(buffered.value), None; }
      else if InboundSpent() >= CHALLENGE_PACKETS { FinishAbort(); }
      else { FinishListen(); }
    }

    method FinishListen()
      requires Inv() && finish.FinishReceive? && buffered.None? && InboundSpent() < CHALLENGE_PACKETS
      modifies this`finish, this`inFlight
      ensures finish == FinishReading && inFlight == old(inFlight) + 1
      ensures Inv()
    {
      inFlight, finish := inFlight + 1, FinishReading;
    }

    method FinishArrive(d: Datagram)
      requires Inv() && finish.FinishReading?
      modifies this`finish, this`inFlight, this`accepted, this`completionReads
      ensures finish == FinishOpen(d) && inFlight == old(inFlight) - 1
      ensures accepted == old(accepted) + 1 && completionReads == old(completionReads) + 1
      ensures Inv()
    {
      inFlight, accepted, completionReads, finish := inFlight - 1, accepted + 1, completionReads + 1, FinishOpen(d);
    }

    /** OpenFinish takes only what the peer sealed. */
    method FinishOpenFrame()
      requires Inv() && finish.FinishOpen?
      modifies this`phase, this`buffered, this`finish, this`inFlight, this`peerFinishConfirmed
      ensures if old(finish).frame == FinishSeal(Peer(role))
              then
                && peerFinishConfirmed && finish == FinishBeforeDurable && phase == old(phase)
                && inFlight == old(inFlight) && buffered == old(buffered)
              else
                && peerFinishConfirmed == old(peerFinishConfirmed) && finish == FinishOver && phase == Closed
                && buffered == None && inFlight == 0
      ensures Inv()
    {
      if finish.frame == FinishSeal(Peer(role)) { peerFinishConfirmed, finish := true, FinishBeforeDurable; }
      else { FinishAbort(); }
    }

    /** The durable FINISH callback succeeded. */
    method FinishRecord()
      requires Inv() && finish.FinishDurable?
      modifies this`finish, this`finishRecorded, this`durable
      ensures finish == FinishAfterDurable && finishRecorded && durable
      ensures Inv()
    {
      durable, finishRecorded, finish := true, true, FinishAfterDurable;
    }

    method FinishCharge()
      requires Inv() && finish.FinishSealing?
      modifies this`phase, this`buffered, this`finish, this`inFlight, this`completionWrites
      ensures if old(phase).Confirming? && old(OutboundSpent()) < CHALLENGE_PACKETS
              then
                && finish == FinishSending && completionWrites == old(completionWrites) + 1
                && inFlight == old(inFlight) + 1 && phase == old(phase) && buffered == old(buffered)
              else
                && finish == FinishOver && completionWrites == old(completionWrites) && phase == Closed
                && buffered == None && inFlight == 0
      ensures Inv()
    {
      if !finishRecorded || !phase.Confirming? || OutboundSpent() >= CHALLENGE_PACKETS { FinishAbort(); }
      else { completionWrites, inFlight, finish := completionWrites + 1, inFlight + 1, FinishSending; }
    }

    method FinishEmit() returns (emitted: Datagram)
      requires Inv() && finish.FinishSending?
      modifies this`finish, this`inFlight, this`sent
      ensures emitted == FinishSeal(role) && role.Responder? && durable
      ensures sent == old(sent) + 1 && inFlight == old(inFlight) - 1 && finish == FinishBeforeDetach
      ensures Inv()
    {
      emitted, sent, inFlight, finish := FinishSeal(role), sent + 1, inFlight - 1, FinishBeforeDetach;
    }

    method FinishDetachLease()
      requires Inv() && finish.FinishDetach?
      modifies this`finish, this`leaseDetached
      ensures finish == FinishActivate && leaseDetached
      ensures Inv()
    {
      leaseDetached, finish := true, FinishActivate;
    }

    method FinishUnlock()
      requires Inv() && finish.FinishActivate?
      modifies this`phase, this`buffered, this`finish, this`inFlight, this`detached
      ensures finish == FinishOver
      ensures if old(phase).Confirming?
              then phase == Active && detached && buffered == old(buffered) && inFlight == old(inFlight)
              else phase == Closed && detached == old(detached) && buffered == None && inFlight == 0
      ensures Inv()
    {
      if phase.Confirming? { detached, phase, finish := true, Active, FinishOver; }
      else { FinishAbort(); }
    }
  }
}
