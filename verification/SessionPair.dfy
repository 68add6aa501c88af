/** An initiator gate and a responder gate over a network that loses,
    duplicates, reorders and injects datagrams. */
module SessionPair {
  import opened Basics
  import opened SessionGate

  /** A step of one gate; `arrived` is what its transport hands it, if the step reads. */
  datatype Step =
    | BeginChallenge | Close
    | ReadyEnter | ReadyLock | ReadyCharge | ReadyEmit | ReadyTake(arrived: Datagram) | ReadyPublish | ReadyAbort
    | WriteEnter(packet: Datagram) | WriteEmit | WriteLeave | WriteAbort
    | ReadEnter | ReadLeave(arrived: Datagram) | ReadStop | ReadReject
    | CompleteFreeze | CompletePoll | CompletePass | CompleteFail
    | FinishEnter | FinishLock | FinishStart | FinishTake | FinishArrive(arrived: Datagram) | FinishOpenFrame
    | FinishCommit | FinishRecord | FinishConfirm | FinishCharge | FinishEmit | FinishRelease
    | FinishDetachLease | FinishUnlock | FinishAbort
  {
    predicate Finishes() {
      || FinishEnter? || FinishLock? || FinishStart? || FinishTake? || FinishArrive? || FinishOpenFrame?
      || FinishCommit? || FinishRecord? || FinishConfirm? || FinishCharge? || FinishEmit? || FinishRelease?
      || FinishDetachLease? || FinishUnlock? || FinishAbort?
    }
  }

  twostate predicate WasWriting(g: Gate, new packet: Datagram)
    reads g
  {
    old(g.writer).Writing? && old(g.writer).packet == packet
  }

  /** What a gate's step means to the other side. */
  twostate predicate Advances(g: Gate, new given: Option<Datagram>, new emitted: Option<Datagram>)
    reads g
  {
    && (old(g.durable) ==> g.durable)
    && (old(g.phase).Closed? ==> g.phase.Closed?)
    && (forall d :: g.Keeps(d) ==> old(g.Keeps(d)) || given == Some(d))
    && (g.peerFinishConfirmed ==> old(g.peerFinishConfirmed) || old(g.Keeps(FinishSeal(Peer(g.role)))))
    && (g.writer.Writing? ==> WasWriting(g, g.writer.packet) || given == Some(g.writer.packet))
    && (emitted.Some? && emitted.value.FinishSeal? ==>
       || (emitted.value.signer == g.role && g.role.Responder? && g.durable)
       || WasWriting(g, emitted.value))
  }

  predicate Sealed(d: Datagram) { d.ReadySeal? || d.FinishSeal? }

  /** The datagram a step is handed: by the transport, if it reads, or by the session, if it writes. */
  function Offered(s: Step): Option<Datagram> {
    if s.WriteEnter? then Some(s.packet)
    else if s.ReadyTake? || s.ReadLeave? || s.FinishArrive? then Some(s.arrived) else None
  }

  method StepOutside(g: Gate, s: Step) returns (given: Option<Datagram>, emitted: Option<Datagram>)
    requires g.Inv() && (s.BeginChallenge? || s.Close?)
    modifies g
    ensures g.Inv() && Advances(g, given, emitted)
    ensures given.None? || given == Offered(s)
  {
    given, emitted := None, None;
    match s
    case BeginChallenge => g.BeginChallenge();
    case Close => g.Close();
  }

  method StepReadyStart(g: Gate, s: Step) returns (given: Option<Datagram>, emitted: Option<Datagram>)
    requires g.Inv() && (s.ReadyEnter? || s.ReadyLock?)
    modifies g
    ensures g.Inv() && Advances(g, given, emitted)
    ensures given.None? || given == Offered(s)
  {
    given, emitted := None, None;
    match s
    case ReadyEnter => g.ReadyEnter();
    case ReadyLock => g.ReadyLock();
  }

  method StepReadyOut(g: Gate, s: Step) returns (given: Option<Datagram>, emitted: Option<Datagram>)
    requires g.Inv() && (s.ReadyCharge? || s.ReadyEmit?)
    modifies g
    ensures g.Inv() && Advances(g, given, emitted)
    ensures given.None? || given == Offered(s)
  {
    given, emitted := None, None;
    match s
    case ReadyCharge => if g.ready.ReadyWrite? { g.ReadyCharge(); }
    case ReadyEmit => if g.ready.ReadySend? { var d := g.ReadyEmit(); emitted := Some(d); }
  }

  method StepReadyTake(g: Gate, s: Step) returns (given: Option<Datagram>, emitted: Option<Datagram>)
    requires g.Inv() && s.ReadyTake?
    modifies g
    ensures g.Inv() && Advances(g, given, emitted)
    ensures given.None? || given == Offered(s)
  {
    given, emitted := None, None;
    if g.ready.ReadyRead? {
      given := Some(s.arrived);
      g.ReadyTake(s.arrived);
    }
  }

  method StepReadyPublish(g: Gate, s: Step) returns (given: Option<Datagram>, emitted: Option<Datagram>)
    requires g.Inv() && s.ReadyPublish?
    modifies g
    ensures g.Inv() && Advances(g, given, emitted)
    ensures given.None? || given == Offered(s)
  {
    given, emitted := None, None;
    if g.ready.ReadyCheck? { g.ReadyPublish(); }
  }

  method StepWriteIn(g: Gate, s: Step) returns (given: Option<Datagram>, emitted: Option<Datagram>)
    requires g.Inv() && s.WriteEnter?
    modifies g
    ensures g.Inv() && Advances(g, given, emitted)
    ensures given.None? || given == Offered(s)
  {
    given, emitted := None, None;
    if g.writer.NoWrite? && !g.ReadyHoldsLocks() && !g.FinishHoldsLocks() {
      given := Some(s.packet);
      g.WriteEnter(s.packet);
    }
  }

  method StepWriteOut(g: Gate, s: Step) returns (given: Option<Datagram>, emitted: Option<Datagram>)
    requires g.Inv() && s.WriteEmit?
    modifies g
    ensures g.Inv() && Advances(g, given, emitted)
    ensures given.None? || given == Offered(s)
  {
    given, emitted := None, None;
    if g.writer.Writing? && !g.writer.sent {
      var d := g.WriteEmit();
      emitted := Some(d);
    }
  }

  method StepWriteEnd(g: Gate, s: Step) returns (given: Option<Datagram>, emitted: Option<Datagram>)
    requires g.Inv() && (s.WriteLeave? || s.WriteAbort?)
    modifies g
    ensures g.Inv() && Advances(g, given, emitted)
    ensures given.None? || given == Offered(s)
  {
    given, emitted := None, None;
    match s
    case WriteLeave => if g.writer.Writing? && g.writer.sent { g.WriteLeave(); }
    case WriteAbort => if g.writer.Writing? { g.WriteAbort(); }
  }

  method StepReadyAbort(g: Gate, s: Step) returns (given: Option<Datagram>, emitted: Option<Datagram>)
    requires g.Inv() && s.ReadyAbort?
    modifies g
    ensures g.Inv() && Advances(g, given, emitted)
    ensures given.None? || given == Offered(s)
  {
    given, emitted := None, None;
    if g.ReadyHoldsLocks() { g.ReadyAbort(); }
  }

  method StepRead(g: Gate, s: Step) returns (given: Option<Datagram>, emitted: Option<Datagram>)
    requires g.Inv() && (s.ReadEnter? || s.ReadLeave?)
    modifies g
    ensures g.Inv() && Advances(g, given, emitted)
    ensures given.None? || given == Offered(s)
  {
    given, emitted := None, None;
    match s
    case ReadEnter =>
      if g.consumerReady && g.reader.NoRead? && !g.ReadyHoldsLocks() && !g.FinishHoldsLocks() { g.ReadEnter(); }
    case ReadLeave(d) => if g.reader.Reading? { given := Some(d); g.ReadLeave(d); }
  }

  method StepReadEnd(g: Gate, s: Step) returns (given: Option<Datagram>, emitted: Option<Datagram>)
    requires g.Inv() && (s.ReadStop? || s.ReadReject?)
    modifies g
    ensures g.Inv() && Advances(g, given, emitted)
    ensures given.None? || given == Offered(s)
  {
    given, emitted := None, None;
    match s
    case ReadStop => if g.reader.Reading? { g.ReadStop(); }
    case ReadReject => if g.reader.Reading? { g.ReadStop(); g.Close(); }
  }

  method StepFreeze(g: Gate, s: Step) returns (given: Option<Datagram>, emitted: Option<Datagram>)
    requires g.Inv() && (s.CompleteFreeze? || s.CompletePoll?)
    modifies g
    ensures g.Inv() && Advances(g, given, emitted)
    ensures given.None? || given == Offered(s)
  {
    given, emitted := None, None;
    match s
    case CompleteFreeze => g.CompleteFreeze();
    case CompletePoll => g.CompletePoll();
  }

  method StepComplete(g: Gate, s: Step) returns (given: Option<Datagram>, emitted: Option<Datagram>)
    requires g.Inv() && (s.CompletePass? || s.CompleteFail?)
    modifies g
    ensures g.Inv() && Advances(g, given, emitted)
    ensures given.None? || given == Offered(s)
  {
    given, emitted := None, None;
    match s
    case CompletePass => if g.drain.Drained? && g.phase.Drain? { g.CompletePass(); }
    case CompleteFail => if g.drain.Drained? { g.CompleteFail(); }
  }

  method StepFinishEnter(g: Gate, s: Step) returns (given: Option<Datagram>, emitted: Option<Datagram>)
    requires g.Inv() && (s.FinishEnter? || s.FinishLock?)
    modifies g
    ensures g.Inv() && Advances(g, given, emitted)
    ensures given.None? || given == Offered(s)
  {
    given, emitted := None, None;
    match s
    case FinishEnter => if !g.FinishRuns() { g.FinishEnter(); }
    case FinishLock => g.FinishLock();
  }

  method StepFinishStart(g: Gate, s: Step) returns (given: Option<Datagram>, emitted: Option<Datagram>)
    requires g.Inv() && s.FinishStart?
    modifies g
    ensures g.Inv() && Advances(g, given, emitted)
    ensures given.None? || given == Offered(s)
  {
    given, emitted := None, None;
    if g.finish.FinishBegin? { g.FinishStart(); }
  }

  method StepFinishIn(g: Gate, s: Step) returns (given: Option<Datagram>, emitted: Option<Datagram>)
    requires g.Inv() && (s.FinishTake? || s.FinishArrive?)
    modifies g
    ensures g.Inv() && Advances(g, given, emitted)
    ensures given.None? || given == Offered(s)
  {
    given, emitted := None, None;
    match s
    case FinishTake => if g.finish.FinishReceive? { g.FinishTake(); }
    case FinishArrive(d) => if g.finish.FinishReading? { given := Some(d); g.FinishArrive(d); }
  }

  method StepFinishMid(g: Gate, s: Step) returns (given: Option<Datagram>, emitted: Option<Datagram>)
    requires g.Inv() && (s.FinishOpenFrame? || s.FinishCommit?)
    modifies g
    ensures g.Inv() && Advances(g, given, emitted)
    ensures given.None? || given == Offered(s)
  {
    given, emitted := None, None;
    match s
    case FinishOpenFrame => if g.finish.FinishOpen? { g.FinishOpenFrame(); }
    case FinishCommit => if g.finish.FinishBeforeDurable? { g.FinishCommit(); }
  }

  method StepFinishRecord(g: Gate, s: Step) returns (given: Option<Datagram>, emitted: Option<Datagram>)
    requires g.Inv() && (s.FinishRecord? || s.FinishConfirm?)
    modifies g
    ensures g.Inv() && Advances(g, given, emitted)
    ensures given.None? || given == Offered(s)
  {
    given, emitted := None, None;
    match s
    case FinishRecord => if g.finish.FinishDurable? { g.FinishRecord(); }
    case FinishConfirm => if g.finish.FinishAfterDurable? { g.FinishConfirm(); }
  }

  method StepFinishOut(g: Gate, s: Step) returns (given: Option<Datagram>, emitted: Option<Datagram>)
    requires g.Inv() && (s.FinishCharge? || s.FinishEmit?)
    modifies g
    ensures g.Inv() && Advances(g, given, emitted)
    ensures given.None? || given == Offered(s)
  {
    given, emitted := None, None;
    match s
    case FinishCharge => if g.finish.FinishSealing? { g.FinishCharge(); }
    case FinishEmit => if g.finish.FinishSending? { var d := g.FinishEmit(); emitted := Some(d); }
  }

  method StepFinishLease(g: Gate, s: Step) returns (given: Option<Datagram>, emitted: Option<Datagram>)
    requires g.Inv() && (s.FinishRelease? || s.FinishDetachLease?)
    modifies g
    ensures g.Inv() && Advances(g, given, emitted)
    ensures given.None? || given == Offered(s)
  {
    given, emitted := None, None;
    match s
    case FinishRelease => if g.finish.FinishBeforeDetach? { g.FinishRelease(); }
    case FinishDetachLease => if g.finish.FinishDetach? { g.FinishDetachLease(); }
  }

  method StepFinishEnd(g: Gate, s: Step) returns (given: Option<Datagram>, emitted: Option<Datagram>)
    requires g.Inv() && (s.FinishUnlock? || s.FinishAbort?)
    modifies g
    ensures g.Inv() && Advances(g, given, emitted)
    ensures given.None? || given == Offered(s)
  {
    given, emitted := None, None;
    match s
    case FinishUnlock => if g.finish.FinishActivate? { g.FinishUnlock(); }
    case FinishAbort => if g.FinishHoldsLocks() { g.FinishAbort(); }
  }

  method StepFinish(g: Gate, s: Step) returns (given: Option<Datagram>, emitted: Option<Datagram>)
    requires g.Inv() && s.Finishes()
    modifies g
    ensures g.Inv() && Advances(g, given, emitted)
    ensures given.None? || given == Offered(s)
  {
    if s.FinishEnter? || s.FinishLock? { given, emitted := StepFinishEnter(g, s); }
    else if s.FinishStart? { given, emitted := StepFinishStart(g, s); }
    else if s.FinishTake? || s.FinishArrive? { given, emitted := StepFinishIn(g, s); }
    else if s.FinishOpenFrame? || s.FinishCommit? { given, emitted := StepFinishMid(g, s); }
    else if s.FinishRecord? || s.FinishConfirm? { given, emitted := StepFinishRecord(g, s); }
    else if s.FinishCharge? || s.FinishEmit? { given, emitted := StepFinishOut(g, s); }
    else if s.FinishRelease? || s.FinishDetachLease? { given, emitted := StepFinishLease(g, s); }
    else { given, emitted := StepFinishEnd(g, s); }
  }

  method StepPacket(g: Gate, s: Step) returns (given: Option<Datagram>, emitted: Option<Datagram>)
    requires g.Inv()
    requires s.WriteEnter? || s.WriteEmit? || s.WriteLeave? || s.WriteAbort?
          || s.ReadEnter? || s.ReadLeave? || s.ReadStop? || s.ReadReject?
    modifies g
    ensures g.Inv() && Advances(g, given, emitted)
    ensures given.None? || given == Offered(s)
  {
    if s.WriteEnter? { given, emitted := StepWriteIn(g, s); }
    else if s.WriteEmit? { given, emitted := StepWriteOut(g, s); }
    else if s.WriteLeave? || s.WriteAbort? { given, emitted := StepWriteEnd(g, s); }
    else if s.ReadEnter? || s.ReadLeave? { given, emitted := StepRead(g, s); }
    else { given, emitted := StepReadEnd(g, s); }
  }

  /** Any step of one gate, in any state; a step that does not apply changes nothing. */
  method StepGate(g: Gate, s: Step) returns (given: Option<Datagram>, emitted: Option<Datagram>)
    requires g.Inv()
    modifies g
    ensures g.Inv() && Advances(g, given, emitted)
    ensures given.None? || given == Offered(s)
  {
    if s.Finishes() { given, emitted := StepFinish(g, s); }
    else if s.BeginChallenge? || s.Close? { given, emitted := StepOutside(g, s); }
    else if s.ReadyEnter? || s.ReadyLock? { given, emitted := StepReadyStart(g, s); }
    else if s.ReadyCharge? || s.ReadyEmit? { given, emitted := StepReadyOut(g, s); }
    else if s.ReadyTake? { given, emitted := StepReadyTake(g, s); }
    else if s.ReadyPublish? { given, emitted := StepReadyPublish(g, s); }
    else if s.ReadyAbort? { given, emitted := StepReadyAbort(g, s); }
    else if s.CompleteFreeze? || s.CompletePoll? { given, emitted := StepFreeze(g, s); }
    else if s.CompletePass? || s.CompleteFail? { given, emitted := StepComplete(g, s); }
    else { given, emitted := StepPacket(g, s); }
  }

  /** A gate as it is made. */
  ghost predicate Untouched(g: Gate)
    reads g
  {
    && g.phase.Standby? && g.sent == 0 && g.writer == NoWrite && g.reader == NoRead && g.inFlight == 0
    && g.finish == FinishNot && g.buffered == None && !g.peerFinishConfirmed
  }

  class Pair {
    const i: Gate
    const r: Gate
    /** Every datagram ever sent: any of them may arrive any number of times, late or never. */
    var wire: set<Datagram>

    /** Anything may arrive and anything may be written, except a seal that was never made. */
    predicate MayArrive(s: Step) reads this {
      var d := Offered(s);
      d.Some? && Sealed(d.value) ==> d.value in wire
    }

    ghost predicate Valid() reads this, i, r {
      && i != r && i.role.Initiator? && r.role.Responder?
      && i.Inv() && r.Inv()
      && FinishSeal(Initiator) !in wire
      && (FinishSeal(Responder) in wire ==> r.durable)
      && (i.Keeps(FinishSeal(Responder)) ==> FinishSeal(Responder) in wire)
      && (i.peerFinishConfirmed ==> r.durable)
      && (i.writer.Writing? && Sealed(i.writer.packet) ==> i.writer.packet in wire)
      && (r.writer.Writing? && Sealed(r.writer.packet) ==> r.writer.packet in wire)
    }

    /** The two gates commit in order and stay within their caps. */
    ghost predicate Committed() reads this, i, r {
      // The initiator's FINISH is run, let alone recorded, only once the responder's is recorded.
      && (i.finish.FinishDurable? || i.durable ==> r.durable)
      // Each side activates only after its own FINISH and detach, on the exact trace.
      && (i.phase.Active? ==> i.durable && i.leaseDetached && i.peerFinishConfirmed && i.TraceComplete())
      && (r.phase.Active? ==> r.durable && r.leaseDetached && r.TraceComplete())
      // At most three datagrams each way, but for a write the responder had under way at the freeze.
      && i.sent <= CHALLENGE_PACKETS && i.accepted <= CHALLENGE_PACKETS && r.accepted <= CHALLENGE_PACKETS
      && r.sent <= CHALLENGE_PACKETS + One(r.lateWrite)
      && (i.phase.Active? ==> i.sent == CHALLENGE_PACKETS)
      && (r.phase.Active? ==> (r.sent == CHALLENGE_PACKETS <==> !r.lateWrite))
    }

    lemma ValidCommits()
      requires Valid()
      ensures Committed()
    {
    }

    constructor ()
      ensures Valid() && fresh(i) && fresh(r) && wire == {}
      ensures Untouched(i) && Untouched(r)
    {
      i := new Gate(Initiator);
      r := new Gate(Responder);
      wire := {};
    }

    /** A datagram goes out: a FINISH seal only as a copy, or made by a responder that has committed. */
    method Put(d: Datagram)
      requires Valid() && (d.FinishSeal? ==> d in wire || (d.signer.Responder? && r.durable))
      modifies this`wire
      ensures Valid() && wire == old(wire) + {d}
    {
      wire := wire + {d};
    }

    method StepInitiator(s: Step)
      requires Valid() && MayArrive(s)
      modifies this, i
      ensures Valid() && old(wire) <= wire
    {
      var given, emitted := StepGate(i, s);
      if emitted.Some? { Put(emitted.value); }
    }

    method StepResponder(s: Step)
      requires Valid() && MayArrive(s)
      modifies this, r
      ensures Valid() && old(wire) <= wire
    {
      var given, emitted := StepGate(r, s);
      if emitted.Some? { Put(emitted.value); }
    }

    method StepPair(initiator: bool, s: Step)
      requires Valid() && MayArrive(s)
      modifies this, i, r
      ensures Valid() && old(wire) <= wire
    {
      if initiator { StepInitiator(s); } else { StepResponder(s); }
    }

    /** Commit order over every run: whatever the steps, the loss, the copies and the order, it holds at the end,
        and so after every prefix. A step whose datagram cannot arrive is skipped. */
    method Run(steps: seq<(bool, Step)>)
      requires Valid()
      modifies this, i, r
      ensures Valid() && Committed()
    {
      for k := 0 to |steps|
        invariant Valid()
      {
        if MayArrive(steps[k].1) { StepPair(steps[k].0, steps[k].1); }
      }
      ValidCommits();
    }
  }
}
