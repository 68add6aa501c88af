/** The one-shot hand-off after a durable burn (internal/governor/pairing_gate.go):
    consume, first emission, later checks, Finish and the invalidation watcher in any interleaving.

    One method is one locked section. A check is a call that first looks at the terminal choice
    and then inspects the governor; other calls may run between the two. */
module PairingGate {
  import opened Basics

  datatype Reason = Success | Stopped(why: nat)

  datatype Stage = Entered | Inspecting | Rejected

  /** `late` marks a check that began after a terminal reason had been chosen. */
  datatype Check = Check(stage: Stage, late: bool)

  datatype Writer = NotStarted | Hooked(hookOk: bool) | Written(ok: bool)

  /** A call of finish after it has looked at the terminal choice, with the reason it was given. */
  datatype Finisher = Lost(reason: Reason) | Won(reason: Reason, writer: Writer, published: bool)

  /** A late check finds the choice when it looks, so it never gets as far as the inspection. */
  predicate Honest(c: Check, chosen: Option<Reason>) { (c.late ==> chosen.Some?) && (c.stage.Inspecting? ==> !c.late) }

  class CommittedAttempt {
    const phased: bool                  // finishes through the two-phase loopback writer

    var consumed: bool
    var first: bool                     // the authorization's first-emission flag
    var chosen: Option<Reason>
    var finishers: map<nat, Finisher>   // every call of finish so far
    var finished: Option<bool>          // closed, with terminalErr == nil or not
    var consumer: Option<Check>         // the one ConsumeForCarrier past its flag
    var emitter: Option<Check>          // the BeforeFirstEmission that holds the authorization's lock
    var checks: map<nat, Check>         // CheckActive calls under way
    var journal: seq<Reason>            // FINISH records of this attempt
    var authorizations: nat             // how many were handed out
    var emissions: nat                  // how many first emissions were granted

    ghost predicate OneShot()
      reads this
    {
      && authorizations + (if consumer.Some? then 1 else 0) <= (if consumed then 1 else 0)
      && emissions == (if first then 1 else 0)
      && (first || emitter.Some? || checks != map[] ==> authorizations == 1)
      && (emitter.Some? ==> !first)
    }

    predicate Winner(i: nat)
      reads this`finishers
    {
      i in finishers && finishers[i].Won?
    }

    /** What one winner has done: nothing is in the journal before its ledger call, its own reason at most after
        it, and it alone closes `finished`. */
    ghost predicate WinnerOk(i: nat)
      requires Winner(i)
      reads this`chosen, this`finishers, this`finished, this`journal
    {
      var f := finishers[i];
      && chosen == Some(f.reason) && (finished.Some? <==> f.published)
      && (if f.writer.Written? then journal == [f.reason] || (journal == [] && !f.writer.ok) else journal == [])
      && (finished == Some(true) ==> f.writer.Written? && f.writer.ok)
    }

    ghost predicate OneFinish()
      reads this`chosen, this`finishers, this`finished, this`journal
    {
      && (forall i {:trigger Winner(i)} :: Winner(i) ==> WinnerOk(i))
      && (forall i, j {:trigger Winner(i), Winner(j)} :: Winner(i) && Winner(j) ==> i == j)
      && (if chosen == None then journal == [] && finished == None else exists i :: Winner(i))
    }

    ghost predicate NoLateCheck()
      reads this
    {
      && (consumer.Some? ==> Honest(consumer.value, chosen)) && (emitter.Some? ==> Honest(emitter.value, chosen))
      && (forall i :: i in checks ==> Honest(checks[i], chosen))
    }

    ghost predicate Inv()
      reads this
    {
      OneShot() && OneFinish() && NoLateCheck() && (chosen == Some(Success) ==> first)
    }

    constructor (phased: bool)
      ensures Inv() && chosen == None && journal == [] && !consumed && !first && checks == map[] && finishers == map[]
      ensures this.phased == phased && consumer == None && emitter == None && finished == None
      ensures authorizations == 0 && emissions == 0
    {
      this.phased := phased;
      consumed, first, chosen, finishers, finished := false, false, None, map[], None;
      consumer, emitter, checks, journal := None, None, map[], [];
      authorizations, emissions := 0, 0;
    }

    // ----- ConsumeForCarrier -----------------------------------------------------------------

    /** The token is spent before it is checked. A call that finds a choice waits for the result, then
        answers with the durable witness: true only if the FINISH is in the journal. */
    method ConsumeEnter() returns (went: bool, attested: bool)
      requires Inv() && (!consumed && chosen.Some? ==> finished.Some?)
      modifies this`consumed, this`consumer
      ensures Inv()
      ensures went <==> !old(consumed) && chosen == None
      ensures consumed == (old(consumed) || went)
      ensures consumer == if went then Some(Check(Entered, false)) else old(consumer)
      ensures attested <==> !old(consumed) && finished == Some(true)
      ensures attested ==> chosen.Some? && journal == [chosen.value]
    {
      if finished == Some(true) { FinishedMeansWritten(); }
      if consumed { return false, false; }
      if chosen.Some? { return false, finished == Some(true); }
      consumed := true;
      consumer := Some(Check(Entered, false));
      return true, false;
    }

    method ConsumeLook() returns (ok: bool)
      requires Inv() && consumer.Some? && consumer.value.stage.Entered?
      modifies this`consumer
      ensures Inv() && (ok <==> chosen == None)
      ensures consumer == Some(old(consumer).value.(stage := if ok then Inspecting else Rejected))
    {
      ok := chosen == None;
      consumer := Some(consumer.value.(stage := if ok then Inspecting else Rejected));
    }

    /** The governor's answer: only a good one hands out the authorization. */
    method ConsumeEnd(valid: bool)
      requires Inv() && consumer.Some? && consumer.value.stage.Inspecting?
      modifies this`consumer, this`authorizations
      ensures Inv() && authorizations == old(authorizations) + (if valid then 1 else 0)
      ensures valid ==> authorizations == 1
      ensures consumer == if valid then None else Some(old(consumer).value.(stage := Rejected))
    {
      if valid {
        consumer := None;
        authorizations := authorizations + 1;
      } else {
        consumer := Some(consumer.value.(stage := Rejected));
      }
    }

    /** A rejected consumer has waited for the terminal result; it attests only to its own reason. */
    method ConsumeFail(reason: Reason) returns (attested: bool)
      requires Inv() && consumer.Some? && consumer.value.stage.Rejected? && finished.Some?
      modifies this`consumer
      ensures Inv() && (attested ==> journal == [reason]) && consumer == None
      ensures attested <==> finished == Some(true) && chosen == Some(reason)
    {
      if finished == Some(true) { FinishedMeansWritten(); }
      consumer := None;
      return finished == Some(true) && chosen == Some(reason);
    }

    // ----- BeforeFirstEmission --------------------------------------------------------------------

    method EmitEnter() returns (went: bool)
      requires Inv() && authorizations == 1 && emitter == None
      modifies this`emitter
      ensures Inv() && (went <==> !first)
      ensures emitter == if went then Some(Check(Entered, chosen.Some?)) else None
    {
      if first { return false; }
      emitter := Some(Check(Entered, chosen.Some?));
      return true;
    }

    method EmitLook() returns (ok: bool)
      requires Inv() && emitter.Some? && emitter.value.stage.Entered?
      modifies this`emitter
      ensures Inv() && (ok <==> chosen == None)
      ensures emitter == Some(old(emitter).value.(stage := if ok then Inspecting else Rejected))
    {
      ok := chosen == None;
      emitter := Some(emitter.value.(stage := if ok then Inspecting else Rejected));
    }

    /** The first emission is granted at most once, and never to a check that began too late. */
    method EmitEnd(valid: bool)
      requires Inv() && emitter.Some? && emitter.value.stage.Inspecting?
      modifies this`emitter, this`first, this`emissions
      ensures Inv() && first == valid
      ensures valid ==> emitter == None && emissions == 1 && !old(emitter).value.late
      ensures !valid ==> emitter == Some(old(emitter).value.(stage := Rejected)) && emissions == old(emissions)
    {
      if valid {
        emitter := None;
        first := true;
        emissions := emissions + 1;
      } else {
        emitter := Some(emitter.value.(stage := Rejected));
      }
    }

    method EmitFail()
      requires Inv() && emitter.Some? && emitter.value.stage.Rejected? && finished.Some?
      modifies this`emitter
      ensures Inv() && emitter == None
    {
      emitter := None;
    }

    // ----- CheckActive --------------------------------------------------------------------------------

    method CheckEnter(i: nat) returns (went: bool)
      requires Inv() && authorizations == 1 && emitter == None && i !in checks
      modifies this`checks
      ensures Inv() && (went <==> first)
      ensures checks == if went then old(checks)[i := Check(Entered, chosen.Some?)] else old(checks)
    {
      if !first { return false; }
      checks := checks[i := Check(Entered, chosen.Some?)];
      return true;
    }

    method CheckLook(i: nat) returns (ok: bool)
      requires Inv() && i in checks && checks[i].stage.Entered?
      modifies this`checks
      ensures Inv() && (ok <==> chosen == None)
      ensures checks == old(checks)[i := old(checks)[i].(stage := if ok then Inspecting else Rejected)]
    {
      ok := chosen == None;
      checks := checks[i := checks[i].(stage := if ok then Inspecting else Rejected)];
    }

    /** A check that began after the terminal choice never succeeds. */
    method CheckEnd(i: nat, valid: bool)
      requires Inv() && i in checks && (valid ==> checks[i].stage.Inspecting?)
      modifies this`checks
      ensures Inv() && checks == old(checks) - {i}
      ensures valid ==> !old(checks)[i].late
    {
      checks := checks - {i};
    }

    // ----- finish ------------------------------------------------------------------------------------------

    /** Every caller brings its own reason; the first one keeps it and becomes the writer, the others wait. */
    method Choose(i: nat, reason: Reason) returns (won: bool)
      requires Inv() && i !in finishers && (reason.Success? ==> first)
      modifies this`chosen, this`finishers
      ensures Inv() && (won <==> old(chosen) == None)
      ensures chosen == if won then Some(reason) else old(chosen)
      ensures finishers == old(finishers)[i := if won then Won(reason, NotStarted, false) else Lost(reason)]
    {
      label Before:
      won := chosen == None;
      if won { chosen := Some(reason); }
      finishers := finishers[i := if won then Won(reason, NotStarted, false) else Lost(reason)];
      assert won ==> Winner(i);
      forall j | Winner(j) ensures WinnerOk(j) && (j == i || old@Before(Winner(j))) {
        if j != i { assert old@Before(Winner(j)); }
      }
      if !won {
        ghost var j :| old(Winner(j));
        assert Winner(j);
      }
    }

    /** The authorization's Finish: success is refused before the first emission. */
    method Finish(i: nat, reason: Reason) returns (won: bool)
      requires Inv() && i !in finishers
      modifies this`chosen, this`finishers
      ensures Inv()
      ensures won <==> old(chosen) == None && (reason.Success? ==> first)
      ensures chosen == if won then Some(reason) else old(chosen)
      ensures finishers == if reason.Success? && !first then old(finishers)
        else old(finishers)[i := if won then Won(reason, NotStarted, false) else Lost(reason)]
    {
      if reason.Success? && !first { return false; }
      won := Choose(i, reason);
    }

    /** The two-phase writer of caller i has run its revocation hook. */
    method RunHook(i: nat, ok: bool)
      requires Inv() && phased && Winner(i) && finishers[i].writer.NotStarted?
      modifies this`finishers
      ensures Inv() && finishers == old(finishers)[i := old(finishers)[i].(writer := Hooked(ok))]
    {
      assert WinnerOk(i);
      finishers := finishers[i := finishers[i].(writer := Hooked(ok))];
      assert Winner(i) && WinnerOk(i);
      forall j | Winner(j) ensures WinnerOk(j) && j == i { assert old(Winner(j)) && old(Winner(i)); }
    }

    /** Caller i's ledger call, with the reason it was given. A call that reports success has appended it; one that
        reports an error may or may not have. Whoever gets here writes the first and only FINISH. */
    method WriteFinish(i: nat, ok: bool, appended: bool, networkOk: bool)
      requires Inv() && Winner(i) && (ok ==> appended)
      requires if phased then finishers[i].writer.Hooked? else finishers[i].writer.NotStarted?
      modifies this`finishers, this`journal
      ensures Inv() && old(journal) == [] && chosen == Some(old(finishers)[i].reason)
      ensures journal == if appended then [chosen.value] else []
      ensures
        var fine := ok && (phased ==> old(finishers)[i].writer.hookOk && networkOk);
        finishers == old(finishers)[i := old(finishers)[i].(writer := Written(fine))]
    {
      assert WinnerOk(i);
      var f := finishers[i];
      var fine := ok && (!phased || (f.writer.hookOk && networkOk));
      if appended { journal := journal + [f.reason]; }
      finishers := finishers[i := f.(writer := Written(fine))];
      assert Winner(i) && WinnerOk(i);
      forall j | Winner(j) ensures WinnerOk(j) && j == i { assert old(Winner(j)) && old(Winner(i)); }
    }

    /** Caller i publishes the terminal result, which nobody has published before it. With a clean verdict it has
        waited for its writer. */
    method Publish(i: nat, verdictOk: bool)
      requires Inv() && Winner(i) && !finishers[i].published
      requires if phased then verdictOk ==> finishers[i].writer.Written? else finishers[i].writer.Written?
      modifies this`finished, this`finishers
      ensures Inv() && old(finished) == None && finishers == old(finishers)[i := old(finishers)[i].(published := true)]
      ensures finished == Some(verdictOk && finishers[i].writer.Written? && finishers[i].writer.ok)
      ensures finished == Some(true) ==> journal == [finishers[i].reason]
    {
      assert WinnerOk(i);
      var f := finishers[i];
      finished := Some(verdictOk && f.writer.Written? && f.writer.ok);
      finishers := finishers[i := f.(published := true)];
      assert Winner(i) && WinnerOk(i);
      forall j | Winner(j) ensures WinnerOk(j) && j == i { assert old(Winner(j)) && old(Winner(i)); }
    }

    /** A caller that lost has waited for the result. It reports success only when its own reason is the one on
        disk. */
    method Answer(i: nat) returns (ok: bool)
      requires Inv() && i in finishers && finishers[i].Lost? && finished.Some?
      ensures ok <==> finished == Some(true) && chosen == Some(finishers[i].reason)
      ensures ok ==> journal == [finishers[i].reason]
    {
      if finished == Some(true) { FinishedMeansWritten(); }
      return finished == Some(true) && chosen == Some(finishers[i].reason);
    }

    /** A clean terminal result has the chosen reason on disk. */
    lemma FinishedMeansWritten()
      requires OneFinish() && finished == Some(true)
      ensures chosen.Some? && journal == [chosen.value]
    {
      var i :| Winner(i);
      assert WinnerOk(i);
    }

    lemma AtMostOneFinish()
      requires OneFinish()
      ensures |journal| <= 1 && (journal != [] ==> chosen == Some(journal[0]))
    {
      if chosen.Some? {
        var i :| Winner(i);
        assert WinnerOk(i);
      }
    }
  }

  datatype Step =
    | Consume | LookToConsume | Consumed(valid: bool) | GiveUpConsume(own: Reason)
    | Emit | LookToEmit | Emitted(valid: bool) | GiveUpEmit
    | StartCheck(i: nat) | LookToCheck(i: nat) | EndCheck(i: nat, valid: bool)
    | FinishWith(i: nat, reason: Reason) | Watch(i: nat, why: nat)
    | Hook(i: nat, ok: bool) | Write(i: nat, ok: bool, appended: bool, networkOk: bool)
      | Announce(i: nat, verdictOk: bool)

  /** Once chosen, the reason stays; once appended, the FINISH stays alone. */
  twostate predicate Settles(c: CommittedAttempt)
    reads c
  {
    && (old(c.chosen).Some? ==> c.chosen == old(c.chosen))
    && (old(c.journal) != [] ==> c.journal == old(c.journal))
    && (old(c.consumed) ==> c.consumed) && (old(c.first) ==> c.first)
  }

  method ConsumeStep(c: CommittedAttempt, s: Step)
    requires c.Inv()
    modifies c
    ensures c.Inv() && Settles(c)
  {
    match s {
      case Consume => if c.consumed || c.chosen == None || c.finished.Some? { var went, attested := c.ConsumeEnter(); }
      case LookToConsume => if c.consumer.Some? && c.consumer.value.stage.Entered? { var ok := c.ConsumeLook(); }
      case Consumed(valid) => if c.consumer.Some? && c.consumer.value.stage.Inspecting? { c.ConsumeEnd(valid); }
      case GiveUpConsume(own) =>
        if c.consumer.Some? && c.consumer.value.stage.Rejected? && c.finished.Some? {
          var attested := c.ConsumeFail(own);
        }
      case _ =>
    }
  }

  method EmitStep(c: CommittedAttempt, s: Step)
    requires c.Inv() && c.authorizations == 1
    modifies c
    ensures c.Inv() && Settles(c)
  {
    match s {
      case Emit => if c.emitter == None { var went := c.EmitEnter(); }
      case LookToEmit => if c.emitter.Some? && c.emitter.value.stage.Entered? { var ok := c.EmitLook(); }
      case Emitted(valid) => if c.emitter.Some? && c.emitter.value.stage.Inspecting? { c.EmitEnd(valid); }
      case GiveUpEmit => if c.emitter.Some? && c.emitter.value.stage.Rejected? && c.finished.Some? { c.EmitFail(); }
      case _ =>
    }
  }

  method CheckStep(c: CommittedAttempt, s: Step)
    requires c.Inv() && c.authorizations == 1
    modifies c
    ensures c.Inv() && Settles(c)
  {
    match s {
      case StartCheck(i) => if c.emitter == None && i !in c.checks { var went := c.CheckEnter(i); }
      case LookToCheck(i) => if i in c.checks && c.checks[i].stage.Entered? { var ok := c.CheckLook(i); }
      case EndCheck(i, valid) => if i in c.checks && (valid ==> c.checks[i].stage.Inspecting?) { c.CheckEnd(i, valid); }
      case FinishWith(i, reason) => if i !in c.finishers { var won := c.Finish(i, reason); }
      case _ =>
    }
  }

  method WriterStep(c: CommittedAttempt, s: Step)
    requires c.Inv()
    modifies c
    ensures c.Inv() && Settles(c)
  {
    match s {
      case Watch(i, why) => if i !in c.finishers { var won := c.Choose(i, Stopped(why)); }
      case Hook(i, ok) => if c.phased && c.Winner(i) && c.finishers[i].writer.NotStarted? { c.RunHook(i, ok); }
      case Write(i, ok, appended, networkOk) =>
        if c.Winner(i) && (ok ==> appended)
           && (if c.phased then c.finishers[i].writer.Hooked? else c.finishers[i].writer.NotStarted?) {
          c.WriteFinish(i, ok, appended, networkOk);
        }
      case Announce(i, verdictOk) =>
        if c.Winner(i) && !c.finishers[i].published
           && (if c.phased then verdictOk ==> c.finishers[i].writer.Written? else c.finishers[i].writer.Written?) {
          c.Publish(i, verdictOk);
        }
      case _ =>
    }
  }

  /** The carrier's calls need the authorization that a good consume handed out. */
  method TakeStep(c: CommittedAttempt, s: Step)
    requires c.Inv()
    modifies c
    ensures c.Inv() && Settles(c)
  {
    if s.Consume? || s.LookToConsume? || s.Consumed? || s.GiveUpConsume? {
      ConsumeStep(c, s);
    } else if s.Watch? || s.Hook? || s.Write? || s.Announce? {
      WriterStep(c, s);
    } else if c.authorizations == 1 {
      if s.Emit? || s.LookToEmit? || s.Emitted? || s.GiveUpEmit? { EmitStep(c, s); } else { CheckStep(c, s); }
    }
  }

  /** Every interleaving: one authorization, one first emission, one FINISH with the first chosen reason,
      success only after a first emission, and a clean terminal result only with the FINISH on disk. */
  method Run(c: CommittedAttempt, steps: seq<Step>)
    requires c.Inv()
    modifies c
    ensures c.Inv() && Settles(c)
    ensures c.authorizations <= 1 && c.emissions <= 1 && |c.journal| <= 1
    ensures forall i, j :: c.Winner(i) && c.Winner(j) ==> i == j && c.chosen == Some(c.finishers[i].reason)
    ensures c.journal != [] ==> c.chosen == Some(c.journal[0])
    ensures c.journal == [Success] ==> c.emissions == 1
    ensures c.finished == Some(true) ==> |c.journal| == 1
  {
    for i := 0 to |steps|
      invariant c.Inv() && Settles(c)
    {
      TakeStep(c, steps[i]);
    }
    forall i | c.Winner(i) ensures c.chosen == Some(c.finishers[i].reason) { assert c.WinnerOk(i); }
    c.AtMostOneFinish();
    if c.finished == Some(true) { c.FinishedMeansWritten(); }
  }

  // ----- nobody is kept out without a reason ---------------------------------------------------------------

  /** An authorization is handed out when its consumer is not disturbed. */
  method Authorized(phased: bool) returns (c: CommittedAttempt)
    ensures fresh(c) && c.Inv() && c.phased == phased && c.authorizations == 1 && c.emissions == 0 && !c.first
    ensures c.chosen == None && c.emitter == None && c.finishers == map[] && c.journal == [] && c.finished == None
  {
    c := new CommittedAttempt(phased);
    var went, attested := c.ConsumeEnter();
    var ok := c.ConsumeLook();
    c.ConsumeEnd(true);
  }

  method Emitting(phased: bool) returns (c: CommittedAttempt)
    ensures fresh(c) && c.Inv() && c.phased == phased && c.authorizations == 1 && c.emissions == 1 && c.first
    ensures c.chosen == None && c.finishers == map[] && c.journal == [] && c.finished == None
  {
    c := Authorized(phased);
    var went := c.EmitEnter();
    var ok := c.EmitLook();
    c.EmitEnd(true);
  }

  /** From hand-off to the published success, through either writer. */
  method Succeeds(phased: bool) returns (c: CommittedAttempt)
    ensures c.Inv() && c.authorizations == 1 && c.emissions == 1 && c.journal == [Success] && c.finished == Some(true)
  {
    c := Emitting(phased);
    var won := c.Finish(0, Success);
    if phased { c.RunHook(0, true); }
    c.WriteFinish(0, true, true, true);
    c.Publish(0, true);
  }
}
