/**
 The audit protocol over whole runs: the journey of one operation through the
 executor, from being handed over to the queue's answer, step by step. What
 reaches the queue has its own audit row behind it and its own judgment
 behind that.
 */
module Audits {
  import opened Types
  import opened Requests
  import opened Machine
  import opened Runs

  /** What happened to the operation in the executor's hands, oldest first. */
  function Journey(r: Run): seq<Event> {
    if r.Start? then []
    else if r.event.LandedLate? then Journey(r.past)
    else if r.event.FillHanded? || r.event.UnwindHanded? then [r.event]
    else if r.event.FillReturned? || r.event.UnwindReturned? || !Aboard(r.event) then []
    else Journey(r.past) + [r.event]
  }

  function OperationFor(c: Config, load: Load): Operation
    requires c.signer.Some? && !load.NoLoad?
  {
    Operation(load.pool, c.signer.value, RequestsOf(load))
  }

  /** The journey's first step: the load was handed over. */
  predicate HandedOver(load: Load, journey: seq<Event>) {
    && |journey| >= 1
    && (match load
        case NoLoad => false
        case FillLoad(pool, account, draft) =>
          && journey[0].FillHanded? && journey[0].draft == draft
          && journey[0].row.pool == pool && journey[0].row.account == account
        case UnwindLoad(pool, plan) => journey[0] == UnwindHanded(pool, plan))
  }

  /** Its second: the contract was asked about exactly the load's own operation. */
  predicate Judged(c: Config, load: Load, journey: seq<Event>) {
    && HandedOver(load, journey) && |journey| >= 2 && c.signer.Some?
    && journey[1].Simulated? && journey[1].operation == OperationFor(c, load)
  }

  predicate Passes(judgment: Judgment) { judgment.Accepts? || judgment.NeedsRestore? }

  /** With a key, a judgment that let the fill through; without one there is none to ask for. */
  predicate Cleared(c: Config, load: Load, journey: seq<Event>) {
    if c.signer.Some? then Judged(c, load, journey) && Passes(journey[1].judgment) else HandedOver(load, journey)
  }

  /** Where a fill's audit row stands in its journey. */
  function RowAt(c: Config): nat { if c.signer.Some? then 2 else 1 }

  /** Its third, for a fill: one audit row of exactly this fill. */
  predicate Recorded(c: Config, load: Load, journey: seq<Event>, id: nat, plan: FillPlan) {
    && load == FillLoad(plan.pool, plan.user, plan.draft)
    && Cleared(c, load, journey) && |journey| > RowAt(c)
    && journey[RowAt(c)].RowRecorded? && journey[RowAt(c)].id == id && journey[RowAt(c)].plan == plan
    && journey[RowAt(c)].dryRun == c.executorDryRun
  }

  /** And the queue's answer: for a fill behind its row, for an unwind behind its judgment. */
  predicate Sent(c: Config, load: Load, journey: seq<Event>, named: Option<nat>, answer: QueueAnswer) {
    && c.signer.Some? && !c.executorDryRun
    && match load
       case NoLoad => false
       case FillLoad(_, _, _) =>
         && |journey| >= 4 && journey[3].FillEnqueued? && journey[3].answer == answer
         && journey[3].operation == OperationFor(c, load)
         && named.Some? && Recorded(c, load, journey, named.value, journey[3].plan)
       case UnwindLoad(pool, plan) =>
         && named.None? && |journey| == 3 && Judged(c, load, journey) && Passes(journey[1].judgment)
         && journey[2].UnwindEnqueued? && journey[2].answer == answer && journey[2].pool == pool
         && journey[2].unwind == plan && journey[2].operation == OperationFor(c, load)
  }

  /** After the queue's answer a fill's row may only be named, by the hash of that answer. */
  predicate NamedOnly(journey: seq<Event>, named: Option<nat>, answer: QueueAnswer) {
    forall i :: 4 <= i < |journey| ==>
      && journey[i].HashWritten? && named == Some(journey[i].id)
      && answer.Outcome? && journey[i].hash == answer.outcome.hash
  }

  /** How far the operation in flight has got is exactly what its journey shows. */
  predicate Travelled(c: Config, f: Flight, journey: seq<Event>) {
    match f.stage
    case Idle => if f.load.NoLoad? then journey == [] else HandedOver(f.load, journey) && |journey| == 1
    case Asked(operation, judgment) =>
      Judged(c, f.load, journey) && |journey| == 2 && journey[1] == Simulated(operation, judgment)
    case OnAudit(id, plan, judged) =>
      && Recorded(c, f.load, journey, id, plan) && |journey| == RowAt(c) + 1
      && judged == (if c.signer.Some? then Some(OperationFor(c, f.load)) else None)
    case Answered(named, answer) =>
      Sent(c, f.load, journey, named, answer) && NamedOnly(journey, named, answer)
  }

  lemma TravelStep(c: Config, m: Memory, f: Flight, e: Event, journey: seq<Event>)
    requires Travelled(c, f, journey) && Allowed(c, m, f, e) && Aboard(e) && !e.LandedLate?
    requires !e.FillReturned? && !e.UnwindReturned?
    ensures Travelled(c, Fly(f, e), if e.FillHanded? || e.UnwindHanded? then [e] else journey + [e])
  {
  }

  lemma {:induction false} FlightIsItsJourney(c: Config, r: Run)
    requires Kept(c, r)
    ensures Travelled(c, Aloft(r), Journey(r))
  {
    if r.Then? {
      KeptPast(c, r);
      FlightIsItsJourney(c, r.past);
      if Aboard(r.event) && !r.event.LandedLate? && !r.event.FillReturned? && !r.event.UnwindReturned? {
        TravelStep(c, Now(r.past), Aloft(r.past), r.event, Journey(r.past));
      }
    }
  }

  /**
   Every fill handed to the queue has, behind it in the same call and in this
   order, its own hand-over, the contract's passing judgment of exactly the
   operation sent, and its own audit row with equal contents, not a dry run's.
   */
  lemma AuditPrecedesSending(c: Config, r: Run, s: Run)
    requires Kept(c, r) && Moment(s, r) && s.Then? && s.event.FillEnqueued?
    ensures c.signer.Some? && !c.executorDryRun
    ensures var plan := s.event.plan; var journey := Journey(s.past);
      && |journey| == 3
      && journey[0].FillHanded? && journey[0].draft == plan.draft
      && journey[1].Simulated? && Passes(journey[1].judgment) && journey[1].operation == s.event.operation
      && s.event.operation == Operation(plan.pool, c.signer.value, FillRequestsOf(plan.user, plan.draft))
      && journey[2].RowRecorded? && journey[2].plan == plan && !journey[2].dryRun
  {
    KeptMoment(c, s, r);
    KeptPast(c, s);
    FlightIsItsJourney(c, s.past);
  }

  /** An unwind has the passing judgment of exactly the operation sent, and no row. */
  lemma JudgmentPrecedesAnUnwind(c: Config, r: Run, s: Run)
    requires Kept(c, r) && Moment(s, r) && s.Then? && s.event.UnwindEnqueued?
    ensures c.signer.Some? && !c.executorDryRun
    ensures var journey := Journey(s.past);
      && |journey| == 2
      && journey[0] == UnwindHanded(s.event.pool, s.event.unwind)
      && journey[1].Simulated? && Passes(journey[1].judgment) && journey[1].operation == s.event.operation
      && s.event.operation == Operation(s.event.pool, c.signer.value, UnwindRequestsOf(s.event.unwind.actions))
  {
    KeptMoment(c, s, r);
    KeptPast(c, s);
    FlightIsItsJourney(c, s.past);
  }

  /** A hash is written only onto the row recorded in the same call, after the queue answered with it. */
  lemma HashNamesItsOwnRow(c: Config, r: Run, s: Run)
    requires Kept(c, r) && Moment(s, r) && s.Then? && s.event.HashWritten?
    ensures var journey := Journey(s.past);
      && |journey| >= 4
      && journey[2].RowRecorded? && journey[2].id == s.event.id
      && journey[3].FillEnqueued? && journey[3].plan == journey[2].plan
      && journey[3].answer.Outcome? && journey[3].answer.outcome.hash == s.event.hash
  {
    KeptMoment(c, s, r);
    KeptPast(c, s);
    FlightIsItsJourney(c, s.past);
  }

  /** A call the contract refused ended there: no row was written and nothing was sent. */
  lemma RefusalLeavesNoRow(c: Config, r: Run, s: Run, i: nat)
    requires Kept(c, r) && Moment(s, r) && s.Then? && (s.event.FillReturned? || s.event.UnwindReturned?)
    requires i < |Journey(s.past)| && Journey(s.past)[i].Simulated? && !Passes(Journey(s.past)[i].judgment)
    ensures i == 1 && |Journey(s.past)| == 2
  {
    KeptMoment(c, s, r);
    KeptPast(c, s);
    FlightIsItsJourney(c, s.past);
  }
}
