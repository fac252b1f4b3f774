/**
 Acting on one decision: the contract judges it, the audit row is written,
 and only then, when armed, is it handed to the queue. Everything the act
 did is on its journal.
 */
module Creations {
  import opened Types
  import opened Percents
  import opened Decisions

  datatype CreationKind = AuctionCreation | BadDebtCreation

  /** The audit row, as written: before any submission, so without a hash. */
  datatype CreationRecord = CreationRecord(
    kind: CreationKind,
    pool: Pool,
    account: Account,
    percent: Option<Percent>,
    bid: seq<Asset>,
    lot: seq<Asset>,
    ledger: u32,
    dryRun: bool)

  /** The contract call a creation sends. */
  datatype CreationCall =
    | NewAuction(pool: Pool, account: Account, bid: seq<Asset>, lot: seq<Asset>, percent: Percent)
    | BadDebtCall(pool: Pool, account: Account)

  /** What reading an auction's entry came back with: the ledger it was read at with it, none, or no answer. */
  datatype EntryFound = FoundAt(at: u32, auction: Auction) | NoEntry | EntryUnread

  /** One thing the act asked of, or handed to, the world. */
  datatype Deed =
    | Judged(call: CreationCall, verdict: Verdict)
    | LookedUp(pool: Pool, account: Account, entry: EntryFound)
    | Adopted(row: Row, updated: u32)
    | RowWritten(id: nat, record: CreationRecord)
    | Enqueued(id: nat, call: CreationCall, answer: QueueAnswer)
    | HashNamed(id: nat, hash: nat)

  datatype ActError = ModeMixed | ActUnencodable | ActChain | ActStore | ActQueue

  datatype Creation = Creation(
    kind: CreationKind,
    account: Account,
    percent: Option<Percent>,
    simulated: bool,
    id: nat,
    dryRun: bool,
    submission: Option<TxOutcome>)

  datatype ActOutcome =
    | SkippedAct(reason: SkipReason)
    | RefusedAct
    | RecordedAct(creation: Creation)
    | FailedAct(error: ActError)

  /** Whether this borrower's recheck flag may be cleared. */
  predicate IsSettled(outcome: ActOutcome) {
    match outcome
    case SkippedAct(_) => true
    case RefusedAct => false
    case FailedAct(_) => false
    case RecordedAct(creation) =>
      if creation.submission.Some? then creation.submission.value.Succeeded? else creation.dryRun
  }

  /** What one act is given: the bot's mode and key, whether a queue came with it, and the tick. */
  datatype Order = Order(
    pool: Pool,
    account: Account,
    decision: Decision,
    dryRun: bool,
    signed: bool,
    armed: bool,
    iterations: u32,
    ledger: u32)

  function RecordOf(order: Order, percent: Option<Percent>): CreationRecord {
    match order.decision
    case Liquidate(plan) =>
      CreationRecord(AuctionCreation, order.pool, order.account, percent, plan.bid, plan.lot, order.ledger,
                     order.dryRun)
    case _ =>
      CreationRecord(BadDebtCreation, order.pool, order.account, None, [], [], order.ledger, order.dryRun)
  }

  function CallOf(order: Order, percent: Option<Percent>): CreationCall {
    match order.decision
    case Liquidate(plan) =>
      NewAuction(order.pool, order.account, plan.bid, plan.lot, if percent.Some? then percent.value else plan.percent)
    case _ => BadDebtCall(order.pool, order.account)
  }

  // ----- what a journal may hold ------------------------------------------

  predicate Judging(deed: Deed) { deed.Judged? || deed.LookedUp? || deed.Adopted? }

  predicate InProgress(deed: Deed) { deed.Judged? && SaysInProgress(deed.verdict) }

  /** The row of an auction the chain holds and the store did not: the entry is its truth, and it has no plan. */
  function RowOfEntry(order: Order, auction: Auction): Row {
    Row(order.pool, order.account, true, auction.block, None, auction.bid, auction.lot)
  }

  /**
   An auction is looked up exactly when the contract answers that it is
   already open, and its row written exactly when its entry is found, with
   what was found, unless the store is lost.
   */
  ghost predicate AdoptsWhatIsOpen(order: Order, journal: seq<Deed>, asked: nat, lost: bool)
    requires asked <= |journal|
  {
    && (forall i :: 0 <= i < asked && journal[i].LookedUp? ==>
          i > 0 && InProgress(journal[i - 1])
          && journal[i].pool == order.pool && journal[i].account == order.account)
    && (forall i :: 0 <= i < asked && journal[i].Adopted? ==>
          i > 0 && journal[i - 1].LookedUp? && journal[i - 1].entry.FoundAt?
          && journal[i] == Adopted(RowOfEntry(order, journal[i - 1].entry.auction), journal[i - 1].entry.at))
    && (order.decision.Liquidate? ==>
          && (forall i :: 0 <= i < asked && InProgress(journal[i]) ==> i + 1 < asked && journal[i + 1].LookedUp?)
          && (forall i :: 0 <= i < asked && journal[i].LookedUp? && journal[i].entry.FoundAt? ==>
                lost || (i + 1 < asked && journal[i + 1].Adopted?)))
  }

  predicate WasAccepted(deed: Deed) { deed.Judged? && deed.verdict.Accepted? }

  /** The contract accepted this very call, last of all it was asked. */
  ghost predicate AcceptedLast(asked: seq<Deed>, call: CreationCall) {
    asked != [] && asked[|asked| - 1] == Deed.Judged(call, Accepted)
  }

  /**
   A journal in order: judgments first; then at most one row, of a call the
   contract accepted, or that there was no key to ask about; then at most
   one submission of that same call, armed, keyed and never in a dry run;
   then at most one hash, of the outcome the queue answered.
   */
  ghost predicate InOrder(order: Order, journal: seq<Deed>, asked: nat, percent: Option<Percent>) {
    && asked <= |journal| <= asked + 3
    && (forall i :: 0 <= i < asked ==> Judging(journal[i]))
    && (|journal| > asked ==>
          && !order.decision.Skip?
          && journal[asked].RowWritten? && journal[asked].record == RecordOf(order, percent)
          && (if order.signed then AcceptedLast(journal[..asked], CallOf(order, percent)) else asked == 0))
    && (|journal| > asked + 1 ==>
          && order.armed && order.signed && !order.dryRun
          && journal[asked + 1].Enqueued? && journal[asked + 1].id == journal[asked].id
          && journal[asked + 1].call == CallOf(order, percent))
    && (|journal| > asked + 2 ==>
          && journal[asked + 1].answer.Outcome?
          && journal[asked + 2] == HashNamed(journal[asked].id, journal[asked + 1].answer.outcome.hash))
  }

  /** What the journal says the act came to. */
  ghost predicate Tells(order: Order, journal: seq<Deed>, asked: nat, percent: Option<Percent>,
                        balked: Option<ActError>, outcome: ActOutcome)
    requires InOrder(order, journal, asked, percent)
  {
    match outcome
    case SkippedAct(reason) => journal == [] && order.decision == Skip(reason)
    case RefusedAct => !order.decision.Skip? && WasRefused(order, journal, asked)
    case FailedAct(error) => FailsWith(order, journal, asked, balked, error)
    case RecordedAct(creation) =>
      && |journal| == asked + (if creation.submission.Some? then 3 else 1)
      && creation.id == journal[asked].id && creation.dryRun == order.dryRun && creation.percent == percent
      && (creation.simulated <==> order.signed)
      && (!order.signed && order.decision.Liquidate? ==> percent == Some(order.decision.plan.percent))
      && (creation.submission.Some? <==> order.armed)
      && (creation.submission.Some? ==> journal[asked + 1].answer == Outcome(creation.submission.value))
  }

  /** An act is refused when nothing it asked was accepted, and it asked, unless it was given no attempts. */
  ghost predicate WasRefused(order: Order, journal: seq<Deed>, asked: nat) {
    && |journal| == asked && (asked == 0 ==> order.iterations == 0)
    && forall i :: 0 <= i < asked ==> !WasAccepted(journal[i])
  }

  /** The failure an act may answer is the one its last step met. */
  ghost predicate FailsWith(order: Order, journal: seq<Deed>, asked: nat, balked: Option<ActError>, error: ActError) {
    match error
    case ModeMixed => order.armed && (!order.signed || order.dryRun)
    case ActChain => 0 < asked <= |journal| && journal[asked - 1].Judged? && journal[asked - 1].verdict.Unreachable?
    case ActQueue =>
      |journal| == asked + 2 && journal[asked + 1].Enqueued? && !journal[asked + 1].answer.Outcome?
    case _ => balked == Some(error)
  }

  /** What comes after the judgments leaves what they adopted as it was. */
  lemma AdoptsStill(order: Order, judgments: seq<Deed>, journal: seq<Deed>, lost: bool)
    requires judgments <= journal && AdoptsWhatIsOpen(order, judgments, |judgments|, false)
    ensures AdoptsWhatIsOpen(order, journal, |judgments|, lost)
  {
    forall i | 0 <= i < |judgments| ensures journal[i] == judgments[i] {}
  }

  /** Looking up after judgments of which only the last says the auction is open. */
  lemma LooksUp(order: Order, journal: seq<Deed>, entry: EntryFound)
    requires journal != [] && InProgress(journal[|journal| - 1])
    requires forall i :: 0 <= i < |journal| ==> journal[i].Judged? && (InProgress(journal[i]) ==> i == |journal| - 1)
    ensures var longer := journal + [LookedUp(order.pool, order.account, entry)];
      && AdoptsWhatIsOpen(order, longer, |longer|, true)
      && (!entry.FoundAt? ==> AdoptsWhatIsOpen(order, longer, |longer|, false))
  {
  }

  /** And writing the row of what was found. */
  lemma Adopts(order: Order, journal: seq<Deed>)
    requires AdoptsWhatIsOpen(order, journal, |journal|, true)
    requires journal != [] && journal[|journal| - 1].LookedUp? && journal[|journal| - 1].entry.FoundAt?
    requires forall i :: 0 <= i < |journal| - 1 ==> journal[i].Judged?
    ensures var found := journal[|journal| - 1].entry;
      var longer := journal + [Adopted(RowOfEntry(order, found.auction), found.at)];
      AdoptsWhatIsOpen(order, longer, |longer|, false)
  {
  }

  class Auctioneer {
    ghost var journal: seq<Deed>
    /** How many of the journal's deeds were judgments, and the percent they settled on. */
    ghost var asked: nat
    ghost var percent: Option<Percent>
    /** A step the world failed that leaves no deed: an operation that does not encode, a store write. */
    ghost var balked: Option<ActError>

    constructor ()
      ensures journal == [] && asked == 0 && percent == None && balked == None
    {
      journal, asked, percent, balked := [], 0, None, None;
    }

    /** Acts on one decision. */
    method Act(order: Order) returns (outcome: ActOutcome)
      modifies this
      ensures InOrder(order, journal, asked, percent) && Tells(order, journal, asked, percent, balked, outcome)
      ensures AdoptsWhatIsOpen(order, journal, asked, balked == Some(ActStore))
      ensures order.armed && (!order.signed || order.dryRun) ==> outcome == FailedAct(ModeMixed) && journal == []
    {
      journal, asked, percent, balked := [], 0, None, None;
      if order.armed && !order.signed { return FailedAct(ModeMixed); }
      if order.armed && order.dryRun { return FailedAct(ModeMixed); }
      var accepted: Option<Percent>;
      match order.decision {
        case Skip(reason) => return SkippedAct(reason);
        case BadDebt =>
          var judged := AcceptBadDebt(order);
          if judged.Some? { return judged.value; }
          accepted := None;
        case Liquidate(plan) =>
          var refusal;
          refusal, accepted := AcceptLiquidation(order, plan);
          if refusal.Some? { return refusal.value; }
      }
      outcome := Record(order, accepted);
    }

    /** Asks about bad debt once; `None` lets the act go on. */
    method AcceptBadDebt(order: Order) returns (stopped: Option<ActOutcome>)
      requires order.decision.BadDebt? && journal == [] && asked == 0 && percent == None && balked == None
      modifies this
      ensures |journal| == asked && percent == None && forall i :: 0 <= i < asked ==> Judging(journal[i])
      ensures AdoptsWhatIsOpen(order, journal, asked, false)
      ensures stopped.None? ==>
        if order.signed then AcceptedLast(journal, CallOf(order, None)) else asked == 0
      ensures stopped.None? ==> balked == None
      ensures stopped.Some? ==> stopped.value.RefusedAct? || stopped.value.FailedAct?
      ensures stopped.Some? && stopped.value.RefusedAct? ==> WasRefused(order, journal, asked)
      ensures stopped.Some? && stopped.value.FailedAct? ==>
        FailsWith(order, journal, asked, balked, stopped.value.error)
    {
      var encodes: bool := *;
      if !encodes {
        balked := Some(ActUnencodable);
        return Some(FailedAct(ActUnencodable));
      }
      if !order.signed { return None; }
      var verdict: Verdict := *;
      journal, asked := [Deed.Judged(CallOf(order, None), verdict)], 1;
      match verdict {
        case Accepted => stopped := None;
        case Refused(_) => stopped := Some(RefusedAct);
        case NeedsRestore => stopped := Some(RefusedAct);
        case Unreachable => stopped := Some(FailedAct(ActChain));
      }
    }

    /** Walks the plan's percent to one the contract accepts. */
    method AcceptLiquidation(order: Order, plan: LiquidationPlan)
      returns (stopped: Option<ActOutcome>, accepted: Option<Percent>)
      requires order.decision == Liquidate(plan) && journal == [] && asked == 0 && percent == None && balked == None
      modifies this
      ensures |journal| == asked && percent == accepted && forall i :: 0 <= i < asked ==> Judging(journal[i])
      ensures AdoptsWhatIsOpen(order, journal, asked, balked == Some(ActStore))
      ensures stopped.None? && !order.signed ==> accepted == Some(plan.percent)
      ensures stopped.None? ==>
        accepted.Some? && if order.signed then AcceptedLast(journal, CallOf(order, accepted)) else asked == 0
      ensures stopped.None? ==> balked == None
      ensures stopped.Some? ==>
        || (stopped.value.RefusedAct? && WasRefused(order, journal, asked))
        || (stopped.value.FailedAct? && FailsWith(order, journal, asked, balked, stopped.value.error))
    {
      accepted := None;
      var encodes: bool := *;
      if !encodes {
        balked := Some(ActUnencodable);
        return Some(FailedAct(ActUnencodable)), None;
      }
      var ending, adopt := AskPercents(order, plan);
      if adopt {
        var kept := Adopt(order);
        if !kept { return Some(FailedAct(ActStore)), None; }
      }
      match ending {
        case GivenUp(_) => return Some(RefusedAct), None;
        case ChainFailed => return Some(FailedAct(ActChain)), None;
        case Settled(settled, _) =>
          percent := Some(settled);
          return None, Some(settled);
      }
    }

    /** The walk itself, and what its end says of what it asked. */
    method AskPercents(order: Order, plan: LiquidationPlan) returns (ending: Ending, adopt: bool)
      requires order.decision == Liquidate(plan) && journal == [] && asked == 0
      modifies `journal, `asked
      ensures |journal| == asked && (!order.signed ==> asked == 0)
      ensures forall i :: 0 <= i < asked ==> journal[i].Judged? && (InProgress(journal[i]) <==> adopt && i == asked - 1)
      ensures adopt ==> asked > 0 && ending.GivenUp?
      ensures ending.GivenUp? ==>
        (asked == 0 ==> order.iterations == 0) && forall i :: 0 <= i < asked ==> !WasAccepted(journal[i])
      ensures ending.ChainFailed? ==> asked > 0 && journal[asked - 1].verdict.Unreachable?
      ensures ending.Settled? && order.signed ==> AcceptedLast(journal, CallOf(order, Some(ending.percent)))
      ensures ending.Settled? && !order.signed ==> ending.percent == plan.percent
    {
      var contract: Contract := *;
      ghost var tried;
      ending, tried, adopt := AcceptPercent(order.signed, plan.percent, order.iterations, contract);
      journal := seq(|tried|, i requires 0 <= i < |tried| =>
        Deed.Judged(CallOf(order, Some(tried[i])), contract(i, tried[i])));
      asked := |tried|;
      if order.signed {
        InProgressEndsTheWalk(contract, plan.percent, 0, order.iterations);
        match ending {
          case GivenUp(_) =>
            GivenUpWasNeverAccepted(contract, plan.percent, 0, order.iterations);
            WalksAreBounded(contract, plan.percent, 0, order.iterations);
          case ChainFailed => FailedWasUnreachable(contract, plan.percent, 0, order.iterations);
          case Settled(_, _) => SettledWasAccepted(contract, plan.percent, 0, order.iterations);
        }
      }
    }

    /**
     Adopts an auction the chain holds and the store may not: one that has
     closed since, or cannot be read, leaves nothing behind.
     */
    method Adopt(order: Order) returns (kept: bool)
      requires |journal| == asked && asked > 0 && InProgress(journal[asked - 1]) && balked == None
      requires forall i :: 0 <= i < asked ==> journal[i].Judged? && (InProgress(journal[i]) ==> i == asked - 1)
      modifies `journal, `asked, `balked
      ensures kept <==> balked == None
      ensures !kept ==> balked == Some(ActStore)
      ensures |journal| == asked && old(journal) <= journal
      ensures forall i :: old(asked) <= i < asked ==> journal[i].LookedUp? || journal[i].Adopted?
      ensures AdoptsWhatIsOpen(order, journal, asked, !kept)
    {
      var entry: EntryFound := *;
      LooksUp(order, journal, entry);
      journal, asked := journal + [LookedUp(order.pool, order.account, entry)], asked + 1;
      if !entry.FoundAt? { return true; }
      var lost: bool := *;
      if lost {
        balked := Some(ActStore);
        return false;
      }
      Adopts(order, journal);
      journal, asked := journal + [Adopted(RowOfEntry(order, entry.auction), entry.at)], asked + 1;
      return true;
    }

    /** Writes the audit row, then submits when armed. */
    method Record(order: Order, accepted: Option<Percent>) returns (outcome: ActOutcome)
      requires !order.decision.Skip? && |journal| == asked && percent == accepted
      requires forall i :: 0 <= i < asked ==> Judging(journal[i])
      requires if order.signed then AcceptedLast(journal, CallOf(order, accepted)) else asked == 0
      requires order.armed ==> order.signed && !order.dryRun
      requires !order.signed && order.decision.Liquidate? ==> accepted == Some(order.decision.plan.percent)
      requires balked == None && AdoptsWhatIsOpen(order, journal, asked, false)
      modifies `journal, `balked
      ensures InOrder(order, journal, asked, percent) && Tells(order, journal, asked, percent, balked, outcome)
      ensures AdoptsWhatIsOpen(order, journal, asked, balked == Some(ActStore))
    {
      ghost var judgments := journal;
      var id := WriteRow(order, accepted);
      AdoptsStill(order, judgments, journal, balked == Some(ActStore));
      if id.None? { return FailedAct(ActStore); }
      var kind := RecordOf(order, accepted).kind;
      var creation := Creation(kind, order.account, accepted, order.signed, id.value, order.dryRun, None);
      if !order.armed { return RecordedAct(creation); }
      outcome := SubmitRecorded(order, accepted, creation);
      AdoptsStill(order, judgments, journal, balked == Some(ActStore));
    }

    /** The audit row, or the store's failure to take it. */
    method WriteRow(order: Order, accepted: Option<Percent>) returns (id: Option<nat>)
      requires !order.decision.Skip? && |journal| == asked && percent == accepted
      requires forall i :: 0 <= i < asked ==> Judging(journal[i])
      requires if order.signed then AcceptedLast(journal, CallOf(order, accepted)) else asked == 0
      requires balked == None
      modifies `journal, `balked
      ensures InOrder(order, journal, asked, percent) && journal[..asked] == old(journal)
      ensures if id.Some? then balked == None && |journal| == asked + 1 && journal[asked].id == id.value
              else balked == Some(ActStore) && journal == old(journal)
    {
      id := *;
      if !id.Some? {
        balked := Some(ActStore);
        return None;
      }
      ghost var judgments := journal;
      journal := journal + [RowWritten(id.value, RecordOf(order, accepted))];
      assert journal[..asked] == judgments;
    }

    /** Hands a recorded creation to the queue, and names the row by what it became. */
    method SubmitRecorded(order: Order, accepted: Option<Percent>, creation: Creation) returns (outcome: ActOutcome)
      requires InOrder(order, journal, asked, accepted) && |journal| == asked + 1 && percent == accepted
      requires order.armed && order.signed && !order.dryRun && balked == None
      requires creation ==
        Creation(RecordOf(order, accepted).kind, order.account, accepted, true, journal[asked].id, false, None)
      modifies `journal, `balked
      ensures old(journal) <= journal
      ensures InOrder(order, journal, asked, percent) && Tells(order, journal, asked, percent, balked, outcome)
    {
      ghost var before := journal;
      var answer: QueueAnswer := *;
      journal := journal + [Enqueued(creation.id, CallOf(order, accepted), answer)];
      assert journal[..asked] == before[..asked];
      if !answer.Outcome? { return FailedAct(ActQueue); }
      var attached: HashAnswer := *;
      if attached.HashWriteFailed? {
        balked := Some(ActStore);
        return FailedAct(ActStore);
      }
      journal := journal + [HashNamed(creation.id, answer.outcome.hash)];
      assert journal[..asked] == before[..asked];
      outcome := RecordedAct(creation.(submission := Some(answer.outcome)));
    }
  }

  /**
   A borrower is settled exactly when nothing was owed, or the chain is known
   to have made the auction, or a dry run has done all a dry run does: never
   after a refusal, a failure, or an armed act that sent nothing.
   */
  lemma SettledExactly(order: Order, journal: seq<Deed>, asked: nat, percent: Option<Percent>,
                       balked: Option<ActError>, outcome: ActOutcome)
    requires InOrder(order, journal, asked, percent) && Tells(order, journal, asked, percent, balked, outcome)
    requires !outcome.FailedAct?
    requires order.armed ==> order.signed && !order.dryRun
    ensures IsSettled(outcome) <==>
      || order.decision.Skip?
      || (|journal| >= asked + 2 && journal[asked + 1].answer.Outcome? && journal[asked + 1].answer.outcome.Succeeded?)
      || (|journal| == asked + 1 && order.dryRun)
  {
  }
}
