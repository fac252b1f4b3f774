/**
 The fill walk's discipline over whole runs: what may still be planned or
 executed in one pool's walk, and where what is executed came from.
 */
module Walks {
  import opened Types
  import opened Requests
  import opened Machine
  import opened Runs

  /** A walk begins when a pool's rows are read; a new tick ends it. */
  predicate Restarts(e: Event) { e.RowsRead? || e.TickBegan? }

  /** A fill landed, or may have, in the walk under way. */
  predicate LandedInWalk(r: Run) {
    r.Then? && !Restarts(r.event) && ((r.event.FillEnqueued? && LandedAnswer(r.event.answer)) || LandedInWalk(r.past))
  }

  /** The walk under way drafted this fill of the auction the chain holds. */
  predicate DraftedInWalk(r: Run, row: Row, auction: Auction, draft: FillDraft) {
    r.Then? && !Restarts(r.event) &&
    (|| (r.event.FillPlanned? && r.event.row == row && r.event.auction == auction && r.event.planned == Drafted(draft))
     || DraftedInWalk(r.past, row, auction, draft))
  }

  /** And wrote it onto its row. */
  predicate WrittenInWalk(r: Run, row: Row, draft: FillDraft) {
    r.Then? && !Restarts(r.event) && (r.event == PlanWritten(row, draft, true) || WrittenInWalk(r.past, row, draft))
  }

  /** The percents of this account's fills the walk under way handed to the executor, in order. */
  function HandedInWalk(r: Run, account: Account): seq<Percent> {
    if r.Start? || Restarts(r.event) then []
    else if r.event.FillHanded? && r.event.row.account == account
    then HandedInWalk(r.past, account) + [r.event.draft.percent]
    else HandedInWalk(r.past, account)
  }

  /** The last tick that began: its ledger, and whether the startup gate let it execute. */
  function LastTick(r: Run): Option<(u32, bool)> {
    if r.Start? then None
    else if r.event.TickBegan? then Some((r.event.sequence, r.event.execute))
    else LastTick(r.past)
  }

  // ----- what the walk's memory means -------------------------------------

  predicate LandingMeans(m: Memory, r: Run) {
    m.walk.Walk? ==> (m.walk.landed <==> LandedInWalk(r))
  }

  predicate DraftMeans(m: Memory, r: Run) {
    m.walk.Walk? && m.walk.draft.Some? ==>
      var d := m.walk.draft.value;
      DraftedInWalk(r, d.row, d.auction, d.draft) && (d.written ==> WrittenInWalk(r, d.row, d.draft))
  }

  lemma LandedStep(c: Config, r: Run)
    requires r.Then? && WalkSide(c, Now(r.past), r.event, Now(r))
    requires LandingMeans(Now(r.past), r.past)
    requires r.event.FillEnqueued? ==> Now(r.past).walk.Walk?
    ensures LandingMeans(Now(r), r)
  {
  }

  lemma DraftStep(c: Config, r: Run)
    requires r.Then? && WalkSide(c, Now(r.past), r.event, Now(r))
    requires DraftMeans(Now(r.past), r.past)
    requires r.event.PlanWritten? ==> IsDraftOf(Now(r.past).walk, r.event.row, r.event.draft)
    ensures DraftMeans(Now(r), r)
  {
  }

  lemma {:induction false} WalkIsRead(c: Config, r: Run)
    requires Kept(c, r)
    ensures LandingMeans(Now(r), r) && DraftMeans(Now(r), r)
  {
    if r.Then? {
      KeptPast(c, r);
      KeptIsSound(c, r.past);
      WalkIsRead(c, r.past);
      WalkSideOf(c, Now(r.past), r.event);
      LandedStep(c, r);
      DraftStep(c, r);
    }
  }

  lemma TickStep(c: Config, m: Memory, e: Event, n: Memory)
    requires WalkSide(c, m, e, n)
    ensures n.tick == (if e.TickBegan? then e.sequence else m.tick)
    ensures n.execute == (if e.TickBegan? then e.execute else m.execute)
  {
    if !e.TickBegan? && !e.RowsRead? && !e.EntryRead? && !e.RowDeleted? && !e.RowRecorded? { RestStays(c, m, e, n); }
  }

  lemma {:induction false} TickIsTheLast(c: Config, r: Run)
    requires Kept(c, r)
    ensures LastTick(r).Some? ==> LastTick(r) == Some((Now(r).tick, Now(r).execute))
    ensures LastTick(r).None? ==> !Now(r).execute
  {
    if r.Then? {
      KeptPast(c, r);
      TickIsTheLast(c, r.past);
      WalkSideOf(c, Now(r.past), r.event);
      TickStep(c, Now(r.past), r.event, Now(r));
    }
  }

  /** Nothing is planned or executed in a walk after a fill of it landed, or may have. */
  lemma NothingAfterALanding(c: Config, r: Run, s: Run)
    requires Kept(c, r) && Moment(s, r) && s.Then? && (s.event.FillPlanned? || s.event.FillHanded?)
    ensures !LandedInWalk(s.past)
  {
    KeptMoment(c, s, r);
    KeptPast(c, s);
    WalkIsRead(c, s.past);
  }

  /**
   Every draft executed was drafted for the chain's own entry and written in
   this same walk, in a tick the startup gate let execute, for a ledger no
   later than the next one.
   */
  lemma ExecutesOnlyWhatTheWalkPlanned(c: Config, r: Run, s: Run)
    requires Kept(c, r) && Moment(s, r) && s.Then? && s.event.FillHanded?
    ensures exists auction :: DraftedInWalk(s.past, s.event.row, auction, s.event.draft)
    ensures WrittenInWalk(s.past, s.event.row, s.event.draft)
    ensures LastTick(s.past).Some? && LastTick(s.past).value.1
    ensures s.event.draft.fillLedger <= LastTick(s.past).value.0 + 1
  {
    KeptMoment(c, s, r);
    KeptPast(c, s);
    WalkIsRead(c, s.past);
    TickIsTheLast(c, s.past);
  }

  // ----- at most twice, the second time at half ---------------------------

  predicate TriesMean(m: Memory, f: Flight, account: Account, handed: seq<Percent>) {
    && (m.walk.NoWalk? ==> handed == [])
    && (m.walk.Walk? ==>
          && m.Tries(account) == |handed|
          && (account in m.walk.refused ==> handed != [] && m.walk.refused[account] == handed[0]))
    && (f.load.FillLoad? && f.load.account == account ==>
          handed != [] && f.load.draft.percent == handed[|handed| - 1])
  }

  predicate Halves(handed: seq<Percent>) {
    |handed| <= 2 && (|handed| == 2 ==> handed[1] <= HalfPercent(handed[0]))
  }

  lemma HandedStep(c: Config, m: Memory, f: Flight, e: Event, account: Account, handed: seq<Percent>)
    requires TriesMean(m, f, account, handed) && Halves(handed)
    requires e.FillHanded? && MayHand(m, e.row, e.draft) && e.row.account == account
    ensures TriesMean(Handed(m, e.row), Fly(f, e), account, handed + [e.draft.percent])
    ensures Halves(handed + [e.draft.percent])
  {
  }

  lemma ReturnedStep(c: Config, m: Memory, f: Flight, e: Event, account: Account, handed: seq<Percent>)
    requires TriesMean(m, f, account, handed) && FillLoadHolds(m, f)
    requires e.FillReturned? && MayReturnFill(c, f, e.pool, e.account, e.filled)
    ensures TriesMean(FillDone(m, e.account, e.filled), Fly(f, e), account, handed)
  {
  }

  /** Where neither the tries nor the refusals of this walk move, nor the load, what they mean stays. */
  predicate SameTries(m: Memory, n: Memory) {
    && n.walk.Walk? == m.walk.Walk?
    && (m.walk.Walk? ==> n.walk.tries == m.walk.tries && n.walk.refused == m.walk.refused)
  }

  lemma OtherStep(c: Config, m: Memory, f: Flight, e: Event, n: Memory)
    requires WalkSide(c, m, e, n) && !Restarts(e) && !e.FillReturned? && !e.FillHanded?
    ensures SameTries(m, n) && (Fly(f, e).load.FillLoad? ==> Fly(f, e).load == f.load)
  {
  }

  lemma HandedOtherStep(m: Memory, f: Flight, e: Event, account: Account, handed: seq<Percent>)
    requires TriesMean(m, f, account, handed)
    requires e.FillHanded? && e.row.account != account
    ensures TriesMean(Handed(m, e.row), Fly(f, e), account, handed)
  {
  }

  lemma {:induction false} TriesAreRead(c: Config, r: Run, account: Account)
    requires Kept(c, r)
    ensures TriesMean(Now(r), Aloft(r), account, HandedInWalk(r, account)) && Halves(HandedInWalk(r, account))
  {
    if r.Then? {
      KeptPast(c, r);
      KeptIsSound(c, r.past);
      TriesAreRead(c, r.past, account);
      WalkSideOf(c, Now(r.past), r.event);
      var m, f, e, handed := Now(r.past), Aloft(r.past), r.event, HandedInWalk(r.past, account);
      if e.FillReturned? { ReturnedStep(c, m, f, e, account, handed); }
      else if e.FillHanded? && e.row.account == account { HandedStep(c, m, f, e, account, handed); }
      else if e.FillHanded? { HandedOtherStep(m, f, e, account, handed); }
      else if !Restarts(e) { OtherStep(c, m, f, e, Now(r)); }
    }
  }

  /** An auction reaches the executor at most twice in a walk, the second time at no more than half. */
  lemma AtMostTwiceTheSecondAtHalf(c: Config, r: Run, account: Account)
    requires Kept(c, r)
    ensures var handed := HandedInWalk(r, account);
      |handed| <= 2 && (|handed| == 2 ==> handed[1] <= HalfPercent(handed[0]))
  {
    TriesAreRead(c, r, account);
  }
}
