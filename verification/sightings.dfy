/**
 What the filler remembers of an auction between ticks, and what makes it
 forget: the versions a dry run recorded and the skips it counted, both
 against a tracker whose rows may lag the chain.
 */
module Sightings {
  import opened Types
  import opened Machine
  import opened Runs

  /** Whether some open user liquidation of `account` in `rows` started no later than `start`. */
  ghost predicate NamedBy(rows: seq<Row>, account: Account, start: u32) {
    exists row :: row in rows && row.userLiquidation && row.account == account && row.start <= start
  }

  /** With one open liquidation per account, the starts the prune reads off the rows name exactly these. */
  lemma {:induction false} OpenStartsName(rows: seq<Row>, account: Account, start: u32)
    requires UniqueAccounts(rows)
    ensures account in OpenStarts(rows) ==>
      exists row ::
        row in rows && row.userLiquidation && row.account == account && row.start == OpenStarts(rows)[account]
    ensures (account in OpenStarts(rows) && OpenStarts(rows)[account] <= start) <==> NamedBy(rows, account, start)
  {
    if rows != [] {
      var last := rows[|rows| - 1];
      var rest := rows[..|rows| - 1];
      OpenStartsName(rest, account, start);
      assert rows == rest + [last];
      if last.userLiquidation && last.account == account {
        forall row | row in rest && row.userLiquidation ensures row.account != account {
          var i :| 0 <= i < |rest| && rest[i] == row;
          assert rows[i] == row && rows[|rows| - 1] == last;
        }
      }
    }
  }

  // ----- dry runs, once per version ---------------------------------------

  predicate Records(e: Event, version: Version) {
    e.RowRecorded? && e.dryRun && e.version == version
  }

  /** The pool's open rows no longer name the version, or its row was closed. */
  ghost predicate Forgets(e: Event, version: Version) {
    match e
    case RowsRead(pool, rows) => pool == version.pool && !NamedBy(rows, version.account, version.start)
    case RowDeleted(pool, account) => pool == version.pool && account == version.account
    case _ => false
  }

  /** Recorded, and not forgotten since. */
  ghost predicate Standing(r: Run, version: Version) {
    r.Then? && (Records(r.event, version) || (Standing(r.past, version) && !Forgets(r.event, version)))
  }

  function Recordings(r: Run, version: Version): nat {
    if r.Start? then 0 else Recordings(r.past, version) + (if Records(r.event, version) then 1 else 0)
  }

  ghost function Forgettings(r: Run, version: Version): nat {
    if r.Start? then 0
    else Forgettings(r.past, version) + (if Standing(r.past, version) && Forgets(r.event, version) then 1 else 0)
  }

  lemma RecordedStep(c: Config, m: Memory, e: Event, n: Memory, version: Version)
    requires WalkSide(c, m, e, n) && !e.RowsRead?
    ensures version in n.mind.recorded <==>
      Records(e, version) || (version in m.mind.recorded && !Forgets(e, version))
  {
    if !e.TickBegan? && !e.EntryRead? && !e.RowRecorded? && !e.RowDeleted? { RestStays(c, m, e, n); }
  }

  lemma RecordedPruned(m: Memory, pool: Pool, rows: seq<Row>, version: Version)
    requires UniqueAccounts(rows)
    ensures version in Pruned(m, pool, rows).mind.recorded <==>
      version in m.mind.recorded && !Forgets(RowsRead(pool, rows), version)
  {
    OpenStartsName(rows, version.account, version.start);
  }

  /** A version of an auction is recorded by a dry run at most once plus the times it was forgotten. */
  lemma {:induction false} RecordedOncePerVersion(c: Config, r: Run, version: Version)
    requires Kept(c, r)
    ensures version in Now(r).mind.recorded <==> Standing(r, version)
    ensures Recordings(r, version) == Forgettings(r, version) + (if Standing(r, version) then 1 else 0)
  {
    if r.Then? {
      KeptPast(c, r);
      RecordedOncePerVersion(c, r.past, version);
      WalkSideOf(c, Now(r.past), r.event);
      if r.event.RowsRead? { RecordedPruned(Now(r.past), r.event.pool, r.event.rows, version); }
      else { RecordedStep(c, Now(r.past), r.event, Now(r), version); }
    }
  }

  /** After a pool's rows are read, every version remembered of it is one an open row still names. */
  lemma PruneKeepsOnlyOpenVersions(c: Config, r: Run, s: Run, version: Version)
    requires Kept(c, r) && Moment(s, r) && s.Then? && s.event.RowsRead?
    requires version in Now(s).mind.recorded && version.pool == s.event.pool
    ensures NamedBy(s.event.rows, version.account, version.start)
  {
    KeptMoment(c, s, r);
    RecordedOncePerVersion(c, s, version);
  }

  /** The chain's last word on an entry. */
  function LastEntry(r: Run): Option<Event> {
    if r.Start? then None else if r.event.EntryRead? then Some(r.event) else LastEntry(r.past)
  }

  lemma GoneStep(c: Config, m: Memory, e: Event, n: Memory)
    requires WalkSide(c, m, e, n)
    ensures n.gone ==
      if e.EntryRead? then (if e.entry.Gone? then Some((e.pool, e.account)) else None) else m.gone
  {
    if !e.TickBegan? && !e.RowsRead? && !e.EntryRead? && !e.RowDeleted? && !e.RowRecorded? { RestStays(c, m, e, n); }
  }

  lemma {:induction false} GoneIsTheLastEntry(c: Config, r: Run)
    requires Kept(c, r)
    ensures Now(r).gone.Some? ==>
      LastEntry(r) == Some(EntryRead(Now(r).gone.value.0, Now(r).gone.value.1, Gone))
  {
    if r.Then? {
      KeptPast(c, r);
      GoneIsTheLastEntry(c, r.past);
      WalkSideOf(c, Now(r.past), r.event);
      GoneStep(c, Now(r.past), r.event, Now(r));
    }
  }

  /** A row is closed only when the chain has just answered that it holds no entry for it. */
  lemma ClosedOnlyWhenGone(c: Config, r: Run, s: Run)
    requires Kept(c, r) && Moment(s, r) && s.Then? && s.event.RowDeleted?
    ensures LastEntry(s.past) == Some(EntryRead(s.event.pool, s.event.account, Gone))
  {
    KeptMoment(c, s, r);
    KeptPast(c, s);
    GoneIsTheLastEntry(c, s.past);
  }

  // ----- skips, once per auction and reason -------------------------------

  /** The skip an event decides, keyed by the row before the entry was read and by the entry after. */
  function SkipOf(c: Config, m: Memory, e: Event): Option<SkipKey> {
    match e
    case RowWalked(pool, row, _) =>
      if Unsupported(c, pool, row) then Some(SkipKey(row.pool, row.account, row.start, LabelUnsupported)) else None
    case FillPlanned(row, auction, _, planned) =>
      if m.walk.Walk? && planned.Declined?
      then Some(SkipKey(row.pool, row.account, auction.block, LabelOf(planned.reason))) else None
    case FeeUncomputed(row) => OfDraft(m, LabelContractError)
    case SpendRefused(row) => OfDraft(m, LabelUnfunded)
    case FillReturned(_, account, filled) =>
      if filled.Refused? || (filled.Replan? && m.Tries(account) > 1) then OfDraft(m, LabelContractError) else None
    case _ => None
  }

  function OfDraft(m: Memory, reason: SkipLabel): Option<SkipKey> {
    if m.walk.NoWalk? || m.walk.draft.None? then None
    else
      var d := m.walk.draft.value;
      Some(SkipKey(d.row.pool, d.row.account, d.auction.block, reason))
  }

  /** The pool's open rows no longer name the auction. */
  ghost predicate ForgetsSkip(e: Event, key: SkipKey) {
    e.RowsRead? && e.pool == key.pool && !NamedBy(e.rows, key.account, key.start)
  }

  /** Decided, and not forgotten since. */
  ghost predicate Decided(c: Config, r: Run, key: SkipKey) {
    r.Then? &&
    (SkipOf(c, Now(r.past), r.event) == Some(key) || (Decided(c, r.past, key) && !ForgetsSkip(r.event, key)))
  }

  /** How many decisions for `reason` were new when they were made. */
  ghost function Decisions(c: Config, r: Run, reason: SkipLabel): nat {
    if r.Start? then 0
    else
      var skip := SkipOf(c, Now(r.past), r.event);
      Decisions(c, r.past, reason)
        + (if skip.Some? && skip.value.reason == reason && !Decided(c, r.past, skip.value) then 1 else 0)
  }

  lemma CountedStep(c: Config, m: Memory, f: Flight, e: Event, n: Memory, key: SkipKey)
    requires SkipSide(c, m, e, n) && Allowed(c, m, f, e) && !e.RowsRead?
    ensures key in n.mind.counted <==> SkipOf(c, m, e) == Some(key) || key in m.mind.counted
  {
  }

  lemma CountedPruned(m: Memory, pool: Pool, rows: seq<Row>, key: SkipKey)
    requires UniqueAccounts(rows)
    ensures key in Pruned(m, pool, rows).mind.counted <==>
      key in m.mind.counted && !ForgetsSkip(RowsRead(pool, rows), key)
  {
    OpenStartsName(rows, key.account, key.start);
  }

  lemma TotalsStep(c: Config, m: Memory, f: Flight, e: Event, n: Memory)
    requires SkipSide(c, m, e, n) && Allowed(c, m, f, e)
    ensures n.skipTotals ==
      var skip := SkipOf(c, m, e);
      if skip.Some? && skip.value !in m.mind.counted then m.skipTotals + multiset{skip.value.reason} else m.skipTotals
  {
  }

  /** Each reason's counter grows by the decisions that are new to what is counted. */
  lemma CounterStep(c: Config, m: Memory, f: Flight, e: Event, n: Memory, reason: SkipLabel)
    requires SkipSide(c, m, e, n) && Allowed(c, m, f, e)
    ensures
      var skip := SkipOf(c, m, e);
      n.skipTotals[reason] == m.skipTotals[reason]
        + (if skip.Some? && skip.value.reason == reason && skip.value !in m.mind.counted then 1 else 0)
  {
    TotalsStep(c, m, f, e, n);
  }

  lemma {:induction false} CountedIsDecided(c: Config, r: Run, key: SkipKey)
    requires Kept(c, r)
    ensures key in Now(r).mind.counted <==> Decided(c, r, key)
  {
    if r.Then? {
      KeptPast(c, r);
      CountedIsDecided(c, r.past, key);
      SkipSideOf(c, Now(r.past), r.event);
      if r.event.RowsRead? { CountedPruned(Now(r.past), r.event.pool, r.event.rows, key); }
      else { CountedStep(c, Now(r.past), Aloft(r.past), r.event, Now(r), key); }
    }
  }

  /** Each reason's counter is the number of decisions new when made: decisions, not ticks. */
  lemma {:induction false} SkipsCountDecisions(c: Config, r: Run, reason: SkipLabel)
    requires Kept(c, r)
    ensures Now(r).skipTotals[reason] == Decisions(c, r, reason)
  {
    if r.Then? {
      KeptPast(c, r);
      SkipsCountDecisions(c, r.past, reason);
      SkipSideOf(c, Now(r.past), r.event);
      CounterStep(c, Now(r.past), Aloft(r.past), r.event, Now(r), reason);
      var skip := SkipOf(c, Now(r.past), r.event);
      if skip.Some? { CountedIsDecided(c, r.past, skip.value); }
    }
  }

  /**
   A skip keyed by the chain's entry outlives every read of the pool's rows
   that still lists a liquidation of the account no younger than that entry:
   a lagging row, and the row that has caught up, keep it counted.
   */
  lemma LaggingRowKeepsTheSkip(c: Config, r: Run, s: Run, key: SkipKey, row: Row)
    requires Kept(c, r) && Moment(s, r) && s.Then? && s.event.RowsRead? && s.event.pool == key.pool
    requires row in s.event.rows && row.userLiquidation && row.account == key.account && row.start <= key.start
    requires key in Now(s.past).mind.counted
    ensures key in Now(s).mind.counted
  {
    KeptMoment(c, s, r);
    CountedIsDecided(c, s, key);
    KeptPast(c, s);
    CountedIsDecided(c, s.past, key);
  }
}
