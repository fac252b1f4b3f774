/**
 The wallet over whole runs: what the reads cover and what was paid since the
 last one.
 */
module Wallets {
  import opened Types
  import opened Machine
  import opened Runs

  /** What an event read of the wallet, if it read it. */
  function ReadOf(e: Event): Option<Amounts> {
    if e.BalancesRead? then e.balances else None
  }

  /** The last read that succeeded; before any, the wallet shows nothing. */
  function LastRead(r: Run): Amounts {
    if r.Start? then map[] else if ReadOf(r.event).Some? then ReadOf(r.event).value else LastRead(r.past)
  }

  /** What an event paid of `asset`: the claim of a fill or an unwind that landed or may have. */
  function PaidBy(e: Event, asset: Asset): int {
    match e
    case FillEnqueued(_, _, spend, answer) => if LandedAnswer(answer) then Amount(spend, asset) else 0
    case UnwindEnqueued(_, _, _, spend, answer) => if LandedAnswer(answer) then Amount(spend, asset) else 0
    case _ => 0
  }

  /** What was paid of `asset` since the last read. */
  function PaidSince(r: Run, asset: Asset): int {
    if r.Start? || ReadOf(r.event).Some? then 0 else PaidSince(r.past, asset) + PaidBy(r.event, asset)
  }

  lemma SpentIsSubtracted(c: Config, wallet: Amounts, spend: Amounts, asset: Asset)
    requires Funded(c, wallet, spend)
    ensures Amount(Spent(wallet, spend), asset) == Amount(wallet, asset) - Amount(spend, asset)
    ensures asset in spend ==> Amount(Spent(wallet, spend), asset) >= if asset == c.native then c.feeReserve else 0
    ensures Amount(spend, asset) >= 0
  {
    if asset in spend {
      assert spend[asset] > 0 && Amount(wallet, asset) > 0;
    }
  }

  /** Everything an event paid had been claimed, and is funded by the wallet it is paid from. */
  lemma PaidIsFunded(c: Config, m: Memory, f: Flight, e: Event)
    requires Sound(c, m, f) && Allowed(c, m, f, e)
    ensures e.FillEnqueued? ==> Funded(c, m.wallet, e.spend)
    ensures e.UnwindEnqueued? ==> Funded(c, m.wallet, e.spend)
  {
  }

  lemma WalletStep(c: Config, m: Memory, f: Flight, e: Event, n: Memory, asset: Asset)
    requires Sound(c, m, f) && Allowed(c, m, f, e) && WalletSide(m, e, n)
    ensures Amount(n.wallet, asset) ==
      if ReadOf(e).Some? then Amount(ReadOf(e).value, asset) else Amount(m.wallet, asset) - PaidBy(e, asset)
    ensures PaidBy(e, asset) > 0 ==> Amount(n.wallet, asset) >= if asset == c.native then c.feeReserve else 0
    ensures PaidBy(e, asset) >= 0
  {
    PaidIsFunded(c, m, f, e);
    if e.FillEnqueued? && LandedAnswer(e.answer) { SpentIsSubtracted(c, m.wallet, e.spend, asset); }
    if e.UnwindEnqueued? && LandedAnswer(e.answer) { SpentIsSubtracted(c, m.wallet, e.spend, asset); }
  }

  /**
   Conservation: the wallet shows its last read less exactly what fills and
   unwinds that landed, or may have, claimed since.
   */
  lemma {:induction false} WalletIsConserved(c: Config, r: Run, asset: Asset)
    requires Kept(c, r)
    ensures Amount(Now(r).wallet, asset) == Amount(LastRead(r), asset) - PaidSince(r, asset)
    ensures PaidSince(r, asset) >= 0
  {
    if r.Then? {
      KeptPast(c, r);
      KeptIsSound(c, r.past);
      WalletIsConserved(c, r.past, asset);
      WalletSideOf(c, Now(r.past), r.event);
      WalletStep(c, Now(r.past), Aloft(r.past), r.event, Now(r), asset);
    }
  }

  /** No payment takes an asset below what must stand: the fee reserve for the native one, nothing for others. */
  lemma PaymentsLeaveTheFeeReserve(c: Config, r: Run, s: Run, asset: Asset)
    requires Kept(c, r) && Moment(s, r) && s.Then? && PaidBy(s.event, asset) > 0
    ensures Amount(Now(s).wallet, asset) >= if asset == c.native then c.feeReserve else 0
  {
    KeptMoment(c, s, r);
    KeptPast(c, s);
    KeptIsSound(c, s.past);
    WalletSideOf(c, Now(s.past), s.event);
    WalletStep(c, Now(s.past), Aloft(s.past), s.event, Now(s), asset);
  }

  // ----- coverage ---------------------------------------------------------

  /** What the wallet covers is exactly what the last successful read asked for. */
  lemma {:induction false} CoverageIsTheLastRead(c: Config, r: Run)
    requires Kept(c, r)
    ensures Now(r).mind.covered == LastRead(r).Keys
  {
    if r.Then? {
      KeptPast(c, r);
      CoverageIsTheLastRead(c, r.past);
      WalletSideOf(c, Now(r.past), r.event);
    }
  }

  /** And it never shrinks: no pool's read blanks another's balances. */
  lemma {:induction false} CoverageNeverShrinks(c: Config, r: Run, s: Run)
    requires Kept(c, r) && Moment(s, r)
    ensures LastRead(s).Keys <= LastRead(r).Keys
  {
    if s != r {
      KeptPast(c, r);
      CoverageNeverShrinks(c, r.past, s);
      CoverageIsTheLastRead(c, r.past);
    }
  }
}
