/**
 The auctioneer's percent walk: a plan's percent is put to the contract and
 moved one step at a time towards what the contract would accept.
 */
module Percents {
  import opened Types

  const INVALID_LIQ_TOO_LARGE := 1213
  const INVALID_LIQ_TOO_SMALL := 1214
  const AUCTION_IN_PROGRESS := 1212

  /** What one simulation of a percent came back with. */
  datatype Verdict =
    | Accepted
    | Refused(code: Option<u32>)
    | NeedsRestore
    | Unreachable

  /** A contract may answer the same percent differently at different attempts. */
  type Contract = (nat, Percent) -> Verdict

  /** How a walk ended: with a percent, with none, or with the chain unreadable. */
  datatype Ending =
    | Settled(percent: Percent, simulated: bool)
    | GivenUp(code: Option<u32>)
    | ChainFailed

  datatype Walked = Walked(ending: Ending, asked: seq<Percent>)

  /** The percent a refusal moves to, if it is one the walk adjusts for and the next is still a percent. */
  function Adjusted(percent: Percent, code: Option<u32>): Option<Percent> {
    if code == Some(INVALID_LIQ_TOO_SMALL) && percent < 100 then Some(percent + 1)
    else if code == Some(INVALID_LIQ_TOO_LARGE) && percent > 1 then Some(percent - 1)
    else None
  }

  /** The walk from `percent` at attempt `attempt`, with `left` attempts still to make. */
  function WalkFrom(contract: Contract, percent: Percent, attempt: nat, left: nat): Walked
    decreases left
  {
    if left == 0 then Walked(GivenUp(None), [])
    else
      match contract(attempt, percent)
      case Accepted => Walked(Settled(percent, true), [percent])
      case NeedsRestore => Walked(GivenUp(None), [percent])
      case Unreachable => Walked(ChainFailed, [percent])
      case Refused(code) =>
        match Adjusted(percent, code)
        case None => Walked(GivenUp(code), [percent])
        case Some(next) =>
          var rest := WalkFrom(contract, next, attempt + 1, left - 1);
          Walked(rest.ending, [percent] + rest.asked)
  }

  /** How a walk ends on one answer, if it does. */
  function EndsOn(percent: Percent, verdict: Verdict): Option<Ending> {
    match verdict
    case Accepted => Some(Settled(percent, true))
    case NeedsRestore => Some(GivenUp(None))
    case Unreachable => Some(ChainFailed)
    case Refused(code) => if Adjusted(percent, code).Some? then None else Some(GivenUp(code))
  }

  /** A whole walk is what it has asked so far, and then the rest of it. */
  predicate GoesOn(whole: Walked, asked: seq<Percent>, rest: Walked) {
    whole == Walked(rest.ending, asked + rest.asked)
  }

  /** One attempt: the walk ends on its answer, or goes on from the adjusted percent. */
  lemma AsksNext(contract: Contract, whole: Walked, asked: seq<Percent>, percent: Percent, attempt: nat, left: nat)
    requires left > 0 && GoesOn(whole, asked, WalkFrom(contract, percent, attempt, left))
    ensures var verdict := contract(attempt, percent);
      match EndsOn(percent, verdict)
      case Some(ending) => whole == Walked(ending, asked + [percent])
      case None =>
        GoesOn(whole, asked + [percent],
               WalkFrom(contract, Adjusted(percent, verdict.code).value, attempt + 1, left - 1))
  {
    if EndsOn(percent, contract(attempt, percent)).None? {
      var rest := WalkFrom(contract, Adjusted(percent, contract(attempt, percent).code).value, attempt + 1, left - 1);
      assert asked + ([percent] + rest.asked) == asked + [percent] + rest.asked;
    }
  }

  /**
   Walks a plan's percent to one the contract accepts. Without a key there
   is no account to ask as, and the plan's own percent stands unsimulated.
   A refusal that says the auction is already open asks for its adoption.
   */
  method AcceptPercent(signed: bool, percent: Percent, iterations: u32, contract: Contract)
    returns (ending: Ending, ghost asked: seq<Percent>, adopt: bool)
    ensures !signed ==> ending == Settled(percent, false) && asked == [] && !adopt
    ensures signed ==> Walked(ending, asked) == WalkFrom(contract, percent, 0, iterations)
    ensures adopt <==> ending == GivenUp(Some(AUCTION_IN_PROGRESS))
  {
    asked, adopt := [], false;
    if !signed { return Settled(percent, false), [], false; }
    ghost var whole := WalkFrom(contract, percent, 0, iterations);
    var at := percent;
    for attempt := 0 to iterations
      invariant !adopt && GoesOn(whole, asked, WalkFrom(contract, at, attempt, iterations - attempt))
    {
      AsksNext(contract, whole, asked, at, attempt, iterations - attempt);
      asked := asked + [at];
      match contract(attempt, at) {
        case Accepted => return Settled(at, true), asked, false;
        case NeedsRestore => return GivenUp(None), asked, false;
        case Unreachable => return ChainFailed, asked, false;
        case Refused(code) =>
          if code == Some(INVALID_LIQ_TOO_SMALL) {
            if at == 100 { return GivenUp(code), asked, false; }
            at := at + 1;
          } else if code == Some(INVALID_LIQ_TOO_LARGE) {
            if at == 1 { return GivenUp(code), asked, false; }
            at := at - 1;
          } else {
            return GivenUp(code), asked, code == Some(AUCTION_IN_PROGRESS);
          }
      }
    }
    ending := GivenUp(None);
  }

  /** Whatever the contract answers, at most `left` simulations, each of a percent one step from the last. */
  lemma {:induction false} WalksAreBounded(contract: Contract, percent: Percent, attempt: nat, left: nat)
    ensures var asked := WalkFrom(contract, percent, attempt, left).asked;
      && |asked| <= left && (left > 0 ==> asked != [] && asked[0] == percent)
      && (forall i, j :: 0 <= i < j < |asked| && j == i + 1 ==> Gap(asked[i], asked[j], asked[j]) == 1)
    decreases left
  {
    if left > 0 && contract(attempt, percent).Refused? {
      var adjusted := Adjusted(percent, contract(attempt, percent).code);
      if adjusted.Some? {
        WalksAreBounded(contract, adjusted.value, attempt + 1, left - 1);
      }
    }
  }

  /** A contract that accepts a band of percents, and says of every other which side of it it is on. */
  ghost predicate Bands(contract: Contract, lo: Percent, hi: Percent) {
    forall attempt: nat, percent: Percent :: contract(attempt, percent) ==
      if percent < lo then Verdict.Refused(Some(INVALID_LIQ_TOO_SMALL))
      else if percent > hi then Verdict.Refused(Some(INVALID_LIQ_TOO_LARGE))
      else Accepted
  }

  /** The accepted percent nearest to `percent`, and how far it is. */
  function Nearest(percent: Percent, lo: Percent, hi: Percent): Percent
    requires lo <= hi
  {
    if percent < lo then lo else if percent > hi then hi else percent
  }

  function Gap(percent: Percent, lo: Percent, hi: Percent): nat
    requires lo <= hi
  {
    if percent < lo then lo - percent else if percent > hi then percent - hi else 0
  }

  /**
   Against a band the walk settles exactly when the band is nearer than the
   attempts it has, on the nearest accepted percent, after one simulation
   more than the distance; otherwise it spends every attempt and gives up.
   */
  lemma {:induction false} WalkReachesTheBand(contract: Contract, percent: Percent, attempt: nat, left: nat,
                                              lo: Percent, hi: Percent)
    requires lo <= hi && Bands(contract, lo, hi)
    ensures var walked := WalkFrom(contract, percent, attempt, left); var gap := Gap(percent, lo, hi);
      && (walked.ending.Settled? <==> gap < left)
      && (gap < left ==> walked.ending == Settled(Nearest(percent, lo, hi), true) && |walked.asked| == gap + 1)
      && (gap >= left ==> walked.ending == GivenUp(None) && |walked.asked| == left)
    decreases left
  {
    if left > 0 {
      var verdict := contract(attempt, percent);
      if percent < lo {
        WalkReachesTheBand(contract, percent + 1, attempt + 1, left - 1, lo, hi);
      } else if percent > hi {
        WalkReachesTheBand(contract, percent - 1, attempt + 1, left - 1, lo, hi);
      }
    }
  }

  /** Only a percent the contract accepted is settled on with a key. */
  lemma {:induction false} SettledWasAccepted(contract: Contract, percent: Percent, attempt: nat, left: nat)
    requires WalkFrom(contract, percent, attempt, left).ending.Settled?
    ensures var walked := WalkFrom(contract, percent, attempt, left);
      && walked.ending.simulated && 1 <= |walked.asked|
      && walked.asked[|walked.asked| - 1] == walked.ending.percent
      && contract(attempt + |walked.asked| - 1, walked.ending.percent).Accepted?
    decreases left
  {
    if contract(attempt, percent).Refused? {
      SettledWasAccepted(contract, Adjusted(percent, contract(attempt, percent).code).value, attempt + 1, left - 1);
    }
  }

  /** And only a chain that could not be asked fails the walk. */
  lemma {:induction false} FailedWasUnreachable(contract: Contract, percent: Percent, attempt: nat, left: nat)
    requires WalkFrom(contract, percent, attempt, left).ending.ChainFailed?
    ensures var asked := WalkFrom(contract, percent, attempt, left).asked;
      asked != [] && contract(attempt + |asked| - 1, asked[|asked| - 1]).Unreachable?
    decreases left
  {
    if contract(attempt, percent).Refused? {
      FailedWasUnreachable(contract, Adjusted(percent, contract(attempt, percent).code).value, attempt + 1, left - 1);
    }
  }

  /** A walk that gave up was never accepted on the way. */
  lemma {:induction false} GivenUpWasNeverAccepted(contract: Contract, percent: Percent, attempt: nat, left: nat)
    requires WalkFrom(contract, percent, attempt, left).ending.GivenUp?
    ensures var asked := WalkFrom(contract, percent, attempt, left).asked;
      forall i :: 0 <= i < |asked| ==> !contract(attempt + i, asked[i]).Accepted?
    decreases left
  {
    if left > 0 && contract(attempt, percent).Refused? {
      var adjusted := Adjusted(percent, contract(attempt, percent).code);
      if adjusted.Some? {
        GivenUpWasNeverAccepted(contract, adjusted.value, attempt + 1, left - 1);
        var rest := WalkFrom(contract, adjusted.value, attempt + 1, left - 1).asked;
        var asked := WalkFrom(contract, percent, attempt, left).asked;
        forall i | 0 <= i < |asked| ensures !contract(attempt + i, asked[i]).Accepted? {
          if i > 0 { assert asked[i] == rest[i - 1] && !contract(attempt + 1 + (i - 1), rest[i - 1]).Accepted?; }
        }
      }
    }
  }

  predicate SaysInProgress(verdict: Verdict) { verdict == Verdict.Refused(Some(AUCTION_IN_PROGRESS)) }

  /** A walk ends for an auction already open exactly when the last it asked said so, and none before it did. */
  lemma {:induction false} InProgressEndsTheWalk(contract: Contract, percent: Percent, attempt: nat, left: nat)
    ensures var walked := WalkFrom(contract, percent, attempt, left);
      && (walked.ending == GivenUp(Some(AUCTION_IN_PROGRESS)) ==> walked.asked != [])
      && forall i :: 0 <= i < |walked.asked| ==>
           (SaysInProgress(contract(attempt + i, walked.asked[i])) <==>
              i == |walked.asked| - 1 && walked.ending == GivenUp(Some(AUCTION_IN_PROGRESS)))
    decreases left
  {
    if left > 0 && contract(attempt, percent).Refused? {
      var adjusted := Adjusted(percent, contract(attempt, percent).code);
      if adjusted.Some? {
        InProgressEndsTheWalk(contract, adjusted.value, attempt + 1, left - 1);
        var rest := WalkFrom(contract, adjusted.value, attempt + 1, left - 1);
        var walked := WalkFrom(contract, percent, attempt, left);
        forall i | 0 <= i < |walked.asked|
          ensures SaysInProgress(contract(attempt + i, walked.asked[i])) <==>
            i == |walked.asked| - 1 && walked.ending == GivenUp(Some(AUCTION_IN_PROGRESS))
        {
          if i > 0 { assert walked.asked[i] == rest.asked[i - 1] && attempt + i == attempt + 1 + (i - 1); }
        }
      }
    }
  }
}
