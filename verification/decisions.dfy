/**
 The auctioneer's batch decision: one snapshot for every borrower that needs
 one, each borrower decided on its own, and slots filled out of order that
 read as the plain ordered map.
 */
module Decisions {
  import opened Types
  import opened FixedPoint

  const SCALAR_7 := 10_000_000

  datatype SkipReason = OwnAccount | AuctionOpen | NoLiabilities | Healthy | NoPlan

  datatype LiquidationPlan = LiquidationPlan(percent: Percent, bid: seq<Asset>, lot: seq<Asset>)

  datatype Decision = Skip(reason: SkipReason) | BadDebt | Liquidate(plan: LiquidationPlan)

  datatype DecideError = StoreLost | ChainFailed | MathFailed

  datatype Judged = Decided(decision: Decision) | Undecided(error: DecideError)

  /** A borrower's position as the snapshot values it, in the oracle's scale. */
  datatype PositionData = PositionData(collateralBase: int, collateralRaw: int, liabilityBase: int, scalar: int) {
    predicate Valid() {
      Fits(collateralBase) && Fits(collateralRaw) && Fits(liabilityBase) && Fits(scalar)
    }
  }

  /** What the world answers about one borrower, each part only where the decision gets that far. */
  datatype View = View(
    auctionOpen: Option<bool>,
    position: Option<Option<PositionData>>,
    listed: bool,
    plan: Option<Option<LiquidationPlan>>)
  {
    predicate Valid() { position.Some? && position.value.Some? ==> position.value.value.Valid() }
  }

  predicate IsOwnAccount(pool: Pool, own: set<Account>, account: Account) {
    account == pool || account in own
  }

  /** The health factor in 7 decimals, rounded down twice as the tracker stores it. */
  function Normalized(data: PositionData): Computed
    requires data.Valid() && data.liabilityBase != 0
  {
    match DivFloor(data.collateralBase, data.liabilityBase, data.scalar)
    case Failure(error) => Failure(error)
    case Value(health) =>
      DivFloorFits(data.collateralBase, data.liabilityBase, data.scalar);
      MulDiv(health, SCALAR_7, data.scalar, Floor)
  }

  lemma DivFloorFits(x: int, y: int, denominator: int)
    requires Fits(x) && Fits(y) && Fits(denominator)
    ensures DivFloor(x, y, denominator).Value? ==> Fits(DivFloor(x, y, denominator).value)
  {
    MulDivIsExact(x, denominator, y, Floor);
  }

  function DecideOne(pool: Pool, own: set<Account>, threshold: int, account: Account, view: View): Judged
    requires view.Valid()
  {
    if IsOwnAccount(pool, own, account) then Decided(Skip(OwnAccount))
    else if view.auctionOpen.None? then Undecided(StoreLost)
    else if view.auctionOpen.value then Decided(Skip(AuctionOpen))
    else if view.position.None? then Undecided(ChainFailed)
    else if view.position.value.None? then Decided(Skip(NoLiabilities))
    else
      var data := view.position.value.value;
      if data.liabilityBase > 0 && data.collateralRaw == 0 then Decided(BadDebt)
      else if data.liabilityBase == 0 then Decided(Skip(NoLiabilities))
      else
        match Normalized(data)
        case Failure(_) => Undecided(MathFailed)
        case Value(health) =>
          if health > threshold then Decided(Skip(Healthy))
          else if !view.listed then Decided(Skip(NoLiabilities))
          else
            match view.plan
            case None => Undecided(MathFailed)
            case Some(None) => Decided(Skip(NoPlan))
            case Some(Some(plan)) => Decided(Liquidate(plan))
  }

  /**
   Rounding never hides a borrower: one whose collateral is worth no more
   than the threshold's share of its debt is not skipped as healthy.
   */
  lemma RoundingNeverHidesABorrower(pool: Pool, own: set<Account>, threshold: int, account: Account, view: View,
                                    data: PositionData)
    requires view.Valid() && view.position == Some(Some(data)) && data.liabilityBase > 0 && data.scalar > 0
    requires data.collateralBase * SCALAR_7 < (threshold + 1) * data.liabilityBase
    ensures DecideOne(pool, own, threshold, account, view) != Decided(Skip(Healthy))
  {
    var c, l, s := data.collateralBase, data.liabilityBase, data.scalar;
    var first := DivFloor(c, l, s);
    MulDivIsExact(c, s, l, Floor);
    if first.Value? {
      var h := first.value;
      assert h * l <= c * s;
      MulDivIsExact(h, SCALAR_7, s, Floor);
      var second := MulDiv(h, SCALAR_7, s, Floor);
      if second.Value? {
        var n := second.value;
        assert n * s <= h * SCALAR_7;
        TwoFloors(n, h, c, l, s, threshold);
      }
    }
  }

  lemma TwoFloors(n: int, h: int, c: int, l: int, s: int, threshold: int)
    requires 0 < l && 0 < s && h * l <= c * s && n * s <= h * SCALAR_7
    requires c * SCALAR_7 < (threshold + 1) * l
    ensures n <= threshold
  {
    calc {
      n * (l * s);
      == (n * s) * l;
      <= { Scales(n * s, h * SCALAR_7, l); }
      (h * SCALAR_7) * l;
      == (h * l) * SCALAR_7;
      <= { Scales(h * l, c * s, SCALAR_7); }
      (c * s) * SCALAR_7;
      == (c * SCALAR_7) * s;
      <= { Scales(c * SCALAR_7, (threshold + 1) * l - 1, s); }
      ((threshold + 1) * l - 1) * s;
      < (threshold + 1) * (l * s);
    }
    Cancels(n, threshold + 1, l * s);
  }

  lemma Scales(a: int, b: int, m: int)
    requires a <= b && 0 <= m
    ensures a * m <= b * m
  {
    assert (b - a) * m >= 0;
  }

  lemma Cancels(a: int, b: int, m: int)
    requires a * m < b * m && 0 < m
    ensures a < b
  {
    if a >= b { Scales(b, a, m); }
  }

  // ----- the batch --------------------------------------------------------

  datatype Batch = Batch(decisions: seq<(Account, Decision)>) | Lost(error: DecideError)

  /** A batch's world: whether its one snapshot could be read and accrued, and each user's view in it. */
  datatype Scene = Scene(snapshot: bool, accrues: bool, views: seq<View>)

  ghost predicate Fitting(users: seq<Account>, scene: Scene) {
    |scene.views| == |users| && forall i :: 0 <= i < |users| ==> scene.views[i].Valid()
  }

  /** The ordered map: each user's own decision, in the order given, less those that failed alone. */
  function Each(pool: Pool, own: set<Account>, threshold: int, users: seq<Account>, views: seq<View>)
    : seq<(Account, Decision)>
    requires |views| == |users| && forall i :: 0 <= i < |users| ==> views[i].Valid()
    decreases |users|
  {
    if users == [] then []
    else
      var judged := DecideOne(pool, own, threshold, users[0], views[0]);
      (if judged.Decided? then [(users[0], judged.decision)] else [])
      + Each(pool, own, threshold, users[1..], views[1..])
  }

  /** The accounts a batch reads: every user that is not the bot's own, in order. */
  function Read(pool: Pool, own: set<Account>, users: seq<Account>): seq<Account>
    decreases |users|
  {
    if users == [] then []
    else (if IsOwnAccount(pool, own, users[0]) then [] else [users[0]]) + Read(pool, own, users[1..])
  }

  /** The store was lost over some user, the one failure that is not that user's alone. */
  ghost predicate LosesTheStore(pool: Pool, own: set<Account>, threshold: int, users: seq<Account>, views: seq<View>)
    requires |views| == |users| && forall i :: 0 <= i < |users| ==> views[i].Valid()
  {
    exists i :: 0 <= i < |users| && DecideOne(pool, own, threshold, users[i], views[i]) == Undecided(StoreLost)
  }

  /** The map, unless the snapshot failed or the store was lost over some user. */
  ghost function BatchOf(pool: Pool, own: set<Account>, threshold: int, users: seq<Account>, scene: Scene): Batch
    requires Fitting(users, scene)
  {
    if !scene.snapshot then Lost(ChainFailed)
    else if !scene.accrues then Lost(MathFailed)
    else if LosesTheStore(pool, own, threshold, users, scene.views) then Lost(StoreLost)
    else Batch(Each(pool, own, threshold, users, scene.views))
  }

  /** Own accounts are never read, and everyone else is. */
  lemma {:induction false} OwnAccountsAreNeverRead(pool: Pool, own: set<Account>, users: seq<Account>, account: Account)
    ensures account in Read(pool, own, users) <==> account in users && !IsOwnAccount(pool, own, account)
    decreases |users|
  {
    if users != [] {
      OwnAccountsAreNeverRead(pool, own, users[1..], account);
      assert users == [users[0]] + users[1..];
    }
  }

  /** The slots, flattened: what is filled, in order. */
  function Filled(slots: seq<Option<(Account, Decision)>>): seq<(Account, Decision)>
    decreases |slots|
  {
    if slots == [] then []
    else
      var last := slots[|slots| - 1];
      Filled(slots[..|slots| - 1]) + (if last.Some? then [last.value] else [])
  }

  /** A slot that holds each user's own decision reads as the ordered map. */
  lemma {:induction false} SlotsAreTheMap(pool: Pool, own: set<Account>, threshold: int, users: seq<Account>,
                                          views: seq<View>, slots: seq<Option<(Account, Decision)>>)
    requires |views| == |users| == |slots| && forall i :: 0 <= i < |users| ==> views[i].Valid()
    requires forall i :: 0 <= i < |users| ==> slots[i] == SlotOf(pool, own, threshold, users[i], views[i])
    ensures Filled(slots) == Each(pool, own, threshold, users, views)
    decreases |users|
  {
    if users != [] {
      SlotsAreTheMap(pool, own, threshold, users[1..], views[1..], slots[1..]);
      FilledFromTheFront(slots);
    }
  }

  lemma {:induction false} FilledFromTheFront(slots: seq<Option<(Account, Decision)>>)
    requires slots != []
    ensures Filled(slots) == (if slots[0].Some? then [slots[0].value] else []) + Filled(slots[1..])
    decreases |slots|
  {
    if |slots| > 1 {
      var front := slots[..|slots| - 1];
      FilledFromTheFront(front);
      assert slots[1..][..|slots| - 2] == front[1..];
    }
  }

  function SlotOf(pool: Pool, own: set<Account>, threshold: int, account: Account, view: View)
    : Option<(Account, Decision)>
    requires view.Valid()
  {
    var judged := DecideOne(pool, own, threshold, account, view);
    if judged.Decided? then Some((account, judged.decision)) else None
  }

  /**
   Decides a batch: own accounts at once, the rest against one snapshot read
   for exactly them, each in its own slot.
   */
  method Decide(pool: Pool, own: set<Account>, threshold: int, users: seq<Account>, scene: Scene)
    returns (batch: Batch, read: Option<seq<Account>>)
    requires Fitting(users, scene)
    ensures read == if Read(pool, own, users) == [] then None else Some(Read(pool, own, users))
    ensures read.None? ==> batch == Batch(Each(pool, own, threshold, users, scene.views))
    ensures read.Some? ==> batch == BatchOf(pool, own, threshold, users, scene)
  {
    var slots := new Option<(Account, Decision)>[|users|](_ => None);
    var pending, accounts := SortOut(pool, own, users, slots);
    if pending == [] {
      SlotsAreTheMap(pool, own, threshold, users, scene.views, slots[..]);
      var decisions := Flatten(slots);
      return Batch(decisions), None;
    }
    read := Some(accounts);
    if !scene.snapshot { return Lost(ChainFailed), read; }
    if !scene.accrues { return Lost(MathFailed), read; }
    var lost := JudgePending(pool, own, threshold, users, scene.views, pending, slots);
    if lost { return Lost(StoreLost), read; }
    SlotsAreTheMap(pool, own, threshold, users, scene.views, slots[..]);
    var decisions := Flatten(slots);
    batch := Batch(decisions);
  }

  /** Fills the slots of the bot's own accounts; the rest are pending, and are what the snapshot reads. */
  method SortOut(pool: Pool, own: set<Account>, users: seq<Account>, slots: array<Option<(Account, Decision)>>)
    returns (pending: seq<nat>, accounts: seq<Account>)
    requires slots.Length == |users| && forall i :: 0 <= i < |users| ==> slots[i] == None
    modifies slots
    ensures forall i :: 0 <= i < |users| ==>
      slots[i] == if IsOwnAccount(pool, own, users[i]) then Some((users[i], Skip(OwnAccount))) else None
    ensures Increasing(pending, |users|) && |pending| == |accounts| && accounts == Read(pool, own, users)
    ensures forall i :: 0 <= i < |users| ==> (i in pending <==> !IsOwnAccount(pool, own, users[i]))
  {
    pending, accounts := [], [];
    for i := 0 to |users|
      invariant forall j :: 0 <= j < i ==>
        slots[j] == if IsOwnAccount(pool, own, users[j]) then Some((users[j], Skip(OwnAccount))) else None
      invariant forall j :: i <= j < |users| ==> slots[j] == None
      invariant Increasing(pending, i) && |pending| == |accounts|
      invariant forall j :: 0 <= j < i ==> (j in pending <==> !IsOwnAccount(pool, own, users[j]))
      invariant accounts == Read(pool, own, users[..i])
    {
      ReadOneMore(pool, own, users, i);
      if IsOwnAccount(pool, own, users[i]) {
        slots[i] := Some((users[i], Skip(OwnAccount)));
      } else {
        pending := pending + [i];
        accounts := accounts + [users[i]];
      }
    }
    assert users[..|users|] == users;
  }

  /** Judges the pending users one by one, until one loses the store. */
  method JudgePending(pool: Pool, own: set<Account>, threshold: int, users: seq<Account>, views: seq<View>,
                      pending: seq<nat>, slots: array<Option<(Account, Decision)>>)
    returns (lost: bool)
    requires |views| == |users| == slots.Length && forall i :: 0 <= i < |users| ==> views[i].Valid()
    requires Increasing(pending, |users|)
    requires forall i :: 0 <= i < |users| ==> (i in pending <==> !IsOwnAccount(pool, own, users[i]))
    requires forall i :: 0 <= i < |users| ==>
      slots[i] == if IsOwnAccount(pool, own, users[i]) then Some((users[i], Skip(OwnAccount))) else None
    modifies slots
    ensures lost <==> LosesTheStore(pool, own, threshold, users, views)
    ensures !lost ==>
      forall i :: 0 <= i < |users| ==> slots[i] == SlotOf(pool, own, threshold, users[i], views[i])
  {
    for k := 0 to |pending|
      invariant forall i :: 0 <= i < |users| ==>
        slots[i] == if i in pending[k..] then None else SlotOf(pool, own, threshold, users[i], views[i])
      invariant forall i :: 0 <= i < |users| && i !in pending[k..] ==>
        DecideOne(pool, own, threshold, users[i], views[i]) != Undecided(StoreLost)
    {
      var i := pending[k];
      assert pending[k..] == [i] + pending[k + 1..];
      assert i !in pending[k + 1..];
      match DecideOne(pool, own, threshold, users[i], views[i]) {
        case Decided(decision) => slots[i] := Some((users[i], decision));
        case Undecided(error) =>
          if error.StoreLost? { return true; }
      }
    }
    lost := false;
  }

  /** Slot numbers below `bound`, in order and no two the same. */
  ghost predicate Increasing(pending: seq<nat>, bound: nat) {
    && (forall k :: 0 <= k < |pending| ==> pending[k] < bound)
    && (forall j, k :: 0 <= j < k < |pending| ==> pending[j] < pending[k])
  }

  lemma {:induction false} ReadOneMore(pool: Pool, own: set<Account>, users: seq<Account>, i: nat)
    requires i < |users|
    ensures Read(pool, own, users[..i + 1]) ==
      Read(pool, own, users[..i]) + (if IsOwnAccount(pool, own, users[i]) then [] else [users[i]])
    decreases |users|
  {
    if i > 0 {
      ReadOneMore(pool, own, users[1..], i - 1);
      assert users[..i + 1][1..] == users[1..][..i] && users[..i][1..] == users[1..][..i - 1];
    }
  }

  method Flatten(slots: array<Option<(Account, Decision)>>) returns (decisions: seq<(Account, Decision)>)
    ensures decisions == Filled(slots[..])
  {
    decisions := [];
    for i := 0 to slots.Length
      invariant decisions == Filled(slots[..i])
    {
      assert slots[..i + 1][..i] == slots[..i];
      if slots[i].Some? { decisions := decisions + [slots[i].value]; }
    }
    assert slots[..slots.Length] == slots[..];
  }
}
