/** Account data with lazily applied rewards, and the changes a block makes to accounts. */
module Accounts {
  import opened Options
  import opened Weights
  import opened AccountTotals

  type AssetIndex = nat
  type Round = nat

  /** What some units earn over some levels: their product, added up level by level. */
  function Earned(units: nat, levels: nat): nat {
    if levels == 0 then 0 else Earned(units, levels - 1) + units
  }

  lemma {:induction false} EarnedIsProduct(units: nat, levels: nat)
    ensures Earned(units, levels) == units * levels
  {
    if levels > 0 { EarnedIsProduct(units, levels - 1); }
  }

  lemma {:induction false} EarnedSplits(units: nat, m: nat, n: nat)
    ensures Earned(units, m + n) == Earned(units, m) + Earned(units, n)
  {
    if n > 0 { EarnedSplits(units, m, n - 1); }
  }

  lemma {:induction false} EarnedAdds(u: nat, v: nat, n: nat)
    ensures Earned(u + v, n) == Earned(u, n) + Earned(v, n)
  {
    if n > 0 { EarnedAdds(u, v, n - 1); }
  }

  /** The field created holds the assets whose parameters are in the account; other stands
      for the key registration and asset holdings, and is zero when they are empty. */
  datatype AccountData = AccountData(
    status: Status,
    microAlgos: nat,
    rewardsBase: nat,
    rewarded: nat,
    created: set<AssetIndex>,
    other: nat)
  {
    /** Whole reward units. */
    function Units(): nat { microAlgos / 1_000_000 }

    /** The rewards that are due at a level but not yet in the balance. */
    function Due(level: nat): nat {
      if status.NotParticipating? || level <= rewardsBase then 0 else Earned(Units(), level - rewardsBase)
    }

    function Money(level: nat): nat { microAlgos + Due(level) }

    /** The account with all rewards due at a level put into its balance. */
    function WithRewards(level: nat): AccountData {
      if status.NotParticipating? then this
      else this.(microAlgos := Money(level), rewardsBase := level, rewarded := OAdd(rewarded, Due(level)).value)
    }

    function At(level: nat): Holding { Holding(status, Money(level), Units()) }
  }

  const ZERO := AccountData(Offline, 0, 0, 0, {}, 0)

  type Balances = map<Address, AccountData>

  function Of(b: Balances, a: Address): AccountData {
    if a in b then b[a] else ZERO
  }

  /** The same accounts, where an empty account need not have an entry. */
  ghost predicate Same(b: Balances, c: Balances) {
    forall a: Address :: Of(b, a) == Of(c, a)
  }

  function BookAt(b: Balances, level: nat): Book {
    map a | a in b :: b[a].At(level)
  }

  lemma ZeroHoldsNothing(level: nat)
    ensures ZERO.At(level) == NOTHING
  {
    EarnedIsProduct(0, level);
  }

  lemma InBook(b: Balances, level: nat, a: Address)
    ensures In(BookAt(b, level), a) == Of(b, a).At(level)
  {
    ZeroHoldsNothing(level);
  }

  lemma BookWhole(b: Balances, level: nat)
    ensures Whole(BookAt(b, level))
  {
  }

  lemma BookUpdate(b: Balances, a: Address, d: AccountData, level: nat)
    ensures BookAt(b[a := d], level) == BookAt(b, level)[a := d.At(level)]
  {
  }

  lemma SameBooks(b: Balances, c: Balances, level: nat)
    requires Same(b, c)
    ensures SameBook(BookAt(b, level), BookAt(c, level))
    ensures TotalsOf(BookAt(b, level), level) == TotalsOf(BookAt(c, level), level)
    ensures Supply(BookAt(b, level)) == Supply(BookAt(c, level))
  {
    var x, y := BookAt(b, level), BookAt(c, level);
    forall a: Address ensures In(x, a) == In(y, a) {
      InBook(b, level, a);
      InBook(c, level, a);
      assert Of(b, a) == Of(c, a);
    }
    forall p: Part ensures Sum(p, x) == Sum(p, y) { SumSame(p, x, y); }
  }

  // ---------------------------------------------------------------- rewards

  /** No account's rewards base is ahead of the level. */
  ghost predicate Settled(b: Balances, level: nat) {
    forall a :: a in b && !b[a].status.NotParticipating? ==> b[a].rewardsBase <= level
  }

  lemma RewardGrowth(d: AccountData, level: nat, level': nat)
    requires level <= level' && (!d.status.NotParticipating? ==> d.rewardsBase <= level)
    ensures d.Money(level') == d.Money(level) + if d.status.NotParticipating? then 0 else Earned(d.Units(), level' - level)
  {
    if !d.status.NotParticipating? { EarnedSplits(d.Units(), level - d.rewardsBase, level' - level); }
  }

  lemma PartGrowth(b: Balances, s: Status, level: nat, level': nat, a: Address)
    requires Settled(b, level) && level <= level' && s != NotParticipating && a in b
    ensures Value(MoneyOf(s), b[a].At(level')) == Value(MoneyOf(s), b[a].At(level)) + Earned(Value(UnitsOf(s), b[a].At(level)), level' - level)
  {
    RewardGrowth(b[a], level, level');
    EarnedIsProduct(0, level' - level);
  }

  lemma {:induction false} WeighEarned(w: Address -> nat, k: nat, x: Address -> nat, s: set<Address>)
    requires forall a :: a in s ==> x(a) == Earned(w(a), k)
    ensures Weigh(x, s) == Earned(Weigh(w, s), k)
    decreases k
  {
    if k == 0 {
      WeighSame(x, x, s, {});
    } else {
      var y: Address -> nat := (a: Address) => Earned(w(a), k - 1);
      WeighEarned(w, k - 1, y, s);
      WeighPlus(y, w, x, s);
    }
  }

  lemma WeighGrows(w: Address -> nat, k: nat, v: Address -> nat, x: Address -> nat, s: set<Address>)
    requires forall a :: a in s ==> x(a) == v(a) + Earned(w(a), k)
    ensures Weigh(x, s) == Weigh(v, s) + Earned(Weigh(w, s), k)
  {
    var gain: Address -> nat := (a: Address) => Earned(w(a), k);
    WeighEarned(w, k, gain, s);
    WeighPlus(v, gain, x, s);
  }

  /** Raising the level adds the same reward for every unit of a participating status. */
  lemma RewardsAreLinear(b: Balances, s: Status, level: nat, level': nat)
    requires Settled(b, level) && level <= level' && s != NotParticipating
    ensures Sum(MoneyOf(s), BookAt(b, level')) == Sum(MoneyOf(s), BookAt(b, level)) + Earned(Sum(UnitsOf(s), BookAt(b, level)), level' - level)
  {
    var x, y := BookAt(b, level), BookAt(b, level');
    forall a | a in b.Keys ensures Per(MoneyOf(s), y)(a) == Per(MoneyOf(s), x)(a) + Earned(Per(UnitsOf(s), x)(a), level' - level) {
      PartGrowth(b, s, level, level', a);
      assert In(x, a) == b[a].At(level) && In(y, a) == b[a].At(level');
    }
    WeighGrows(Per(UnitsOf(s), x), level' - level, Per(MoneyOf(s), x), Per(MoneyOf(s), y), b.Keys);
    assert x.Keys == b.Keys && y.Keys == b.Keys;
  }

  /** Units, and the money of accounts that do not participate, do not depend on the level. */
  lemma LevelFree(b: Balances, p: Part, level: nat, level': nat)
    requires p.UnitsOf? || p == MoneyOf(NotParticipating)
    ensures Sum(p, BookAt(b, level)) == Sum(p, BookAt(b, level'))
  {
    var x, y := BookAt(b, level), BookAt(b, level');
    forall a | a in b.Keys ensures Per(p, x)(a) == Per(p, y)(a) {
      assert In(x, a) == b[a].At(level) && In(y, a) == b[a].At(level');
    }
    assert x.Keys == b.Keys && y.Keys == b.Keys;
    WeighSame(Per(p, x), Per(p, y), b.Keys, b.Keys);
  }

  lemma RewardedFits(c: Count, k: nat, money: nat)
    requires money == c.money + Earned(c.units, k) && money < UINT64
    ensures RewardedCount(c, k) == Tracked(money, false)
  {
    EarnedIsProduct(c.units, k);
  }

  lemma RewardedCountExact(b: Balances, s: Status, level: nat, level': nat)
    requires Settled(b, level) && level <= level' && s != NotParticipating && Supply(BookAt(b, level')) < UINT64
    ensures RewardedCount(CountOf(BookAt(b, level), s), level' - level) == Tracked(CountOf(BookAt(b, level'), s).money, false)
    ensures CountOf(BookAt(b, level), s).units == CountOf(BookAt(b, level'), s).units
  {
    RewardsAreLinear(b, s, level, level');
    LevelFree(b, UnitsOf(s), level, level');
    BookWhole(b, level');
    CountBelowSupply(BookAt(b, level'), s);
    RewardedFits(CountOf(BookAt(b, level), s), level' - level, CountOf(BookAt(b, level'), s).money);
  }

  /** Raising the level of the totals gives the totals at the new level. */
  lemma RewardedExact(b: Balances, level: nat, level': nat)
    requires Settled(b, level) && level <= level' && Supply(BookAt(b, level')) < UINT64
    ensures Rewarded(Tally(TotalsOf(BookAt(b, level), level), false), level') == Tally(TotalsOf(BookAt(b, level'), level'), false)
  {
    RewardedCountExact(b, Online, level, level');
    RewardedCountExact(b, Offline, level, level');
    LevelFree(b, UnitsOf(NotParticipating), level, level');
    LevelFree(b, MoneyOf(NotParticipating), level, level');
  }

  /** The supply grows by what the totals say all units earn. */
  lemma SupplyGrowth(b: Balances, level: nat, level': nat)
    requires Settled(b, level) && level <= level'
    ensures Supply(BookAt(b, level')) == Supply(BookAt(b, level)) + Earned(TotalsOf(BookAt(b, level), level).RewardUnits(), level' - level)
  {
    var x := BookAt(b, level);
    AllByStatus(x);
    AllByStatus(BookAt(b, level'));
    StatusGrowth(b, level, level');
    EarnedAdds(Sum(UnitsOf(Online), x), Sum(UnitsOf(Offline), x), level' - level);
  }

  lemma StatusGrowth(b: Balances, level: nat, level': nat)
    requires Settled(b, level) && level <= level'
    ensures var x, y, k := BookAt(b, level), BookAt(b, level'), level' - level;
      && Sum(MoneyOf(Online), y) == Sum(MoneyOf(Online), x) + Earned(Sum(UnitsOf(Online), x), k)
      && Sum(MoneyOf(Offline), y) == Sum(MoneyOf(Offline), x) + Earned(Sum(UnitsOf(Offline), x), k)
      && Sum(MoneyOf(NotParticipating), y) == Sum(MoneyOf(NotParticipating), x)
  {
    RewardsAreLinear(b, Online, level, level');
    RewardsAreLinear(b, Offline, level, level');
    LevelFree(b, MoneyOf(NotParticipating), level, level');
  }

  // ---------------------------------------------------------------- the changes of a block

  datatype AccountDelta = AccountDelta(prior: AccountData, now: AccountData)

  type Deltas = map<Address, AccountDelta>

  /** Each change starts from the account as it was. */
  ghost predicate StartsFrom(b: Balances, ds: Deltas) {
    forall a :: a in ds ==> ds[a].prior == Of(b, a)
  }

  function Applied(b: Balances, ds: Deltas): Balances {
    map a | a in b.Keys + ds.Keys :: if a in ds then ds[a].now else b[a]
  }

  function MovesAt(ds: Deltas, level: nat): Moves {
    map a | a in ds :: Move(ds[a].prior.At(level), ds[a].now.At(level))
  }

  lemma AppliedBook(b: Balances, ds: Deltas, level: nat)
    requires StartsFrom(b, ds)
    ensures Truthful(BookAt(b, level), MovesAt(ds, level))
    ensures After(BookAt(b, level), MovesAt(ds, level)) == BookAt(Applied(b, ds), level)
  {
    var ms := MovesAt(ds, level);
    forall a | a in ms ensures ms[a].prior == In(BookAt(b, level), a) { InBook(b, level, a); }
  }

  /** What a new block does to the totals of the round before it. */
  method NewTotals(totals: Totals, ds: Deltas, level: nat) returns (t: Tally, ghost order: seq<Address>)
    ensures Distinct(order) && Taken(order) == MovesAt(ds, level).Keys
    ensures t == ShiftedAll(Rewarded(Tally(totals, false), level), MovesAt(ds, level), order)
  {
    t := Rewarded(Tally(totals, false), level);
    t, order := Tallied(t, MovesAt(ds, level));
  }

  /** For any changes that start from the accounts as they were, the incremental totals are
      the sums over the changed accounts at the new level, and no step overflows. */
  lemma NewTotalsExact(b: Balances, level: nat, ds: Deltas, level': nat, order: seq<Address>)
    requires Settled(b, level) && StartsFrom(b, ds) && level <= level'
    requires Supply(BookAt(b, level')) + Supply(BookAt(Applied(b, ds), level')) < UINT64
    requires Distinct(order) && Taken(order) == MovesAt(ds, level').Keys
    ensures ShiftedAll(Rewarded(Tally(TotalsOf(BookAt(b, level), level), false), level'), MovesAt(ds, level'), order)
         == Tally(TotalsOf(BookAt(Applied(b, ds), level'), level'), false)
  {
    RewardedExact(b, level, level');
    BookWhole(b, level');
    AppliedBook(b, ds, level');
    TalliedExact(BookAt(b, level'), MovesAt(ds, level'), order, level');
  }
}
