/** Evaluating a block neither makes nor loses money. */
module EvalMoney {
  import opened Options
  import opened AccountTotals
  import opened Accounts
  import opened Eval
  import opened Cow

  // ---------------------------------------------------------------- one step

  /** A way of adding up the money of all accounts at a level: changing one account changes
      the sum by that account's change. */
  ghost predicate AddsUp(total: Balances -> nat, level: nat) {
    forall b: Balances, a: Address, d: AccountData {:trigger total(b[a := d])} :: total(b[a := d]) + Of(b, a).Money(level) == total(b) + d.Money(level)
  }

  /** There is more money by delta, and no account is ahead of the level. */
  ghost predicate Conserved(total: Balances -> nat, delta: int, b: Balances, c: Balances, level: nat) {
    total(c) == total(b) + delta && Settled(c, level)
  }

  /** Applying the rewards that are due changes no one's money. */
  lemma RewardsApplied(d: AccountData, level: nat, delta: int)
    requires d.status.NotParticipating? || d.rewardsBase <= level
    ensures Available(d, level) == d.Money(level)
    ensures Payable(d, level, delta) ==> Adjusted(d, level, delta).Money(level) == Available(d, level) + delta
  {
  }

  lemma SettledAt(b: Balances, a: Address, level: nat)
    requires Settled(b, level)
    ensures Of(b, a).status.NotParticipating? || Of(b, a).rewardsBase <= level
  {
  }

  lemma SettledAfter(b: Balances, a: Address, level: nat, delta: int)
    requires Settled(b, level) && Payable(Of(b, a), level, delta)
    ensures Settled(Pay(b, a, level, delta), level)
  {
  }

  lemma OneHolds(total: Balances -> nat, b: Balances, a: Address, level: nat)
    requires AddsUp(total, level)
    ensures Of(b, a).Money(level) <= total(b)
  {
    ZeroHoldsNothing(level);
    assert total(b[a := ZERO]) + Of(b, a).Money(level) == total(b) + ZERO.Money(level);
  }

  /** Paying into or out of one account changes the sum by that amount. */
  lemma Adjusts(total: Balances -> nat, b: Balances, a: Address, level: nat, delta: int)
    requires AddsUp(total, level) && Settled(b, level) && total(b) + delta < UINT64
    ensures Payable(Of(b, a), level, delta) <==> Of(b, a).Money(level) + delta >= 0
    ensures Payable(Of(b, a), level, delta) ==> total(Pay(b, a, level, delta)) == total(b) + delta
  {
    var d := Of(b, a);
    SettledAt(b, a, level);
    RewardsApplied(d, level, delta);
    OneHolds(total, b, a, level);
    if Payable(d, level, delta) {
      var e := Adjusted(d, level, delta);
      assert total(b[a := e]) + d.Money(level) == total(b) + e.Money(level);
    }
  }

  lemma Credits(total: Balances -> nat, b: Balances, a: Address, level: nat, amount: nat)
    requires AddsUp(total, level) && Settled(b, level) && total(b) + amount < UINT64
    ensures Payable(Of(b, a), level, amount) && Conserved(total, amount, b, Pay(b, a, level, amount), level)
  {
    Adjusts(total, b, a, level, amount);
    SettledAfter(b, a, level, amount);
  }

  lemma Debits(total: Balances -> nat, b: Balances, a: Address, level: nat, amount: nat)
    requires AddsUp(total, level) && Settled(b, level) && total(b) < UINT64
    ensures Payable(Of(b, a), level, -(amount as int)) <==> amount <= Of(b, a).Money(level)
    ensures Payable(Of(b, a), level, -(amount as int)) ==> Conserved(total, -(amount as int), b, Pay(b, a, level, -(amount as int)), level)
  {
    Adjusts(total, b, a, level, -(amount as int));
    if Payable(Of(b, a), level, -(amount as int)) { SettledAfter(b, a, level, -(amount as int)); }
  }

  /** A transfer moves money and makes none; with all money in 64 bits it fails exactly
      when the sender, rewards included, has too little. */
  lemma TransferConserves(total: Balances -> nat, b: Balances, m: Task, level: nat)
    requires m.Transfer? && AddsUp(total, level) && Settled(b, level) && total(b) < UINT64
    ensures Paid(b, m, level).Some? <==> m.amount <= Of(b, m.from).Money(level)
    ensures Paid(b, m, level).Some? ==> Conserved(total, 0, b, Paid(b, m, level).value, level)
  {
    var out := -(m.amount as int);
    Debits(total, b, m.from, level, m.amount);
    if Payable(Of(b, m.from), level, out) {
      var b1 := Pay(b, m.from, level, out);
      Credits(total, b1, m.to, level, m.amount);
      PaidBy(b, b1, Pay(b1, m.to, level, m.amount), Of(b, m.from), Of(b1, m.to), m, level);
    }
  }

  lemma ReassignedConserves(total: Balances -> nat, b: Balances, a: Address, op: AssetOp, counter: nat, level: nat)
    requires AddsUp(total, level) && Settled(b, level) && Reassigned(op, counter, Of(b, a)).Some?
    ensures Conserved(total, 0, b, b[a := Reassigned(op, counter, Of(b, a)).value], level)
  {
    var d, e := Of(b, a), Reassigned(op, counter, Of(b, a)).value;
    SettledAt(b, a, level);
    assert e.Money(level) == d.Money(level);
    assert total(b[a := e]) + d.Money(level) == total(b) + e.Money(level);
  }

  lemma EnteredConserves(total: Balances -> nat, t: Table, p: Task, level: nat)
    requires AddsUp(total, level) && Settled(t.balances, level) && total(t.balances) < UINT64
    requires Entered(t, p, level).Some?
    ensures Conserved(total, 0, t.balances, Entered(t, p, level).value.balances, level)
  {
    match p
    case Transfer(_, _, _) => TransferConserves(total, t.balances, p, level);
    case Finish(op, _, _) =>
      match op
      case NoAsset =>
      case Allocate(a) => ReassignedConserves(total, t.balances, a, op, t.Counter(), level);
      case Destroy(i) => ReassignedConserves(total, t.balances, t.creators[i], op, t.Counter(), level);
  }

  lemma {:induction false} AllConserve(total: Balances -> nat, t: Table, ps: seq<Task>, level: nat)
    requires AddsUp(total, level) && Settled(t.balances, level) && total(t.balances) < UINT64
    ensures EnteredAll(t, ps, level).Some? ==> Conserved(total, 0, t.balances, EnteredAll(t, ps, level).value.balances, level)
  {
    if ps != [] {
      AllConserve(total, t, ps[..|ps| - 1], level);
      var u := EnteredAll(t, ps[..|ps| - 1], level);
      if u.Some? && Entered(u.value, ps[|ps| - 1], level).Some? { EnteredConserves(total, u.value, ps[|ps| - 1], level); }
    }
  }

  lemma {:induction false} GroupsConserve(total: Balances -> nat, t: Table, groups: seq<seq<Task>>, level: nat)
    requires AddsUp(total, level) && Settled(t.balances, level) && total(t.balances) < UINT64
    ensures Conserved(total, 0, t.balances, EnteredGroups(t, groups, level).balances, level)
  {
    if groups != [] {
      GroupsConserve(total, t, groups[..|groups| - 1], level);
      AllConserve(total, EnteredGroups(t, groups[..|groups| - 1], level), groups[|groups| - 1], level);
    }
  }

  // ---------------------------------------------------------------- blocks

  /** The money in all accounts at a level, deferred rewards included. */
  ghost function AllMoneyOf(b: Balances, level: nat): nat { Supply(BookAt(b, level)) }

  ghost function Total(level: nat): Balances -> nat { (b: Balances) => AllMoneyOf(b, level) }

  lemma MoneyAfterPut(b: Balances, a: Address, d: AccountData, level: nat)
    ensures AllMoneyOf(b[a := d], level) + Of(b, a).Money(level) == AllMoneyOf(b, level) + d.Money(level)
  {
    BookUpdate(b, a, d, level);
    InBook(b, level, a);
    SumUpdate(AllMoney, BookAt(b, level), a, d.At(level));
  }

  lemma TotalAddsUp(level: nat)
    ensures AddsUp(Total(level), level)
  {
    forall b: Balances, a: Address, d: AccountData
      ensures Total(level)(b[a := d]) + Of(b, a).Money(level) == Total(level)(b) + d.Money(level)
    {
      MoneyAfterPut(b, a, d, level);
    }
  }

  lemma SettledLater(b: Balances, level: nat, level': nat)
    requires Settled(b, level) && level <= level'
    ensures Settled(b, level')
  {
  }

  lemma TotalGrowth(b: Balances, level: nat, level': nat, due: nat)
    requires Settled(b, level) && level <= level'
    requires due == Earned(TotalsOf(BookAt(b, level), level).RewardUnits(), level' - level)
    ensures Total(level')(b) == AllMoneyOf(b, level) + due
  {
    SupplyGrowth(b, level, level');
  }

  lemma Withdraws(total: Balances -> nat, b: Balances, pool: Address, due: nat, level: nat, x: nat)
    requires AddsUp(total, level) && Settled(b, level) && total(b) == x + due && x < UINT64
    requires Payable(Of(b, pool), level, -(due as int))
    ensures Settled(Pay(b, pool, level, -(due as int)), level)
    ensures total(Pay(b, pool, level, -(due as int))) == x
  {
    Adjusts(total, b, pool, level, -(due as int));
    SettledAfter(b, pool, level, -(due as int));
  }

  /** All that leaves the pool is gained by the accounts at the higher level. */
  lemma WithdrawalConserves(b: Balances, pool: Address, due: nat, level: nat, level': nat)
    requires Settled(b, level) && level <= level' && AllMoneyOf(b, level) < UINT64
    requires due == Earned(TotalsOf(BookAt(b, level), level).RewardUnits(), level' - level)
    requires Payable(Of(b, pool), level', -(due as int))
    ensures Settled(Pay(b, pool, level', -(due as int)), level')
    ensures Total(level')(Pay(b, pool, level', -(due as int))) == AllMoneyOf(b, level)
  {
    TotalGrowth(b, level, level', due);
    TotalAddsUp(level');
    SettledLater(b, level, level');
    Withdraws(Total(level'), b, pool, due, level', AllMoneyOf(b, level));
  }

  lemma TableConserves(t: Table, groups: seq<seq<Task>>, level: nat, x: nat)
    requires Settled(t.balances, level) && Total(level)(t.balances) == x < UINT64
    ensures Total(level)(EnteredGroups(t, groups, level).balances) == x && Settled(EnteredGroups(t, groups, level).balances, level)
  {
    TotalAddsUp(level);
    GroupsConserve(Total(level), t, groups, level);
  }

  lemma DueIsEarned(b: Balances, totals: Totals, before: nat, level: nat)
    requires totals == TotalsOf(BookAt(b, before), before) && before <= level
    ensures totals.level == before && DueAt(totals, level) == Earned(TotalsOf(BookAt(b, before), before).RewardUnits(), level - before)
  {
  }

  lemma OpenedConserves(b: Balances, due: nat, pool: Address, before: nat, level: nat, t: Table, groups: seq<seq<Task>>)
    requires Settled(b, before) && before <= level && AllMoneyOf(b, before) < UINT64
    requires due == Earned(TotalsOf(BookAt(b, before), before).RewardUnits(), level - before)
    requires Payable(Of(b, pool), level, -(due as int)) && t.balances == Pay(b, pool, level, -(due as int))
    ensures Total(level)(EnteredGroups(t, groups, level).balances) == AllMoneyOf(b, before)
    ensures Settled(EnteredGroups(t, groups, level).balances, level)
  {
    WithdrawalConserves(b, pool, due, before, level);
    TableConserves(t, groups, level, AllMoneyOf(b, before));
  }

  lemma EvaluatedView(base: Base, totals: Totals, pool: Address, minBalance: nat, level: nat, groups: seq<seq<Task>>, due: nat, c: Balances)
    requires totals.level <= level && due == DueAt(totals, level) && Evaluated(base, totals, pool, minBalance, level, groups).Some?
    requires c == View(base, Evaluated(base, totals, pool, minBalance, level, groups).value)
    ensures Payable(Of(base.balances, pool), level, -(due as int))
    ensures c == EnteredGroups(Opening(base, pool, level, due), groups, level).balances
  {
    EvaluatedShown(base, totals, pool, minBalance, level, groups);
  }

  lemma OpeningConserves(base: Base, due: nat, pool: Address, before: nat, level: nat, groups: seq<seq<Task>>, c: Balances)
    requires Settled(base.balances, before) && before <= level && AllMoneyOf(base.balances, before) < UINT64
    requires due == Earned(TotalsOf(BookAt(base.balances, before), before).RewardUnits(), level - before)
    requires Payable(Of(base.balances, pool), level, -(due as int))
    requires c == EnteredGroups(Opening(base, pool, level, due), groups, level).balances
    ensures Total(level)(c) == AllMoneyOf(base.balances, before) && Settled(c, level)
  {
    OpenedConserves(base.balances, due, pool, before, level, Opening(base, pool, level, due), groups);
  }

  /** Evaluating any block leaves the sum of all money, at the new level and with deferred
      rewards, what it was at the old one. */
  lemma BlockConserves(base: Base, totals: Totals, pool: Address, minBalance: nat, level: nat, groups: seq<seq<Task>>)
    requires totals == TotalsOf(BookAt(base.balances, totals.level), totals.level) && totals.level <= level
    requires Settled(base.balances, totals.level) && AllMoneyOf(base.balances, totals.level) < UINT64
    requires Evaluated(base, totals, pool, minBalance, level, groups).Some?
    ensures var c := View(base, Evaluated(base, totals, pool, minBalance, level, groups).value);
      Total(level)(c) == AllMoneyOf(base.balances, totals.level) && Settled(c, level)
  {
    var before, due := totals.level, DueAt(totals, level);
    var c := View(base, Evaluated(base, totals, pool, minBalance, level, groups).value);
    EvaluatedView(base, totals, pool, minBalance, level, groups, due, c);
    DueIsEarned(base.balances, totals, before, level);
    OpeningConserves(base, due, pool, before, level, groups, c);
  }

  /** The totals of the round after an evaluated block, computed change by change in any
      order, are the sums over the new accounts; nothing overflows and the sum of all
      money is what it was. */
  lemma NoMoneyChanges(base: Base, totals: Totals, pool: Address, minBalance: nat, level: nat, groups: seq<seq<Task>>,
      ds: Deltas, order: seq<Address>)
    requires totals == TotalsOf(BookAt(base.balances, totals.level), totals.level) && totals.level <= level
    requires Settled(base.balances, totals.level)
    requires AllMoneyOf(base.balances, totals.level) + AllMoneyOf(base.balances, level) < UINT64
    requires Evaluated(base, totals, pool, minBalance, level, groups).Some?
    requires |Evaluated(base, totals, pool, minBalance, level, groups).value| == 1
    requires ds == Evaluated(base, totals, pool, minBalance, level, groups).value[0].accts
    requires Distinct(order) && Taken(order) == MovesAt(ds, level).Keys
    ensures ShiftedAll(Rewarded(Tally(totals, false), level), MovesAt(ds, level), order) ==
      Tally(TotalsOf(BookAt(Applied(base.balances, ds), level), level), false)
    ensures TotalsOf(BookAt(Applied(base.balances, ds), level), level).All() == totals.All()
  {
    EvaluatedChanges(base, totals, pool, minBalance, level, groups);
    BlockConserves(base, totals, pool, minBalance, level, groups);
    var c := Applied(base.balances, ds);
    assert Total(level)(c) == AllMoneyOf(c, level);
    NewTotalsExact(base.balances, totals.level, ds, level, order);
    AllIsSupply(BookAt(c, level), level);
    AllIsSupply(BookAt(base.balances, totals.level), totals.level);
  }
}
