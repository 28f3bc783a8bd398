/** The totals of a round, kept up to date account by account with overflow tracking. */
module AccountTotals {
  import opened Options
  import opened Weights

  type Address = nat

  // ---------------------------------------------------------------- 64-bit arithmetic with a flag

  datatype Tracked = Tracked(value: nat, overflowed: bool)

  function OAdd(a: nat, b: nat): Tracked {
    if a + b < UINT64 then Tracked(a + b, false) else Tracked(a + b - UINT64, true)
  }

  function OSub(a: nat, b: nat): Tracked {
    if b <= a then Tracked(a - b, false) else Tracked((a - b) % UINT64, true)
  }

  function OMul(a: nat, b: nat): Tracked {
    if a * b < UINT64 then Tracked(a * b, false) else Tracked(0, true)
  }

  /** Wrapping around and comparing afterwards, as the code does, detects exactly the results
      that do not fit. */
  lemma WrappedAdd(a: nat, b: nat)
    requires a < UINT64 && b < UINT64
    ensures var res := (a + b) % UINT64; OAdd(a, b) == Tracked(res, res < a)
  {
    if a + b >= UINT64 { assert (a + b) % UINT64 == a + b - UINT64; }
  }

  lemma WrappedSub(a: nat, b: nat)
    requires a < UINT64 && b < UINT64
    ensures var res := (a - b) % UINT64; OSub(a, b) == Tracked(res, res > a)
  {
    if a < b { assert (a - b) % UINT64 == a - b + UINT64; }
  }

  lemma WrappedMul(a: nat, b: nat)
    requires a < UINT64 && 0 < b < UINT64
    ensures var c := (a * b) % UINT64; OMul(a, b) == if c / b != a then Tracked(0, true) else Tracked(c, false)
  {
    var c := (a * b) % UINT64;
    Quotient(c, a, b);
    if a * b >= UINT64 { assert c < a * b; }
  }

  lemma Quotient(c: nat, a: nat, b: nat)
    requires b > 0
    ensures c < a * b ==> c / b != a
    ensures c == a * b ==> c / b == a
  {
    var k := c / b;
    assert c == k * b + c % b;
    assert a - k >= 1 ==> (a - k) * b >= b;
    assert a - k <= -1 ==> (a - k) * b <= -(b as int);
    assert c == a * b ==> (a - k) * b == c % b;
  }

  // ---------------------------------------------------------------- what accounts hold

  datatype Status = Offline | Online | NotParticipating

  /** What an account counts for at the current reward level. */
  datatype Holding = Holding(status: Status, money: nat, units: nat)

  const NOTHING := Holding(Offline, 0, 0)

  type Book = map<Address, Holding>

  function In(b: Book, a: Address): Holding {
    if a in b then b[a] else NOTHING
  }

  /** The same holdings, where an empty one need not have an entry. */
  ghost predicate SameBook(b: Book, c: Book) {
    forall a: Address :: In(b, a) == In(c, a)
  }

  datatype Part = MoneyOf(s: Status) | UnitsOf(s: Status) | AllMoney

  function Value(p: Part, h: Holding): nat {
    match p
    case MoneyOf(s) => if h.status == s then h.money else 0
    case UnitsOf(s) => if h.status == s then h.units else 0
    case AllMoney => h.money
  }

  function Per(p: Part, b: Book): Address -> nat {
    (a: Address) => Value(p, In(b, a))
  }

  /** A part of every holding, added up. */
  ghost function Sum(p: Part, b: Book): nat {
    Weigh(Per(p, b), b.Keys)
  }

  lemma SumSame(p: Part, b: Book, c: Book)
    requires SameBook(b, c)
    ensures Sum(p, b) == Sum(p, c)
  {
    forall a: Address ensures Per(p, b)(a) == Per(p, c)(a) { assert In(b, a) == In(c, a); }
    WeighSame(Per(p, b), Per(p, c), b.Keys, c.Keys);
  }

  lemma SumUpdate(p: Part, b: Book, a: Address, h: Holding)
    ensures Sum(p, b[a := h]) + Value(p, In(b, a)) == Sum(p, b) + Value(p, h)
  {
    var c := b[a := h];
    var v, w := Per(p, b), Per(p, c);
    WeighRemove(w, c.Keys, a);
    assert w(a) == Value(p, In(c, a)) && In(c, a) == h;
    if a in b { WeighRemove(v, b.Keys, a); } else { assert b.Keys - {a} == b.Keys; }
    forall x | x in b.Keys - {a} ensures v(x) == w(x) { assert In(b, x) == In(c, x); }
    WeighSame(v, w, b.Keys - {a}, c.Keys - {a});
  }

  lemma SumPlus(p: Part, q: Part, o: Address -> nat, b: Book)
    requires forall a :: a in b ==> o(a) == Value(p, b[a]) + Value(q, b[a])
    ensures Weigh(o, b.Keys) == Sum(p, b) + Sum(q, b)
  {
    forall a | a in b.Keys ensures o(a) == Per(p, b)(a) + Per(q, b)(a) { assert In(b, a) == b[a]; }
    WeighPlus(Per(p, b), Per(q, b), o, b.Keys);
  }

  lemma AllByStatus(b: Book)
    ensures Sum(AllMoney, b) == Sum(MoneyOf(Online), b) + Sum(MoneyOf(Offline), b) + Sum(MoneyOf(NotParticipating), b)
  {
    var participating := (a: Address) => if In(b, a).status != NotParticipating then In(b, a).money else 0;
    SumPlus(MoneyOf(Online), MoneyOf(Offline), participating, b);
    forall a | a in b.Keys ensures Per(AllMoney, b)(a) == participating(a) + Per(MoneyOf(NotParticipating), b)(a) {
      assert In(b, a) == b[a];
    }
    WeighPlus(participating, Per(MoneyOf(NotParticipating), b), Per(AllMoney, b), b.Keys);
  }

  // ---------------------------------------------------------------- totals

  datatype Count = Count(money: nat, units: nat)

  datatype Totals = Totals(online: Count, offline: Count, idle: Count, level: nat)
  {
    function For(s: Status): Count {
      match s case Online => online case Offline => offline case NotParticipating => idle
    }

    function With(s: Status, c: Count): Totals {
      match s
      case Online => this.(online := c)
      case Offline => this.(offline := c)
      case NotParticipating => this.(idle := c)
    }

    function All(): nat { online.money + offline.money + idle.money }

    function RewardUnits(): nat { online.units + offline.units }
  }

  ghost function CountOf(b: Book, s: Status): Count {
    Count(Sum(MoneyOf(s), b), Sum(UnitsOf(s), b))
  }

  /** What the totals should be: the sums over all holdings. */
  ghost function TotalsOf(b: Book, level: nat): Totals {
    Totals(CountOf(b, Online), CountOf(b, Offline), CountOf(b, NotParticipating), level)
  }

  /** All money, and no account with more units than money. */
  ghost function Supply(b: Book): nat { Sum(AllMoney, b) }

  ghost predicate Whole(b: Book) {
    forall a :: a in b ==> b[a].units <= b[a].money
  }

  lemma AllIsSupply(b: Book, level: nat)
    ensures TotalsOf(b, level).All() == Supply(b)
  {
    AllByStatus(b);
  }

  datatype Tally = Tally(totals: Totals, overflowed: bool)

  function Added(t: Tally, h: Holding): Tally {
    var c := t.totals.For(h.status);
    var money, units := OAdd(c.money, h.money), OAdd(c.units, h.units);
    Tally(t.totals.With(h.status, Count(money.value, units.value)), t.overflowed || money.overflowed || units.overflowed)
  }

  function Deleted(t: Tally, h: Holding): Tally {
    var c := t.totals.For(h.status);
    var money, units := OSub(c.money, h.money), OSub(c.units, h.units);
    Tally(t.totals.With(h.status, Count(money.value, units.value)), t.overflowed || money.overflowed || units.overflowed)
  }

  function RewardedCount(c: Count, perUnit: nat): Tracked {
    var gain := OMul(c.units, perUnit);
    var money := OAdd(c.money, gain.value);
    Tracked(money.value, gain.overflowed || money.overflowed)
  }

  function Rewarded(t: Tally, level: nat): Tally {
    var perUnit := OSub(level, t.totals.level);
    var online := RewardedCount(t.totals.online, perUnit.value);
    var offline := RewardedCount(t.totals.offline, perUnit.value);
    Tally(Totals(t.totals.online.(money := online.value), t.totals.offline.(money := offline.value), t.totals.idle, level),
          t.overflowed || perUnit.overflowed || online.overflowed || offline.overflowed)
  }

  // ---------------------------------------------------------------- one account

  lemma Changed(b: Book, a: Address, h: Holding, s: Status)
    ensures CountOf(b[a := h], s).money + Value(MoneyOf(s), In(b, a)) == CountOf(b, s).money + Value(MoneyOf(s), h)
    ensures CountOf(b[a := h], s).units + Value(UnitsOf(s), In(b, a)) == CountOf(b, s).units + Value(UnitsOf(s), h)
  {
    SumUpdate(MoneyOf(s), b, a, h);
    SumUpdate(UnitsOf(s), b, a, h);
  }

  lemma {:induction false} WeighLeq(v: Address -> nat, w: Address -> nat, s: set<Address>)
    requires forall a :: a in s ==> v(a) <= w(a)
    ensures Weigh(v, s) <= Weigh(w, s)
    decreases |s|
  {
    if s != {} {
      var a :| a in s;
      WeighRemove(v, s, a);
      WeighRemove(w, s, a);
      WeighLeq(v, w, s - {a});
    }
  }

  lemma CountBelowSupply(b: Book, s: Status)
    requires Whole(b)
    ensures CountOf(b, s).units <= CountOf(b, s).money <= Supply(b)
  {
    AllByStatus(b);
    forall a | a in b.Keys ensures Per(UnitsOf(s), b)(a) <= Per(MoneyOf(s), b)(a) { assert In(b, a) == b[a]; }
    WeighLeq(Per(UnitsOf(s), b), Per(MoneyOf(s), b), b.Keys);
  }

  /** The totals t with the holding h taken out are t', and they all fit. */
  predicate Without(t: Totals, h: Holding, t': Totals) {
    && t'.level == t.level
    && t'.online.money + Value(MoneyOf(Online), h) == t.online.money < UINT64
    && t'.online.units + Value(UnitsOf(Online), h) == t.online.units < UINT64
    && t'.offline.money + Value(MoneyOf(Offline), h) == t.offline.money < UINT64
    && t'.offline.units + Value(UnitsOf(Offline), h) == t.offline.units < UINT64
    && t'.idle.money + Value(MoneyOf(NotParticipating), h) == t.idle.money < UINT64
    && t'.idle.units + Value(UnitsOf(NotParticipating), h) == t.idle.units < UINT64
  }

  lemma WithoutExact(t: Totals, h: Holding, t': Totals)
    requires Without(t, h, t')
    ensures Deleted(Tally(t, false), h) == Tally(t', false)
    ensures Added(Tally(t', false), h) == Tally(t, false)
  {
  }

  lemma Overwritten(b: Book, a: Address, h: Holding)
    ensures b[a := h][a := NOTHING] == b[a := NOTHING]
  {
  }

  lemma RemovedCounts(b: Book, a: Address, h: Holding, level: nat)
    requires Whole(b[a := h]) && Supply(b[a := h]) < UINT64
    ensures Without(TotalsOf(b[a := h], level), h, TotalsOf(b[a := NOTHING], level))
  {
    var c := b[a := h];
    Overwritten(b, a, h);
    forall s: Status
      ensures CountOf(b[a := NOTHING], s).money + Value(MoneyOf(s), h) == CountOf(c, s).money < UINT64
      ensures CountOf(b[a := NOTHING], s).units + Value(UnitsOf(s), h) == CountOf(c, s).units < UINT64
    {
      Changed(c, a, NOTHING, s);
      CountBelowSupply(c, s);
    }
  }

  /** One account's change, in the totals. */
  function Shifted(t: Tally, m: Move): Tally {
    Added(Deleted(t, m.prior), m.now)
  }

  lemma ShiftedBetween(t: Totals, t': Totals, common: Totals, m: Move)
    requires Without(t, m.prior, common) && Without(t', m.now, common)
    ensures Shifted(Tally(t, false), m) == Tally(t', false)
  {
    WithoutExact(t, m.prior, common);
    WithoutExact(t', m.now, common);
  }

  lemma Untouched(b: Book, a: Address, level: nat)
    requires Whole(b)
    ensures Whole(b[a := In(b, a)]) && Supply(b[a := In(b, a)]) == Supply(b)
    ensures TotalsOf(b[a := In(b, a)], level) == TotalsOf(b, level)
  {
    forall p: Part ensures Sum(p, b[a := In(b, a)]) == Sum(p, b) { SumUpdate(p, b, a, In(b, a)); }
  }

  /** Replacing an account in the totals gives the totals of the changed accounts. */
  lemma ShiftedExact(b: Book, a: Address, m: Move, level: nat)
    requires In(b, a) == m.prior && m.now.units <= m.now.money
    requires Whole(b) && Supply(b) < UINT64 && Supply(b[a := m.now]) < UINT64
    ensures Shifted(Tally(TotalsOf(b, level), false), m) == Tally(TotalsOf(b[a := m.now], level), false)
  {
    ghost var c := b[a := m.prior];
    Untouched(b, a, level);
    RemovedCounts(b, a, m.prior, level);
    RemovedCounts(b, a, m.now, level);
    ShiftedBetween(TotalsOf(c, level), TotalsOf(b[a := m.now], level), TotalsOf(b[a := NOTHING], level), m);
  }

  // ---------------------------------------------------------------- the changes of a block

  datatype Move = Move(prior: Holding, now: Holding)

  type Moves = map<Address, Move>

  ghost predicate Truthful(b: Book, ms: Moves) {
    forall a :: a in ms ==> ms[a].prior == In(b, a) && ms[a].now.units <= ms[a].now.money
  }

  /** The holdings after the changes at some addresses. */
  function Mixed(b: Book, ms: Moves, done: set<Address>): Book {
    map a | a in b.Keys + (done * ms.Keys) :: if a in done && a in ms then ms[a].now else b[a]
  }

  function After(b: Book, ms: Moves): Book { Mixed(b, ms, ms.Keys) }

  lemma MixedStep(b: Book, ms: Moves, done: set<Address>, a: Address)
    requires a in ms && a in done
    ensures Mixed(b, ms, done) == Mixed(b, ms, done - {a})[a := ms[a].now]
  {
  }

  /** A sum may be taken over more addresses than have an entry. */
  lemma SumOver(p: Part, b: Book, u: set<Address>)
    requires b.Keys <= u
    ensures Sum(p, b) == Weigh(Per(p, b), u)
  {
    WeighSame(Per(p, b), Per(p, b), b.Keys, u);
  }

  lemma SupplyBetween(b: Book, c: Book, x: Book)
    requires forall a: Address :: In(x, a) == In(b, a) || In(x, a) == In(c, a)
    ensures Supply(x) <= Supply(b) + Supply(c)
  {
    var u := b.Keys + c.Keys + x.Keys;
    var v, w, y := Per(AllMoney, b), Per(AllMoney, c), Per(AllMoney, x);
    SumOver(AllMoney, b, u);
    SumOver(AllMoney, c, u);
    SumOver(AllMoney, x, u);
    forall a: Address ensures y(a) <= v(a) + w(a) { assert In(x, a) == In(b, a) || In(x, a) == In(c, a); }
    WeighBetween(v, w, y, u);
  }

  lemma {:induction false} WeighBetween(v: Address -> nat, w: Address -> nat, y: Address -> nat, s: set<Address>)
    requires forall a :: a in s ==> y(a) <= v(a) + w(a)
    ensures Weigh(y, s) <= Weigh(v, s) + Weigh(w, s)
    decreases |s|
  {
    if s != {} {
      var a :| a in s;
      WeighRemove(v, s, a);
      WeighRemove(w, s, a);
      WeighRemove(y, s, a);
      WeighBetween(v, w, y, s - {a});
    }
  }

  /** Half way through a block the supply is at most that before and after it together. */
  lemma MixedSupply(b: Book, ms: Moves, done: set<Address>)
    ensures Supply(Mixed(b, ms, done)) <= Supply(b) + Supply(After(b, ms))
  {
    SupplyBetween(b, After(b, ms), Mixed(b, ms, done));
  }

  lemma TallyStep(b: Book, ms: Moves, done: set<Address>, a: Address, level: nat)
    requires Whole(b) && Truthful(b, ms) && a in ms && a in done
    requires Supply(b) + Supply(After(b, ms)) < UINT64
    ensures Shifted(Tally(TotalsOf(Mixed(b, ms, done - {a}), level), false), ms[a]) ==
      Tally(TotalsOf(Mixed(b, ms, done), level), false)
  {
    MixedStep(b, ms, done, a);
    MixedSupply(b, ms, done);
    MixedSupply(b, ms, done - {a});
    assert In(Mixed(b, ms, done - {a}), a) == ms[a].prior;
    ShiftedExact(Mixed(b, ms, done - {a}), a, ms[a], level);
  }

  /** The changes at a series of addresses, one after the other. */
  function ShiftedAll(t: Tally, ms: Moves, order: seq<Address>): Tally
    requires forall a :: a in order ==> a in ms
  {
    if order == [] then t
    else Shifted(ShiftedAll(t, ms, order[..|order| - 1]), ms[order[|order| - 1]])
  }

  predicate Distinct(order: seq<Address>) {
    forall i, j :: 0 <= i < j < |order| ==> order[i] != order[j]
  }

  function Taken(order: seq<Address>): set<Address> { set a | a in order }

  lemma TakenHead(order: seq<Address>)
    requires order != [] && Distinct(order)
    ensures Taken(order[..|order| - 1]) == Taken(order) - {order[|order| - 1]}
  {
    var head, a := order[..|order| - 1], order[|order| - 1];
    assert order == head + [a];
  }

  /** In any order the changes turn the totals before them into those after them. */
  lemma {:induction false} ShiftedAllExact(b: Book, ms: Moves, order: seq<Address>, done: set<Address>, level: nat)
    requires Whole(b) && Truthful(b, ms) && Supply(b) + Supply(After(b, ms)) < UINT64
    requires Distinct(order) && done == Taken(order) && done <= ms.Keys
    ensures ShiftedAll(Tally(TotalsOf(b, level), false), ms, order) == Tally(TotalsOf(Mixed(b, ms, done), level), false)
    decreases |order|
  {
    if order == [] {
      assert Mixed(b, ms, done) == b;
    } else {
      var head, a := order[..|order| - 1], order[|order| - 1];
      TakenHead(order);
      ShiftedAllExact(b, ms, head, done - {a}, level);
      TallyStep(b, ms, done, a, level);
    }
  }

  /** The loop over a block's changes, in whatever order the map yields them. */
  method Tallied(t: Tally, ms: Moves) returns (t': Tally, ghost order: seq<Address>)
    ensures Distinct(order) && Taken(order) == ms.Keys
    ensures t' == ShiftedAll(t, ms, order)
  {
    t' := t;
    var todo := ms.Keys;
    order := [];
    while todo != {}
      invariant forall a :: a in order ==> a in ms
      invariant forall a :: a in todo <==> a in ms && a !in order
      invariant Distinct(order)
      invariant t' == ShiftedAll(t, ms, order)
      decreases |todo|
    {
      var a :| a in todo;
      t' := Shifted(t', ms[a]);
      todo := todo - {a};
      assert (order + [a])[..|order + [a]| - 1] == order;
      order := order + [a];
    }
    assert Taken(order) == ms.Keys;
  }

  /** Over a block whose changes are truthful the loop gives the totals of the changed
      accounts, and no sum overflows. */
  lemma TalliedExact(b: Book, ms: Moves, order: seq<Address>, level: nat)
    requires Whole(b) && Truthful(b, ms) && Supply(b) + Supply(After(b, ms)) < UINT64
    requires Distinct(order) && Taken(order) == ms.Keys
    ensures ShiftedAll(Tally(TotalsOf(b, level), false), ms, order) == Tally(TotalsOf(After(b, ms), level), false)
  {
    ShiftedAllExact(b, ms, order, ms.Keys, level);
  }
}
