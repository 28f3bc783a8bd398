/** A pruned index of recent transactions that answers like the full history. */
module TxTail {
  import opened Options
  import opened BlockQueue

  type Txid = nat

  /** The transactions of a block, with the last round in which each is valid. */
  type TxSet = map<Txid, Round>

  /** Every block's transactions, by round. */
  type History = seq<TxSet>

  predicate AliveIn(txs: TxSet, r: Round, maxLife: nat) {
    forall id :: id in txs ==> r <= txs[id] <= r + maxLife
  }

  /** A block holds a transaction only inside its validity, which spans at most maxLife rounds. */
  predicate WellFormed(h: History, maxLife: nat) {
    forall r :: 0 <= r < |h| ==> AliveIn(h[r], r, maxLife)
  }

  /** Some block holds the transaction. */
  predicate Holds(h: History, id: Txid) {
    exists r :: 0 <= r < |h| && id in h[r]
  }

  /** A transaction's identifier determines its last valid round. */
  predicate ValidUntil(h: History, id: Txid, lv: Round) {
    forall r :: 0 <= r < |h| && id in h[r] ==> h[r][id] == lv
  }

  predicate HoldsUntil(h: History, id: Txid, lv: Round) {
    exists r :: 0 <= r < |h| && id in h[r] && h[r][id] == lv
  }

  type Index = map<Round, set<Txid>>

  function At(ix: Index, lv: Round): set<Txid> { if lv in ix then ix[lv] else {} }

  /** For last valid rounds after the low-water mark the index is the history. */
  ghost predicate IndexOk(ix: Index, h: History, low: Round) {
    forall lv: Round, id: Txid :: lv > low ==> (id in At(ix, lv) <==> HoldsUntil(h, id, lv))
  }

  lemma HoldsMore(h: History, txs: TxSet, id: Txid, lv: Round)
    ensures HoldsUntil(h + [txs], id, lv) <==> HoldsUntil(h, id, lv) || (id in txs && txs[id] == lv)
  {
    if HoldsUntil(h, id, lv) {
      var r :| 0 <= r < |h| && id in h[r] && h[r][id] == lv;
      assert (h + [txs])[r] == h[r];
    }
    if id in txs && txs[id] == lv { assert (h + [txs])[|h|] == txs; }
  }

  /** A transaction that may still be included was confirmed only in blocks that reload. */
  lemma RecentEnough(h: History, maxLife: nat, id: Txid, r: Round)
    requires WellFormed(h, maxLife) && r < |h| && id in h[r] && h[r][id] >= |h|
    ensures r >= SubSaturate(|h|, maxLife)
  {
    assert AliveIn(h[r], r, maxLife);
  }

  /** The index holds exactly the transactions of some blocks. */
  ghost predicate Indexes(ix: Index, g: History) {
    forall lv: Round, id: Txid :: id in At(ix, lv) <==> HoldsUntil(g, id, lv)
  }

  ghost predicate Grown(ix: Index, ix': Index, txs: TxSet) {
    forall lv: Round, id: Txid :: id in At(ix', lv) <==> id in At(ix, lv) || (id in txs && txs[id] == lv)
  }

  lemma IndexGrows(ix: Index, ix': Index, g: History, txs: TxSet)
    requires Indexes(ix, g) && Grown(ix, ix', txs)
    ensures Indexes(ix', g + [txs])
  {
    forall lv: Round, id: Txid ensures id in At(ix', lv) <==> HoldsUntil(g + [txs], id, lv) {
      HoldsMore(g, txs, id, lv);
    }
  }

  lemma LoadStep(ix: Index, ix': Index, h: History, first: nat, r: nat)
    requires first <= r < |h| && Indexes(ix, h[first..r]) && Grown(ix, ix', h[r])
    ensures Indexes(ix', h[first..r + 1])
  {
    IndexGrows(ix, ix', h[first..r], h[r]);
    assert h[first..r] + [h[r]] == h[first..r + 1];
  }

  lemma LoadedOk(ix: Index, h: History, maxLife: nat, first: Round)
    requires h != [] && WellFormed(h, maxLife) && first == SubSaturate(|h|, maxLife) && Indexes(ix, h[first..])
    ensures IndexOk(ix, h, |h| - 1)
  {
    forall lv: Round, id: Txid | lv > |h| - 1 ensures id in At(ix, lv) <==> HoldsUntil(h, id, lv) {
      SuffixHolds(h, maxLife, first, id, lv);
    }
  }

  class Tail {
    var recent: map<Round, TxSet>
    var lastValid: Index
    var lowWaterMark: Round

    /** The state after the blocks of h. */
    ghost predicate Valid(h: History)
      reads this
    {
      && h != [] && lowWaterMark < |h|
      && IndexOk(lastValid, h, lowWaterMark)
      && (forall r :: r in recent ==> r < |h| && recent[r] == h[r])
      && (forall r :: lowWaterMark <= r < |h| ==> r in recent)
    }

    method PutLV(lv: Round, id: Txid)
      modifies this`lastValid
      ensures forall x: Round :: At(lastValid, x) == At(old(lastValid), x) + if x == lv then {id} else {}
    {
      if lv !in lastValid { lastValid := lastValid[lv := {}]; }
      lastValid := lastValid[lv := lastValid[lv] + {id}];
    }

    /** Enter the transactions of one block into the index. */
    method PutAll(txs: TxSet)
      modifies this`lastValid
      ensures Grown(old(lastValid), lastValid, txs)
    {
      var todo := txs.Keys;
      while todo != {}
        invariant todo <= txs.Keys
        invariant forall lv: Round, id: Txid ::
          id in At(lastValid, lv) <==> id in At(old(lastValid), lv) || (id in txs && id !in todo && txs[id] == lv)
        decreases |todo|
      {
        var id :| id in todo;
        PutLV(txs[id], id);
        todo := todo - {id};
      }
    }

    /** Read the blocks from disk that can matter for the next round. */
    constructor LoadFromDisk(h: History, maxLife: nat)
      requires h != [] && maxLife > 0 && WellFormed(h, maxLife)
      ensures Valid(h) && lowWaterMark == |h| - 1
    {
      recent, lastValid, lowWaterMark := map[], map[], |h| - 1;
      new;
      var first := SubSaturate(|h|, maxLife);
      var r := first;
      while r < |h|
        invariant first <= r <= |h| && lowWaterMark == |h| - 1
        invariant forall x :: x in recent <==> first <= x < r
        invariant forall x :: x in recent ==> recent[x] == h[x]
        invariant Indexes(lastValid, h[first..r])
      {
        recent := recent[r := h[r]];
        ghost var before := lastValid;
        PutAll(h[r]);
        LoadStep(before, lastValid, h, first, r);
        r := r + 1;
      }
      assert h[first..r] == h[first..];
      LoadedOk(lastValid, h, maxLife, first);
    }

    method NewBlock(rnd: Round, txs: TxSet, ghost h: History) returns (ghost h': History)
      requires Valid(h) && rnd <= |h|
      requires rnd < |h| ==> rnd >= lowWaterMark
      modifies this
      ensures h' == if rnd == |h| then h + [txs] else h
      ensures Valid(h') && lowWaterMark == old(lowWaterMark)
    {
      if rnd in recent { return h; }
      recent := recent[rnd := txs];
      PutAll(txs);
      h' := h + [txs];
      forall lv: Round, id: Txid | lv > lowWaterMark ensures id in At(lastValid, lv) <==> HoldsUntil(h', id, lv) {
        HoldsMore(h, txs, id, lv);
      }
    }

    /** Forget what no transaction of a later round can ask for. */
    method CommittedUpTo(rnd: Round, maxLife: nat, ghost h: History) returns (retain: Round)
      requires Valid(h) && lowWaterMark <= rnd < |h|
      modifies this
      ensures Valid(h) && lowWaterMark == rnd
      ensures retain == SubSaturate(rnd + 1, maxLife)
    {
      var old0 := recent;
      var todo := recent.Keys;
      while todo != {}
        invariant todo <= old0.Keys
        invariant forall r :: r in recent <==> r in old0 && (r in todo || r + maxLife >= rnd)
        invariant forall r :: r in recent ==> recent[r] == old0[r]
        invariant lastValid == old(lastValid) && lowWaterMark == old(lowWaterMark)
        decreases |todo|
      {
        var r :| r in todo;
        if r + maxLife < rnd { recent := recent - {r}; }
        todo := todo - {r};
      }
      while lowWaterMark < rnd
        invariant old(lowWaterMark) <= lowWaterMark <= rnd
        invariant forall lv :: lv >= lowWaterMark ==> At(lastValid, lv) == At(old(lastValid), lv)
        invariant forall r :: r in recent ==> r in old0 && recent[r] == old0[r]
        invariant forall r :: rnd <= r < |h| ==> r in recent
      {
        lastValid := lastValid - {lowWaterMark};
        lowWaterMark := lowWaterMark + 1;
      }
      return SubSaturate(rnd + 1, maxLife);
    }

    /** Is a transaction already in the ledger? None when the index cannot tell. For a
        transaction that may be in the next block, whatever was pruned or reloaded, the
        answer is that of the full history. */
    method IsDup(id: Txid, lv: Round, ghost h: History) returns (r: Option<bool>)
      requires Valid(h)
      ensures r.None? <==> lv < lowWaterMark
      ensures lv > lowWaterMark ==> r == Some(HoldsUntil(h, id, lv))
      ensures lv >= |h| && ValidUntil(h, id, lv) ==> r == Some(Holds(h, id))
    {
      if lv >= |h| && ValidUntil(h, id, lv) { DuplicateExact(h, lastValid, lowWaterMark, id, lv); }
      if lv < lowWaterMark { return None; }
      return Some(lv in lastValid && id in lastValid[lv]);
    }
  }

  /** The blocks before the first one that is loaded hold nothing valid after the latest round. */
  lemma SuffixHolds(h: History, maxLife: nat, first: Round, id: Txid, lv: Round)
    requires WellFormed(h, maxLife) && first == SubSaturate(|h|, maxLife) && first <= |h| && lv >= |h|
    ensures HoldsUntil(h[first..], id, lv) <==> HoldsUntil(h, id, lv)
  {
    if HoldsUntil(h[first..], id, lv) {
      var r :| 0 <= r < |h[first..]| && id in h[first..][r] && h[first..][r][id] == lv;
      assert h[first + r] == h[first..][r];
    }
    if HoldsUntil(h, id, lv) {
      var r :| 0 <= r < |h| && id in h[r] && h[r][id] == lv;
      RecentEnough(h, maxLife, id, r);
      assert h[first..][r - first] == h[r];
    }
  }

  /** For a transaction that is alive in the next round the answer is exact, whatever was
      pruned or reloaded: it is a duplicate if and only if some block holds it. */
  lemma DuplicateExact(h: History, ix: Index, low: Round, id: Txid, lv: Round)
    requires IndexOk(ix, h, low) && low < |h| <= lv && ValidUntil(h, id, lv)
    ensures id in At(ix, lv) <==> Holds(h, id)
  {
    if Holds(h, id) {
      var r :| 0 <= r < |h| && id in h[r];
      assert HoldsUntil(h, id, lv);
    }
  }
}
