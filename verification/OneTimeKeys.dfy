/** Forward-secure one-time signatures: a two-level tree of keys that are deleted as time
    moves on. Signatures are ideal. */
module OneTimeKeys {
  import opened Options

  type Message = nat
  type PublicKey = nat

  datatype Identifier = Identifier(batch: nat, offset: nat)
  {
    predicate Fits() { batch < UINT64 && offset < UINT64 }

    predicate Before(o: Identifier) { batch < o.batch || (batch == o.batch && offset < o.offset) }
  }

  /** What a key signs: a batch key, an offset key, or a message. */
  datatype Content =
    | BatchId(pk: PublicKey, batch: nat)
    | OffsetId(pk: PublicKey, batch: nat, offset: nat)
    | Text(m: Message)

  /** A signature says who signed what; the zero value says nothing. */
  datatype Signature = NoSignature | Signature(signer: PublicKey, content: Content)

  datatype Subkey = Subkey(pk: PublicKey, sig: Signature)

  datatype OneTimeSignature = OneTimeSignature(sig: Signature, pk: PublicKey, pk1Sig: Signature, pk2: PublicKey, pk2Sig: Signature)

  const EMPTY_SIGNATURE := OneTimeSignature(NoSignature, 0, NoSignature, 0, NoSignature)

  /** The secrets; cleared says that the batches were dropped altogether, and generated
      counts the keys drawn so far. */
  datatype Secrets = Secrets(
    master: PublicKey,
    firstBatch: nat,
    batches: seq<Subkey>,
    cleared: bool,
    firstOffset: nat,
    offsets: seq<Subkey>,
    offsetsPK2: PublicKey,
    offsetsPK2Sig: Signature,
    generated: nat)

  function Succ(n: nat): nat { if n + 1 == UINT64 then 0 else n + 1 }

  // ---------------------------------------------------------------- generation

  function Generate(start: nat, count: nat): Secrets {
    Secrets(0, start, seq(count, i requires i >= 0 => Subkey(i + 1, Signature(0, BatchId(i + 1, start + i)))), false, 0, [], 0, NoSignature, count + 1)
  }

  // ---------------------------------------------------------------- signing

  predicate InOffsets(s: Secrets, id: Identifier) {
    Succ(id.batch) == s.firstBatch && s.firstOffset <= id.offset && id.offset - s.firstOffset < |s.offsets|
  }

  predicate InBatches(s: Secrets, id: Identifier) {
    s.firstBatch <= id.batch && id.batch - s.firstBatch < |s.batches|
  }

  /** The identifiers under which the secrets can sign. */
  predicate CanSign(s: Secrets, id: Identifier) { InOffsets(s, id) || InBatches(s, id) }

  function Sign(s: Secrets, id: Identifier, m: Message): OneTimeSignature {
    if InOffsets(s, id) then
      var k := s.offsets[id.offset - s.firstOffset];
      OneTimeSignature(Signature(k.pk, Text(m)), k.pk, k.sig, s.offsetsPK2, s.offsetsPK2Sig)
    else if InBatches(s, id) then
      var pk := s.generated;
      var b := s.batches[id.batch - s.firstBatch];
      OneTimeSignature(Signature(pk, Text(m)), pk, Signature(b.pk, OffsetId(pk, id.batch, id.offset)), b.pk, b.sig)
    else EMPTY_SIGNATURE
  }

  predicate Verify(master: PublicKey, id: Identifier, m: Message, sig: OneTimeSignature) {
    && sig.pk2Sig == Signature(master, BatchId(sig.pk2, id.batch))
    && sig.pk1Sig == Signature(sig.pk2, OffsetId(sig.pk, id.batch, id.offset))
    && sig.sig == Signature(sig.pk, Text(m))
  }

  // ---------------------------------------------------------------- deletion

  function OffsetKey(batchPK: PublicKey, batch: nat, offset: nat, pk: PublicKey): Subkey {
    Subkey(pk, Signature(batchPK, OffsetId(pk, batch, offset)))
  }

  /** The keys for offsets from off up to n of a batch. */
  function Expand(batchPK: PublicKey, batch: nat, off: nat, n: nat, generated: nat): (r: seq<Subkey>)
    ensures |r| == if off < n then n - off else 0
    ensures forall i :: 0 <= i < |r| ==> r[i] == OffsetKey(batchPK, batch, off + i, generated + i)
  {
    if off < n then seq(n - off, i requires i >= 0 => OffsetKey(batchPK, batch, off + i, generated + i)) else []
  }

  /** Without the first k offset keys. */
  function Trimmed(s: Secrets, k: nat): Secrets
    requires k <= |s.offsets|
  {
    s.(firstOffset := s.firstOffset + k, offsets := s.offsets[k..])
  }

  /** Without any key before or in a batch that is not there. */
  function Emptied(s: Secrets, batch: nat): Secrets {
    if s.cleared then s.(offsets := []) else s.(offsets := [], firstBatch := batch, batches := [], cleared := true)
  }

  /** The batch after jump others becomes offset keys. */
  function Expanded(s: Secrets, current: Identifier, n: nat, jump: nat): Secrets
    requires jump < |s.batches|
  {
    var b := s.batches[jump];
    var keys := Expand(b.pk, current.batch, current.offset, n, s.generated);
    s.(firstBatch := current.batch + 1, batches := s.batches[jump + 1..],
       firstOffset := current.offset, offsets := keys, offsetsPK2 := b.pk, offsetsPK2Sig := b.sig,
       generated := s.generated + |keys|)
  }

  function DeleteBefore(s: Secrets, current: Identifier, n: nat): Secrets {
    if Succ(current.batch) == s.firstBatch then
      if current.offset > s.firstOffset then
        Trimmed(s, if current.offset - s.firstOffset > |s.offsets| then |s.offsets| else current.offset - s.firstOffset)
      else s
    else if Succ(current.batch) < s.firstBatch then s
    else
      var jump := current.batch - s.firstBatch;
      if jump > |s.batches| then Emptied(s, current.batch)
      else if jump == |s.batches| then s.(offsets := [], firstBatch := s.firstBatch + jump, batches := [])
      else Expanded(s, current, n, jump)
  }

  // ---------------------------------------------------------------- the invariant

  ghost predicate Valid(s: Secrets) {
    && s.firstBatch + |s.batches| <= UINT64 && s.firstBatch < UINT64
    && (s.cleared ==> s.batches == [])
    && (s.offsets != [] ==> s.firstBatch > 0 && s.firstOffset + |s.offsets| <= UINT64 && s.offsetsPK2Sig == Signature(s.master, BatchId(s.offsetsPK2, s.firstBatch - 1)))
    && (forall i :: 0 <= i < |s.batches| ==> s.batches[i].sig == Signature(s.master, BatchId(s.batches[i].pk, s.firstBatch + i)))
    && (forall i :: 0 <= i < |s.offsets| ==> s.offsets[i].sig == Signature(s.offsetsPK2, OffsetId(s.offsets[i].pk, s.firstBatch - 1, s.firstOffset + i)))
  }

  lemma GenerateValid(start: nat, count: nat)
    requires start < UINT64 && start + count <= UINT64
    ensures Valid(Generate(start, count))
    ensures forall id: Identifier :: CanSign(Generate(start, count), id) <==> start <= id.batch < start + count
  {
  }

  lemma TrimmedValid(s: Secrets, k: nat)
    requires Valid(s) && k <= |s.offsets|
    ensures Valid(Trimmed(s, k))
  {
    var t := Trimmed(s, k);
    forall i | 0 <= i < |t.offsets|
      ensures t.offsets[i].sig == Signature(t.offsetsPK2, OffsetId(t.offsets[i].pk, t.firstBatch - 1, t.firstOffset + i))
    {
      assert t.offsets[i] == s.offsets[k + i];
    }
  }

  lemma EmptiedValid(s: Secrets, batch: nat)
    requires Valid(s) && batch < UINT64
    ensures Valid(Emptied(s, batch)) && Valid(s.(offsets := [], firstBatch := batch, batches := []))
  {
  }

  lemma ExpandedValid(s: Secrets, current: Identifier, n: nat, jump: nat)
    requires Valid(s) && jump < |s.batches| && current.batch == s.firstBatch + jump && current.batch + 1 < UINT64 && n < UINT64
    ensures Valid(Expanded(s, current, n, jump))
  {
    var rest := s.batches[jump + 1..];
    forall i | 0 <= i < |rest| ensures rest[i].sig == Signature(s.master, BatchId(rest[i].pk, current.batch + 1 + i)) {
      assert rest[i] == s.batches[jump + 1 + i];
    }
  }

  lemma DeleteValid(s: Secrets, current: Identifier, n: nat)
    requires Valid(s) && current.Fits() && n < UINT64
    ensures Valid(DeleteBefore(s, current, n)) && DeleteBefore(s, current, n).master == s.master
  {
    if Succ(current.batch) == s.firstBatch {
      if current.offset > s.firstOffset {
        TrimmedValid(s, if current.offset - s.firstOffset > |s.offsets| then |s.offsets| else current.offset - s.firstOffset);
      }
    } else if Succ(current.batch) > s.firstBatch {
      EmptiedValid(s, current.batch);
      var jump := current.batch - s.firstBatch;
      if jump < |s.batches| { ExpandedValid(s, current, n, jump); }
    }
  }

  // ---------------------------------------------------------------- what a deletion leaves

  /** The identifiers that a deletion keeps: none before it, and of a batch that it expands
      only the offsets below the batch size; but all, if its batch is the last that a 64-bit
      number can name. */
  predicate Survives(s: Secrets, current: Identifier, n: nat, id: Identifier) {
    current.batch + 1 == UINT64 ||
    (!id.Before(current) && (InBatches(s, current) && id.batch == current.batch ==> id.offset < n))
  }

  lemma TrimmedExact(s: Secrets, current: Identifier, n: nat, id: Identifier)
    requires Valid(s) && id.Fits() && current.batch + 1 == s.firstBatch
    ensures CanSign(DeleteBefore(s, current, n), id) <==> CanSign(s, id) && Survives(s, current, n, id)
  {
  }

  lemma ExpandedExact(s: Secrets, current: Identifier, n: nat, id: Identifier)
    requires Valid(s) && current.Fits() && id.Fits() && s.firstBatch <= current.batch && current.batch + 1 < UINT64
    ensures CanSign(DeleteBefore(s, current, n), id) <==> CanSign(s, id) && Survives(s, current, n, id)
  {
    var jump := current.batch - s.firstBatch;
    if jump < |s.batches| {
      assert DeleteBefore(s, current, n) == Expanded(s, current, n, jump);
    }
  }

  /** A deletion up to the last batch changes nothing. */
  lemma LastBatchKept(s: Secrets, current: Identifier, n: nat)
    requires Valid(s) && current.batch + 1 == UINT64
    ensures DeleteBefore(s, current, n).batches == s.batches && DeleteBefore(s, current, n).firstBatch == s.firstBatch
    ensures DeleteBefore(s, current, n).offsets == s.offsets
    ensures s.offsets != [] ==> DeleteBefore(s, current, n) == s
  {
  }

  /** A deletion keeps exactly the surviving identifiers. */
  lemma DeleteExact(s: Secrets, current: Identifier, n: nat, id: Identifier)
    requires Valid(s) && current.Fits() && id.Fits()
    ensures CanSign(DeleteBefore(s, current, n), id) <==> CanSign(s, id) && Survives(s, current, n, id)
  {
    if current.batch + 1 == UINT64 {
      LastBatchKept(s, current, n);
    } else if current.batch + 1 == s.firstBatch {
      TrimmedExact(s, current, n, id);
    } else if s.firstBatch <= current.batch {
      ExpandedExact(s, current, n, id);
    }
  }

  /** There is no key for anything before a point of the last batch. */
  predicate NothingEarlier(s: Secrets, offset: nat) {
    s.offsets == [] && (s.batches == [] || (s.firstBatch + 1 == UINT64 && offset == 0))
  }

  lemma EarliestSigns(s: Secrets, offset: nat)
    requires Valid(s) && offset < UINT64
    ensures NothingEarlier(s, offset) <==> forall id: Identifier :: id.Fits() && CanSign(s, id) ==> !id.Before(Identifier(UINT64 - 1, offset))
  {
    if s.offsets != [] {
      var id := Identifier(s.firstBatch - 1, s.firstOffset);
      assert id.Fits() && CanSign(s, id) && id.Before(Identifier(UINT64 - 1, offset));
    } else if s.batches != [] {
      var id := Identifier(s.firstBatch, 0);
      assert id.Fits() && CanSign(s, id);
    }
  }

  /** After a deletion nothing before its point can be signed, if and only if its batch is not
      the last or there was no key for anything before it. */
  lemma ForwardSecureExact(s: Secrets, current: Identifier, n: nat)
    requires Valid(s) && current.Fits()
    ensures (forall id: Identifier :: id.Fits() && CanSign(DeleteBefore(s, current, n), id) ==> !id.Before(current)) <==>
      current.batch + 1 < UINT64 || NothingEarlier(s, current.offset)
  {
    forall id: Identifier | id.Fits() ensures CanSign(DeleteBefore(s, current, n), id) <==> CanSign(s, id) && Survives(s, current, n, id) {
      DeleteExact(s, current, n, id);
    }
    if current.batch + 1 == UINT64 { EarliestSigns(s, current.offset); }
  }

  /** Old keys survive a deletion up to the last batch. */
  lemma LastBatchInsecure()
    ensures var s := Generate(0, 1);
      var current := Identifier(UINT64 - 1, 0);
      Valid(s) && Identifier(0, 0).Before(current) && CanSign(DeleteBefore(s, current, 10), Identifier(0, 0))
  {
    GenerateValid(0, 1);
  }

  // ---------------------------------------------------------------- series of deletions

  datatype Deletion = Deletion(current: Identifier, n: nat)

  function DeleteAll(s: Secrets, ds: seq<Deletion>): Secrets {
    if ds == [] then s
    else DeleteBefore(DeleteAll(s, ds[..|ds| - 1]), ds[|ds| - 1].current, ds[|ds| - 1].n)
  }

  predicate Fit(ds: seq<Deletion>) {
    forall i :: 0 <= i < |ds| ==> ds[i].current.Fits() && ds[i].n < UINT64
  }

  /** An identifier survives every deletion of a series. */
  predicate SurvivesAll(s: Secrets, ds: seq<Deletion>, id: Identifier) {
    ds == [] ||
    (SurvivesAll(s, ds[..|ds| - 1], id) &&
     Survives(DeleteAll(s, ds[..|ds| - 1]), ds[|ds| - 1].current, ds[|ds| - 1].n, id))
  }

  /** After any series of deletions exactly those identifiers can be signed that could be
      signed at first and survived every one of them. */
  lemma {:induction false} SeriesExact(s: Secrets, ds: seq<Deletion>, id: Identifier)
    requires Valid(s) && Fit(ds) && id.Fits()
    ensures Valid(DeleteAll(s, ds)) && DeleteAll(s, ds).master == s.master
    ensures CanSign(DeleteAll(s, ds), id) <==> CanSign(s, id) && SurvivesAll(s, ds, id)
  {
    if ds != [] {
      var head, d := ds[..|ds| - 1], ds[|ds| - 1];
      SeriesExact(s, head, id);
      DeleteValid(DeleteAll(s, head), d.current, d.n);
      DeleteExact(DeleteAll(s, head), d.current, d.n, id);
    }
  }

  lemma {:induction false} SurvivorsAreLater(s: Secrets, ds: seq<Deletion>, id: Identifier, k: nat)
    requires SurvivesAll(s, ds, id) && k < |ds|
    ensures !id.Before(ds[k].current) || ds[k].current.batch + 1 == UINT64
  {
    if k < |ds| - 1 { SurvivorsAreLater(s, ds[..|ds| - 1], id, k); }
  }

  /** The signable identifiers only shrink, and hold nothing before any deletion point so far
      that is not in the last batch. */
  lemma OnlyShrinks(s: Secrets, ds: seq<Deletion>, more: Deletion, id: Identifier, k: nat)
    requires Valid(s) && Fit(ds + [more]) && id.Fits() && k <= |ds|
    requires CanSign(DeleteAll(s, ds + [more]), id)
    ensures CanSign(DeleteAll(s, ds), id)
    ensures !id.Before((ds + [more])[k].current) || (ds + [more])[k].current.batch + 1 == UINT64
  {
    var all := ds + [more];
    assert all[..|all| - 1] == ds;
    assert Fit(ds) by { forall i | 0 <= i < |ds| ensures ds[i].current.Fits() && ds[i].n < UINT64 { assert ds[i] == all[i]; } }
    SeriesExact(s, ds, id);
    SeriesExact(s, all, id);
    SurvivorsAreLater(s, all, id, k);
  }

  // ---------------------------------------------------------------- signatures

  /** Whatever was deleted before, a signature made under an identifier verifies for that
      identifier and message and for no other, and where nothing can be signed the
      empty signature verifies for nothing. */
  lemma VerifiesExactly(s: Secrets, id: Identifier, m: Message, id': Identifier, m': Message)
    requires Valid(s) && id.Fits()
    ensures Verify(s.master, id', m', Sign(s, id, m)) <==> CanSign(s, id) && id' == id && m' == m
  {
  }

  // ---------------------------------------------------------------- the object

  class OneTimeSecrets {
    const master: PublicKey
    var firstBatch: nat
    var batches: seq<Subkey>
    var cleared: bool
    var firstOffset: nat
    var offsets: seq<Subkey>
    var offsetsPK2: PublicKey
    var offsetsPK2Sig: Signature
    var generated: nat

    function Model(): Secrets
      reads this
    {
      Secrets(master, firstBatch, batches, cleared, firstOffset, offsets, offsetsPK2, offsetsPK2Sig, generated)
    }

    constructor (start: nat, count: nat)
      ensures Model() == Generate(start, count)
    {
      master, firstBatch, cleared, firstOffset, offsets := 0, start, false, 0, [];
      offsetsPK2, offsetsPK2Sig, generated := 0, NoSignature, count + 1;
      var keys: seq<Subkey> := [];
      var i := 0;
      while i < count
        invariant 0 <= i <= count && |keys| == i
        invariant forall j :: 0 <= j < i ==> keys[j] == Subkey(j + 1, Signature(0, BatchId(j + 1, start + j)))
      {
        keys := keys + [Subkey(i + 1, Signature(0, BatchId(i + 1, start + i)))];
        i := i + 1;
      }
      batches := keys;
      new;
      assert batches == Generate(start, count).batches;
    }

    method DeleteBeforeFineGrained(current: Identifier, n: nat)
      modifies this
      ensures Model() == DeleteBefore(old(Model()), current, n)
    {
      var next := Succ(current.batch);
      if next == firstBatch {
        if current.offset > firstOffset {
          var jump := current.offset - firstOffset;
          if jump > |offsets| { jump := |offsets|; }
          firstOffset, offsets := firstOffset + jump, offsets[jump..];
        }
        return;
      }
      if next < firstBatch { return; }
      offsets := [];
      var jump := current.batch - firstBatch;
      if jump > |batches| {
        if !cleared { firstBatch, batches, cleared := current.batch, [], true; }
        return;
      }
      ghost var s := old(Model());
      firstBatch, batches := firstBatch + jump, batches[jump..];
      if |batches| == 0 { return; }
      assert batches[0] == s.batches[jump];
      offsetsPK2, offsetsPK2Sig, firstOffset := batches[0].pk, batches[0].sig, current.offset;
      offsets := ExpandKeys(batches[0].pk, current.batch, current.offset, n, generated);
      generated := generated + |offsets|;
      firstBatch, batches := firstBatch + 1, batches[1..];
      assert batches == s.batches[jump + 1..];
    }
  }

  /** The loop that draws a key for every offset that is left of a batch. */
  method ExpandKeys(batchPK: PublicKey, batch: nat, first: nat, n: nat, generated: nat) returns (keys: seq<Subkey>)
    ensures keys == Expand(batchPK, batch, first, n, generated)
  {
    keys := [];
    var off := first;
    while off < n
      invariant first <= off && (off <= n || off == first) && |keys| == off - first
      invariant forall i :: 0 <= i < |keys| ==> keys[i] == OffsetKey(batchPK, batch, first + i, generated + i)
    {
      keys := keys + [OffsetKey(batchPK, batch, off, generated + (off - first))];
      off := off + 1;
    }
  }
}
