/** The database server's `DatabaseService`: persists batches into the memory
    store and answers range summaries grouped by processor tag. */
module DatabaseServer {
  import opened Wrappers
  import opened TwosComplement
  import opened Store
  import opened Seqs

  /** A payment as the database server receives it. `requestedAt` is the outcome
      of `DateTimeOffset.TryParse` on the wire string, in Unix milliseconds, or
      `None` when the string does not parse. */
  datatype ProcessedPayment = ProcessedPayment(correlationId: string, amount: real, processor: string, requestedAt: Option<int>)

  datatype SummaryData = SummaryData(totalRequests: int, totalAmount: real)

  datatype PaymentSummary = PaymentSummary(default: SummaryData, fallback: SummaryData)

  const ZeroSummary := PaymentSummary(SummaryData(0, 0.0), SummaryData(0, 0.0))

  function AddData(a: SummaryData, b: SummaryData): SummaryData {
    SummaryData(a.totalRequests + b.totalRequests, a.totalAmount + b.totalAmount)
  }

  /** Pointwise sum of two summaries. */
  function AddSummaries(a: PaymentSummary, b: PaymentSummary): PaymentSummary {
    PaymentSummary(AddData(a.default, b.default), AddData(a.fallback, b.fallback))
  }

  // ---------------------------------------------------------------------------
  // Persisting a batch

  /** What persisting a batch does to the store: the words and tags appended, and
      the error that stopped the batch, if any. */
  datatype PersistRun = PersistRun(words: seq<int>, tags: seq<string>, failure: Option<StoreError>)

  /** The batch walked in order: an unparseable timestamp is skipped, a packing
      error stops the walk, everything before it stays appended. */
  function Persisted(createdAt: int, payments: seq<ProcessedPayment>): (run: PersistRun)
    ensures |run.words| == |run.tags| && AllInt32(run.words)
    decreases |payments|
  {
    if payments == [] then PersistRun([], [], None)
    else
      var before := Persisted(createdAt, payments[..|payments| - 1]);
      var p := payments[|payments| - 1];
      if before.failure.Some? || p.requestedAt.None? then before
      else match Pack(createdAt, p.amount, p.requestedAt.value)
        case Failure(e) => before.(failure := Some(e))
        case Success(w) =>
          assert AllInt32(before.words + [w]) by {
            forall i | 0 <= i < |before.words| + 1 ensures IsInt32((before.words + [w])[i]) {
              if i < |before.words| { assert (before.words + [w])[i] == before.words[i]; }
            }
          }
          PersistRun(before.words + [w], before.tags + [p.processor], None)
  }

  /** Once a payment of the batch has failed, the rest of the batch is not looked at. */
  lemma {:induction false} FailureStops(createdAt: int, payments: seq<ProcessedPayment>, k: nat)
    requires k <= |payments|
    requires Persisted(createdAt, payments[..k]).failure.Some?
    ensures Persisted(createdAt, payments) == Persisted(createdAt, payments[..k])
    decreases |payments| - k
  {
    if k < |payments| {
      assert payments[..k + 1][..k] == payments[..k];
      FailureStops(createdAt, payments, k + 1);
    } else {
      assert payments[..k] == payments;
    }
  }

  /** The settlements a batch stands for: every payment whose timestamp parses,
      in batch order, with its amount rounded to whole cents and its tag. */
  function Settled(payments: seq<ProcessedPayment>): seq<StoredItem>
    decreases |payments|
  {
    if payments == [] then []
    else
      var p := payments[|payments| - 1];
      Settled(payments[..|payments| - 1])
        + (if p.requestedAt.Some? then [StoredItem(p.requestedAt.value, Cents(p.amount) as real / 100.0, p.processor)] else [])
  }

  /** Payment `i` walked after a prefix that persisted without error: skipped when
      its timestamp does not parse, otherwise appended to the logs `words0` and
      `tags0` already extended by the prefix, or stopping the walk with its
      packing error. */
  lemma PersistedNext(createdAt: int, payments: seq<ProcessedPayment>, i: nat, words0: seq<int>, tags0: seq<string>)
    requires i < |payments| && Persisted(createdAt, payments[..i]).failure.None?
    ensures payments[i].requestedAt.None? ==> Persisted(createdAt, payments[..i + 1]) == Persisted(createdAt, payments[..i])
    ensures payments[i].requestedAt.Some? ==>
              var pk := Pack(createdAt, payments[i].amount, payments[i].requestedAt.value);
              var before, after := Persisted(createdAt, payments[..i]), Persisted(createdAt, payments[..i + 1]);
              && (pk.Failure? ==> after == before.(failure := Some(pk.error)))
              && (pk.Success? ==>
                    && after.failure.None?
                    && (words0 + before.words) + [pk.value] == words0 + after.words
                    && (tags0 + before.tags) + [payments[i].processor] == tags0 + after.tags)
  {
    assert payments[..i + 1][..i] == payments[..i];
    var before := Persisted(createdAt, payments[..i]);
    if payments[i].requestedAt.Some? {
      var pk := Pack(createdAt, payments[i].amount, payments[i].requestedAt.value);
      if pk.Success? {
        AppendAssoc(words0, before.words, [pk.value]);
        AppendAssoc(tags0, before.tags, [payments[i].processor]);
      }
    }
  }

  /** One more payment after a batch prefix that persisted without error. */
  lemma PersistedLast(createdAt: int, payments: seq<ProcessedPayment>)
    requires payments != [] && Persisted(createdAt, payments).failure.None?
    ensures Persisted(createdAt, payments[..|payments| - 1]).failure.None?
    ensures payments[|payments| - 1].requestedAt.None? ==>
              Persisted(createdAt, payments) == Persisted(createdAt, payments[..|payments| - 1])
    ensures payments[|payments| - 1].requestedAt.Some? ==>
              var p := payments[|payments| - 1];
              var before := Persisted(createdAt, payments[..|payments| - 1]);
              && 0 <= Cents(p.amount) <= AmountMask && 0 <= p.requestedAt.value - createdAt <= TimestampMask
              && Persisted(createdAt, payments)
                 == PersistRun(before.words + [Pack(createdAt, p.amount, p.requestedAt.value).value], before.tags + [p.processor], None)
  {
  }

  /** A batch persisted without error adds exactly its settlements to the listing,
      in batch order and with their own tags. */
  lemma {:induction false} PersistedListing(createdAt: int, payments: seq<ProcessedPayment>)
    requires Persisted(createdAt, payments).failure.None?
    ensures Listing(createdAt, Persisted(createdAt, payments).words, Persisted(createdAt, payments).tags)
            == Settled(payments)
    decreases |payments|
  {
    if payments != [] {
      var init := payments[..|payments| - 1];
      var p := payments[|payments| - 1];
      var before := Persisted(createdAt, init);
      PersistedLast(createdAt, payments);
      PersistedListing(createdAt, init);
      if p.requestedAt.Some? {
        ListingAppendPacked(createdAt, before.words, before.tags, p.amount, p.requestedAt.value, p.processor);
        assert Settled(payments) == Settled(init) + [StoredItem(p.requestedAt.value, Cents(p.amount) as real / 100.0, p.processor)];
      } else {
        assert Settled(payments) == Settled(init) + [];
      }
    }
  }

  // ---------------------------------------------------------------------------
  // Range summary

  predicate InRange(e: StoredItem, from: int, to: int) {
    from <= e.timestamp <= to
  }

  /** The items of `es` with timestamp in `[from, to]` and the given tag, in order. */
  function Group(es: seq<StoredItem>, from: int, to: int, tag: string): (g: seq<StoredItem>)
    ensures forall x :: x in g <==> x in es && InRange(x, from, to) && x.processor == tag
    ensures |g| <= |es|
  {
    if es == [] then []
    else
      (if InRange(es[0], from, to) && es[0].processor == tag then [es[0]] else [])
        + Group(es[1..], from, to, tag)
  }

  function SumValues(es: seq<StoredItem>): real {
    if es == [] then 0.0 else es[0].value + SumValues(es[1..])
  }

  function GroupSummary(es: seq<StoredItem>, from: int, to: int, tag: string): SummaryData {
    var g := Group(es, from, to, tag);
    SummaryData(|g|, SumValues(g))
  }

  /** What a single entry adds to one group. */
  function Contribution(x: StoredItem, from: int, to: int, tag: string): SummaryData {
    if InRange(x, from, to) && x.processor == tag then SummaryData(1, x.value) else SummaryData(0, 0.0)
  }

  lemma GroupSummaryUnfold(es: seq<StoredItem>, from: int, to: int, tag: string)
    requires es != []
    ensures GroupSummary(es, from, to, tag) == AddData(Contribution(es[0], from, to, tag), GroupSummary(es[1..], from, to, tag))
  {
    var g := Group(es, from, to, tag);
    var h := if InRange(es[0], from, to) && es[0].processor == tag then [es[0]] else [];
    assert g == h + Group(es[1..], from, to, tag);
    SumConcat(h, Group(es[1..], from, to, tag));
  }

  /** The `GetDatabaseSummary` computation over a snapshot: exactly two groups,
      "default" and "fallback", each with its count and its sum. */
  function Summarize(es: seq<StoredItem>, from: int, to: int): PaymentSummary {
    PaymentSummary(GroupSummary(es, from, to, "default"), GroupSummary(es, from, to, "fallback"))
  }

  lemma {:induction false} GroupConcat(a: seq<StoredItem>, b: seq<StoredItem>, from: int, to: int, tag: string)
    ensures Group(a + b, from, to, tag) == Group(a, from, to, tag) + Group(b, from, to, tag)
    decreases |a|
  {
    if a != [] {
      assert (a + b)[1..] == a[1..] + b;
      GroupConcat(a[1..], b, from, to, tag);
    } else {
      assert a + b == b;
    }
  }

  lemma {:induction false} SumConcat(a: seq<StoredItem>, b: seq<StoredItem>)
    ensures SumValues(a + b) == SumValues(a) + SumValues(b)
    decreases |a|
  {
    if a != [] {
      assert (a + b)[1..] == a[1..] + b;
      SumConcat(a[1..], b);
    } else {
      assert a + b == b;
    }
  }

  /** One group's summary is additive over the snapshot. */
  lemma {:induction false} GroupSummaryConcat(a: seq<StoredItem>, b: seq<StoredItem>, from: int, to: int, tag: string)
    ensures GroupSummary(a + b, from, to, tag) == AddData(GroupSummary(a, from, to, tag), GroupSummary(b, from, to, tag))
  {
    GroupConcat(a, b, from, to, tag);
    SumConcat(Group(a, from, to, tag), Group(b, from, to, tag));
  }

  /** Summaries are additive over the snapshot: the summary of two runs of entries
      is the pointwise sum of their summaries. */
  lemma SummarizeConcat(a: seq<StoredItem>, b: seq<StoredItem>, from: int, to: int)
    ensures Summarize(a + b, from, to) == AddSummaries(Summarize(a, from, to), Summarize(b, from, to))
  {
    GroupSummaryConcat(a, b, from, to, "default");
    GroupSummaryConcat(a, b, from, to, "fallback");
  }

  /** An entry outside the range, or tagged neither "default" nor "fallback", is
      counted in neither group. */
  lemma {:induction false} IgnoredEntry(es: seq<StoredItem>, x: StoredItem, from: int, to: int)
    requires !InRange(x, from, to) || (x.processor != "default" && x.processor != "fallback")
    ensures Summarize(es + [x], from, to) == Summarize(es, from, to)
  {
    SummarizeConcat(es, [x], from, to);
    assert Group([x], from, to, "default") == [] && Group([x], from, to, "fallback") == [];
  }

  /** An entry in range with one of the two tags adds one request and its value to
      its own group, and nothing to the other. */
  lemma {:induction false} CountedEntry(es: seq<StoredItem>, x: StoredItem, from: int, to: int)
    requires InRange(x, from, to)
    ensures x.processor == "default" ==>
              Summarize(es + [x], from, to)
              == Summarize(es, from, to).(default := AddData(Summarize(es, from, to).default, SummaryData(1, x.value)))
    ensures x.processor == "fallback" ==>
              Summarize(es + [x], from, to)
              == Summarize(es, from, to).(fallback := AddData(Summarize(es, from, to).fallback, SummaryData(1, x.value)))
  {
    SummarizeConcat(es, [x], from, to);
    assert Group([x], from, to, x.processor) == [x];
    assert SumValues([x]) == x.value;
  }

  /** For one group, `[a, b]` plus `[b, c]` is `[a, c]` plus `[b, b]`. */
  lemma {:induction false} GroupSharedBoundary(es: seq<StoredItem>, a: int, b: int, c: int, tag: string)
    requires a <= b <= c
    ensures AddData(GroupSummary(es, a, b, tag), GroupSummary(es, b, c, tag))
            == AddData(GroupSummary(es, a, c, tag), GroupSummary(es, b, b, tag))
    decreases |es|
  {
    if es != [] {
      GroupSharedBoundary(es[1..], a, b, c, tag);
      GroupSummaryUnfold(es, a, b, tag);
      GroupSummaryUnfold(es, b, c, tag);
      GroupSummaryUnfold(es, a, c, tag);
      GroupSummaryUnfold(es, b, b, tag);
    }
  }

  /** Adjacent inclusive ranges that share the boundary `b` count the entries at
      `b` twice: `[a, b]` plus `[b, c]` is `[a, c]` plus `[b, b]`. */
  lemma SharedBoundaryCountsTwice(es: seq<StoredItem>, a: int, b: int, c: int)
    requires a <= b <= c
    ensures AddSummaries(Summarize(es, a, b), Summarize(es, b, c))
            == AddSummaries(Summarize(es, a, c), Summarize(es, b, b))
  {
    GroupSharedBoundary(es, a, b, c, "default");
    GroupSharedBoundary(es, a, b, c, "fallback");
  }

  /** For one group, `[a, b]` plus `[b + 1, c]` is `[a, c]`. */
  lemma {:induction false} GroupDisjointRanges(es: seq<StoredItem>, a: int, b: int, c: int, tag: string)
    requires a <= b < c
    ensures AddData(GroupSummary(es, a, b, tag), GroupSummary(es, b + 1, c, tag)) == GroupSummary(es, a, c, tag)
    decreases |es|
  {
    if es != [] {
      GroupDisjointRanges(es[1..], a, b, c, tag);
      GroupSummaryUnfold(es, a, b, tag);
      GroupSummaryUnfold(es, b + 1, c, tag);
      GroupSummaryUnfold(es, a, c, tag);
    }
  }

  /** Ranges that split at `b | b + 1` do add up exactly. */
  lemma DisjointRangesAdd(es: seq<StoredItem>, a: int, b: int, c: int)
    requires a <= b < c
    ensures AddSummaries(Summarize(es, a, b), Summarize(es, b + 1, c)) == Summarize(es, a, c)
  {
    GroupDisjointRanges(es, a, b, c, "default");
    GroupDisjointRanges(es, a, b, c, "fallback");
  }

  /** An empty store summarises to zero in both groups. */
  lemma EmptySummary(from: int, to: int)
    ensures Summarize([], from, to) == ZeroSummary
  {
  }

  /** The server's `DatabaseService`, owning one memory store. */
  class DatabaseService {
    const store: MemoryStore

    ghost predicate Valid()
      reads this, store
    {
      store.Valid()
    }

    /** A fresh service creates its store at `now`. */
    constructor (now: int)
      ensures Valid() && fresh(store)
      ensures store.createdAt == now && store.Entries() == []
    {
      store := new MemoryStore(now);
    }

    /** `PersistPayments`: add each payment whose timestamp parses, in order; a
        packing error aborts the rest of the batch, and is returned. */
    method PersistPayments(payments: seq<ProcessedPayment>) returns (r: Outcome<StoreError>)
      requires Valid()
      modifies store
      ensures Valid()
      ensures var run := Persisted(store.createdAt, payments);
              && store.items == old(store.items) + run.words
              && store.processors == old(store.processors) + run.tags
              && r == (if run.failure.Some? then Fail(run.failure.value) else Pass)
      ensures payments == [] ==> store.items == old(store.items) && store.processors == old(store.processors)
    {
      if |payments| == 0 {
        return Pass;
      }
      var c := store.createdAt;
      for i := 0 to |payments|
        invariant store.Valid()
        invariant Persisted(c, payments[..i]).failure.None?
        invariant store.items == old(store.items) + Persisted(c, payments[..i]).words
        invariant store.processors == old(store.processors) + Persisted(c, payments[..i]).tags
      {
        var payment := payments[i];
        PersistedNext(c, payments, i, old(store.items), old(store.processors));
        match payment.requestedAt
        case None =>
        case Some(timestamp) =>
          var added := store.Add(timestamp, payment.amount, payment.processor);
          if added.Fail? {
            FailureStops(c, payments, i + 1);
            return added;
          }
      }
      assert payments[..|payments|] == payments;
      r := Pass;
    }

    /** `GetDatabaseSummary`: a missing or unparseable `from` is 0, a missing or
        unparseable `to` is the current time; the snapshot is then summarised. */
    method GetDatabaseSummary(from: Option<int>, to: Option<int>, now: int) returns (s: PaymentSummary)
      requires Valid()
      ensures s == Summarize(store.Entries(), from.GetOr(0), to.GetOr(now))
    {
      var allData := store.GetAll();
      var fromTimestamp := if from.Some? then from.value else 0;
      var toTimestamp := if to.Some? then to.value else now;
      s := Summarize(allData, fromTimestamp, toTimestamp);
    }

    /** `PurgeDatabaseAsync`: the store is cleared, so every later summary is zero. */
    method PurgeDatabase()
      requires Valid()
      modifies store
      ensures Valid()
      ensures store.Entries() == []
      ensures forall from, to :: Summarize(store.Entries(), from, to) == ZeroSummary
    {
      store.Clear();
    }
  }
}
