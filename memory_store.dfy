/** The database server's volatile store (`MemoryStore`): each settlement is one
    C# `int`, `(relMs << 16) | cents`, kept in a list beside a parallel list of
    processor tags. */
module Store {
  import opened Wrappers
  import opened Rounding
  import opened TwosComplement

  /** 16 bits of amount (at most 655.35) and 16 bits of milliseconds since creation. */
  const AmountMask: int := 0xffff
  const TimestampMask: int := 0xffff

  /** Why packing throws: the `(int)` cast overflows, the cents exceed the mask,
      the cents are negative (only in the corrected `Pack`), or the timestamp
      falls outside the 16-bit window. */
  datatype StoreError = AmountOverflow | AmountTooHigh | AmountNegative | TimestampOutOfRange

  /** The amount and the absolute timestamp held by one packed word. */
  datatype Unpacked = Unpacked(amount: real, timestamp: int)

  /** One unpacked entry as `GetAll` lists it. */
  datatype StoredItem = StoredItem(timestamp: int, value: real, processor: string)

  /** Whole cents of `amount`, half away from zero. */
  function Cents(amount: real): int {
    RoundHalfAway(amount * 100.0)
  }

  /** `Pack` as written: only the upper bound of the cents is checked, so a
      negative amount is packed with its sign bits over the timestamp field. */
  function PackAsWritten(createdAt: int, amount: real, timestampMs: int): (r: Result<int, StoreError>)
    ensures r.Success? ==> IsInt32(r.value)
  {
    var cents := Cents(amount);
    if !IsInt32(cents) then Failure(AmountOverflow)
    else if cents > AmountMask then Failure(AmountTooHigh)
    else
      var rel := timestampMs - createdAt;
      if rel < 0 || rel > TimestampMask then Failure(TimestampOutOfRange)
      else Success(Or(ShiftLeft16(rel), cents))
  }

  /** `Pack` with the lower bound on the cents that the upper-bound check implies:
      a negative amount is refused like one above the mask. */
  function Pack(createdAt: int, amount: real, timestampMs: int): (r: Result<int, StoreError>)
    ensures r.Success? <==>
              0 <= Cents(amount) <= AmountMask && 0 <= timestampMs - createdAt <= TimestampMask
    ensures r.Success? ==> IsInt32(r.value)
    ensures !(0 <= Cents(amount) <= AmountMask) ==> r.Failure? && !r.error.TimestampOutOfRange?
    ensures !IsInt32(Cents(amount)) ==> r == Failure(AmountOverflow)
    ensures AmountMask < Cents(amount) <= MaxInt32 ==> r == Failure(AmountTooHigh)
    ensures MinInt32 <= Cents(amount) < 0 ==> r == Failure(AmountNegative)
    ensures r == Failure(TimestampOutOfRange) <==>
              0 <= Cents(amount) <= AmountMask && !(0 <= timestampMs - createdAt <= TimestampMask)
  {
    var cents := Cents(amount);
    if !IsInt32(cents) then Failure(AmountOverflow)
    else if cents > AmountMask then Failure(AmountTooHigh)
    else if cents < 0 then Failure(AmountNegative)
    else
      var rel := timestampMs - createdAt;
      if rel < 0 || rel > TimestampMask then Failure(TimestampOutOfRange)
      else Success(Or(ShiftLeft16(rel), cents))
  }

  /** `Unpack`: `packed & 0xffff` are the cents, `(packed >> 16) & 0xffff` the
      milliseconds since creation. */
  function Unpack(createdAt: int, packed: int): Unpacked
    requires IsInt32(packed)
  {
    var cents := Low16(packed);
    var rel := Low16(ShiftRight16(packed));
    Unpacked(cents as real / 100.0, createdAt + rel)
  }

  /** Round trip: an accepted settlement unpacks to its amount rounded to whole
      cents, which is within half a cent of the amount, and to its own timestamp,
      also when the relative timestamp sets the int32 sign bit. */
  lemma {:induction false} PackRoundTrip(createdAt: int, amount: real, timestampMs: int)
    requires 0 <= Cents(amount) <= AmountMask
    requires 0 <= timestampMs - createdAt <= TimestampMask
    ensures Pack(createdAt, amount, timestampMs).Success?
    ensures Unpack(createdAt, Pack(createdAt, amount, timestampMs).value)
            == Unpacked(Cents(amount) as real / 100.0, timestampMs)
    ensures amount - 0.005 <= Cents(amount) as real / 100.0 <= amount + 0.005
  {
    var rel, cents := timestampMs - createdAt, Cents(amount);
    OrOfDisjointHalves(rel, cents);
    FieldsOfPattern(rel, cents);
  }

  /** The corrected `Pack` differs from the one as written only on negative amounts. */
  lemma PackAgreesWhenNotNegative(createdAt: int, amount: real, timestampMs: int)
    requires Cents(amount) >= 0
    ensures PackAsWritten(createdAt, amount, timestampMs) == Pack(createdAt, amount, timestampMs)
  {
  }

  /** As written, an amount between -655.36 and -0.01 is accepted, and its word is
      the negative cents themselves whatever the timestamp: it is read back as
      `cents + 65536` cents stored 65535 ms after creation. */
  lemma {:induction false} NegativeAmountIsCorrupted(createdAt: int, amount: real, timestampMs: int)
    requires -0x1_0000 <= Cents(amount) < 0
    requires 0 <= timestampMs - createdAt <= TimestampMask
    ensures PackAsWritten(createdAt, amount, timestampMs) == Success(Cents(amount))
    ensures Unpack(createdAt, Cents(amount))
            == Unpacked((Cents(amount) + 0x1_0000) as real / 100.0, createdAt + 0xffff)
    ensures Pack(createdAt, amount, timestampMs) == Failure(AmountNegative)
  {
    OrOverNegativeLow(timestampMs - createdAt, Cents(amount));
    FieldsOfNegativeLow(Cents(amount));
  }

  /** The smallest instance: -0.01 at the creation instant comes back as 655.35
      at 65535 ms. */
  lemma NegativeCentIsCorrupted()
    ensures PackAsWritten(0, -0.01, 0) == Success(-1)
    ensures Unpack(0, -1) == Unpacked(655.35, 0xffff)
  {
    assert Cents(-0.01) == -1;
    NegativeAmountIsCorrupted(0, -0.01, 0);
  }

  /** Entry `i` of the listing: the unpacked word, with the tag at the same index
      (or "default" if the tag list were shorter). */
  function ItemAt(createdAt: int, items: seq<int>, processors: seq<string>, i: int): StoredItem
    requires 0 <= i < |items| && IsInt32(items[i])
  {
    var u := Unpack(createdAt, items[i]);
    StoredItem(u.timestamp, u.amount, if i < |processors| then processors[i] else "default")
  }

  predicate AllInt32(items: seq<int>) {
    forall i :: 0 <= i < |items| ==> IsInt32(items[i])
  }

  /** What `GetAll` lists: one unpacked item per packed word, in insertion order. */
  function Listing(createdAt: int, items: seq<int>, processors: seq<string>): (es: seq<StoredItem>)
    requires AllInt32(items)
    ensures |es| == |items|
    ensures forall i :: 0 <= i < |items| ==> es[i] == ItemAt(createdAt, items, processors, i)
  {
    seq(|items|, i requires 0 <= i < |items| => ItemAt(createdAt, items, processors, i))
  }

  /** Appending one word and one tag appends exactly one item to the listing. */
  lemma {:induction false} ListingAppend(createdAt: int, items: seq<int>, processors: seq<string>, w: int, p: string)
    requires AllInt32(items) && IsInt32(w)
    requires |items| == |processors|
    ensures AllInt32(items + [w])
    ensures Listing(createdAt, items + [w], processors + [p])
            == Listing(createdAt, items, processors)
               + [StoredItem(Unpack(createdAt, w).timestamp, Unpack(createdAt, w).amount, p)]
  {
    assert AllInt32(items + [w]) by {
      forall i | 0 <= i < |items + [w]| ensures IsInt32((items + [w])[i]) {
        if i < |items| { assert (items + [w])[i] == items[i]; }
      }
    }
    var a := Listing(createdAt, items + [w], processors + [p]);
    var b := Listing(createdAt, items, processors)
             + [StoredItem(Unpack(createdAt, w).timestamp, Unpack(createdAt, w).amount, p)];
    assert |a| == |b|;
    forall i | 0 <= i < |a| ensures a[i] == b[i] {
      if i < |items| {
        assert ItemAt(createdAt, items + [w], processors + [p], i) == ItemAt(createdAt, items, processors, i);
      }
    }
  }

  /** Appending an accepted settlement lists it with its own timestamp and its
      amount rounded to whole cents. */
  lemma ListingAppendPacked(createdAt: int, items: seq<int>, processors: seq<string>, amount: real, timestampMs: int, p: string)
    requires AllInt32(items) && |items| == |processors|
    requires 0 <= Cents(amount) <= AmountMask && 0 <= timestampMs - createdAt <= TimestampMask
    ensures Pack(createdAt, amount, timestampMs).Success?
    ensures AllInt32(items + [Pack(createdAt, amount, timestampMs).value])
    ensures Listing(createdAt, items + [Pack(createdAt, amount, timestampMs).value], processors + [p])
            == Listing(createdAt, items, processors) + [StoredItem(timestampMs, Cents(amount) as real / 100.0, p)]
  {
    PackRoundTrip(createdAt, amount, timestampMs);
    ListingAppend(createdAt, items, processors, Pack(createdAt, amount, timestampMs).value, p);
  }

  /** `MemoryStore`: the packed words and the processor tags, in two parallel lists. */
  class MemoryStore {
    const createdAt: int
    var items: seq<int>
    var processors: seq<string>

    /** Every word is an int32 and the two lists have the same length. */
    ghost predicate Valid()
      reads this
    {
      AllInt32(items) && |items| == |processors|
    }

    /** The listing the store currently holds. */
    function Entries(): seq<StoredItem>
      reads this
      requires Valid()
    {
      Listing(createdAt, items, processors)
    }

    /** The store remembers its creation instant, read from the clock by the caller. */
    constructor (now: int)
      ensures Valid()
      ensures createdAt == now && items == [] && processors == []
    {
      createdAt := now;
      items := [];
      processors := [];
    }

    /** `Add(timestampMs, value, processor)`: pack, then append to both lists; when
        packing throws, nothing is appended. */
    method Add(timestampMs: int, value: real, processor: string) returns (r: Outcome<StoreError>)
      requires Valid()
      modifies this
      ensures Valid()
      ensures match Pack(createdAt, value, timestampMs)
              case Success(w) =>
                r == Pass && items == old(items) + [w] && processors == old(processors) + [processor]
              case Failure(e) =>
                r == Fail(e) && items == old(items) && processors == old(processors)
      ensures r == Pass ==>
                Entries() == old(Entries()) + [StoredItem(timestampMs, Cents(value) as real / 100.0, processor)]
    {
      var packed := Pack(createdAt, value, timestampMs);
      match packed
      case Failure(e) =>
        r := Fail(e);
      case Success(w) =>
        PackRoundTrip(createdAt, value, timestampMs);
        ListingAppend(createdAt, items, processors, w, processor);
        items := items + [w];
        processors := processors + [processor];
        r := Pass;
    }

    /** The two-argument `Add`: the entry is tagged "default". */
    method AddDefault(timestampMs: int, value: real) returns (r: Outcome<StoreError>)
      requires Valid()
      modifies this
      ensures Valid()
      ensures match Pack(createdAt, value, timestampMs)
              case Success(w) =>
                r == Pass && items == old(items) + [w] && processors == old(processors) + ["default"]
              case Failure(e) =>
                r == Fail(e) && items == old(items) && processors == old(processors)
    {
      r := Add(timestampMs, value, "default");
    }

    /** `GetAll`: unpack every word in order, pairing it with the tag at its index. */
    method GetAll() returns (result: seq<StoredItem>)
      requires Valid()
      ensures result == Entries()
    {
      result := [];
      for i := 0 to |items|
        invariant |result| == i
        invariant forall j :: 0 <= j < i ==> result[j] == ItemAt(createdAt, items, processors, j)
      {
        var unpacked := Unpack(createdAt, items[i]);
        var processor := if i < |processors| then processors[i] else "default";
        result := result + [StoredItem(unpacked.timestamp, unpacked.amount, processor)];
      }
    }

    /** `Clear`: both lists become empty. */
    method Clear()
      requires Valid()
      modifies this
      ensures Valid()
      ensures items == [] && processors == [] && Entries() == []
    {
      items := [];
      processors := [];
    }
  }
}
