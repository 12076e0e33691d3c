/** The loop the generated decoders end with: from a bit set of the fields seen and a mask of
    the required ones, the names of the required fields not seen. */
module RequiredFields {
  import opened Bytes
  import opened Decimal

  /** A field beyond the name table would be reported by its number. */
  function NameOf(names: seq<string>, field: nat): string {
    if field < |names| then names[field] else Itoa(field)
  }

  function NamesOf(names: seq<string>, fields: seq<nat>): (r: seq<string>)
    ensures |r| == |fields| && forall i :: 0 <= i < |r| ==> r[i] == NameOf(names, fields[i])
  {
    seq(|fields|, i requires 0 <= i < |fields| => NameOf(names, fields[i]))
  }

  lemma NamesConcat(names: seq<string>, a: seq<nat>, b: seq<nat>)
    ensures NamesOf(names, a + b) == NamesOf(names, a) + NamesOf(names, b)
    ensures |b| == 1 ==> NamesOf(names, a + b) == NamesOf(names, a) + [NameOf(names, b[0])]
  {
  }

  // ----- listing fields in order

  /** The fields below f that miss picks out. */
  function ListBelow(miss: nat -> bool, f: nat): seq<nat> {
    if f == 0 then [] else ListBelow(miss, f - 1) + if miss(f - 1) then [f - 1] else []
  }

  predicate Ascending(fields: seq<nat>) {
    forall j, k :: 0 <= j < k < |fields| ==> fields[j] < fields[k]
  }

  lemma {:induction false} ListMeans(miss: nat -> bool, f: nat)
    ensures Ascending(ListBelow(miss, f))
    ensures forall g: nat :: g in ListBelow(miss, f) <==> g < f && miss(g)
  {
    if f > 0 {
      ListMeans(miss, f - 1);
      var front := ListBelow(miss, f - 1);
      forall k | 0 <= k < |front| ensures front[k] < f - 1 {
        assert front[k] in front;
      }
    }
  }

  /** Nothing to list between low and high. */
  lemma {:induction false} ListSkips(miss: nat -> bool, low: nat, high: nat)
    requires low <= high && forall g: nat :: low <= g < high ==> !miss(g)
    ensures ListBelow(miss, high) == ListBelow(miss, low)
    decreases high - low
  {
    if low < high {
      ListSkips(miss, low, high - 1);
    }
  }

  // ----- the loop

  /** Field f is required and was not seen. */
  predicate Missing(seen: seq<bv8>, masks: seq<bv8>, f: nat) {
    f / 8 < |masks| && f / 8 < |seen| && Bit(masks[f / 8], f % 8) && !Bit(seen[f / 8], f % 8)
  }

  function MissingFrom(seen: seq<bv8>, masks: seq<bv8>): nat -> bool {
    (f: nat) => Missing(seen, masks, f)
  }

  /** The missing fields of all bytes, in the order the loop reports them. */
  function MissingList(seen: seq<bv8>, masks: seq<bv8>): seq<nat> {
    ListBelow(MissingFrom(seen, masks), 8 * |masks|)
  }

  /** What is reported: every required field not seen, no other, in ascending order, once. */
  lemma MissingMeans(seen: seq<bv8>, masks: seq<bv8>, f: nat)
    requires |seen| == |masks|
    ensures Ascending(MissingList(seen, masks))
    ensures f in MissingList(seen, masks) <==>
      f / 8 < |masks| && Bit(masks[f / 8], f % 8) && !Bit(seen[f / 8], f % 8)
  {
    ListMeans(MissingFrom(seen, masks), 8 * |masks|);
    assert MissingFrom(seen, masks)(f) == Missing(seen, masks, f);
  }

  /** The set bits of result are the fields of byte i from bit low on that are still to list. */
  predicate Unlisted(miss: nat -> bool, i: nat, low: nat, result: bv8) {
    forall n: nat :: n < 8 ==> (Bit(result, n) <==> low <= n && miss(8 * i + n))
  }

  /** One turn of the inner loop: the lowest set bit is the next field to report. */
  lemma OneReported(miss: nat -> bool, i: nat, low: nat, result: bv8, bitIdx: nat, next: bv8)
    requires low <= 8 && Unlisted(miss, i, low, result) && Ones(result, 8) > 0
    requires bitIdx == TrailingZeros(result, 8) && next == result & !Mask(bitIdx)
    ensures result != 0 && low <= bitIdx < 8
    ensures ListBelow(miss, 8 * i + bitIdx + 1) == ListBelow(miss, 8 * i + low) + [8 * i + bitIdx]
    ensures Unlisted(miss, i, bitIdx + 1, next) && Ones(next, 8) == Ones(result, 8) - 1
  {
    ZeroHasNoOnes(result);
    NoOnes(result, 8);
    assert miss(8 * i + bitIdx);
    forall g: nat | 8 * i + low <= g < 8 * i + bitIdx ensures !miss(g) {
      assert !Bit(result, g - 8 * i);
    }
    ListSkips(miss, 8 * i + low, 8 * i + bitIdx);
    OnesAfterClear(result, bitIdx, 8);
    forall n: nat | n < 8 ensures Bit(next, n) <==> bitIdx + 1 <= n && miss(8 * i + n) {
      ClearBit(result, bitIdx, Mask(bitIdx), n);
    }
  }

  /** The same turn, in names. */
  lemma OneNamed(
    names: seq<string>, miss: nat -> bool, i: nat, low: nat, result: bv8, bitIdx: nat, next: bv8, before: seq<string>,
    failures: seq<string>)
    requires low <= 8 && Unlisted(miss, i, low, result) && Ones(result, BYTE_WIDTH) > 0
    requires bitIdx == TrailingZeros(result, BYTE_WIDTH) && next == result & !Mask(bitIdx)
    requires NamesOf(names, ListBelow(miss, 8 * i + low)) == before + failures
    ensures bitIdx < 8 && Unlisted(miss, i, bitIdx + 1, next)
    ensures Ones(next, BYTE_WIDTH) == Ones(result, BYTE_WIDTH) - 1
    ensures NamesOf(names, ListBelow(miss, 8 * i + (bitIdx + 1))) ==
      before + (failures + [NameOf(names, i * 8 + bitIdx)])
  {
    OneReported(miss, i, low, result, bitIdx, next);
    NamesConcat(names, ListBelow(miss, 8 * i + low), [8 * i + bitIdx]);
    assert before + (failures + [NameOf(names, i * 8 + bitIdx)]) ==
      before + failures + [NameOf(names, i * 8 + bitIdx)];
  }

  lemma AllReported(miss: nat -> bool, i: nat, low: nat, result: bv8)
    requires low <= 8 && Unlisted(miss, i, low, result) && Ones(result, 8) == 0
    ensures ListBelow(miss, 8 * (i + 1)) == ListBelow(miss, 8 * i + low)
  {
    NoOnes(result, 8);
    forall g: nat | 8 * i + low <= g < 8 * (i + 1) ensures !miss(g) {
      assert !Bit(result, g - 8 * i);
    }
    ListSkips(miss, 8 * i + low, 8 * (i + 1));
  }

  lemma FirstResult(seen: seq<bv8>, masks: seq<bv8>, i: nat)
    requires i < |seen| && i < |masks|
    ensures Unlisted(MissingFrom(seen, masks), i, 0, (seen[i] & masks[i]) ^ masks[i])
  {
    var result := (seen[i] & masks[i]) ^ masks[i];
    forall n: nat | n < 8
      ensures Bit(result, n) <==> MissingFrom(seen, masks)(8 * i + n)
    {
      XorMissing(seen[i], masks[i], n);
      assert (8 * i + n) / 8 == i && (8 * i + n) % 8 == n;
    }
  }

  /** The inner loop, over the bits of result0: it clears one bit a turn and never takes the
      trailing zeros of zero. */
  method MissingInByte(result0: bv8, i: nat, names: seq<string>, ghost miss: nat -> bool)
    returns (failures: seq<string>)
    requires Unlisted(miss, i, 0, result0)
    ensures NamesOf(names, ListBelow(miss, 8 * (i + 1))) == NamesOf(names, ListBelow(miss, 8 * i)) + failures
  {
    failures := [];
    ghost var low: nat := 0;
    ghost var before := NamesOf(names, ListBelow(miss, 8 * i));
    var result := result0;
    var missed := Ones(result, BYTE_WIDTH);
    for bitN := 0 to missed
      invariant low <= 8 && Ones(result, BYTE_WIDTH) == missed - bitN && Unlisted(miss, i, low, result)
      invariant NamesOf(names, ListBelow(miss, 8 * i + low)) == before + failures
    {
      var bitIdx := TrailingZeros(result, BYTE_WIDTH);
      OneNamed(names, miss, i, low, result, bitIdx, result & !Mask(bitIdx), before, failures);
      var fieldIdx := i * 8 + bitIdx;
      failures := failures + [NameOf(names, fieldIdx)];
      result := result & !Mask(bitIdx);
      low := bitIdx + 1;
    }
    AllReported(miss, i, low, result);
  }

  /** The failures are the names of the missing fields, in order. */
  method ReportMissing(seen: seq<bv8>, masks: seq<bv8>, names: seq<string>) returns (failures: seq<string>)
    requires |seen| == |masks|
    ensures failures == NamesOf(names, MissingList(seen, masks))
  {
    failures := [];
    ghost var miss := MissingFrom(seen, masks);
    for i := 0 to |masks|
      invariant failures == NamesOf(names, ListBelow(miss, 8 * i))
    {
      FirstResult(seen, masks, i);
      var missed := MissingInByte((seen[i] & masks[i]) ^ masks[i], i, names, miss);
      failures := failures + missed;
    }
  }

  /** When every required field has a name, no field is ever reported by number. */
  lemma AlwaysNamed(seen: seq<bv8>, masks: seq<bv8>, names: seq<string>, f: nat)
    requires |seen| == |masks| && f in MissingList(seen, masks)
    requires forall n: nat :: |names| <= n < 8 * |masks| ==> !Bit(masks[n / 8], n % 8)
    ensures f < |names| && NameOf(names, f) == names[f]
  {
    MissingMeans(seen, masks, f);
  }
}
