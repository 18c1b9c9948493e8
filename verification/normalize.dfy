/** Wide-to-long normalisation (`convert_to_tableau_format`): one row per
    plan and populated line-count slot. */
module Normalizer {
  import opened Wrappers
  import opened PriceParser
  import opened Dom
  import opened Plans
  import opened Seqs

  /** One long-format row. Prices are in cents; `pricePerLine` is the
      monthly price divided by the line count, exactly. */
  datatype Row = Row(
    providerName: string,
    providerType: string,
    planName: string,
    lineCount: nat,
    monthlyPrice: Cents,
    autopayDiscountAmount: Cents,
    hasAutopayDiscount: bool,
    taxesFeesIncluded: YesNo,
    pricePerLine: real,
    sourceUrl: string)

  /** The row for slot `n` of record `r`. */
  function MakeRow(r: WideRecord, n: nat): (row: Row)
    requires 1 <= n <= PriceSlots && Truthy(r.Slot(n))
    ensures row.lineCount == n && row.monthlyPrice == r.Slot(n).value
    ensures row.pricePerLine * (n as real) == row.monthlyPrice as real
    ensures row.autopayDiscountAmount == r.autopayDiscount.GetOr(0)
    ensures row.hasAutopayDiscount <==> row.autopayDiscountAmount != 0
    ensures row.providerName == r.providerName && row.providerType == r.providerType
    ensures row.planName == r.planName && row.sourceUrl == r.sourceUrl
    ensures row.taxesFeesIncluded == r.taxesFeesIncluded
  {
    var price := r.Slot(n).value;
    var discount := r.autopayDiscount;
    Row(r.providerName, r.providerType, r.planName, n, price,
      if Truthy(discount) then discount.value else 0,
      Truthy(discount),
      r.taxesFeesIncluded,
      (price as real) / (n as real),
      r.sourceUrl)
  }

  /** The rows of record `r` for line counts 1..n, in that order. */
  function RowsUpTo(r: WideRecord, n: nat): seq<Row>
    requires n <= PriceSlots
  {
    if n == 0 then []
    else RowsUpTo(r, n - 1) + (if Truthy(r.Slot(n)) then [MakeRow(r, n)] else [])
  }

  function RowsOf(r: WideRecord): seq<Row> {
    RowsUpTo(r, PriceSlots)
  }

  /** The number of populated (truthy) price slots of a record. */
  function PopulatedSlots(r: WideRecord): nat {
    (if Truthy(r.price1) then 1 else 0) + (if Truthy(r.price2) then 1 else 0)
    + (if Truthy(r.price3) then 1 else 0) + (if Truthy(r.price4) then 1 else 0)
    + (if Truthy(r.price5) then 1 else 0)
  }

  /** The rows of all records, in record order. */
  function NormalizedRows(records: seq<WideRecord>): seq<Row> {
    if |records| == 0 then []
    else NormalizedRows(records[..|records| - 1]) + RowsOf(records[|records| - 1])
  }

  /** The populated slots of all records. */
  function TotalPopulated(records: seq<WideRecord>): nat {
    if |records| == 0 then 0
    else TotalPopulated(records[..|records| - 1]) + PopulatedSlots(records[|records| - 1])
  }

  // ---------------------------------------------------------------------
  // The rows of one record
  // ---------------------------------------------------------------------

  lemma {:induction false} RowsUpToShape(r: WideRecord, n: nat)
    requires n <= PriceSlots
    ensures forall k :: 0 <= k < |RowsUpTo(r, n)| ==>
              var row := RowsUpTo(r, n)[k];
              1 <= row.lineCount <= n && Truthy(r.Slot(row.lineCount)) && row == MakeRow(r, row.lineCount)
    ensures forall k, l :: 0 <= k < l < |RowsUpTo(r, n)| ==>
              RowsUpTo(r, n)[k].lineCount < RowsUpTo(r, n)[l].lineCount
    ensures forall m :: 1 <= m <= n && Truthy(r.Slot(m)) ==>
              exists k :: 0 <= k < |RowsUpTo(r, n)| && RowsUpTo(r, n)[k].lineCount == m
  {
    if n > 0 {
      RowsUpToShape(r, n - 1);
      var pre := RowsUpTo(r, n - 1);
      var tail := if Truthy(r.Slot(n)) then [MakeRow(r, n)] else [];
      var rows := pre + tail;
      assert RowsUpTo(r, n) == rows;
      forall k | 0 <= k < |rows|
        ensures 1 <= rows[k].lineCount <= n && Truthy(r.Slot(rows[k].lineCount))
        ensures rows[k] == MakeRow(r, rows[k].lineCount)
      {
        if k < |pre| {
          assert rows[k] == pre[k];
        }
      }
      forall k, l | 0 <= k < l < |rows| ensures rows[k].lineCount < rows[l].lineCount {
        assert rows[k] == pre[k];
        if l < |pre| {
          assert rows[l] == pre[l];
        }
      }
      forall m | 1 <= m <= n && Truthy(r.Slot(m))
        ensures exists k :: 0 <= k < |rows| && rows[k].lineCount == m
      {
        if m < n {
          var k :| 0 <= k < |pre| && pre[k].lineCount == m;
          assert rows[k] == pre[k];
        } else {
          assert rows[|pre|].lineCount == n;
        }
      }
    }
  }

  /** A record yields one row per populated slot: a row for line count `n`
      exactly when slot `n` is truthy, in ascending line count, each
      carrying that slot's price and the record's fields. */
  lemma RowsOfRecord(r: WideRecord)
    ensures |RowsOf(r)| == PopulatedSlots(r)
    ensures forall k :: 0 <= k < |RowsOf(r)| ==>
              var row := RowsOf(r)[k];
              && 1 <= row.lineCount <= PriceSlots
              && Truthy(r.Slot(row.lineCount))
              && row.monthlyPrice == r.Slot(row.lineCount).value
              && row.pricePerLine * (row.lineCount as real) == row.monthlyPrice as real
              && row.planName == r.planName && row.providerName == r.providerName
    ensures forall k, l :: 0 <= k < l < |RowsOf(r)| ==> RowsOf(r)[k].lineCount < RowsOf(r)[l].lineCount
    ensures forall n :: 1 <= n <= PriceSlots ==>
              (Truthy(r.Slot(n)) <==> exists k :: 0 <= k < |RowsOf(r)| && RowsOf(r)[k].lineCount == n)
  {
    RowsUpToShape(r, PriceSlots);
    RowCount(r);
  }

  lemma RowCount(r: WideRecord)
    ensures |RowsOf(r)| == PopulatedSlots(r)
  {
    var c1 := if Truthy(r.price1) then 1 else 0;
    var c2 := if Truthy(r.price2) then 1 else 0;
    var c3 := if Truthy(r.price3) then 1 else 0;
    var c4 := if Truthy(r.price4) then 1 else 0;
    assert |RowsUpTo(r, 1)| == c1;
    assert |RowsUpTo(r, 2)| == c1 + c2;
    assert |RowsUpTo(r, 3)| == c1 + c2 + c3;
    assert |RowsUpTo(r, 4)| == c1 + c2 + c3 + c4;
  }

  /** The example of a record priced 50 for one line and 70 for two. */
  lemma TwoSlotExample(r: WideRecord)
    requires r.price1 == Some(5000) && r.price2 == Some(7000)
    requires r.price3 == None && r.price4 == None && r.price5 == None
    ensures |RowsOf(r)| == 2
    ensures RowsOf(r)[0].lineCount == 1 && RowsOf(r)[0].pricePerLine == 5000.0
    ensures RowsOf(r)[1].lineCount == 2 && RowsOf(r)[1].pricePerLine == 3500.0
  {
    var row1, row2 := MakeRow(r, 1), MakeRow(r, 2);
    assert row2.pricePerLine * 2.0 == 7000.0;
    assert RowsUpTo(r, 1) == [row1];
    assert RowsUpTo(r, 2) == [row1, row2];
    assert RowsUpTo(r, 3) == [row1, row2];
    assert RowsUpTo(r, 4) == [row1, row2];
  }

  // ---------------------------------------------------------------------
  // All records
  // ---------------------------------------------------------------------

  /** Rows keep record order: normalising two batches of records gives the
      rows of the first, then those of the second. */
  lemma {:induction false} NormalizedAppend(a: seq<WideRecord>, b: seq<WideRecord>)
    ensures NormalizedRows(a + b) == NormalizedRows(a) + NormalizedRows(b)
    decreases |b|
  {
    if |b| == 0 {
      assert a + b == a;
    } else {
      var b' := b[..|b| - 1];
      assert (a + b)[..|a + b| - 1] == a + b';
      assert (a + b)[|a + b| - 1] == b[|b| - 1];
      NormalizedAppend(a, b');
      ConcatAssoc(NormalizedRows(a), NormalizedRows(b'), RowsOf(b[|b| - 1]));
    }
  }

  /** The row count of a run is the number of populated slots over all
      records. */
  lemma {:induction false} NormalizedCount(records: seq<WideRecord>)
    ensures |NormalizedRows(records)| == TotalPopulated(records)
  {
    if |records| > 0 {
      NormalizedCount(records[..|records| - 1]);
      RowsOfRecord(records[|records| - 1]);
    }
  }

  /** A freshly extracted plan yields one row per price found, up to five:
      its slots are filled from the front and none of them is zero. */
  lemma ExtractedPlanRows(c: Element, spec: ProviderSpec, url: string)
    requires PlanFrom(c, spec, url).Some?
    ensures PricesOf(c, spec.priceSelectors).Some?
    ensures |RowsOf(PlanFrom(c, spec, url).value)| == Min(|PricesOf(c, spec.priceSelectors).value|, PriceSlots)
  {
    var r := PlanFrom(c, spec, url).value;
    PlanSlots(c, spec, url);
    RowsOfRecord(r);
    PopulatedIsFilled(r);
  }

  /** When every present slot is non-zero, the populated slots are the
      filled ones. */
  lemma PopulatedIsFilled(r: WideRecord)
    requires forall n :: 1 <= n <= PriceSlots && r.Slot(n).Some? ==> r.Slot(n).value > 0
    ensures PopulatedSlots(r) == |FilledSlots(r, PriceSlots)|
  {
    var c1 := if r.price1.Some? then 1 else 0;
    var c2 := if r.price2.Some? then 1 else 0;
    var c3 := if r.price3.Some? then 1 else 0;
    var c4 := if r.price4.Some? then 1 else 0;
    assert r.Slot(1) == r.price1 && r.Slot(2) == r.price2 && r.Slot(3) == r.price3;
    assert r.Slot(4) == r.price4 && r.Slot(5) == r.price5;
    assert |FilledSlots(r, 1)| == c1;
    assert |FilledSlots(r, 2)| == c1 + c2;
    assert |FilledSlots(r, 3)| == c1 + c2 + c3;
    assert |FilledSlots(r, 4)| == c1 + c2 + c3 + c4;
  }

  /** `convert_to_tableau_format`: for each record, for line counts 1..5,
      append a row when the slot is truthy. */
  method Normalize(records: seq<WideRecord>) returns (rows: seq<Row>)
    ensures rows == NormalizedRows(records)
  {
    rows := [];
    for i := 0 to |records|
      invariant rows == NormalizedRows(records[..i])
    {
      var record := records[i];
      for n := 1 to PriceSlots + 1
        invariant rows == NormalizedRows(records[..i]) + RowsUpTo(record, n - 1)
      {
        var price := record.Slot(n);
        if Truthy(price) {
          rows := rows + [MakeRow(record, n)];
        }
      }
      assert records[..i + 1][..i] == records[..i];
    }
    assert records[..|records|] == records;
  }
}
