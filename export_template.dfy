/** The transaction report (`generateTransactionExportHTML`): a summary of the count, the total
    billed weight and the total revenue, and one table row per transaction in input order. */
module ExportTemplate {
  import opened Strings
  import opened Numbers
  import opened ReceiptModel

  /** The report's local `formatCurrency`: "Rp " and the id-ID text with the default of at most
      three fraction digits. */
  function ExportCurrency(amount: real): (r: string)
    ensures StartsWith(r, "Rp ")
  {
    var text := "Rp " + IdLocale(amount, 3);
    assert text[..3] == "Rp ";
    text
  }

  /** `reduce((sum, t) => sum + t.total_harga, 0)`, adding from the left. */
  function TotalRevenue(ts: seq<Transaction>): real
    decreases |ts|
  {
    if ts == [] then 0.0 else TotalRevenue(ts[..|ts| - 1]) + ts[|ts| - 1].total_harga
  }

  /** `reduce((sum, t) => sum + t.total_kg, 0)`, adding from the left. */
  function TotalWeight(ts: seq<Transaction>): real
    decreases |ts|
  {
    if ts == [] then 0.0 else TotalWeight(ts[..|ts| - 1]) + ts[|ts| - 1].total_kg
  }

  /** One table row. The date cell is `toLocaleDateString('id-ID', ...)` of the transaction date,
      kept here as the date itself. */
  datatype ExportRow = ExportRow(date: DateTime, customer: string, item: string, weight: string,
                                 pricePerKg: string, total: string)

  function RowOf(t: Transaction): ExportRow {
    ExportRow(t.transaction_date, t.customer_name, t.jenis_barang, IdLocale(t.total_kg, 3) + " kg",
              ExportCurrency(t.harga_per_kg), ExportCurrency(t.total_harga))
  }

  /** `transactions.map(...)`: one row per transaction, in input order. */
  function Rows(ts: seq<Transaction>): (r: seq<ExportRow>)
    ensures |r| == |ts|
    ensures forall i :: 0 <= i < |ts| ==> r[i] == RowOf(ts[i])
  {
    if ts == [] then [] else [RowOf(ts[0])] + Rows(ts[1..])
  }

  /** The three summary figures, as numbers and as the texts the report shows. */
  datatype Summary = Summary(count: nat, totalWeight: real, totalRevenue: real,
                             countText: string, weightText: string, revenueText: string)

  datatype Report = Report(summary: Summary, rows: seq<ExportRow>)

  /** `generateTransactionExportHTML`, without the markup around the values and the period line. */
  function ExportReport(ts: seq<Transaction>): (r: Report)
    ensures r.summary.count == |ts| && r.summary.countText == NatToString(|ts|)
    ensures r.summary.totalRevenue == TotalRevenue(ts) && r.summary.totalWeight == TotalWeight(ts)
    ensures StartsWith(r.summary.revenueText, "Rp ")
    ensures |r.rows| == |ts|
    ensures forall i :: 0 <= i < |ts| ==> (r.rows[i].customer == ts[i].customer_name
                                        && r.rows[i].item == ts[i].jenis_barang
                                        && r.rows[i].date == ts[i].transaction_date
                                        && r.rows[i].total == ExportCurrency(ts[i].total_harga))
  {
    var weight := TotalWeight(ts);
    var revenue := TotalRevenue(ts);
    Report(Summary(|ts|, weight, revenue, NatToString(|ts|), IdLocale(weight, 3) + " kg", ExportCurrency(revenue)),
           Rows(ts))
  }

  /** The totals of two lists of transactions put together are the sums of their totals. */
  lemma {:induction false} TotalsAppend(a: seq<Transaction>, b: seq<Transaction>)
    ensures TotalRevenue(a + b) == TotalRevenue(a) + TotalRevenue(b)
    ensures TotalWeight(a + b) == TotalWeight(a) + TotalWeight(b)
    decreases |b|
  {
    if b == [] {
      assert a + b == a;
    } else {
      var c := a + b;
      assert c[..|c| - 1] == a + b[..|b| - 1];
      assert c[|c| - 1] == b[|b| - 1];
      TotalsAppend(a, b[..|b| - 1]);
    }
  }

  /** The totals are the amounts of the first transaction plus the totals of the rest. */
  lemma TotalsCons(t: Transaction, rest: seq<Transaction>)
    ensures TotalRevenue([t] + rest) == t.total_harga + TotalRevenue(rest)
    ensures TotalWeight([t] + rest) == t.total_kg + TotalWeight(rest)
  {
    TotalsAppend([t], rest);
    assert [t][..0] == [];
  }

  /** Rows of two lists put together are the rows of each, in order. */
  lemma {:induction false} RowsAppend(a: seq<Transaction>, b: seq<Transaction>)
    ensures Rows(a + b) == Rows(a) + Rows(b)
  {
    if a == [] {
      assert a + b == b;
    } else {
      assert (a + b)[0] == a[0];
      assert (a + b)[1..] == a[1..] + b;
      RowsAppend(a[1..], b);
    }
  }

  /** The total revenue is at least the amount of any single transaction when all amounts are
      non-negative. */
  lemma {:induction false} RevenueCoversEach(ts: seq<Transaction>, k: nat)
    requires forall i :: 0 <= i < |ts| ==> ts[i].total_harga >= 0.0
    requires k < |ts|
    ensures TotalRevenue(ts) >= ts[k].total_harga
    decreases |ts|
  {
    var init := ts[..|ts| - 1];
    assert forall i :: 0 <= i < |init| ==> init[i] == ts[i];
    if k == |ts| - 1 {
      NonNegativeRevenue(init);
    } else {
      RevenueCoversEach(init, k);
    }
  }

  lemma {:induction false} NonNegativeRevenue(ts: seq<Transaction>)
    requires forall i :: 0 <= i < |ts| ==> ts[i].total_harga >= 0.0
    ensures TotalRevenue(ts) >= 0.0
    decreases |ts|
  {
    if ts != [] {
      var init := ts[..|ts| - 1];
      assert forall i :: 0 <= i < |init| ==> init[i] == ts[i];
      NonNegativeRevenue(init);
    }
  }

  /** An empty list of transactions gives zero totals and no rows. */
  lemma EmptyReport()
    ensures var r := ExportReport([]);
            r.summary.count == 0 && r.summary.totalWeight == 0.0 && r.summary.totalRevenue == 0.0
            && r.rows == [] && r.summary.countText == "0" && r.summary.revenueText == "Rp 0" && r.summary.weightText == "0 kg"
  {
    WholeIdLocaleHasNoComma(0, 3);
  }
}
