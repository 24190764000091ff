/** The dashboard's ledger aggregation: paid and unpaid sums matched on the
    lower-cased type, their total, the transaction count, and the five most
    recent transactions by a stable descending sort on date. */
module Ledger {
  import opened Wrappers
  import opened Seqs
  import opened Text

  /** One stored line item of a transaction. */
  datatype TxItem = TxItem(product: Option<string>, name: Option<string>, quantity: real, price: real)

  /** A transaction as the store returns it; `kind` is its `type` string and
      `date` a timestamp. */
  datatype Transaction = Transaction(
    id: string,
    kind: string,
    amount: real,
    date: int,
    category: Option<string>,
    customerName: Option<string>,
    description: Option<string>,
    items: Option<seq<TxItem>>)

  function Amount(t: Transaction): real
  {
    t.amount
  }

  /** `t.type.toLowerCase() === tag`. */
  predicate HasType(t: Transaction, tag: string)
  {
    Lower(t.kind) == tag
  }

  /** `transactions.filter(t => t.type.toLowerCase() === tag)`. */
  function OfType(txs: seq<Transaction>, tag: string): (r: seq<Transaction>)
    ensures forall t :: t in r <==> t in txs && HasType(t, tag)
    ensures forall t {:trigger multiset(r)[t]} :: multiset(r)[t] == if HasType(t, tag) then multiset(txs)[t] else 0
    ensures IsSubseq(r, txs)
    decreases |txs|
  {
    if |txs| == 0 then []
    else
      var rest := OfType(txs[1..], tag);
      assert txs == [txs[0]] + txs[1..];
      assert forall t :: t in txs <==> t == txs[0] || t in txs[1..];
      if HasType(txs[0], tag) then [txs[0]] + rest else rest
  }

  /** Sum of the amounts of the transactions of one type. */
  function TotalOfType(txs: seq<Transaction>, tag: string): real
  {
    Sum(OfType(txs, tag), Amount)
  }

  datatype Summary = Summary(totalTransactions: nat, totalAmount: real, totalPaid: real, totalUnpaid: real)

  /** The four summary figures of the dashboard. */
  function Summarize(txs: seq<Transaction>): (s: Summary)
    ensures s.totalTransactions == |txs|
    ensures s.totalAmount == s.totalPaid + s.totalUnpaid
  {
    var paid := TotalOfType(txs, "paid");
    var unpaid := TotalOfType(txs, "unpaid");
    Summary(|txs|, paid + unpaid, paid, unpaid)
  }

  /** What one transaction adds to the paid, unpaid and neither sums. */
  function PaidShare(t: Transaction): real { ShareOf(t, "paid") }
  function UnpaidShare(t: Transaction): real { ShareOf(t, "unpaid") }
  function OtherShare(t: Transaction): real
  {
    if HasType(t, "paid") || HasType(t, "unpaid") then 0.0 else t.amount
  }

  lemma {:induction false} OfTypeSnoc(txs: seq<Transaction>, t: Transaction, tag: string)
    ensures OfType(txs + [t], tag) == OfType(txs, tag) + (if HasType(t, tag) then [t] else [])
    decreases |txs|
  {
    if |txs| == 0 {
      assert txs + [t] == [t];
    } else {
      assert (txs + [t])[1..] == txs[1..] + [t];
      OfTypeSnoc(txs[1..], t, tag);
    }
  }

  /** What one transaction adds to the sum of type `tag`. */
  function ShareOf(t: Transaction, tag: string): real
  {
    if HasType(t, tag) then t.amount else 0.0
  }

  /** Σ of `ShareOf(_, tag)` over `txs`. */
  function SumShare(txs: seq<Transaction>, tag: string): real
    decreases |txs|
  {
    if |txs| == 0 then 0.0 else SumShare(txs[..|txs| - 1], tag) + ShareOf(txs[|txs| - 1], tag)
  }

  /** The filtered sum of one type equals the per-transaction sum of its
      share. */
  lemma {:induction false} TotalOfTypeByShare(txs: seq<Transaction>, tag: string)
    ensures TotalOfType(txs, tag) == SumShare(txs, tag)
    decreases |txs|
  {
    if |txs| > 0 {
      var init := txs[..|txs| - 1];
      var t := txs[|txs| - 1];
      var last := if HasType(t, tag) then [t] else [];
      assert txs == init + [t];
      TotalOfTypeByShare(init, tag);
      OfTypeSnoc(init, t, tag);
      SumAppend(OfType(init, tag), last, Amount);
      SumSingle(t, Amount);
      assert Sum(last, Amount) == ShareOf(t, tag);
    }
  }

  lemma {:induction false} ShareLinks(txs: seq<Transaction>)
    ensures SumShare(txs, "paid") == Sum(txs, PaidShare)
    ensures SumShare(txs, "unpaid") == Sum(txs, UnpaidShare)
    decreases |txs|
  {
    if |txs| > 0 {
      ShareLinks(txs[..|txs| - 1]);
    }
  }

  lemma {:induction false} SharesPartition(txs: seq<Transaction>)
    ensures Sum(txs, Amount) == Sum(txs, PaidShare) + Sum(txs, UnpaidShare) + Sum(txs, OtherShare)
    decreases |txs|
  {
    if |txs| > 0 {
      SharesPartition(txs[..|txs| - 1]);
      assert "paid" != "unpaid";
    }
  }

  /** The paid and unpaid figures are the per-transaction sums of their
      shares. */
  lemma SummaryByShare(txs: seq<Transaction>)
    ensures Summarize(txs).totalPaid == Sum(txs, PaidShare)
    ensures Summarize(txs).totalUnpaid == Sum(txs, UnpaidShare)
  {
    TotalOfTypeByShare(txs, "paid");
    TotalOfTypeByShare(txs, "unpaid");
    ShareLinks(txs);
  }

  /** Every amount lands in exactly one of paid, unpaid or neither: the
      total amount is the sum of all amounts minus those of transactions of
      any other type, which count toward the number of transactions only. */
  lemma Partition(txs: seq<Transaction>)
    ensures Summarize(txs).totalAmount + Sum(txs, OtherShare) == Sum(txs, Amount)
  {
    SummaryByShare(txs);
    SharesPartition(txs);
  }

  /** Dates are non-increasing along `s`. */
  ghost predicate SortedByDate(s: seq<Transaction>)
  {
    forall i, j :: 0 <= i < j < |s| ==> s[i].date >= s[j].date
  }

  /** The transactions of `s` dated `d`, in the order of `s`. */
  function DatedOn(s: seq<Transaction>, d: int): seq<Transaction>
    decreases |s|
  {
    if |s| == 0 then []
    else (if s[0].date == d then [s[0]] else []) + DatedOn(s[1..], d)
  }

  /** Places `x` into a list sorted latest first, after every element whose
      date is at least its own: among equal dates the element inserted
      earlier stays first. */
  function Insert(x: Transaction, s: seq<Transaction>): seq<Transaction>
    decreases |s|
  {
    if |s| == 0 then [x]
    else if s[0].date >= x.date then [s[0]] + Insert(x, s[1..])
    else [x] + s
  }

  /** A stable sort by date, latest first: the order `sort((a, b) => b.date - a.date)`
      gives. */
  function SortByDate(s: seq<Transaction>): (r: seq<Transaction>)
    ensures |r| == |s|
    ensures multiset(r) == multiset(s)
    ensures SortedByDate(r)
    decreases |s|
  {
    if |s| == 0 then []
    else
      var init := SortByDate(s[..|s| - 1]);
      InsertLast(s, init);
      Insert(s[|s| - 1], init)
  }

  /** Inserting the last element of `s` into a sorted arrangement of the
      others gives a sorted arrangement of `s`. */
  lemma InsertLast(s: seq<Transaction>, init: seq<Transaction>)
    requires |s| > 0
    requires multiset(init) == multiset(s[..|s| - 1]) && SortedByDate(init)
    ensures |Insert(s[|s| - 1], init)| == |s|
    ensures multiset(Insert(s[|s| - 1], init)) == multiset(s)
    ensures SortedByDate(Insert(s[|s| - 1], init))
  {
    var last := s[|s| - 1];
    InsertElements(last, init);
    InsertSorted(last, init);
    assert s == s[..|s| - 1] + [last];
    assert |init| == |s| - 1 by {
      assert |multiset(init)| == |multiset(s[..|s| - 1])|;
    }
  }

  /** Inserting adds exactly `x`. */
  lemma {:induction false} InsertElements(x: Transaction, s: seq<Transaction>)
    ensures multiset(Insert(x, s)) == multiset(s) + multiset{x}
    ensures |Insert(x, s)| == |s| + 1
    decreases |s|
  {
    if |s| > 0 && s[0].date >= x.date {
      InsertElements(x, s[1..]);
      assert s == [s[0]] + s[1..];
    }
  }

  /** Inserting keeps an upper bound that `x` and every element of `s` respect. */
  lemma {:induction false} InsertBound(x: Transaction, s: seq<Transaction>, top: int)
    requires x.date <= top
    requires forall k :: 0 <= k < |s| ==> s[k].date <= top
    ensures forall k :: 0 <= k < |Insert(x, s)| ==> Insert(x, s)[k].date <= top
    decreases |s|
  {
    if |s| > 0 && s[0].date >= x.date {
      InsertBound(x, s[1..], top);
      assert Insert(x, s) == [s[0]] + Insert(x, s[1..]);
    }
  }

  /** The tail of a sorted list is sorted. */
  lemma SortedTail(s: seq<Transaction>)
    requires |s| > 0 && SortedByDate(s)
    ensures SortedByDate(s[1..])
  {
    assert forall i :: 0 <= i < |s| - 1 ==> s[1..][i] == s[i + 1];
  }

  /** Inserting into a sorted list keeps it sorted. */
  lemma {:induction false} InsertSorted(x: Transaction, s: seq<Transaction>)
    requires SortedByDate(s)
    ensures SortedByDate(Insert(x, s))
    decreases |s|
  {
    if |s| > 0 && s[0].date >= x.date {
      var tail := Insert(x, s[1..]);
      SortedTail(s);
      InsertSorted(x, s[1..]);
      InsertBound(x, s[1..], s[0].date);
      assert Insert(x, s) == [s[0]] + tail;
    }
  }

  lemma {:induction false} DatedOnAppend(a: seq<Transaction>, b: seq<Transaction>, d: int)
    ensures DatedOn(a + b, d) == DatedOn(a, d) + DatedOn(b, d)
    decreases |a|
  {
    if |a| == 0 {
      assert a + b == b;
    } else {
      var head := if a[0].date == d then [a[0]] else [];
      assert (a + b)[0] == a[0] && (a + b)[1..] == a[1..] + b;
      assert DatedOn(a + b, d) == head + DatedOn(a[1..] + b, d);
      assert DatedOn(a, d) == head + DatedOn(a[1..], d);
      DatedOnAppend(a[1..], b, d);
    }
  }

  lemma {:induction false} DatedOnNone(s: seq<Transaction>, d: int)
    requires forall k :: 0 <= k < |s| ==> s[k].date < d
    ensures DatedOn(s, d) == []
    decreases |s|
  {
    if |s| > 0 {
      DatedOnNone(s[1..], d);
    }
  }

  lemma DatedOnCons(y: Transaction, s: seq<Transaction>, d: int)
    ensures DatedOn([y] + s, d) == (if y.date == d then [y] else []) + DatedOn(s, d)
  {
    assert ([y] + s)[0] == y && ([y] + s)[1..] == s;
  }

  /** Inserting `x` puts it after every element of its own date. */
  lemma {:induction false} InsertStable(x: Transaction, s: seq<Transaction>, d: int)
    requires SortedByDate(s)
    ensures DatedOn(Insert(x, s), d) == DatedOn(s, d) + (if x.date == d then [x] else [])
    decreases |s|
  {
    if |s| == 0 {
    } else if s[0].date >= x.date {
      SortedTail(s);
      InsertStable(x, s[1..], d);
      assert Insert(x, s) == [s[0]] + Insert(x, s[1..]);
      DatedOnCons(s[0], Insert(x, s[1..]), d);
      DatedOnCons(s[0], s[1..], d);
      assert s == [s[0]] + s[1..];
    } else {
      assert Insert(x, s) == [x] + s;
      DatedOnCons(x, s, d);
      if x.date == d {
        DatedOnNone(s, d);
      }
    }
  }

  /** The sort is stable: for every date, the transactions of that date keep
      their input order. */
  lemma {:induction false} SortStable(s: seq<Transaction>, d: int)
    ensures DatedOn(SortByDate(s), d) == DatedOn(s, d)
    decreases |s|
  {
    if |s| > 0 {
      var init := s[..|s| - 1];
      var x := s[|s| - 1];
      assert s == init + [x];
      assert SortByDate(s) == Insert(x, SortByDate(init));
      SortStable(init, d);
      InsertStable(x, SortByDate(init), d);
      DatedOnAppend(init, [x], d);
    }
  }

  function Min(a: int, b: int): int { if a <= b then a else b }

  /** `[...transactions].sort(by date, latest first).slice(0, 5)`. */
  function Recent(txs: seq<Transaction>): (r: seq<Transaction>)
    ensures |r| == Min(5, |txs|)
    ensures SortedByDate(r)
    ensures multiset(r) <= multiset(txs)
    ensures forall i, j :: 0 <= i < |r| && Min(5, |txs|) <= j < |txs| ==> SortByDate(txs)[j].date <= r[i].date
    ensures r == SortByDate(txs)[..Min(5, |txs|)]
  {
    var sorted := SortByDate(txs);
    var k := Min(5, |txs|);
    assert sorted == sorted[..k] + sorted[k..];
    assert multiset(sorted) == multiset(sorted[..k]) + multiset(sorted[k..]);
    sorted[..k]
  }

  /** What the dashboard shows. */
  datatype DashboardView = DashboardView(summary: Summary, recent: seq<Transaction>)

  function Dashboard(txs: seq<Transaction>): DashboardView
  {
    DashboardView(Summarize(txs), Recent(txs))
  }

  /** A mixed-case ledger: one "Paid", one "UNPAID", one "other". */
  const PaidTx: Transaction := Transaction("a", "Paid", 100.0, 1, None, None, None, None)
  const UnpaidTx: Transaction := Transaction("b", "UNPAID", 50.0, 2, None, None, None, None)
  const OtherTx: Transaction := Transaction("c", "other", 999.0, 3, None, None, None, None)

  /** Each transaction of the mixed-case ledger falls under its own tag only. */
  lemma MixedCaseTypes()
    ensures HasType(PaidTx, "paid") && !HasType(UnpaidTx, "paid") && !HasType(OtherTx, "paid")
    ensures !HasType(PaidTx, "unpaid") && HasType(UnpaidTx, "unpaid") && !HasType(OtherTx, "unpaid")
  {
    var p := Lower("Paid");
    assert p[0] == 'p' && p[1] == 'a' && p[2] == 'i' && p[3] == 'd';
    assert p == "paid";
    var u := Lower("UNPAID");
    assert u[0] == 'u' && u[1] == 'n' && u[2] == 'p' && u[3] == 'a' && u[4] == 'i' && u[5] == 'd';
    assert u == "unpaid";
  }

  /** Types match case-insensitively and an unknown type counts toward the
      number of transactions only. */
  lemma MixedCaseSummary()
    ensures Summarize([PaidTx, UnpaidTx, OtherTx]) == Summary(3, 150.0, 100.0, 50.0)
  {
    var txs := [PaidTx, UnpaidTx, OtherTx];
    MixedCaseTypes();
    assert [PaidTx][..0] == [];
    assert SumShare([], "paid") == 0.0 && SumShare([], "unpaid") == 0.0;
    assert SumShare([PaidTx], "paid") == 100.0 && SumShare([PaidTx], "unpaid") == 0.0;
    assert [PaidTx, UnpaidTx][..1] == [PaidTx];
    assert SumShare([PaidTx, UnpaidTx], "paid") == 100.0;
    assert SumShare([PaidTx, UnpaidTx], "unpaid") == 50.0;
    assert txs[..2] == [PaidTx, UnpaidTx];
    assert SumShare(txs, "paid") == 100.0 && SumShare(txs, "unpaid") == 50.0;
    TotalOfTypeByShare(txs, "paid");
    TotalOfTypeByShare(txs, "unpaid");
  }

  /** Sorting the mixed-case ledger puts the latest transaction first. */
  lemma MixedCaseSorted()
    ensures SortByDate([PaidTx, UnpaidTx, OtherTx]) == [OtherTx, UnpaidTx, PaidTx]
  {
    var txs := [PaidTx, UnpaidTx, OtherTx];
    assert txs[..2] == [PaidTx, UnpaidTx] && [PaidTx, UnpaidTx][..1] == [PaidTx] && [PaidTx][..0] == [];
    assert SortByDate([PaidTx]) == Insert(PaidTx, []) == [PaidTx];
    assert SortByDate([PaidTx, UnpaidTx]) == Insert(UnpaidTx, [PaidTx]) == [UnpaidTx, PaidTx];
    assert Insert(OtherTx, [UnpaidTx, PaidTx]) == [OtherTx, UnpaidTx, PaidTx];
  }

  /** The most recent transaction comes first. */
  lemma MixedCaseRecent()
    ensures Recent([PaidTx, UnpaidTx, OtherTx]) == [OtherTx, UnpaidTx, PaidTx]
  {
    MixedCaseSorted();
    assert [OtherTx, UnpaidTx, PaidTx][..3] == [OtherTx, UnpaidTx, PaidTx];
  }

  /** An empty ledger gives all-zero figures and no recent transactions. */
  lemma EmptyLedger()
    ensures Dashboard([]) == DashboardView(Summary(0, 0.0, 0.0, 0.0), [])
  {
  }
}
