/**
 * The invoice table of the dashboard (src/components/dashboard/InvoiceTable.tsx):
 * the order its rows are shown in, the totals above it, what the Chase
 * button does, and the small display rules of each row.
 */
module InvoiceTable {
  import opened Wrappers
  import Text

  /** The columns of an `invoices` row that the table reads. */
  datatype Invoice = Invoice(
    id: string,
    invoiceNumber: Option<string>,
    clientPhone: Option<string>,
    status: Option<string>,
    amount: int)

  // ---------------------------------------------------------------------
  // Order

  /**
   * The `order` record of lines 46-47 with its fallbacks: a null status
   * reads as "unpaid", and a status missing from the record ranks 2.
   */
  function Rank(status: Option<string>): (r: nat)
    ensures r <= 4
  {
    match status.GetOr("unpaid")
    case "overdue" => 0
    case "chasing" => 1
    case "unpaid" => 2
    case "upcoming" => 3
    case "paid" => 4
    case _ => 2
  }

  function RankOf(inv: Invoice): nat
  {
    Rank(inv.status)
  }

  /** The first and last ranks belong to exactly one status each. */
  lemma RankEnds(status: Option<string>)
    ensures Rank(status) == 0 <==> status == Some("overdue")
    ensures Rank(status) == 4 <==> status == Some("paid")
  {
  }

  /**
   * Places `x` before the first row that does not rank strictly below
   * it: the comparator `rank(x) - rank(y)` is not positive there.
   */
  function Insert(x: Invoice, ys: seq<Invoice>): (r: seq<Invoice>)
    ensures |r| == |ys| + 1
    decreases |ys|
  {
    if ys == [] || RankOf(x) <= RankOf(ys[0]) then [x] + ys
    else [ys[0]] + Insert(x, ys[1..])
  }

  /**
   * `[...invoices].sort(comparator)` (lines 44-48). `Array.prototype.sort`
   * is stable, and a stable sort by a key has exactly one result, which
   * this insertion sort computes on a copy of the rows.
   */
  function SortByStatus(xs: seq<Invoice>): (r: seq<Invoice>)
    ensures |r| == |xs|
    decreases |xs|
  {
    if xs == [] then [] else Insert(xs[0], SortByStatus(xs[1..]))
  }

  ghost predicate SortedByRank(s: seq<Invoice>)
  {
    forall i, j :: 0 <= i < j < |s| ==> RankOf(s[i]) <= RankOf(s[j])
  }

  /** The rows of rank `k`, in the order given. */
  function Bucket(s: seq<Invoice>, k: nat): seq<Invoice>
    decreases |s|
  {
    if s == [] then [] else (if RankOf(s[0]) == k then [s[0]] else []) + Bucket(s[1..], k)
  }

  lemma {:induction false} InsertMultiset(x: Invoice, ys: seq<Invoice>)
    ensures multiset(Insert(x, ys)) == multiset(ys) + multiset{x}
    decreases |ys|
  {
    if !(ys == [] || RankOf(x) <= RankOf(ys[0])) {
      InsertMultiset(x, ys[1..]);
      assert ys == [ys[0]] + ys[1..];
    }
  }

  /** Inserting keeps every rank at or above a bound that the row and the rows meet. */
  lemma {:induction false} InsertBound(x: Invoice, ys: seq<Invoice>, lo: nat)
    requires RankOf(x) >= lo && forall j :: 0 <= j < |ys| ==> RankOf(ys[j]) >= lo
    ensures forall j :: 0 <= j < |Insert(x, ys)| ==> RankOf(Insert(x, ys)[j]) >= lo
    decreases |ys|
  {
    if !(ys == [] || RankOf(x) <= RankOf(ys[0])) {
      InsertBound(x, ys[1..], lo);
    }
  }

  lemma {:induction false} InsertSorted(x: Invoice, ys: seq<Invoice>)
    requires SortedByRank(ys)
    ensures SortedByRank(Insert(x, ys))
    decreases |ys|
  {
    if !(ys == [] || RankOf(x) <= RankOf(ys[0])) {
      InsertSorted(x, ys[1..]);
      InsertBound(x, ys[1..], RankOf(ys[0]));
      var rest := Insert(x, ys[1..]);
      assert Insert(x, ys) == [ys[0]] + rest;
    }
  }

  /** Inserting a row adds it to its own rank's rows, in front; no other rank changes. */
  lemma {:induction false} InsertBucket(x: Invoice, ys: seq<Invoice>, k: nat)
    ensures Bucket(Insert(x, ys), k) == (if RankOf(x) == k then [x] else []) + Bucket(ys, k)
    decreases |ys|
  {
    if ys == [] || RankOf(x) <= RankOf(ys[0]) {
      BucketCons(x, ys, k);
    } else {
      var rest := Insert(x, ys[1..]);
      InsertBucket(x, ys[1..], k);
      BucketCons(ys[0], rest, k);
      BucketCons(ys[0], ys[1..], k);
      assert [ys[0]] + ys[1..] == ys;
      if RankOf(x) == k {
        assert Bucket(Insert(x, ys), k) == [x] + Bucket(ys[1..], k);
      } else {
        assert Bucket(Insert(x, ys), k) == (if RankOf(ys[0]) == k then [ys[0]] else []) + Bucket(ys[1..], k);
      }
    }
  }

  lemma BucketCons(h: Invoice, t: seq<Invoice>, k: nat)
    ensures Bucket([h] + t, k) == (if RankOf(h) == k then [h] else []) + Bucket(t, k)
  {
    assert ([h] + t)[1..] == t;
  }

  /** The sorted rows are a permutation of the rows and are ordered by rank. */
  lemma {:induction false} SortPermutes(xs: seq<Invoice>)
    ensures multiset(SortByStatus(xs)) == multiset(xs)
    ensures SortedByRank(SortByStatus(xs))
    decreases |xs|
  {
    if xs != [] {
      SortPermutes(xs[1..]);
      InsertMultiset(xs[0], SortByStatus(xs[1..]));
      InsertSorted(xs[0], SortByStatus(xs[1..]));
      assert xs == [xs[0]] + xs[1..];
    }
  }

  /** Stability: the rows of every rank keep their input order. */
  lemma {:induction false} SortStable(xs: seq<Invoice>, k: nat)
    ensures Bucket(SortByStatus(xs), k) == Bucket(xs, k)
    decreases |xs|
  {
    if xs != [] {
      SortStable(xs[1..], k);
      InsertBucket(xs[0], SortByStatus(xs[1..]), k);
    }
  }

  // ---------------------------------------------------------------------
  // Totals

  predicate IsOpen(inv: Invoice)
  {
    inv.status != Some("paid")
  }

  predicate IsOverdue(inv: Invoice)
  {
    inv.status == Some("overdue")
  }

  /** `filter` with the predicate given. */
  function Filter(s: seq<Invoice>, p: Invoice -> bool): (r: seq<Invoice>)
    ensures |r| <= |s|
    decreases |s|
  {
    if s == [] then [] else (if p(s[0]) then [s[0]] else []) + Filter(s[1..], p)
  }

  /** `reduce((sum, inv) => sum + inv.amount, 0)` */
  function Sum(s: seq<Invoice>): int
    decreases |s|
  {
    if s == [] then 0 else s[0].amount + Sum(s[1..])
  }

  datatype Totals = Totals(openCount: nat, overdueCount: nat, outstanding: int, overdueAmount: int)

  /** `totals` (lines 51-60) of the rows given. */
  function TotalsOf(rows: seq<Invoice>): Totals
  {
    var open := Filter(rows, IsOpen);
    var overdue := Filter(rows, IsOverdue);
    Totals(|open|, |overdue|, Sum(open), Sum(overdue))
  }

  /** An overdue row is open, so the rows overdue are among the rows open. */
  lemma {:induction false} OverdueWithinOpen(s: seq<Invoice>)
    ensures |Filter(s, IsOverdue)| <= |Filter(s, IsOpen)|
    decreases |s|
  {
    if s != [] {
      OverdueWithinOpen(s[1..]);
    }
  }

  /** The totals shown: the overdue count never exceeds the open count. */
  lemma TotalsBound(invoices: seq<Invoice>)
    ensures TotalsOf(SortByStatus(invoices)).overdueCount <= TotalsOf(SortByStatus(invoices)).openCount
  {
    OverdueWithinOpen(SortByStatus(invoices));
  }

  lemma {:induction false} FilterInsert(x: Invoice, ys: seq<Invoice>, p: Invoice -> bool)
    ensures |Filter(Insert(x, ys), p)| == |Filter([x] + ys, p)|
    ensures Sum(Filter(Insert(x, ys), p)) == Sum(Filter([x] + ys, p))
    decreases |ys|
  {
    if !(ys == [] || RankOf(x) <= RankOf(ys[0])) {
      FilterInsert(x, ys[1..], p);
      var y := ys[0];
      assert ([y] + Insert(x, ys[1..]))[1..] == Insert(x, ys[1..]);
      assert ([x] + ys[1..])[1..] == ys[1..];
      assert ([x] + ys)[1..] == ys && ys[1..] == ([y] + ys[1..])[1..];
      var fy := if p(y) then [y] else [];
      var fx := if p(x) then [x] else [];
      assert Filter(ys, p) == fy + Filter(ys[1..], p);
      assert Sum(fy + Filter(Insert(x, ys[1..]), p)) == Sum(fy) + Sum(Filter(Insert(x, ys[1..]), p)) by {
        SumHead(fy, Filter(Insert(x, ys[1..]), p));
      }
      assert Sum(fx + Filter(ys[1..], p)) == Sum(fx) + Sum(Filter(ys[1..], p)) by {
        SumHead(fx, Filter(ys[1..], p));
      }
      assert Sum(fx + Filter(ys, p)) == Sum(fx) + Sum(Filter(ys, p)) by {
        SumHead(fx, Filter(ys, p));
      }
      assert Sum(fy + Filter(ys[1..], p)) == Sum(fy) + Sum(Filter(ys[1..], p)) by {
        SumHead(fy, Filter(ys[1..], p));
      }
    }
  }

  lemma SumHead(a: seq<Invoice>, b: seq<Invoice>)
    requires |a| <= 1
    ensures Sum(a + b) == Sum(a) + Sum(b)
  {
    if a != [] {
      assert (a + b)[1..] == b;
      assert a[1..] == [];
    } else {
      assert a + b == b;
    }
  }

  lemma {:induction false} FilterSort(xs: seq<Invoice>, p: Invoice -> bool)
    ensures |Filter(SortByStatus(xs), p)| == |Filter(xs, p)|
    ensures Sum(Filter(SortByStatus(xs), p)) == Sum(Filter(xs, p))
    decreases |xs|
  {
    if xs != [] {
      var rest := SortByStatus(xs[1..]);
      FilterSort(xs[1..], p);
      FilterInsert(xs[0], rest, p);
      assert ([xs[0]] + rest)[1..] == rest;
      var fx := if p(xs[0]) then [xs[0]] else [];
      SumHead(fx, Filter(rest, p));
      SumHead(fx, Filter(xs[1..], p));
    }
  }

  /** Sorting does not change the totals: they are those of the rows as given. */
  lemma TotalsOfSorted(invoices: seq<Invoice>)
    ensures TotalsOf(SortByStatus(invoices)) == TotalsOf(invoices)
  {
    FilterSort(invoices, IsOpen);
    FilterSort(invoices, IsOverdue);
  }

  // ---------------------------------------------------------------------
  // Row actions and display

  datatype Chase = NoPhone | StartFixIt | OpenCallsPage(invoice: Invoice)

  /**
   * `handleChase` (lines 83-100): without a phone number nothing is
   * dialled; INV-047 while payroll is at risk starts the Fix-It flow;
   * every other row opens the calls page with the invoice.
   */
  function HandleChase(inv: Invoice, payrollAtRisk: bool): (r: Chase)
    ensures r == NoPhone <==> inv.clientPhone.None? || inv.clientPhone == Some("")
    ensures r == StartFixIt <==> r != NoPhone && inv.invoiceNumber == Some("INV-047") && payrollAtRisk
    ensures r.OpenCallsPage? ==> r.invoice == inv && inv.clientPhone.Some? && inv.clientPhone.value != ""
  {
    if inv.clientPhone.None? || inv.clientPhone.value == "" then NoPhone
    else if inv.invoiceNumber == Some("INV-047") && payrollAtRisk then StartFixIt
    else OpenCallsPage(inv)
  }

  /** `charAt(0).toUpperCase() + slice(1)` */
  function Capitalise(s: string): (r: string)
    ensures |r| == |s|
    ensures s != [] ==> r[0] == Text.UpperChar(s[0]) && r[1..] == s[1..]
  {
    if s == [] then "" else [Text.UpperChar(s[0])] + s[1..]
  }

  /** The badge text of line 284. */
  function StatusLabel(status: Option<string>): string
  {
    Capitalise(status.GetOr("unpaid"))
  }

  /** A null status shows as "Unpaid", and lowercasing a label gives back a lowercase status. */
  lemma StatusLabelSpec(status: Option<string>)
    ensures status.None? ==> StatusLabel(status) == "Unpaid"
    ensures status.Some? && Text.Lower(status.value) == status.value ==> Text.Lower(StatusLabel(status)) == status.value
  {
    var s := status.GetOr("unpaid");
    if status.None? {
      assert Text.UpperChar('u') == 'U';
    }
    if status.Some? && Text.Lower(s) == s && s != [] {
      var l := StatusLabel(status);
      assert Text.LowerChar(s[0]) == s[0];
      assert Text.LowerChar(l[0]) == s[0];
      forall i | 0 <= i < |s|
        ensures Text.Lower(l)[i] == s[i]
      {
        if i > 0 {
          assert l[i] == s[i];
          assert Text.Lower(s)[i] == Text.LowerChar(s[i]);
        }
      }
    }
  }

  /** The "+Nd" marker (line 273). */
  predicate ShowsOverdueDays(inv: Invoice, overdueDays: int)
  {
    overdueDays > 0 && inv.status == Some("overdue")
  }

  /** The Chase button (line 290). */
  predicate ShowsChase(inv: Invoice)
  {
    inv.status == Some("overdue")
  }

  /** The payment Link button (line 300). */
  predicate ShowsLink(inv: Invoice)
  {
    inv.status != Some("paid")
  }

  /**
   * A row with the overdue marker has Chase, a row with Chase has Link,
   * and each button matches the rank the row is sorted by.
   */
  lemma ButtonsNest(inv: Invoice, overdueDays: int)
    ensures ShowsOverdueDays(inv, overdueDays) ==> ShowsChase(inv)
    ensures ShowsChase(inv) ==> ShowsLink(inv)
    ensures ShowsChase(inv) <==> RankOf(inv) == 0
    ensures ShowsLink(inv) <==> RankOf(inv) != 4
  {
    RankEnds(inv.status);
  }

  /** What `savePhone` (line 70) writes: the edited number without surrounding white space. */
  function SavedPhone(edited: string): (r: string)
    ensures r == Text.Trim(edited)
    ensures r == [] || (!Text.IsSpace(r[0]) && !Text.IsSpace(r[|r| - 1]))
    ensures exists k :: Text.OccursAt(edited, r, k)
  {
    Text.TrimSpec(edited);
    Text.Trim(edited)
  }
}
