/**
 * The benchmark panel (src/components/dashboard/BenchmarkPanel.tsx): a
 * fixed table of metrics, the count of metrics per status, and the style
 * each status is drawn with.
 */
module Benchmark {
  datatype Status = Red | Amber | Green

  datatype Row = Row(metric: string, you: string, avg: string, gap: string, status: Status)

  /** `benchmarks` (lines 5-12). */
  const BENCHMARKS: seq<Row> := [
    Row("Invoice Payment Time", "34 days", "22 days", "+12 days", Red),
    Row("Recurring Cost Ratio", "67%", "58%", "+9%", Amber),
    Row("Cash Reserve", "11 days", "18 days", "-7 days", Red),
    Row("Revenue Consistency", "72/100", "68/100", "+4 pts", Green),
    Row("Outstanding Invoice Ratio", "18%", "12%", "+6%", Amber),
    Row("Payroll to Revenue", "29%", "31%", "-2%", Green)]

  /** The number of rows with status `s`. */
  function Count(rows: seq<Row>, s: Status): nat
    decreases |rows|
  {
    if rows == [] then 0 else Count(rows[..|rows| - 1], s) + (if rows[|rows| - 1].status == s then 1 else 0)
  }

  /** Every row is counted under exactly one status. */
  lemma {:induction false} CountsCover(rows: seq<Row>)
    ensures Count(rows, Red) + Count(rows, Amber) + Count(rows, Green) == |rows|
    decreases |rows|
  {
    if rows != [] {
      CountsCover(rows[..|rows| - 1]);
    }
  }

  lemma CountSnoc(rows: seq<Row>, k: nat, s: Status)
    requires k < |rows|
    ensures Count(rows[..k + 1], s) == Count(rows[..k], s) + (if rows[k].status == s then 1 else 0)
  {
    assert rows[..k + 1][..k] == rows[..k];
  }

  /** The shipped table has two metrics of each status. */
  lemma ShippedCounts()
    ensures Count(BENCHMARKS, Red) == 2 && Count(BENCHMARKS, Amber) == 2 && Count(BENCHMARKS, Green) == 2
  {
    var b := BENCHMARKS;
    assert b[0].status == Red && b[1].status == Amber && b[2].status == Red;
    assert b[3].status == Green && b[4].status == Amber && b[5].status == Green;
    forall s: Status
      ensures Count(b, s) == 2
    {
      assert b[..0] == [];
      CountSnoc(b, 0, s);
      CountSnoc(b, 1, s);
      CountSnoc(b, 2, s);
      CountSnoc(b, 3, s);
      CountSnoc(b, 4, s);
      CountSnoc(b, 5, s);
      assert b[..6] == b;
    }
  }

  /** The accumulator `{ red, amber, green }` of the `reduce` (lines 21-27). */
  class Tally {
    var red: nat
    var amber: nat
    var green: nat

    constructor ()
      ensures red == 0 && amber == 0 && green == 0
    {
      red, amber, green := 0, 0, 0;
    }

    /** `acc[item.status] += 1` */
    method Bump(s: Status)
      modifies this
      ensures red == old(red) + (if s == Red then 1 else 0)
      ensures amber == old(amber) + (if s == Amber then 1 else 0)
      ensures green == old(green) + (if s == Green then 1 else 0)
    {
      match s {
        case Red => red := red + 1;
        case Amber => amber := amber + 1;
        case Green => green := green + 1;
      }
    }
  }

  /** `summary` (lines 21-27): the tally of the rows' statuses, starting from zero. */
  method Summarize(rows: seq<Row>) returns (acc: Tally)
    ensures fresh(acc)
    ensures acc.red == Count(rows, Red) && acc.amber == Count(rows, Amber) && acc.green == Count(rows, Green)
    ensures acc.red + acc.amber + acc.green == |rows|
  {
    acc := new Tally();
    var i := 0;
    while i < |rows|
      invariant 0 <= i <= |rows|
      invariant acc.red == Count(rows[..i], Red) && acc.amber == Count(rows[..i], Amber)
      invariant acc.green == Count(rows[..i], Green)
    {
      assert rows[..i + 1][..i] == rows[..i];
      acc.Bump(rows[i].status);
      i := i + 1;
    }
    assert rows[..i] == rows;
    CountsCover(rows);
  }

  /** The summary chips read the counts as strong (green), watch (amber) and behind (red). */
  method SummarizeShipped() returns (strong: nat, watch: nat, behind: nat)
    ensures strong == 2 && watch == 2 && behind == 2
  {
    var acc := Summarize(BENCHMARKS);
    ShippedCounts();
    strong, watch, behind := acc.green, acc.amber, acc.red;
  }

  datatype Icon = ArrowDown | Minus | ArrowUp

  datatype Style = Style(bg: string, text: string, icon: Icon)

  /** The colour name of each status's CSS classes. */
  function ColourName(s: Status): string
  {
    match s
    case Red => "red"
    case Amber => "amber"
    case Green => "green"
  }

  /** `statusStyle` (lines 14-18). */
  function StatusStyle(s: Status): Style
  {
    match s
    case Red => Style("bg-float-red/10", "text-float-red", ArrowDown)
    case Amber => Style("bg-float-amber/10", "text-float-amber", Minus)
    case Green => Style("bg-float-green/10", "text-float-green", ArrowUp)
  }

  /**
   * Every status has a style whose classes are named after its colour,
   * and different statuses get different icons.
   */
  lemma StyleOfStatus(s: Status, t: Status)
    ensures StatusStyle(s).bg == "bg-float-" + ColourName(s) + "/10"
    ensures StatusStyle(s).text == "text-float-" + ColourName(s)
    ensures s != t ==> StatusStyle(s).icon != StatusStyle(t).icon
  {
  }
}
