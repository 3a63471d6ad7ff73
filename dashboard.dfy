/**
 * The dashboard page (src/pages/Dashboard.tsx): the choice between live
 * and demo rows, the realtime updates of the invoice list, and the
 * figures of the summary section.
 */
module Dashboard {
  import opened Wrappers
  import Text
  import opened InvoiceTable

  // ---------------------------------------------------------------------
  // Live or demo data

  /** `(res.data?.length ?? 0) > 0 ? res.data! : demo` (lines 45-48). */
  function Fallback<T>(live: Option<seq<T>>, demo: seq<T>): (r: seq<T>)
    ensures live.Some? && |live.value| > 0 ==> r == live.value
    ensures !(live.Some? && |live.value| > 0) ==> r == demo
  {
    if live.Some? && |live.value| > 0 then live.value else demo
  }

  predicate NoRows<T>(live: Option<seq<T>>)
  {
    !(live.Some? && |live.value| > 0)
  }

  datatype Incident = Incident(id: string, status: Option<string>, severity: Option<string>)

  /** The four queries of `fetchAll`: they threw, or each gave rows or null. */
  datatype Fetched<S, P> =
    | Threw
    | Results(invoices: Option<seq<Invoice>>, insights: Option<seq<S>>,
              projections: Option<seq<P>>, incidents: Option<seq<Incident>>)

  datatype Loaded<S, P> = Loaded(
    invoices: seq<Invoice>, insights: seq<S>, projections: seq<P>, incidents: seq<Incident>, usingDemoData: bool)

  /** The state `fetchAll` (lines 31-67) leaves, given the demo rows. */
  function FetchAll<S, P>(f: Fetched<S, P>, demoInvoices: seq<Invoice>, demoInsights: seq<S>,
                          demoProjections: seq<P>, demoIncidents: seq<Incident>): Loaded<S, P>
  {
    match f
    case Threw => Loaded(demoInvoices, demoInsights, demoProjections, demoIncidents, true)
    case Results(inv, ins, proj, inc) =>
      Loaded(Fallback(inv, demoInvoices), Fallback(ins, demoInsights), Fallback(proj, demoProjections),
             Fallback(inc, demoIncidents),
             NoRows(inv) && NoRows(ins) && NoRows(proj) && NoRows(inc))
  }

  /**
   * The demo flag is set exactly when the queries threw or all four came
   * back empty, and then every dataset shows its demo rows; a query with
   * rows always shows them.
   */
  lemma FetchAllSpec<S, P>(f: Fetched<S, P>, di: seq<Invoice>, ds: seq<S>, dp: seq<P>, dn: seq<Incident>)
    ensures var l := FetchAll(f, di, ds, dp, dn);
      && (l.usingDemoData <==> f.Threw? || (NoRows(f.invoices) && NoRows(f.insights) && NoRows(f.projections) && NoRows(f.incidents)))
      && (l.usingDemoData ==> l.invoices == di && l.insights == ds && l.projections == dp && l.incidents == dn)
      && (f.Results? && !NoRows(f.invoices) ==> l.invoices == f.invoices.value)
      && (f.Results? && !NoRows(f.insights) ==> l.insights == f.insights.value)
      && (f.Results? && !NoRows(f.projections) ==> l.projections == f.projections.value)
      && (f.Results? && !NoRows(f.incidents) ==> l.incidents == f.incidents.value)
  {
  }

  // ---------------------------------------------------------------------
  // Realtime invoice changes

  datatype Change = UpdateEvent(row: Invoice) | InsertEvent(row: Invoice) | OtherEvent

  /** The `postgres_changes` handler of the invoices table (lines 72-78). */
  function ApplyChange(prev: seq<Invoice>, c: Change): (r: seq<Invoice>)
    ensures c.UpdateEvent? ==> |r| == |prev| && forall i :: 0 <= i < |prev| ==>
      r[i] == if prev[i].id == c.row.id then c.row else prev[i]
    ensures c.InsertEvent? ==> r == [c.row] + prev
    ensures c.OtherEvent? ==> r == prev
  {
    match c
    case UpdateEvent(row) => seq(|prev|, i requires 0 <= i < |prev| => if prev[i].id == row.id then row else prev[i])
    case InsertEvent(row) => [row] + prev
    case OtherEvent => prev
  }

  function ApplyChanges(prev: seq<Invoice>, cs: seq<Change>): seq<Invoice>
    decreases |cs|
  {
    if cs == [] then prev else ApplyChanges(ApplyChange(prev, cs[0]), cs[1..])
  }

  function Inserts(cs: seq<Change>): nat
    decreases |cs|
  {
    if cs == [] then 0 else (if cs[0].InsertEvent? then 1 else 0) + Inserts(cs[1..])
  }

  /** Only inserts grow the list, by one row each. */
  lemma {:induction false} ChangesLength(prev: seq<Invoice>, cs: seq<Change>)
    ensures |ApplyChanges(prev, cs)| == |prev| + Inserts(cs)
    decreases |cs|
  {
    if cs != [] {
      ChangesLength(ApplyChange(prev, cs[0]), cs[1..]);
    }
  }

  /** An update of a row is idempotent, and one for an id not in the list changes nothing. */
  lemma UpdateSpec(prev: seq<Invoice>, row: Invoice)
    ensures ApplyChange(ApplyChange(prev, UpdateEvent(row)), UpdateEvent(row)) == ApplyChange(prev, UpdateEvent(row))
    ensures (forall i :: 0 <= i < |prev| ==> prev[i].id != row.id) ==> ApplyChange(prev, UpdateEvent(row)) == prev
  {
    var once := ApplyChange(prev, UpdateEvent(row));
    assert ApplyChange(once, UpdateEvent(row)) == once;
  }

  // ---------------------------------------------------------------------
  // Summary section

  /** `incidents.find(...)` (line 94): the first open P1 incident. */
  function OpenIncident(incidents: seq<Incident>): (r: Option<Incident>)
    ensures r.Some? ==> exists k :: (0 <= k < |incidents| && incidents[k] == r.value
      && forall j :: 0 <= j < k ==> !IsOpenP1(incidents[j]))
    ensures r.Some? ==> IsOpenP1(r.value)
    ensures r.None? <==> forall j :: 0 <= j < |incidents| ==> !IsOpenP1(incidents[j])
    decreases |incidents|
  {
    if incidents == [] then None
    else if IsOpenP1(incidents[0]) then Some(incidents[0])
    else
      var r := OpenIncident(incidents[1..]);
      assert forall j :: 1 <= j < |incidents| ==> incidents[j] == incidents[1..][j - 1];
      r
  }

  predicate IsOpenP1(i: Incident)
  {
    i.status == Some("open") && i.severity == Some("P1")
  }

  const CURRENT_BALANCE: int := 620000
  const DEFAULT_PAYROLL: int := 840000

  /** `payrollGap` (lines 95-97), from the account's payroll amount if any. */
  function PayrollGap(payrollAmount: Option<int>): int
  {
    CURRENT_BALANCE - payrollAmount.GetOr(DEFAULT_PAYROLL)
  }

  /** The sign shown before the gap (line 185). */
  function GapSign(gap: int): (r: string)
    ensures r == "-" <==> gap < 0
    ensures r == "-" || r == "+"
  {
    if gap < 0 then "-" else "+"
  }

  /** The magnitude shown after the sign (`Math.abs`, line 186). */
  function GapMagnitude(gap: int): (r: int)
    ensures r >= 0
  {
    if gap < 0 then -gap else gap
  }

  /**
   * The sign and magnitude shown stand for the gap itself; without a
   * payroll amount the gap is a shortfall of 220000.
   */
  lemma GapDisplay(payrollAmount: Option<int>)
    ensures var g := PayrollGap(payrollAmount);
      (if GapSign(g) == "-" then -GapMagnitude(g) else GapMagnitude(g)) == g
    ensures PayrollGap(None) == -220000 && GapSign(PayrollGap(None)) == "-"
  {
  }

  /** `outstandingTotal` (lines 98-100). */
  function OutstandingTotal(invoices: seq<Invoice>): int
  {
    Sum(Filter(invoices, IsOpen))
  }

  /** The dashboard's open count, overdue count and outstanding total agree with the invoice table's. */
  lemma AgreesWithTable(invoices: seq<Invoice>)
    ensures var t := TotalsOf(SortByStatus(invoices));
      OutstandingTotal(invoices) == t.outstanding
      && |Filter(invoices, IsOpen)| == t.openCount
      && |Filter(invoices, IsOverdue)| == t.overdueCount
  {
    TotalsOfSorted(invoices);
  }

  const ACTIONABLE: string := "can be actioned from the table below."

  const NO_OVERDUE: string := "No overdue invoices right now. Forecast and benchmark panels are the key watch areas."

  /** The overdue sentence of lines 140-142. */
  function OverdueSentence(count: nat): string
  {
    if count > 0 then
      Text.NatToString(count) + " overdue invoice" + (if count == 1 then "" else "s") + " " + ACTIONABLE
    else NO_OVERDUE
  }

  /** The sentence names the count, pluralised unless it is one; with no overdue invoice it is the fixed text. */
  lemma OverdueSentenceSpec(count: nat)
    ensures count == 0 ==> OverdueSentence(count) == NO_OVERDUE
    ensures count > 0 ==> Text.StartsWith(OverdueSentence(count), Text.NatToString(count) + " overdue invoice")
    ensures var p := Text.NatToString(count) + " overdue invoices";
      count > 0 ==> (Text.StartsWith(OverdueSentence(count), p) <==> count != 1)
  {
    if count > 0 {
      var n := Text.NatToString(count);
      var s := OverdueSentence(count);
      var q := n + " overdue invoice";
      if count == 1 {
        assert n == "1";
        assert s[|q|] == ' ';
        assert (q + "s")[|q|] == 's';
      } else {
        assert s[..|q| + 1] == q + "s";
      }
      assert s[..|q|] == q;
    }
  }
}
