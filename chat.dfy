/**
 * The logic of the chat page (src/pages/Chat.tsx) around its requests: the
 * demo reply and call-intent rules, the call status labels, how streamed
 * deltas are folded into the last assistant message, how a call job is
 * patched, and a collection-call run over at most five invoices.
 */
module Chat {
  import opened Wrappers
  import opened JsonValues
  import Text
  import EventStream

  // ---------------------------------------------------------------------
  // Keyword rules

  /** Some word of `words` is a substring of `s`. */
  predicate ContainsAny(s: string, words: seq<string>)
  {
    exists i :: 0 <= i < |words| && Text.Contains(s, words[i])
  }

  /** The topics of the canned replies, in the order they are tested. */
  datatype DemoTopic = Payroll | Invoices | Cashflow | Spending | General

  /** The `if` chain of `buildDemoReply` (lines 47-62) on the lowercased prompt. */
  function DemoTopicOf(prompt: string): DemoTopic
  {
    var n := Text.Lower(prompt);
    if Text.Contains(n, "payroll") then Payroll
    else if Text.Contains(n, "invoice") || Text.Contains(n, "overdue") then Invoices
    else if Text.Contains(n, "cashflow") then Cashflow
    else if Text.Contains(n, "spend") || Text.Contains(n, "expense") then Spending
    else General
  }

  /** A keyword rule: any of its words selects its topic. */
  datatype Rule = Rule(words: seq<string>, topic: DemoTopic)

  /** The rules as a table, highest priority first. */
  function DemoRules(): seq<Rule>
  {
    [ Rule(["payroll"], Payroll),
      Rule(["invoice", "overdue"], Invoices),
      Rule(["cashflow"], Cashflow),
      Rule(["spend", "expense"], Spending) ]
  }

  /** The topic of the first rule with a word in `s`, or the general reply. */
  function FirstRule(s: string, rules: seq<Rule>): DemoTopic
  {
    if rules == [] then General
    else if ContainsAny(s, rules[0].words) then rules[0].topic
    else FirstRule(s, rules[1..])
  }

  lemma ContainsAnyOne(s: string, a: string)
    ensures ContainsAny(s, [a]) <==> Text.Contains(s, a)
  {
    if Text.Contains(s, a) {
      assert [a][0] == a;
    }
  }

  lemma ContainsAnyTwo(s: string, a: string, b: string)
    ensures ContainsAny(s, [a, b]) <==> Text.Contains(s, a) || Text.Contains(s, b)
  {
    if Text.Contains(s, a) {
      assert [a, b][0] == a;
    }
    if Text.Contains(s, b) {
      assert [a, b][1] == b;
    }
  }

  /** The reply chosen is the topic of the first rule in the table whose keyword the prompt contains. */
  lemma DemoTopicByRules(prompt: string)
    ensures DemoTopicOf(prompt) == FirstRule(Text.Lower(prompt), DemoRules())
  {
    var n := Text.Lower(prompt);
    var rules := DemoRules();
    ContainsAnyOne(n, "payroll");
    ContainsAnyTwo(n, "invoice", "overdue");
    ContainsAnyOne(n, "cashflow");
    ContainsAnyTwo(n, "spend", "expense");
    var r3 := rules[3..];
    assert r3 == [Rule(["spend", "expense"], Spending)] && r3[1..] == [];
    assert FirstRule(n, r3) == (if Text.Contains(n, "spend") || Text.Contains(n, "expense") then Spending else General);
    assert rules[2..][1..] == r3 && rules[2..][0] == Rule(["cashflow"], Cashflow);
    assert rules[1..][1..] == rules[2..] && rules[1..][0] == Rule(["invoice", "overdue"], Invoices);
    assert rules[1..][1..][0].words == ["cashflow"];
    assert FirstRule(n, rules[2..]) == (if Text.Contains(n, "cashflow") then Cashflow else FirstRule(n, r3));
    assert FirstRule(n, rules[1..]) == (if Text.Contains(n, "invoice") || Text.Contains(n, "overdue") then Invoices else FirstRule(n, rules[2..]));
    assert FirstRule(n, rules) == (if Text.Contains(n, "payroll") then Payroll else FirstRule(n, rules[1..]));
  }

  /** The four canned replies and the default (lines 50-61). */
  function DemoReplyText(t: DemoTopic): string
  {
    match t
    case Payroll => "In this demo scenario, payroll is at risk by about EUR 2,200. Prioritize collecting INV-047 to close the gap quickly."
    case Invoices => "Two invoices are overdue in demo data: INV-047 (EUR 2,400) and INV-051 (EUR 1,800). Start with INV-047 for highest impact."
    case Cashflow => "Cashflow dips below payroll threshold near Friday, then recovers after expected collections. Use the forecast chart for day-level detail."
    case Spending => "Top cost pressure in demo data is payroll, then rent and weekly supplier outflows. Thursday shows the tightest operating buffer."
    case General => "Demo mode is active for this chat. Ask about payroll, overdue invoices, incidents, or call outcomes to explore the scenario."
  }

  function BuildDemoReply(prompt: string): string
  {
    DemoReplyText(DemoTopicOf(prompt))
  }

  /** The call verbs of line 66. */
  function CallVerbs(): seq<string>
  {
    ["call", "phone", "ring", "dial"]
  }

  /** The collections words of line 68, in the order of the alternation. */
  function CollectionWords(): seq<string>
  {
    ["debtor", "debtors", "creditor", "creditors", "invoice", "overdue", "collect", "collection", "chase",
     "get our money", "get money"]
  }

  /** `isCollectionCallIntent` (lines 64-70): both regular expressions match the lowercased prompt. */
  predicate IsCollectionCallIntent(prompt: string)
  {
    var n := Text.Lower(prompt);
    ContainsAny(n, CallVerbs()) && ContainsAny(n, CollectionWords())
  }

  /** A word occurs in `s` at some position. */
  ghost predicate OccursSomewhere(s: string, word: string)
  {
    exists k :: Text.OccursAt(s, word, k)
  }

  /**
   * The intent holds exactly when the lowercased prompt has a call verb at
   * some position and a collections word at some position.
   */
  lemma IntentBySubstring(prompt: string)
    ensures IsCollectionCallIntent(prompt) <==>
      (exists i :: 0 <= i < |CallVerbs()| && OccursSomewhere(Text.Lower(prompt), CallVerbs()[i]))
      && (exists j :: 0 <= j < |CollectionWords()| && OccursSomewhere(Text.Lower(prompt), CollectionWords()[j]))
  {
    var n := Text.Lower(prompt);
    forall w | w in CallVerbs() + CollectionWords()
      ensures Text.Contains(n, w) <==> OccursSomewhere(n, w)
    {
      Text.ContainsIff(n, w);
    }
  }

  /** A word whose prefix is another word only matches where the shorter one does. */
  lemma ContainsPrefix(s: string, long: string, short: string)
    requires Text.StartsWith(long, short) && Text.Contains(s, long)
    ensures Text.Contains(s, short)
  {
    Text.ContainsIff(s, long);
    var k :| Text.OccursAt(s, long, k);
    assert s[k..k + |short|] == long[..|short|];
    assert Text.OccursAt(s, short, k);
    Text.ContainsIff(s, short);
  }

  /**
   * The alternation of line 68 is no wider than its eight shorter words:
   * "debtors", "creditors" and "collection" only match where "debtor",
   * "creditor" and "collect" do.
   */
  lemma CollectionWordsReduce(s: string)
    ensures ContainsAny(s, CollectionWords()) <==>
      ContainsAny(s, ["debtor", "creditor", "invoice", "overdue", "collect", "chase", "get our money", "get money"])
  {
    var all := CollectionWords();
    var few: seq<string> := ["debtor", "creditor", "invoice", "overdue", "collect", "chase", "get our money", "get money"];
    if ContainsAny(s, all) {
      var i :| 0 <= i < |all| && Text.Contains(s, all[i]);
      if i == 1 {
        ContainsPrefix(s, "debtors", "debtor");
        assert Text.Contains(s, few[0]);
      } else if i == 3 {
        ContainsPrefix(s, "creditors", "creditor");
        assert Text.Contains(s, few[1]);
      } else if i == 7 {
        ContainsPrefix(s, "collection", "collect");
        assert Text.Contains(s, few[4]);
      } else {
        var j := if i == 0 then 0 else if i == 2 then 1 else if i < 7 then i - 2 else i - 3;
        assert few[j] == all[i];
      }
    }
    if ContainsAny(s, few) {
      var j :| 0 <= j < |few| && Text.Contains(s, few[j]);
      var i := if j == 0 then 0 else if j == 1 then 2 else if j < 5 then j + 2 else j + 3;
      assert all[i] == few[j];
    }
  }

  // ---------------------------------------------------------------------
  // Call progress

  datatype CallStatus = Queued | Dialing | Started | Failed

  /** `callStatusLabel` (lines 72-77). */
  function CallStatusLabel(s: CallStatus): string
  {
    match s
    case Queued => "Queued"
    case Dialing => "Dialing"
    case Started => "In Progress"
    case Failed => "Failed"
  }

  /** Different statuses show different labels. */
  lemma CallStatusLabelInjective(a: CallStatus, b: CallStatus)
    ensures CallStatusLabel(a) == CallStatusLabel(b) ==> a == b
  {
    if a != b {
      assert CallStatusLabel(a)[0] != CallStatusLabel(b)[0] || |CallStatusLabel(a)| != |CallStatusLabel(b)|;
    }
  }

  datatype CallProgress = CallProgress(
    invoiceId: string,
    clientName: string,
    clientPhone: string,
    invoiceNumber: string,
    amount: int,
    status: CallStatus,
    error: Option<string>)

  datatype CallRunState = CallRunState(active: bool, jobs: seq<CallProgress>, started: nat, failed: nat)

  /**
   * A `Partial<CallProgress>` as the page writes them: a status, and an
   * `error` key that is absent (`None`) or present, possibly `undefined`.
   */
  datatype Patch = Patch(status: CallStatus, error: Option<Option<string>>)

  /** `{ ...job, ...patch }` */
  function ApplyPatch(job: CallProgress, patch: Patch): CallProgress
  {
    var j := job.(status := patch.status);
    if patch.error.Some? then j.(error := patch.error.value) else j
  }

  /** The `map` of `updateCallJob`: patches the jobs of one invoice. */
  function PatchJobs(jobs: seq<CallProgress>, invoiceId: string, patch: Patch): (r: seq<CallProgress>)
    ensures |r| == |jobs|
    ensures forall i :: 0 <= i < |jobs| ==>
      r[i] == if jobs[i].invoiceId == invoiceId then ApplyPatch(jobs[i], patch) else jobs[i]
  {
    seq(|jobs|, i requires 0 <= i < |jobs| =>
      if jobs[i].invoiceId == invoiceId then ApplyPatch(jobs[i], patch) else jobs[i])
  }

  /** `updateCallJob` (lines 261-268) on the run state; no run means no change. */
  function UpdateCallJob(prev: Option<CallRunState>, invoiceId: string, patch: Patch): (r: Option<CallRunState>)
    ensures prev.None? ==> r.None?
    ensures prev.Some? ==> r == Some(prev.value.(jobs := PatchJobs(prev.value.jobs, invoiceId, patch)))
  {
    match prev
    case None => None
    case Some(run) => Some(run.(jobs := PatchJobs(run.jobs, invoiceId, patch)))
  }

  /**
   * Patching changes only the matching jobs, each in status and (when the
   * patch names it) error, keeps every invoice id, and is idempotent.
   */
  lemma UpdateCallJobSpec(prev: Option<CallRunState>, invoiceId: string, patch: Patch)
    ensures var r := UpdateCallJob(prev, invoiceId, patch);
      prev.Some? ==>
        |r.value.jobs| == |prev.value.jobs|
        && r.value.active == prev.value.active && r.value.started == prev.value.started
        && r.value.failed == prev.value.failed
        && (forall i :: 0 <= i < |prev.value.jobs| ==>
              r.value.jobs[i].invoiceId == prev.value.jobs[i].invoiceId
              && (prev.value.jobs[i].invoiceId != invoiceId ==> r.value.jobs[i] == prev.value.jobs[i])
              && (prev.value.jobs[i].invoiceId == invoiceId ==>
                    r.value.jobs[i].status == patch.status
                    && r.value.jobs[i].error == (if patch.error.Some? then patch.error.value else prev.value.jobs[i].error)))
    ensures UpdateCallJob(UpdateCallJob(prev, invoiceId, patch), invoiceId, patch) == UpdateCallJob(prev, invoiceId, patch)
    ensures prev.Some? && (forall i :: 0 <= i < |prev.value.jobs| ==> prev.value.jobs[i].invoiceId != invoiceId) ==>
      UpdateCallJob(prev, invoiceId, patch) == prev
  {
    if prev.Some? {
      var jobs := prev.value.jobs;
      var once := PatchJobs(jobs, invoiceId, patch);
      assert PatchJobs(once, invoiceId, patch) == once;
      if forall i :: 0 <= i < |jobs| ==> jobs[i].invoiceId != invoiceId {
        assert once == jobs;
      }
    }
  }

  // ---------------------------------------------------------------------
  // Streamed replies

  datatype Role = User | Assistant

  datatype Msg = Msg(role: Role, content: string)

  /**
   * The state updater of `upsert` (lines 405-411): the last message takes
   * the text so far when it is the assistant's, otherwise an assistant
   * message is appended.
   */
  function Upsert(p: seq<Msg>, soFar: string): (r: seq<Msg>)
    ensures |p| <= |r| <= |p| + 1 && |r| >= 1
    ensures r[|r| - 1] == Msg(Assistant, soFar)
    ensures p != [] && p[|p| - 1].role == Assistant ==> r == p[..|p| - 1] + [Msg(Assistant, soFar)]
    ensures (p == [] || p[|p| - 1].role != Assistant) ==> r == p + [Msg(Assistant, soFar)]
  {
    if p != [] && p[|p| - 1].role == Assistant then
      seq(|p|, i requires 0 <= i < |p| => if i == |p| - 1 then p[i].(content := soFar) else p[i])
    else p + [Msg(Assistant, soFar)]
  }

  /** The messages before the one a stream writes into. */
  function Settled(p: seq<Msg>): seq<Msg>
  {
    if p != [] && p[|p| - 1].role == Assistant then p[..|p| - 1] else p
  }

  class ChatPage {
    /** The `messages` and `callRun` states, and whether a call run is in progress. */
    var messages: seq<Msg>
    var callRun: Option<CallRunState>
    var calling: bool

    constructor ()
      ensures messages == [] && callRun == None && !calling
    {
      messages := [];
      callRun := None;
      calling := false;
    }

    /**
     * The `onDelta` handler of `send` (lines 402-412) fed each delta of a
     * reply in turn: one assistant message ends up holding their
     * concatenation, after the messages that were there before.
     */
    method ReceiveDeltas(deltas: seq<string>)
      modifies this
      ensures callRun == old(callRun) && calling == old(calling)
      ensures deltas == [] ==> messages == old(messages)
      ensures deltas != [] ==> messages == Settled(old(messages)) + [Msg(Assistant, EventStream.Concat(deltas))]
    {
      var soFar := "";
      var i := 0;
      while i < |deltas|
        invariant 0 <= i <= |deltas|
        invariant soFar == EventStream.Concat(deltas[..i])
        invariant i == 0 ==> messages == old(messages)
        invariant i > 0 ==> messages == Settled(old(messages)) + [Msg(Assistant, soFar)]
        invariant callRun == old(callRun) && calling == old(calling)
      {
        ConcatSnoc(deltas, i);
        soFar := soFar + deltas[i];
        UpsertSettles(messages, soFar);
        messages := Upsert(messages, soFar);
        i := i + 1;
      }
      assert deltas[..i] == deltas;
    }

    /**
     * `triggerCollectionCalls` (lines 271-386) once the candidates are
     * known: at most five are dialled, each through `make-call` with the
     * matching entry of `outcomes`, and the run ends with a summary.
     */
    method TriggerCollectionCalls(candidates: seq<CallTarget>, outcomes: seq<Invoke>)
      requires |outcomes| == |Selected(candidates)|
      modifies this
      ensures !calling
      ensures Selected(candidates) == [] ==>
        callRun == None && messages == old(messages) + [Msg(Assistant, INTRO), Msg(Assistant, NO_TARGETS)]
      ensures Selected(candidates) != [] ==>
        callRun == Some(CallRunState(false, Calls(InitialJobs(Selected(candidates)), Selected(candidates), outcomes),
                                     Successes(outcomes), Failures(outcomes)))
        && messages == old(messages) + [Msg(Assistant, INTRO),
             Msg(Assistant, Summary(Successes(outcomes), Failures(outcomes), |candidates| > MAX_CHAT_CALLS))]
    {
      calling := true;
      messages := messages + [Msg(Assistant, INTRO)];
      var selected := candidates[..if |candidates| < MAX_CHAT_CALLS then |candidates| else MAX_CHAT_CALLS];
      if |selected| == 0 {
        messages := messages + [Msg(Assistant, NO_TARGETS)];
        callRun := None;
        calling := false;
        return;
      }
      callRun := Some(CallRunState(true, InitialJobs(selected), 0, 0));
      var started, failed := DialAll(selected, outcomes);
      callRun := Some(callRun.value.(active := false, started := started, failed := failed));
      var limited := |candidates| > MAX_CHAT_CALLS;
      messages := messages + [Msg(Assistant, Summary(started, failed, limited))];
      calling := false;
    }

    /** The `for` loop of lines 305-368, dialling each selected invoice in turn. */
    method DialAll(selected: seq<CallTarget>, outcomes: seq<Invoke>) returns (started: nat, failed: nat)
      requires |outcomes| == |selected|
      requires callRun.Some? && callRun.value.started == 0 && callRun.value.failed == 0
      modifies this
      ensures started == Successes(outcomes) && failed == Failures(outcomes)
      ensures callRun == Some(old(callRun.value).(jobs := Calls(old(callRun.value.jobs), selected, outcomes),
                                                   started := started, failed := failed))
      ensures messages == old(messages) && calling == old(calling)
    {
      ghost var run0 := callRun.value;
      started := 0;
      failed := 0;
      var k := 0;
      while k < |selected|
        invariant 0 <= k <= |selected|
        invariant callRun.Some? && callRun.value.active == run0.active
        invariant Calls(callRun.value.jobs, selected[k..], outcomes[k..]) == Calls(run0.jobs, selected, outcomes)
        invariant started == Successes(outcomes[..k]) && failed == Failures(outcomes[..k])
        invariant callRun.value.started == started && callRun.value.failed == failed
        invariant messages == old(messages) && calling == old(calling)
      {
        var invoice := selected[k];
        var outcome := outcomes[k];
        CountStep(outcomes, k);
        CallsStep(callRun.value.jobs, selected, outcomes, k);
        callRun := UpdateCallJob(callRun, invoice.id, Patch(Dialing, Some(None)));
        if Fails(outcome) {
          failed := failed + 1;
          callRun := UpdateCallJob(callRun, invoice.id, Patch(Failed, Some(Some(ErrorText(outcome)))));
          callRun := Some(callRun.value.(failed := failed));
        } else {
          started := started + 1;
          callRun := UpdateCallJob(callRun, invoice.id, Patch(Started, None));
          callRun := Some(callRun.value.(started := started));
        }
        k := k + 1;
      }
      assert outcomes[..k] == outcomes;
      assert selected[k..] == [] && outcomes[k..] == [];
    }
  }

  lemma ConcatSnoc(ds: seq<string>, i: nat)
    requires i < |ds|
    ensures EventStream.Concat(ds[..i + 1]) == EventStream.Concat(ds[..i]) + ds[i]
  {
    assert ds[..i + 1][..i] == ds[..i];
  }

  /** A stream always writes into the message after the settled ones. */
  lemma UpsertSettles(p: seq<Msg>, soFar: string)
    ensures Upsert(p, soFar) == Settled(p) + [Msg(Assistant, soFar)]
    ensures Settled(Upsert(p, soFar)) == Settled(p)
  {
    var r := Upsert(p, soFar);
    assert r[..|r| - 1] == Settled(p);
  }

  // ---------------------------------------------------------------------
  // Collection-call runs

  const MAX_CHAT_CALLS: nat := 5

  const INTRO: string := "Understood. I am launching collection calls now and will show live progress below as each debtor is dialed."

  const NO_TARGETS: string := "I could not find any debtors with callable phone numbers. Add client phone numbers in Dashboard, then ask me to call again."

  const LIMIT_NOTE: string := " I limited this run to the first 5 debtors."

  /** The invoice fields a call run reads. */
  datatype CallTarget = CallTarget(
    id: string,
    clientName: string,
    clientPhone: Option<string>,
    invoiceNumber: Option<string>,
    amount: int)

  /** `candidates.slice(0, MAX_CHAT_CALLS)` */
  function Selected(candidates: seq<CallTarget>): (r: seq<CallTarget>)
    ensures |r| == if |candidates| < MAX_CHAT_CALLS then |candidates| else MAX_CHAT_CALLS
    ensures r == candidates[..|r|]
  {
    candidates[..if |candidates| < MAX_CHAT_CALLS then |candidates| else MAX_CHAT_CALLS]
  }

  /** The queued jobs of lines 292-299. */
  function InitialJobs(selected: seq<CallTarget>): (r: seq<CallProgress>)
    ensures |r| == |selected|
    ensures forall i :: 0 <= i < |selected| ==> r[i].invoiceId == selected[i].id && r[i].status == Queued
  {
    seq(|selected|, i requires 0 <= i < |selected| =>
      CallProgress(selected[i].id, selected[i].clientName, selected[i].clientPhone.GetOr("Unknown"),
                   selected[i].invoiceNumber.GetOr("Unknown"), selected[i].amount, Queued, None))
  }

  /**
   * What `supabase.functions.invoke("make-call")` returned: the message of
   * an `error` object, if there was one, and the `data` payload.
   */
  datatype Invoke = Invoke(error: Option<string>, data: Option<Json>)

  /** `error || !data?.success` */
  predicate Fails(o: Invoke)
  {
    o.error.Some? || !Truthy(Get(o.data, "success"))
  }

  /** `error?.message || data?.error || "Call failed"` */
  function ErrorText(o: Invoke): string
  {
    if o.error.Some? && o.error.value != "" then o.error.value
    else if Truthy(Get(o.data, "error")) then ToText(Get(o.data, "error"))
    else "Call failed"
  }

  function Successes(os: seq<Invoke>): nat
  {
    if os == [] then 0 else Successes(os[..|os| - 1]) + (if Fails(os[|os| - 1]) then 0 else 1)
  }

  function Failures(os: seq<Invoke>): nat
  {
    if os == [] then 0 else Failures(os[..|os| - 1]) + (if Fails(os[|os| - 1]) then 1 else 0)
  }

  lemma CountAppend(os: seq<Invoke>, o: Invoke)
    ensures Successes(os + [o]) == Successes(os) + (if Fails(o) then 0 else 1)
    ensures Failures(os + [o]) == Failures(os) + (if Fails(o) then 1 else 0)
  {
    assert (os + [o])[..|os|] == os;
  }

  lemma CountStep(os: seq<Invoke>, k: nat)
    requires k < |os|
    ensures Successes(os[..k + 1]) == Successes(os[..k]) + (if Fails(os[k]) then 0 else 1)
    ensures Failures(os[..k + 1]) == Failures(os[..k]) + (if Fails(os[k]) then 1 else 0)
  {
    assert os[..k + 1] == os[..k] + [os[k]];
    CountAppend(os[..k], os[k]);
  }

  /** Every dialled invoice is counted once: started plus failed is the number selected. */
  lemma {:induction false} CountsCover(os: seq<Invoke>)
    ensures Successes(os) + Failures(os) == |os|
  {
    if os != [] {
      CountsCover(os[..|os| - 1]);
    }
  }

  /** One invoice of the loop (lines 305-368): dialing, then started or failed. */
  function CallOne(jobs: seq<CallProgress>, invoice: CallTarget, o: Invoke): seq<CallProgress>
  {
    var dialing := PatchJobs(jobs, invoice.id, Patch(Dialing, Some(None)));
    if Fails(o) then PatchJobs(dialing, invoice.id, Patch(Failed, Some(Some(ErrorText(o)))))
    else PatchJobs(dialing, invoice.id, Patch(Started, None))
  }

  /** The jobs after the loop has dialled `selected` with `outcomes`. */
  function Calls(jobs: seq<CallProgress>, selected: seq<CallTarget>, outcomes: seq<Invoke>): seq<CallProgress>
    requires |outcomes| == |selected|
    decreases |selected|
  {
    if selected == [] then jobs
    else Calls(CallOne(jobs, selected[0], outcomes[0]), selected[1..], outcomes[1..])
  }

  lemma CallsStep(jobs: seq<CallProgress>, selected: seq<CallTarget>, outcomes: seq<Invoke>, k: nat)
    requires |outcomes| == |selected| && k < |selected|
    ensures Calls(jobs, selected[k..], outcomes[k..])
      == Calls(CallOne(jobs, selected[k], outcomes[k]), selected[k + 1..], outcomes[k + 1..])
  {
    assert selected[k..][0] == selected[k] && selected[k..][1..] == selected[k + 1..];
    assert outcomes[k..][0] == outcomes[k] && outcomes[k..][1..] == outcomes[k + 1..];
  }

  /** The status a dialled job ends in. */
  function FinalStatus(o: Invoke): CallStatus
  {
    if Fails(o) then Failed else Started
  }

  predicate DistinctIds(selected: seq<CallTarget>)
  {
    forall i, j :: 0 <= i < j < |selected| ==> selected[i].id != selected[j].id
  }

  /**
   * With distinct invoice ids, the loop from position `k` on leaves the
   * jobs before `k` alone and ends each later job started or failed, as
   * its outcome says.
   */
  lemma {:induction false} CallsFrom(jobs: seq<CallProgress>, selected: seq<CallTarget>, outcomes: seq<Invoke>, k: nat)
    requires |jobs| == |selected| == |outcomes| && k <= |selected|
    requires DistinctIds(selected)
    requires forall i :: 0 <= i < |jobs| ==> jobs[i].invoiceId == selected[i].id
    ensures var r := Calls(jobs, selected[k..], outcomes[k..]);
      |r| == |jobs|
      && (forall i :: 0 <= i < k ==> r[i] == jobs[i])
      && (forall i :: k <= i < |jobs| ==> r[i].invoiceId == selected[i].id && r[i].status == FinalStatus(outcomes[i]))
    decreases |selected| - k
  {
    if k == |selected| {
      assert selected[k..] == [];
    } else {
      var next := CallOne(jobs, selected[k], outcomes[k]);
      assert selected[k..][0] == selected[k] && selected[k..][1..] == selected[k + 1..];
      assert outcomes[k..][0] == outcomes[k] && outcomes[k..][1..] == outcomes[k + 1..];
      assert Calls(jobs, selected[k..], outcomes[k..]) == Calls(next, selected[k + 1..], outcomes[k + 1..]);
      assert forall i :: 0 <= i < |jobs| && i != k ==> next[i] == jobs[i];
      assert next[k].status == FinalStatus(outcomes[k]) && next[k].invoiceId == jobs[k].invoiceId;
      CallsFrom(next, selected, outcomes, k + 1);
    }
  }

  /** A run over distinct invoices ends with each job started or failed, in the order selected. */
  lemma CallsOutcome(selected: seq<CallTarget>, outcomes: seq<Invoke>)
    requires |outcomes| == |selected| && DistinctIds(selected)
    ensures var r := Calls(InitialJobs(selected), selected, outcomes);
      |r| == |selected|
      && forall i :: 0 <= i < |selected| ==> r[i].invoiceId == selected[i].id && r[i].status == FinalStatus(outcomes[i])
  {
    CallsFrom(InitialJobs(selected), selected, outcomes, 0);
    assert selected[0..] == selected && outcomes[0..] == outcomes;
  }

  /** The closing message of a run (lines 372-375). */
  function Summary(started: nat, failed: nat, limited: bool): string
  {
    "Call run complete. Started " + Text.NatToString(started) + " call" + (if started == 1 then "" else "s")
    + " and failed " + Text.NatToString(failed) + "." + (if limited then LIMIT_NOTE else "")
  }

  /** The summary carries the limit note exactly when there were more than five candidates to call. */
  lemma SummaryLimitNote(started: nat, failed: nat, limited: bool)
    ensures Text.EndsWith(Summary(started, failed, limited), LIMIT_NOTE) <==> limited
  {
    var s := Summary(started, failed, limited);
    if !limited {
      var digits := Text.NatToString(failed);
      var head := "Call run complete. Started " + Text.NatToString(started) + " call" + (if started == 1 then "" else "s")
        + " and failed ";
      assert s == head + digits + ".";
      assert s[|s| - 2] == digits[|digits| - 1];
      assert Text.IsDigit(s[|s| - 2]);
      assert !Text.EndsWith(s, LIMIT_NOTE) by {
        assert !Text.IsDigit(LIMIT_NOTE[|LIMIT_NOTE| - 2]);
        assert |s| >= |LIMIT_NOTE| ==> s[|s| - |LIMIT_NOTE|..][|LIMIT_NOTE| - 2] == s[|s| - 2];
      }
    }
  }

  /** "call" is pluralised unless exactly one call started. */
  lemma SummaryPlural(started: nat, failed: nat, limited: bool)
    ensures var prefix := "Call run complete. Started " + Text.NatToString(started) + " call";
      Text.StartsWith(Summary(started, failed, limited), prefix + "s") <==> started != 1
  {
    var prefix := "Call run complete. Started " + Text.NatToString(started) + " call";
    var s := Summary(started, failed, limited);
    if started == 1 {
      assert Text.NatToString(1) == "1";
      assert s[|prefix|] == ' ';
      assert (prefix + "s")[|prefix|] == 's';
    } else {
      assert s[..|prefix| + 1] == prefix + "s";
    }
  }
}
