/**
 * The Fix-It modal (src/components/dashboard/FixItModal.tsx): a scripted
 * recovery shown in five phases. Its effects arm timers; each step of the
 * model is one timer firing, followed by the effects that run at once.
 */
module FixIt {
  import Text

  datatype LogLine = LogLine(icon: string, time: string, message: string)

  /** `logSequence` (lines 14-24). */
  const LOG_SEQUENCE: seq<LogLine> := [
    LogLine("loading", "14:32:01", "Analysing payroll shortfall..."),
    LogLine("check", "14:32:02", "Gap confirmed: EUR 2,200 before Friday payroll."),
    LogLine("check", "14:32:03", "TechCorp Dublin - INV-047 (EUR 2,400) identified as resolution."),
    LogLine("loading", "14:32:04", "Creating Stripe payment link..."),
    LogLine("check", "14:32:05", "Payment link created: pay.stripe.com/float/inv047"),
    LogLine("loading", "14:32:06", "Preparing AI call to TechCorp Dublin..."),
    LogLine("check", "14:32:07", "Call strategy confirmed. Dynamic variables injected."),
    LogLine("phone", "14:32:08", "Initiating call to TechCorp Dublin (+353 1 234 5678)..."),
    LogLine("live", "14:32:10", "LIVE CALL IN PROGRESS")]

  /** `postCallLogs` (lines 26-30). */
  const POST_CALL_LOGS: seq<LogLine> := [
    LogLine("check", "14:36:52", "Call completed - TechCorp committed to payment today."),
    LogLine("check", "14:36:53", "Stripe link confirmed sent to accounts@techcorp.ie"),
    LogLine("loading", "14:36:54", "Monitoring for payment confirmation...")]

  /** `resolutionLogs` (lines 32-36). */
  const RESOLUTION_LOGS: seq<LogLine> := [
    LogLine("resolved", "14:41:18", "PAYMENT RECEIVED - EUR 2,400 from TechCorp Dublin"),
    LogLine("resolved", "14:41:18", "Payroll shortfall ELIMINATED"),
    LogLine("resolved", "14:41:18", "8 employees will be paid on Friday")]

  datatype Phase = Activity | Call | PostCall | Resolution | Complete

  /** The position of a phase in the script. */
  function Order(p: Phase): nat
  {
    match p
    case Activity => 0
    case Call => 1
    case PostCall => 2
    case Resolution => 3
    case Complete => 4
  }

  /** The six state variables of the modal (lines 39-44). */
  datatype State = State(
    visibleLogs: nat, showCall: bool, callDuration: nat, phase: Phase, postCallIndex: nat, resolutionIndex: nat)

  function Initial(): State
  {
    State(0, false, 0, Activity, 0, 0)
  }

  /**
   * The timers: `Timeout` is the pending `setTimeout` of the current
   * phase, `Second` the one-second `setInterval` of the call.
   */
  datatype Timer = Timeout | Second

  /**
   * One timer firing and the effects it triggers (lines 46-87). In the
   * activity phase the last log line at once shows the call; timers that
   * are not armed in the current phase change nothing.
   */
  function Next(s: State, e: Timer): State
  {
    match s.phase
    case Activity =>
      if s.visibleLogs >= |LOG_SEQUENCE| then s.(showCall := true, phase := Call)
      else if e == Second then s
      else if s.visibleLogs + 1 < |LOG_SEQUENCE| then s.(visibleLogs := s.visibleLogs + 1)
      else s.(visibleLogs := s.visibleLogs + 1, showCall := true, phase := Call)
    case Call =>
      if e == Second then s.(callDuration := s.callDuration + 1) else s.(phase := PostCall)
    case PostCall =>
      if e == Second then s
      else if s.postCallIndex < |POST_CALL_LOGS| then s.(postCallIndex := s.postCallIndex + 1)
      else s.(phase := Resolution)
    case Resolution =>
      if e == Second then s
      else if s.resolutionIndex < |RESOLUTION_LOGS| then s.(resolutionIndex := s.resolutionIndex + 1)
      else s.(phase := Complete)
    case Complete => s
  }

  /** What holds of every state the script reaches. */
  predicate Valid(s: State)
  {
    && s.visibleLogs <= |LOG_SEQUENCE| && s.postCallIndex <= |POST_CALL_LOGS| && s.resolutionIndex <= |RESOLUTION_LOGS|
    && (s.phase == Activity ==> s.visibleLogs < |LOG_SEQUENCE| && !s.showCall && s.callDuration == 0)
    && (s.phase != Activity ==> s.visibleLogs == |LOG_SEQUENCE| && s.showCall)
    && (Order(s.phase) <= 1 ==> s.postCallIndex == 0)
    && (Order(s.phase) <= 2 ==> s.resolutionIndex == 0)
    && (Order(s.phase) >= 3 ==> s.postCallIndex == |POST_CALL_LOGS|)
    && (s.phase == Complete ==> s.resolutionIndex == |RESOLUTION_LOGS|)
  }

  lemma InitialValid()
    ensures Valid(Initial())
  {
  }

  /** Every step keeps the script's invariant. */
  lemma NextValid(s: State, e: Timer)
    requires Valid(s)
    ensures Valid(Next(s, e))
  {
  }

  /**
   * The phase only advances, one phase at a time; every counter only grows,
   * by at most one; and the call duration moves only on a call-phase second.
   */
  lemma NextAdvances(s: State, e: Timer)
    requires Valid(s)
    ensures var t := Next(s, e);
      && Order(s.phase) <= Order(t.phase) <= Order(s.phase) + 1
      && s.visibleLogs <= t.visibleLogs <= s.visibleLogs + 1
      && s.postCallIndex <= t.postCallIndex <= s.postCallIndex + 1
      && s.resolutionIndex <= t.resolutionIndex <= s.resolutionIndex + 1
      && (t.callDuration != s.callDuration <==> s.phase == Call && e == Second)
      && t.callDuration <= s.callDuration + 1
  {
  }

  /** The log lines on screen (lines 139, 149, 161). */
  function Rendered(s: State): seq<LogLine>
    requires Valid(s)
  {
    LOG_SEQUENCE[..s.visibleLogs] + POST_CALL_LOGS[..s.postCallIndex] + RESOLUTION_LOGS[..s.resolutionIndex]
  }

  function Script(): seq<LogLine>
  {
    LOG_SEQUENCE + POST_CALL_LOGS + RESOLUTION_LOGS
  }

  /** The lines on screen are always the first lines of the whole script, taken in order. */
  lemma RenderedIsPrefix(s: State)
    requires Valid(s)
    ensures Rendered(s) == Script()[..s.visibleLogs + s.postCallIndex + s.resolutionIndex]
  {
    var v, p, r := s.visibleLogs, s.postCallIndex, s.resolutionIndex;
    if p > 0 {
      assert LOG_SEQUENCE[..v] == LOG_SEQUENCE;
      if r > 0 {
        assert POST_CALL_LOGS[..p] == POST_CALL_LOGS;
      }
    }
  }

  /** A step only ever adds lines to the screen. */
  lemma RenderedGrows(s: State, e: Timer)
    requires Valid(s)
    ensures Valid(Next(s, e))
    ensures Rendered(s) <= Rendered(Next(s, e))
  {
    NextValid(s, e);
    NextAdvances(s, e);
    var t := Next(s, e);
    RenderedIsPrefix(s);
    RenderedIsPrefix(t);
    var n := s.visibleLogs + s.postCallIndex + s.resolutionIndex;
    var m := t.visibleLogs + t.postCallIndex + t.resolutionIndex;
    assert Script()[..n] == Script()[..m][..n];
  }

  /** `n` timeouts in a row. */
  function Timeouts(n: nat): seq<Timer>
  {
    seq(n, _ => Timeout)
  }

  function Run(s: State, es: seq<Timer>): State
    decreases |es|
  {
    if es == [] then s else Run(Next(s, es[0]), es[1..])
  }

  lemma TimeoutsTail(n: nat)
    requires n > 0
    ensures Timeouts(n)[0] == Timeout && Timeouts(n)[1..] == Timeouts(n - 1)
  {
  }

  /** From the activity phase, the remaining log timeouts show all nine lines and open the call. */
  lemma {:induction false} ActivityReachesCall(s: State)
    requires Valid(s) && s.phase == Activity
    ensures var t := Run(s, Timeouts(|LOG_SEQUENCE| - s.visibleLogs));
      t == s.(visibleLogs := |LOG_SEQUENCE|, showCall := true, phase := Call)
    decreases |LOG_SEQUENCE| - s.visibleLogs
  {
    var n := |LOG_SEQUENCE| - s.visibleLogs;
    TimeoutsTail(n);
    var t := Next(s, Timeout);
    assert Run(s, Timeouts(n)) == Run(t, Timeouts(n - 1));
    if t.phase == Activity {
      NextValid(s, Timeout);
      ActivityReachesCall(t);
    } else {
      assert Timeouts(n - 1) == [];
    }
  }

  /** After the call, the three post-call lines appear before the resolution phase begins. */
  lemma {:induction false} PostCallReachesResolution(s: State)
    requires Valid(s) && s.phase == PostCall
    ensures var t := Run(s, Timeouts(|POST_CALL_LOGS| - s.postCallIndex + 1));
      t == s.(postCallIndex := |POST_CALL_LOGS|, phase := Resolution)
    decreases |POST_CALL_LOGS| - s.postCallIndex
  {
    var n := |POST_CALL_LOGS| - s.postCallIndex + 1;
    TimeoutsTail(n);
    var t := Next(s, Timeout);
    assert Run(s, Timeouts(n)) == Run(t, Timeouts(n - 1));
    if s.postCallIndex < |POST_CALL_LOGS| {
      NextValid(s, Timeout);
      PostCallReachesResolution(t);
    } else {
      assert Timeouts(n - 1) == [];
    }
  }

  /** The three resolution lines appear before the script completes. */
  lemma {:induction false} ResolutionReachesComplete(s: State)
    requires Valid(s) && s.phase == Resolution
    ensures var t := Run(s, Timeouts(|RESOLUTION_LOGS| - s.resolutionIndex + 1));
      t == s.(resolutionIndex := |RESOLUTION_LOGS|, phase := Complete)
    decreases |RESOLUTION_LOGS| - s.resolutionIndex
  {
    var n := |RESOLUTION_LOGS| - s.resolutionIndex + 1;
    TimeoutsTail(n);
    var t := Next(s, Timeout);
    assert Run(s, Timeouts(n)) == Run(t, Timeouts(n - 1));
    if s.resolutionIndex < |RESOLUTION_LOGS| {
      NextValid(s, Timeout);
      ResolutionReachesComplete(t);
    } else {
      assert Timeouts(n - 1) == [];
    }
  }

  /** The state variables of the component, stepped by its timers. */
  class FixItModal {
    var visibleLogs: nat
    var showCall: bool
    var callDuration: nat
    var phase: Phase
    var postCallIndex: nat
    var resolutionIndex: nat

    function Snapshot(): State
      reads this
    {
      State(visibleLogs, showCall, callDuration, phase, postCallIndex, resolutionIndex)
    }

    constructor ()
      ensures Snapshot() == Initial()
    {
      visibleLogs := 0;
      showCall := false;
      callDuration := 0;
      phase := Activity;
      postCallIndex := 0;
      resolutionIndex := 0;
    }

    /** A timer fires: the state setters it calls, then the effects that follow. */
    method Fire(e: Timer)
      modifies this
      ensures Snapshot() == Next(old(Snapshot()), e)
    {
      match phase {
        case Activity =>
          if visibleLogs >= |LOG_SEQUENCE| {
            showCall := true;
            phase := Call;
          } else if e == Timeout {
            visibleLogs := visibleLogs + 1;
            if visibleLogs == |LOG_SEQUENCE| {
              showCall := true;
              phase := Call;
            }
          }
        case Call =>
          if e == Second {
            callDuration := callDuration + 1;
          } else {
            phase := PostCall;
          }
        case PostCall =>
          if e == Timeout {
            if postCallIndex < |POST_CALL_LOGS| {
              postCallIndex := postCallIndex + 1;
            } else {
              phase := Resolution;
            }
          }
        case Resolution =>
          if e == Timeout {
            if resolutionIndex < |RESOLUTION_LOGS| {
              resolutionIndex := resolutionIndex + 1;
            } else {
              phase := Complete;
            }
          }
        case Complete =>
      }
    }
  }

  // ---------------------------------------------------------------------
  // Call timer

  /** `padStart(2, "0")` */
  function PadTwo(t: string): string
  {
    if |t| >= 2 then t else seq(2 - |t|, _ => '0') + t
  }

  /** `formatDuration` (line 89): whole minutes, a colon, and the seconds as two digits. */
  function FormatDuration(s: nat): string
  {
    Text.NatToString(s / 60) + ":" + PadTwo(Text.NatToString(s % 60))
  }

  /** The seconds part is exactly two digits whose value is `s % 60`. */
  lemma SecondsField(s: nat)
    ensures var p := PadTwo(Text.NatToString(s % 60));
      |p| == 2 && (forall i :: 0 <= i < 2 ==> Text.IsDigit(p[i])) && Text.DigitsValue(p) == s % 60
  {
    var d := s % 60;
    var t := Text.NatToString(d);
    var p := PadTwo(t);
    Text.NatToStringValue(d);
    if d < 10 {
      assert t == [Text.DigitChar(d)];
      assert p == ['0', Text.DigitChar(d)];
      assert p[..1] == ['0'] && ['0'][..0] == [];
    } else {
      assert Text.NatToString(d / 10) == [Text.DigitChar(d / 10)];
      assert p == t;
    }
  }

  /** The shown duration has the minutes then a colon then two seconds digits, with their values. */
  lemma FormatDurationSpec(s: nat)
    ensures var r := FormatDuration(s);
      && |r| >= 4 && r[|r| - 3] == ':'
      && r[..|r| - 3] == Text.NatToString(s / 60)
      && Text.DigitsValue(Text.NatToString(s / 60)) == s / 60
      && (forall i :: |r| - 2 <= i < |r| ==> Text.IsDigit(r[i]))
      && Text.DigitsValue(r[|r| - 2..]) == s % 60
  {
    SecondsField(s);
    Text.NatToStringValue(s / 60);
    var m := Text.NatToString(s / 60);
    var p := PadTwo(Text.NatToString(s % 60));
    var r := FormatDuration(s);
    assert r == m + ":" + p;
    assert r[|r| - 2..] == p;
    assert r[..|r| - 3] == m;
  }

  /** Different durations never show the same text. */
  lemma FormatDurationInjective(a: nat, b: nat)
    requires FormatDuration(a) == FormatDuration(b)
    ensures a == b
  {
    var r := FormatDuration(a);
    FormatDurationSpec(a);
    FormatDurationSpec(b);
    assert Text.NatToString(a / 60) == Text.NatToString(b / 60);
    assert a / 60 == b / 60;
    assert a % 60 == b % 60;
    assert a == (a / 60) * 60 + a % 60;
    assert b == (b / 60) * 60 + b % 60;
  }
}
