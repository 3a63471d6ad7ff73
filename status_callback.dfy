/**
 * Twilio's call-status webhook (twilio-status-callback/index.ts): the
 * callback's `CallStatus` and `CallDuration` form fields become one update
 * of the `calls` row named by the `callId` query parameter. The database
 * write and the clock are outside the model: the timestamp is an input and
 * the write is the returned update.
 */
module StatusCallback {
  import opened Wrappers
  import Text

  datatype CallStatus = Initiated | InProgress | Completed | Failed

  function StatusName(s: CallStatus): string
  {
    match s
    case Initiated => "initiated"
    case InProgress => "in-progress"
    case Completed => "completed"
    case Failed => "failed"
  }

  /** The `statusMap` table of Twilio call states. */
  const STATUS_MAP: map<string, CallStatus> := map[
    "queued" := Initiated, "initiated" := Initiated, "ringing" := Initiated,
    "in-progress" := InProgress, "answered" := InProgress,
    "completed" := Completed,
    "busy" := Failed, "failed" := Failed, "no-answer" := Failed,
    "canceled" := Failed, "cancelled" := Failed]

  /** `(callStatus || "").toLowerCase()` */
  function Normalized(callStatus: Option<string>): string
  {
    Text.Lower(if callStatus.Some? then callStatus.value else "")
  }

  /** The mapped status: the table entry, or `failed` for anything the table lacks. */
  function MapStatus(callStatus: Option<string>): (m: CallStatus)
    ensures m == Initiated <==> Normalized(callStatus) in {"queued", "initiated", "ringing"}
    ensures m == InProgress <==> Normalized(callStatus) in {"in-progress", "answered"}
    ensures m == Completed <==> Normalized(callStatus) == "completed"
    ensures m == Failed <==> Normalized(callStatus) !in {"queued", "initiated", "ringing", "in-progress", "answered", "completed"}
  {
    var n := Normalized(callStatus);
    if n in STATUS_MAP then STATUS_MAP[n]
    else if n == "completed" then Completed
    else Failed
  }

  predicate IsTerminal(m: CallStatus)
  {
    m == Completed || m == Failed
  }

  /** The update record written to the call's row. */
  datatype CallUpdate = CallUpdate(
    status: CallStatus,
    completedAt: Option<string>,
    durationSeconds: Option<int>,
    outcome: Option<string>)

  /** `${x}` for a form field, which is a string or `null`. */
  function FieldText(v: Option<string>): string
  {
    if v.Some? then v.value else "null"
  }

  /**
   * `u` is the `updates` record for these form fields, every field fixed:
   * the mapped status; `completed_at` exactly for a terminal status;
   * `duration_seconds` exactly when `parseInt` of a non-empty duration
   * yields a number; the completed or failed outcome text, and no outcome
   * for a state still in progress.
   */
  predicate IsUpdateFor(u: CallUpdate, callStatus: Option<string>, callDuration: Option<string>, now: string)
  {
    && u.status == MapStatus(callStatus)
    && u.completedAt == (if IsTerminal(u.status) then Some(now) else None)
    && u.durationSeconds == (if callDuration.Some? && callDuration.value != "" then Text.ParseInt(callDuration.value) else None)
    && u.outcome == (
      if u.status == Completed then
        Some("Call completed successfully. Duration: "
          + (if callDuration.Some? && callDuration.value != "" then callDuration.value else "0") + "s")
      else if u.status == Failed then Some("Call " + FieldText(callStatus))
      else None)
  }

  /** The form fields fix the update: two records for the same fields are equal. */
  lemma UpdateDetermined(u: CallUpdate, v: CallUpdate, callStatus: Option<string>, callDuration: Option<string>, now: string)
    requires IsUpdateFor(u, callStatus, callDuration, now) && IsUpdateFor(v, callStatus, callDuration, now)
    ensures u == v
  {
  }

  /**
   * The `updates` record, built field by field as the handler does; `now`
   * stands for `new Date().toISOString()`.
   */
  method BuildUpdates(callStatus: Option<string>, callDuration: Option<string>, now: string) returns (u: CallUpdate)
    ensures IsUpdateFor(u, callStatus, callDuration, now)
    ensures u.completedAt.Some? <==> IsTerminal(u.status)
    ensures u.durationSeconds.Some? <==>
      callDuration.Some? && callDuration.value != "" && Text.ParseInt(callDuration.value).Some?
  {
    var mapped := MapStatus(callStatus);
    u := CallUpdate(mapped, None, None, None);
    if IsTerminal(mapped) {
      u := u.(completedAt := Some(now));
    }
    if callDuration.Some? && callDuration.value != "" {
      var parsed := Text.ParseInt(callDuration.value);
      if parsed.Some? {
        u := u.(durationSeconds := parsed);
      }
    }
    if mapped == Completed {
      var shown := if callDuration.Some? && callDuration.value != "" then callDuration.value else "0";
      u := u.(outcome := Some("Call completed successfully. Duration: " + shown + "s"));
    } else if mapped == Failed {
      u := u.(outcome := Some("Call " + FieldText(callStatus)));
    }
  }

  /** The reply, and the update of row `id` the handler asked the database for, if any. */
  datatype CallbackResult = CallbackResult(update: Option<(string, CallUpdate)>, status: int, body: string)

  /**
   * The whole callback. `formOk` says whether `req.formData()` resolved and
   * `clientThrows` whether `createClient` threw (a missing Supabase URL or
   * key); either failure is the 500 "Error" reply of the `catch`, with no
   * update. Otherwise row `callId` is updated when that parameter is
   * non-empty, and the reply is 200 "OK" whatever the database answers.
   */
  method HandleCallback(callId: Option<string>, formOk: bool, clientThrows: bool,
                        callStatus: Option<string>, callDuration: Option<string>, now: string)
    returns (r: CallbackResult)
    ensures var failed := !formOk || (callId.Some? && callId.value != "" && clientThrows);
      && (failed ==> r == CallbackResult(None, 500, "Error"))
      && (!failed ==> r.status == 200 && r.body == "OK")
    ensures r.update.Some? <==> formOk && callId.Some? && callId.value != "" && !clientThrows
    ensures r.update.Some? ==>
      r.update.value.0 == callId.value && IsUpdateFor(r.update.value.1, callStatus, callDuration, now)
  {
    if !formOk {
      return CallbackResult(None, 500, "Error");
    }
    if callId.Some? && callId.value != "" {
      if clientThrows {
        return CallbackResult(None, 500, "Error");
      }
      var u := BuildUpdates(callStatus, callDuration, now);
      r := CallbackResult(Some((callId.value, u)), 200, "OK");
    } else {
      r := CallbackResult(None, 200, "OK");
    }
  }

  /** Upper-case Twilio states map like their lower-case spelling. */
  lemma UpperCaseMapsAlike(s: string)
    ensures MapStatus(Some(Text.Upper(s))) == MapStatus(Some(s))
  {
    LowerUpper(s);
  }

  lemma {:induction false} LowerUpper(s: string)
    ensures Text.Lower(Text.Upper(s)) == Text.Lower(s)
  {
    var u := Text.Upper(s);
    assert forall i :: 0 <= i < |s| ==> Text.LowerChar(u[i]) == Text.LowerChar(s[i]);
  }
}
