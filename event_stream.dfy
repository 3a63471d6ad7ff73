/**
 * The streamed-reply reader of the chat page (`streamChat` in
 * src/pages/Chat.tsx): a loose subset of the server-sent events format of
 * the WHATWG HTML Living Standard, section 9.2. Decoded text arrives in
 * chunks; complete lines are cut at "\n", one trailing "\r" is dropped,
 * and only `data: ` lines are read. `JSON.parse` is an oracle.
 *
 * The same line rules serve the query bar (query_bar.dfy): its inner loop
 * lacks the comment and blank-line guard, which `SameLineRules` shows to
 * change nothing.
 */
module EventStream {
  import opened Wrappers
  import opened JsonValues
  import Text

  /** `JSON.parse`: `None` is a SyntaxError. */
  type Parser = string -> Option<Json>

  /** `buf.indexOf("\n")`, `None` for -1. */
  function NewlineAt(s: string): (r: Option<nat>)
    ensures r.Some? ==> r.value < |s|
  {
    if s == [] then None
    else if s[0] == '\n' then Some(0)
    else match NewlineAt(s[1..])
      case None => None
      case Some(k) => Some(k + 1)
  }

  /** `indexOf` finds the first newline, and -1 means there is none. */
  lemma {:induction false} NewlineAtSpec(s: string)
    ensures NewlineAt(s).None? <==> forall i :: 0 <= i < |s| ==> s[i] != '\n'
    ensures NewlineAt(s).Some? ==>
      (s[NewlineAt(s).value] == '\n' && forall i :: 0 <= i < NewlineAt(s).value ==> s[i] != '\n')
  {
    if s != [] && s[0] != '\n' {
      NewlineAtSpec(s[1..]);
      assert forall i :: 1 <= i < |s| ==> s[i] == s[1..][i - 1];
    }
  }

  /** Searching `s + b` finds the newline of `s`, or else the first one of `b`. */
  lemma {:induction false} NewlineAtAppend(s: string, b: string)
    ensures NewlineAt(s + b) == match NewlineAt(s)
      case Some(i) => Some(i)
      case None => (match NewlineAt(b) case None => None case Some(k) => Some(|s| + k))
  {
    if s != [] {
      assert (s + b)[0] == s[0];
      assert (s + b)[1..] == s[1..] + b;
      NewlineAtAppend(s[1..], b);
    } else {
      assert s + b == b;
    }
  }

  /** `if (line.endsWith("\r")) line = line.slice(0, -1)` */
  function StripCr(line: string): (r: string)
    ensures r == line || (line == r + "\r")
  {
    if Text.EndsWith(line, "\r") then line[..|line| - 1] else line
  }

  /** What one line asks of the reader. */
  datatype LineKind =
    | Ignored          // not a `data: ` line
    | DoneMarker       // `data: [DONE]`
    | Content(text: string)  // a truthy delta, as `+=` stringifies it
    | NoContent        // parsed, but without a truthy delta
    | Unparsed         // `JSON.parse` or the member access threw

  /**
   * `parsed.choices?.[0]?.delta?.content`. The first step is a plain `.`, so
   * a payload that parses to `null` throws inside the `try`.
   */
  function DeltaOf(parsed: Json): Option<Json>
  {
    Get(Get(First(Get(Some(parsed), "choices")), "delta"), "content")
  }

  /** The handling of the text after `data: `, once trimmed. */
  function Payload(json: string, parse: Parser): (k: LineKind)
    ensures k != Ignored
    ensures k == DoneMarker <==> json == "[DONE]"
    ensures k == Unparsed <==> json != "[DONE]" && (parse(json).None? || parse(json) == Some(JNull))
  {
    if json == "[DONE]" then DoneMarker
    else match parse(json)
      case None => Unparsed
      case Some(p) =>
        if p.JNull? then Unparsed
        else if Truthy(DeltaOf(p)) then Content(ToText(DeltaOf(p)))
        else NoContent
  }

  /** The chat page's rules for one line (Chat.tsx, lines 131-142). */
  function ChatLine(line: string, parse: Parser): LineKind
  {
    if Text.StartsWith(line, ":") || Text.Trim(line) == "" then Ignored
    else if !Text.StartsWith(line, "data: ") then Ignored
    else Payload(Text.Trim(line[6..]), parse)
  }

  /** The query bar's rules for one line (NlQueryBar.tsx, lines 55-61). */
  function QueryLine(line: string, parse: Parser): (k: LineKind)
    ensures k != Ignored <==> Text.StartsWith(line, "data: ")
  {
    if !Text.StartsWith(line, "data: ") then Ignored
    else Payload(Text.Trim(line[6..]), parse)
  }

  /** The chat page's extra guard for comments and blank lines never changes the outcome. */
  lemma SameLineRules(line: string, parse: Parser)
    ensures ChatLine(line, parse) == QueryLine(line, parse)
  {
    if Text.StartsWith(line, "data: ") {
      assert line[0] == 'd' && !Text.IsSpace(line[0]);
      assert !Text.StartsWith(line, ":");
      var t := Text.TrimStart(line);
      assert t == line;
      assert Text.Trim(line) == Text.TrimEnd(t);
      assert Text.Trim(line) != "" by {
        assert !Text.IsSpace(t[0]);
      }
    }
  }

  lemma TrimStartSnoc(s: string, c: char)
    requires Text.IsSpace(c)
    ensures Text.TrimStart(s + [c]) == (if Text.TrimStart(s) == [] then [] else Text.TrimStart(s) + [c])
    decreases |s|
  {
    if s != [] && Text.IsSpace(s[0]) {
      assert (s + [c])[1..] == s[1..] + [c];
      TrimStartSnoc(s[1..], c);
    }
  }

  /** A trailing white space character does not survive `trim`. */
  lemma TrimSnoc(s: string, c: char)
    requires Text.IsSpace(c)
    ensures Text.Trim(s + [c]) == Text.Trim(s)
  {
    TrimStartSnoc(s, c);
    var t := Text.TrimStart(s);
    if t != [] {
      assert (t + [c])[..|t + [c]| - 1] == t;
    }
  }

  /** Dropping a "\r" from a line that failed to parse leaves a line that fails again. */
  lemma StripCrKeepsUnparsed(line: string, parse: Parser)
    requires QueryLine(line, parse) == Unparsed
    ensures QueryLine(StripCr(line), parse) == Unparsed
  {
    var r := StripCr(line);
    if r != line {
      DataPrefixOfCr(r);
      var json := r[6..];
      TrimSnoc(json, '\r');
      assert QueryLine(line, parse) == Payload(Text.Trim(json + ['\r']), parse);
      assert QueryLine(r, parse) == Payload(Text.Trim(json), parse);
    }
  }

  /** A "data: " line ending in "\r" keeps its prefix once the "\r" is dropped. */
  lemma DataPrefixOfCr(r: string)
    requires Text.StartsWith(r + "\r", "data: ")
    ensures Text.StartsWith(r, "data: ")
    ensures (r + "\r")[6..] == r[6..] + ['\r']
  {
    assert (r + "\r")[5] == ' ';
    assert |r| >= 6;
    assert r[..6] == (r + "\r")[..6];
  }

  /** The rules of a reader, as the drain sees them. */
  type Rules = string -> LineKind

  function QueryRules(parse: Parser): Rules
  {
    line => QueryLine(line, parse)
  }

  function ChatRules(parse: Parser): Rules
  {
    line => ChatLine(line, parse)
  }

  /** A line that failed still fails once a "\r" is dropped from it. */
  ghost predicate Reparses(rules: Rules)
  {
    forall line {:trigger StripCr(line)} :: rules(line) == Unparsed ==> rules(StripCr(line)) == Unparsed
  }

  /** Both pages' rules re-fail on a line they put back. */
  lemma RulesReparse(parse: Parser)
    ensures Reparses(QueryRules(parse)) && Reparses(ChatRules(parse))
  {
    forall line | QueryLine(line, parse) == Unparsed
      ensures QueryLine(StripCr(line), parse) == Unparsed
    {
      StripCrKeepsUnparsed(line, parse);
    }
    forall line | ChatLine(line, parse) == Unparsed
      ensures ChatLine(StripCr(line), parse) == Unparsed
    {
      SameLineRules(line, parse);
      SameLineRules(StripCr(line), parse);
      StripCrKeepsUnparsed(line, parse);
    }
  }

  /** Why an inner loop stopped. */
  datatype Stop =
    | Exhausted   // no complete line left
    | Finished    // a `[DONE]` line
    | PushedBack  // a line that did not parse, put back in front of the buffer

  /** The state an inner loop leaves: the buffer, the deltas emitted, and why it stopped. */
  datatype Drained = Drained(rest: string, out: seq<string>, stop: Stop)

  function Prepend(out: seq<string>, d: Drained): Drained
  {
    Drained(d.rest, out + d.out, d.stop)
  }

  lemma Assoc(x: seq<string>, y: seq<string>, z: seq<string>)
    ensures x + (y + z) == x + y + z
  {
  }

  lemma NoneAdded(x: seq<string>)
    ensures x + [] == x && [] + x == x
  {
  }

  /** A complete first line of a buffer, its "\r" dropped, and what follows its newline. */
  datatype Split = Split(line: string, tail: string)

  function FirstLine(buf: string): (r: Option<Split>)
    ensures r.Some? ==> |r.value.tail| < |buf|
  {
    match NewlineAt(buf)
    case None => None
    case Some(idx) => Some(Split(StripCr(buf[..idx]), buf[idx + 1..]))
  }

  /** Text appended to a buffer lands after its first line, if it has one. */
  lemma FirstLineAppend(s: string, b: string)
    ensures FirstLine(s).None? ==> NewlineAt(s + b) == (match NewlineAt(b) case None => None case Some(k) => Some(|s| + k))
    ensures FirstLine(s).Some? ==> FirstLine(s + b) == Some(Split(FirstLine(s).value.line, FirstLine(s).value.tail + b))
  {
    var sb := s + b;
    NewlineAtAppend(s, b);
    match NewlineAt(s)
    case None =>
    case Some(idx) =>
      assert sb[..idx] == s[..idx];
      assert sb[idx + 1..] == s[idx + 1..] + b;
  }

  /** The inner loop `while ((idx = buf.indexOf("\n")) !== -1)` over a buffer. */
  function Drain(buf: string, rules: Rules): Drained
    decreases |buf|
  {
    match FirstLine(buf)
    case None => Drained(buf, [], Exhausted)
    case Some(Split(line, tail)) =>
      match rules(line)
      case DoneMarker => Drained(tail, [], Finished)
      case Unparsed => Drained(line + "\n" + tail, [], PushedBack)
      case Content(t) => Prepend([t], Drain(tail, rules))
      case _ => Drain(tail, rules)
  }

  /** A loop that ran out of complete lines leaves no newline behind. */
  lemma {:induction false} ExhaustedLeavesPartialLine(buf: string, rules: Rules)
    ensures Drain(buf, rules).stop == Exhausted ==> FirstLine(Drain(buf, rules).rest).None?
    decreases |buf|
  {
    match FirstLine(buf)
    case None =>
    case Some(Split(line, tail)) =>
      ExhaustedLeavesPartialLine(tail, rules);
  }

  /** How draining `s + b` continues, in terms of draining `s`. */
  function AppendedDrain(d: Drained, b: string, rules: Rules): Drained
  {
    if d.stop == Exhausted then Prepend(d.out, Drain(d.rest + b, rules))
    else Drained(d.rest + b, d.out, d.stop)
  }

  lemma PrependAssoc(t: string, d: Drained, b: string, rules: Rules)
    ensures Prepend([t], AppendedDrain(d, b, rules)) == AppendedDrain(Prepend([t], d), b, rules)
  {
    if d.stop == Exhausted {
      Assoc([t], d.out, Drain(d.rest + b, rules).out);
    }
  }

  /**
   * Where a chunk boundary falls does not matter: draining `s + b` is
   * draining `s`, then (unless it stopped) the leftover followed by `b`.
   */
  lemma {:induction false} DrainAppend(s: string, b: string, rules: Rules)
    ensures Drain(s + b, rules) == AppendedDrain(Drain(s, rules), b, rules)
    decreases |s|
  {
    FirstLineAppend(s, b);
    match FirstLine(s)
    case None =>
      NoneAdded(Drain(s + b, rules).out);
    case Some(Split(line, tail)) =>
      assert FirstLine(s + b) == Some(Split(line, tail + b));
      match rules(line)
      case DoneMarker =>
      case Unparsed =>
        assert line + "\n" + (tail + b) == (line + "\n" + tail) + b;
      case Content(t) =>
        DrainAppend(tail, b, rules);
        PrependAssoc(t, Drain(tail, rules), b, rules);
      case Ignored =>
        DrainAppend(tail, b, rules);
      case NoContent =>
        DrainAppend(tail, b, rules);
  }

  // ---------------------------------------------------------------------
  // A line that does not parse stalls the stream

  /** The first complete line of `buf` is one the reader cannot parse. */
  predicate Stuck(buf: string, rules: Rules)
  {
    FirstLine(buf).Some? && rules(FirstLine(buf).value.line) == Unparsed
  }

  /** No newline comes before the first one. */
  lemma NoNewlineBefore(buf: string, k: nat)
    requires NewlineAt(buf).Some? && k <= NewlineAt(buf).value
    ensures NewlineAt(buf[..k]).None?
  {
    assert buf[..k] + buf[k..] == buf;
    NewlineAtAppend(buf[..k], buf[k..]);
  }

  /** A line pushed back in front of a buffer is found again as its first line. */
  lemma PushBackFound(line: string, tail: string)
    requires NewlineAt(line).None?
    ensures FirstLine(line + "\n" + tail) == Some(Split(StripCr(line), tail))
  {
    var rest := line + "\n" + tail;
    assert rest == line + ("\n" + tail);
    NewlineAtAppend(line, "\n" + tail);
    assert rest[..|line|] == line;
    assert rest[|line| + 1..] == tail;
  }

  /** Appending text after a stuck buffer keeps it stuck. */
  lemma StuckAppend(buf: string, c: string, rules: Rules)
    requires Stuck(buf, rules)
    ensures Stuck(buf + c, rules)
  {
    FirstLineAppend(buf, c);
  }

  /** The line a loop puts back is found again, and fails again. */
  lemma PushBackStuck(buf: string, rules: Rules)
    requires Reparses(rules)
    requires FirstLine(buf).Some? && rules(FirstLine(buf).value.line) == Unparsed
    ensures Stuck(FirstLine(buf).value.line + "\n" + FirstLine(buf).value.tail, rules)
  {
    var line := FirstLine(buf).value.line;
    NoNewlineBefore(buf, |line|);
    assert buf[..|line|] == line;
    PushBackFound(line, FirstLine(buf).value.tail);
    assert StripCr(line) == FirstLine(line + "\n" + FirstLine(buf).value.tail).value.line;
  }

  /** A loop that pushes a line back leaves a stuck buffer. */
  lemma {:induction false} PushedBackIsStuck(buf: string, rules: Rules)
    requires Reparses(rules)
    requires Drain(buf, rules).stop == PushedBack
    ensures Stuck(Drain(buf, rules).rest, rules)
    decreases |buf|
  {
    match FirstLine(buf)
    case Some(Split(line, tail)) =>
      if rules(line) == Unparsed {
        PushBackStuck(buf, rules);
      } else {
        PushedBackIsStuck(tail, rules);
      }
  }

  /** On a stuck buffer the loop emits nothing and leaves a stuck buffer again. */
  lemma StuckDrain(buf: string, rules: Rules)
    requires Reparses(rules) && Stuck(buf, rules)
    ensures Drain(buf, rules).out == [] && Drain(buf, rules).stop == PushedBack
    ensures Stuck(Drain(buf, rules).rest, rules)
  {
    PushedBackIsStuck(buf, rules);
  }

  /** The text the deltas make when appended in order. */
  function Concat(ds: seq<string>): (r: string)
    ensures ds == [] ==> r == ""
  {
    if ds == [] then "" else Concat(ds[..|ds| - 1]) + ds[|ds| - 1]
  }

  lemma ConcatAppend(xs: seq<string>, ys: seq<string>)
    ensures Concat(xs + ys) == Concat(xs) + Concat(ys)
    decreases |ys|
  {
    if ys == [] {
      assert xs + ys == xs;
    } else {
      var zs := xs + ys;
      assert zs[..|zs| - 1] == xs + ys[..|ys| - 1];
      ConcatAppend(xs, ys[..|ys| - 1]);
    }
  }

  // ---------------------------------------------------------------------
  // The chat page's reader

  /** The reader's locals between two reads: `buf`, the deltas handed to `onDelta`, and `done`. */
  datatype Reader = Reader(buf: string, out: seq<string>, done: bool)

  /** One successful read, then the inner loop. */
  function ChatStep(r: Reader, chunk: string, rules: Rules): Reader
  {
    var d := Drain(r.buf + chunk, rules);
    Reader(d.rest, r.out + d.out, d.stop == Finished)
  }

  /** The outer loop over the chunks the body yields; it stops reading once `done`. */
  function ChatRun(r: Reader, chunks: seq<string>, rules: Rules): Reader
    decreases |chunks|
  {
    if r.done || chunks == [] then r else ChatRun(ChatStep(r, chunks[0], rules), chunks[1..], rules)
  }

  lemma ChatRunOne(r: Reader, c: string, rules: Rules)
    ensures ChatRun(r, [c], rules) == if r.done then r else ChatStep(r, c, rules)
  {
    assert [c][1..] == [];
  }

  lemma ChatRunTwo(r: Reader, a: string, b: string, rules: Rules)
    ensures ChatRun(r, [a, b], rules) == if r.done then r else ChatRun(ChatStep(r, a, rules), [b], rules)
  {
    assert [a, b][1..] == [b];
  }

  /** The buffer after reading `a + b` is the buffer after reading `a`, followed by `b`. */
  lemma BufferAppend(r: Reader, a: string, b: string, rules: Rules)
    ensures Drain(r.buf + (a + b), rules) == AppendedDrain(Drain(r.buf + a, rules), b, rules)
  {
    var s := r.buf + a;
    assert r.buf + (a + b) == s + b;
    SameDrain(r.buf + (a + b), s + b, rules);
    DrainAppend(s, b, rules);
  }

  lemma SameDrain(x: string, y: string, rules: Rules)
    requires x == y
    ensures Drain(x, rules) == Drain(y, rules)
  {
  }

  /** Reading `a + b` at once is reading `a` into a drain that ran dry, then `b`. */
  lemma StepAppendExhausted(r: Reader, a: string, b: string, rules: Rules)
    requires Drain(r.buf + a, rules).stop == Exhausted
    ensures ChatStep(r, a + b, rules) == ChatStep(ChatStep(r, a, rules), b, rules)
  {
    BufferAppend(r, a, b, rules);
    var d := Drain(r.buf + a, rules);
    Assoc(r.out, d.out, Drain(d.rest + b, rules).out);
  }

  /** Reading `a + b` at once, where `a` already stalls the drain, yields what reading `a` then `b` yields. */
  lemma StepAppendPushedBack(r: Reader, a: string, b: string, rules: Rules)
    requires Reparses(rules) && Drain(r.buf + a, rules).stop == PushedBack
    ensures ChatStep(r, a + b, rules).out == ChatStep(ChatStep(r, a, rules), b, rules).out
    ensures !ChatStep(r, a + b, rules).done && !ChatStep(ChatStep(r, a, rules), b, rules).done
  {
    BufferAppend(r, a, b, rules);
    var d := Drain(r.buf + a, rules);
    PushedBackIsStuck(r.buf + a, rules);
    StuckAppend(d.rest, b, rules);
    StuckDrain(d.rest + b, rules);
    NoneAdded(r.out + d.out);
  }

  /** Reading `a + b` at once, where `a` holds the `[DONE]` line, yields what reading `a` alone yields. */
  lemma StepAppendFinished(r: Reader, a: string, b: string, rules: Rules)
    requires Drain(r.buf + a, rules).stop == Finished
    ensures ChatStep(r, a + b, rules).out == ChatStep(r, a, rules).out
    ensures ChatStep(r, a + b, rules).done && ChatStep(r, a, rules).done
  {
    BufferAppend(r, a, b, rules);
  }

  /** Splitting a chunk in two changes neither the deltas nor whether the stream finished. */
  lemma ChatChunking(r: Reader, a: string, b: string, rules: Rules)
    requires Reparses(rules) && !r.done
    ensures ChatRun(r, [a, b], rules).out == ChatRun(r, [a + b], rules).out
    ensures ChatRun(r, [a, b], rules).done == ChatRun(r, [a + b], rules).done
  {
    ChatRunTwo(r, a, b, rules);
    ChatRunOne(ChatStep(r, a, rules), b, rules);
    ChatRunOne(r, a + b, rules);
    match Drain(r.buf + a, rules).stop
    case Exhausted => StepAppendExhausted(r, a, b, rules);
    case PushedBack => StepAppendPushedBack(r, a, b, rules);
    case Finished => StepAppendFinished(r, a, b, rules);
  }

  /** After the `[DONE]` line the chat reader stops reading: a later chunk adds nothing. */
  lemma ChatStopsAtDone(r: Reader, a: string, b: string, rules: Rules)
    requires !r.done && Drain(r.buf + a, rules).stop == Finished
    ensures ChatRun(r, [a, b], rules).out == r.out + Drain(r.buf + a, rules).out
    ensures ChatRun(r, [a, b], rules).done
  {
    ChatRunTwo(r, a, b, rules);
    ChatRunOne(ChatStep(r, a, rules), b, rules);
  }

  /** Once a line has been pushed back, no later chunk yields a delta. */
  lemma {:induction false} ChatStall(r: Reader, chunks: seq<string>, rules: Rules)
    requires Reparses(rules) && Stuck(r.buf, rules)
    ensures ChatRun(r, chunks, rules).out == r.out
    decreases |chunks|
  {
    if !r.done && chunks != [] {
      StuckAppend(r.buf, chunks[0], rules);
      StuckDrain(r.buf + chunks[0], rules);
      var next := ChatStep(r, chunks[0], rules);
      NoneAdded(r.out);
      ChatStall(next, chunks[1..], rules);
    }
  }

  /**
   * The inner loop of `streamChat` (Chat.tsx, lines 127-147), run on the
   * buffer after a read; `rules` are the line rules of lines 131-142.
   */
  method ChatLines(buf0: string, rules: Rules) returns (buf: string, out: seq<string>, done: bool)
    ensures Drained(buf, out, if done then Finished else Drain(buf0, rules).stop) == Drain(buf0, rules)
    ensures done <==> Drain(buf0, rules).stop == Finished
  {
    buf := buf0;
    out := [];
    done := false;
    var idx := NewlineAt(buf);
    while idx.Some?
      invariant idx == NewlineAt(buf)
      invariant Prepend(out, Drain(buf, rules)) == Drain(buf0, rules)
      decreases |buf|
    {
      var line := buf[..idx.value];
      var tail := buf[idx.value + 1..];
      assert FirstLine(buf) == Some(Split(StripCr(line), tail));
      buf := tail;
      line := StripCr(line);
      var kind := rules(line);
      if kind == DoneMarker {
        done := true;
        return;
      }
      if kind == Unparsed {
        buf := line + "\n" + buf;
        return;
      }
      if kind.Content? {
        Assoc(out, [kind.text], Drain(buf, rules).out);
        out := out + [kind.text];
      }
      idx := NewlineAt(buf);
    }
    NoneAdded(out);
  }

  /**
   * `streamChat` after the response checks (Chat.tsx, lines 117-149): the
   * body yields `chunks`, and then either reports its end or, when
   * `readFails`, throws. `deltas` are the `onDelta` calls in order;
   * `completed` says whether `onDone` ran.
   */
  method StreamChat(chunks: seq<string>, readFails: bool, parse: Parser) returns (deltas: seq<string>, completed: bool)
    ensures deltas == ChatRun(Reader("", [], false), chunks, ChatRules(parse)).out
    ensures completed <==> ChatRun(Reader("", [], false), chunks, ChatRules(parse)).done || !readFails
  {
    var rules := ChatRules(parse);
    var buf := "";
    var done := false;
    deltas := [];
    var k := 0;
    while !done
      invariant 0 <= k <= |chunks|
      invariant ChatRun(Reader(buf, deltas, done), chunks[k..], rules) == ChatRun(Reader("", [], false), chunks, rules)
      decreases |chunks| - k
    {
      if k == |chunks| {
        if readFails {
          return deltas, false;
        }
        break;
      }
      ghost var before := Reader(buf, deltas, done);
      var out;
      buf, out, done := ChatLines(buf + chunks[k], rules);
      deltas := deltas + out;
      assert Reader(buf, deltas, done) == ChatStep(before, chunks[k], rules);
      assert chunks[k..][1..] == chunks[k + 1..];
      k := k + 1;
    }
    completed := true;
  }
}
