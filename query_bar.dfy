/**
 * The natural-language query bar of the dashboard (`ask` in
 * src/components/dashboard/NlQueryBar.tsx): a guarded request whose
 * streamed reply is read line by line with the rules of event_stream.dfy,
 * except that `[DONE]` only ends the inner loop and reading goes on.
 */
module QueryBar {
  import opened Wrappers
  import opened JsonValues
  import Text
  import opened EventStream

  /** The text shown when anything in the request throws. */
  const APOLOGY: string := "Sorry, I could not process that question. Try the full AI Chat instead."

  /**
   * What the network gives the component: a refusal (`fetch` threw, the
   * status was not ok, or there was no body, all of which throw), or a body
   * that yields `chunks` and then either ends or, when `readFails`, throws.
   */
  datatype Reply = Refused | Streamed(chunks: seq<string>, readFails: bool)

  /** One read, then the inner loop; a `[DONE]` line does not stop the reading. */
  function QueryStep(r: Reader, chunk: string, rules: Rules): Reader
  {
    var d := Drain(r.buf + chunk, rules);
    Reader(d.rest, r.out + d.out, false)
  }

  /** The `while (true)` loop over every chunk the body yields. */
  function QueryRun(r: Reader, chunks: seq<string>, rules: Rules): Reader
    decreases |chunks|
  {
    if chunks == [] then r else QueryRun(QueryStep(r, chunks[0], rules), chunks[1..], rules)
  }

  /** Unlike the chat reader, the query bar still reads the lines that follow `[DONE]`. */
  lemma QueryReadsPastDone(r: Reader, a: string, b: string, rules: Rules)
    requires Drain(r.buf + a, rules).stop == Finished
    ensures var d := Drain(r.buf + a, rules);
      QueryRun(r, [a, b], rules).out == r.out + d.out + Drain(d.rest + b, rules).out
  {
    assert [a, b][1..] == [b];
    assert [b][1..] == [];
    var x := QueryStep(r, a, rules);
    assert QueryRun(r, [a, b], rules) == QueryRun(x, [b], rules);
    assert QueryRun(x, [b], rules) == QueryStep(x, b, rules);
  }

  /** Once a line has been pushed back, no later chunk adds to the answer. */
  lemma {:induction false} QueryStall(r: Reader, chunks: seq<string>, rules: Rules)
    requires Reparses(rules) && Stuck(r.buf, rules)
    ensures QueryRun(r, chunks, rules).out == r.out
    decreases |chunks|
  {
    if chunks != [] {
      StuckAppend(r.buf, chunks[0], rules);
      StuckDrain(r.buf + chunks[0], rules);
      NoneAdded(r.out);
      QueryStall(QueryStep(r, chunks[0], rules), chunks[1..], rules);
    }
  }

  /** The answers shown as deltas arrive, each the text so far. */
  function Partials(shown: string, ds: seq<string>): seq<string>
    decreases |ds|
  {
    if ds == [] then [] else [shown + ds[0]] + Partials(shown + ds[0], ds[1..])
  }

  /** The `i`-th answer shown is the concatenation of the first `i + 1` deltas. */
  lemma {:induction false} PartialsSpec(shown: string, ds: seq<string>)
    ensures |Partials(shown, ds)| == |ds|
    ensures forall i :: 0 <= i < |ds| ==> Partials(shown, ds)[i] == shown + Concat(ds[..i + 1])
    decreases |ds|
  {
    if ds != [] {
      PartialsSpec(shown + ds[0], ds[1..]);
      forall i | 0 <= i < |ds|
        ensures Partials(shown, ds)[i] == shown + Concat(ds[..i + 1])
      {
        assert ds[..i + 1] == [ds[0]] + ds[1..][..i];
        ConcatAppend([ds[0]], ds[1..][..i]);
        assert Concat([ds[0]]) == ds[0] by {
          assert [ds[0]][..0] == [];
        }
        if i > 0 {
          assert ds[1..][..i] == ds[1..][..i - 1 + 1];
        }
      }
    }
  }

  lemma {:induction false} PartialsAppend(shown: string, xs: seq<string>, ys: seq<string>)
    ensures Partials(shown, xs + ys) == Partials(shown, xs) + Partials(shown + Concat(xs), ys)
    decreases |xs|
  {
    if xs == [] {
      assert xs + ys == ys;
      assert shown + "" == shown;
    } else {
      assert (xs + ys)[0] == xs[0] && (xs + ys)[1..] == xs[1..] + ys;
      var s0 := shown + xs[0];
      PartialsAppend(s0, xs[1..], ys);
      ConcatAppend([xs[0]], xs[1..]);
      assert [xs[0]] + xs[1..] == xs;
      assert Concat([xs[0]]) == xs[0] by {
        assert [xs[0]][..0] == [];
      }
      assert shown + Concat(xs) == s0 + Concat(xs[1..]);
      var p := Partials(s0, xs[1..]);
      var q := Partials(s0 + Concat(xs[1..]), ys);
      assert Partials(shown, xs + ys) == [s0] + (p + q);
      assert [s0] + (p + q) == ([s0] + p) + q;
    }
  }

  /**
   * The inner loop of `ask` (NlQueryBar.tsx, lines 51-70) on the buffer
   * after a read, with the line rules of lines 55-61: `result` grows by
   * each truthy delta, and every growth is shown.
   */
  method QueryLines(buf0: string, result0: string, rules: Rules)
    returns (buf: string, result: string, shown: seq<string>)
    ensures buf == Drain(buf0, rules).rest
    ensures result == result0 + Concat(Drain(buf0, rules).out)
    ensures shown == Partials(result0, Drain(buf0, rules).out)
  {
    buf := buf0;
    result := result0;
    shown := [];
    ghost var out: seq<string> := [];
    var idx := NewlineAt(buf);
    while idx.Some?
      invariant idx == NewlineAt(buf)
      invariant Prepend(out, Drain(buf, rules)) == Drain(buf0, rules)
      invariant result == result0 + Concat(out)
      invariant shown == Partials(result0, out)
      decreases |buf|
    {
      var line := buf[..idx.value];
      var tail := buf[idx.value + 1..];
      assert FirstLine(buf) == Some(Split(StripCr(line), tail));
      buf := tail;
      line := StripCr(line);
      var kind := rules(line);
      if kind == DoneMarker {
        break;
      }
      if kind == Unparsed {
        buf := line + "\n" + buf;
        break;
      }
      if kind.Content? {
        Assoc(out, [kind.text], Drain(buf, rules).out);
        ResultGrows(result0, out, kind.text);
        out := out + [kind.text];
        result := result + kind.text;
        shown := shown + [result];
      }
      idx := NewlineAt(buf);
    }
    NoneAdded(out);
  }

  /** One more delta adds one more shown answer, the text so far. */
  lemma ResultGrows(result0: string, out: seq<string>, t: string)
    ensures result0 + Concat(out + [t]) == result0 + Concat(out) + t
    ensures Partials(result0, out + [t]) == Partials(result0, out) + [result0 + Concat(out) + t]
  {
    ConcatAppend(out, [t]);
    assert Concat([t]) == t by {
      assert [t][..0] == [];
    }
    PartialsAppend(result0, out, [t]);
    assert [t][1..] == [];
  }

  /** Reading a whole reply: the deltas, and whether the final read threw. */
  function QueryDeltas(chunks: seq<string>, parse: Parser): seq<string>
  {
    QueryRun(Reader("", [], false), chunks, QueryRules(parse)).out
  }

  /** What one read adds to the result and to the answers shown. */
  lemma ReadStep(out: seq<string>, more: seq<string>)
    ensures Concat(out) + Concat(more) == Concat(out + more)
    ensures Partials("", out) + Partials(Concat(out), more) == Partials("", out + more)
  {
    ConcatAppend(out, more);
    PartialsAppend("", out, more);
    assert "" + Concat(out) == Concat(out);
  }

  /**
   * The reading loop of `ask` (NlQueryBar.tsx, lines 42-71) over the chunks
   * the body yields: the final `result` and every answer shown on the way.
   */
  method ReadAll(chunks: seq<string>, rules: Rules) returns (result: string, shown: seq<string>)
    ensures result == Concat(QueryRun(Reader("", [], false), chunks, rules).out)
    ensures shown == Partials("", QueryRun(Reader("", [], false), chunks, rules).out)
  {
    var buf := "";
    result := "";
    shown := [];
    ghost var r := Reader("", [], false);
    var k := 0;
    while true
      invariant 0 <= k <= |chunks|
      invariant QueryRun(r, chunks[k..], rules) == QueryRun(Reader("", [], false), chunks, rules)
      invariant r.buf == buf
      invariant result == Concat(r.out) && shown == Partials("", r.out)
      decreases |chunks| - k
    {
      if k == |chunks| {
        break;
      }
      var added;
      buf, result, added := QueryLines(buf + chunks[k], result, rules);
      ReadStep(r.out, Drain(r.buf + chunks[k], rules).out);
      shown := shown + added;
      assert chunks[k..][1..] == chunks[k + 1..];
      r := QueryStep(r, chunks[k], rules);
      k := k + 1;
    }
    assert chunks[k..] == [];
  }

  class NlQueryBar {
    /** The `answer` state, the `loading` state, and the question texts sent so far. */
    var answer: string
    var loading: bool
    var asked: seq<string>
    /** Every value passed to `setAnswer`, in order. */
    var shown: seq<string>

    constructor ()
      ensures answer == "" && !loading && asked == [] && shown == []
    {
      answer := "";
      loading := false;
      asked := [];
      shown := [];
    }

    /**
     * `ask` (NlQueryBar.tsx, lines 22-77). A blank query, a request already
     * loading, or no account sends nothing and changes nothing. Otherwise the
     * answer is cleared, grows with each delta, and is replaced by the
     * apology on any throw; loading ends false in every case.
     */
    method Ask(query: string, hasAccount: bool, reply: Reply, parse: Parser)
      modifies this
      ensures var text := Text.Trim(query);
        text == "" || old(loading) || !hasAccount ==>
          answer == old(answer) && loading == old(loading) && asked == old(asked) && shown == old(shown)
      ensures var text := Text.Trim(query);
        !(text == "" || old(loading) || !hasAccount) ==>
          asked == old(asked) + [text] && !loading
          && match reply
             case Refused => answer == APOLOGY && shown == old(shown) + [""] + [APOLOGY]
             case Streamed(chunks, readFails) =>
               var d := QueryDeltas(chunks, parse);
               && shown == old(shown) + [""] + Partials("", d) + (if readFails then [APOLOGY] else [])
               && answer == (if readFails then APOLOGY else Concat(d))
    {
      var text := Text.Trim(query);
      if text == "" || loading || !hasAccount {
        return;
      }
      loading := true;
      answer := "";
      shown := shown + [""];
      asked := asked + [text];
      match reply {
      case Refused =>
        answer := APOLOGY;
        shown := shown + [APOLOGY];
      case Streamed(chunks, readFails) =>
        Receive(chunks, readFails, parse);
        assert Concat([]) == "";
      }
      loading := false;
    }

    /**
     * The read loop and the `catch` of `ask` (lines 41-73): each delta
     * shows the answer so far, the answer is only replaced once a delta
     * arrives, and a failed read ends with the apology.
     */
    method Receive(chunks: seq<string>, readFails: bool, parse: Parser)
      modifies this
      ensures var d := QueryDeltas(chunks, parse);
        && asked == old(asked) && loading == old(loading)
        && shown == old(shown) + Partials("", d) + (if readFails then [APOLOGY] else [])
        && answer == (if readFails then APOLOGY else if d == [] then old(answer) else Concat(d))
    {
      var result, added := ReadAll(chunks, QueryRules(parse));
      PartialsSpec("", QueryDeltas(chunks, parse));
      shown := shown + added;
      if added != [] {
        answer := result;
      }
      if readFails {
        answer := APOLOGY;
        shown := shown + [APOLOGY];
      }
    }
  }
}
