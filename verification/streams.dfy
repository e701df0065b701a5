/**
 * The common shape of the three stream decoders: each decoded event is
 * classified as one `Step`, and the decoder folds the steps in order, calling
 * back with every emitted text, keeping the last reported output-token count,
 * and stopping at the first event that raises.
 */
module Streams {
  import opened Wrappers
  import opened Errors
  import opened PyStrings

  datatype Step =
    | Skip                  // the event contributes nothing
    | Emit(text: string)    // the event's text is appended and passed to the callback
    | Tokens(count: nat)    // the event reports the output-token count
    | Fail(error: Error)    // reading the event raises

  /** What a completed stream yields. */
  datatype Final = Final(text: string, outputTokens: nat)

  /** The classification of each event, in order. */
  function Classify<E>(events: seq<E>, classify: E -> Step): (steps: seq<Step>)
    ensures |steps| == |events|
    ensures forall i :: 0 <= i < |events| ==> steps[i] == classify(events[i])
  {
    seq(|events|, i requires 0 <= i < |events| => classify(events[i]))
  }

  /** The texts of the `Emit` steps, in order: the callback arguments of a stream that does not fail. */
  function Emitted(steps: seq<Step>): (texts: seq<string>)
    ensures |texts| <= |steps|
  {
    if |steps| == 0 then []
    else
      var last := steps[|steps| - 1];
      Emitted(steps[..|steps| - 1]) + (if last.Emit? then [last.text] else [])
  }

  /** The count of the last `Tokens` step, if any. */
  function LastTokens(steps: seq<Step>): (r: Option<nat>)
    ensures r.None? <==> forall i :: 0 <= i < |steps| ==> !steps[i].Tokens?
  {
    if |steps| == 0 then None
    else if steps[|steps| - 1].Tokens? then Some(steps[|steps| - 1].count)
    else LastTokens(steps[..|steps| - 1])
  }

  /** The index of the first failing step, or `|steps|` when none fails. */
  function FirstFail(steps: seq<Step>): (k: nat)
    ensures k <= |steps|
    ensures forall j :: 0 <= j < k ==> !steps[j].Fail?
    ensures k < |steps| ==> steps[k].Fail?
  {
    if |steps| == 0 then 0
    else if steps[0].Fail? then 0
    else
      assert forall j :: 1 <= j < |steps| ==> steps[j] == steps[1..][j - 1];
      1 + FirstFail(steps[1..])
  }

  /** The callback arguments: every text emitted before the first failure. */
  function Trace(steps: seq<Step>): seq<string>
  {
    Emitted(steps[..FirstFail(steps)])
  }

  /** The decoder's result: the first failure, or the concatenated text and the last token count (0 if none). */
  function Outcome(steps: seq<Step>): Result<Final, Error>
  {
    var k := FirstFail(steps);
    if k < |steps| then Err(steps[k].error)
    else
      var tokens := LastTokens(steps);
      Ok(Final(Concat(Emitted(steps)), if tokens.Some? then tokens.value else 0))
  }

  lemma {:induction false} EmittedAppend(a: seq<Step>, b: seq<Step>)
    ensures Emitted(a + b) == Emitted(a) + Emitted(b)
    decreases |b|
  {
    if |b| == 0 {
      assert a + b == a;
    } else {
      var b' := b[..|b| - 1];
      assert (a + b)[..|a + b| - 1] == a + b';
      EmittedAppend(a, b');
    }
  }

  lemma {:induction false} LastTokensAppend(a: seq<Step>, b: seq<Step>)
    ensures LastTokens(a + b) == if LastTokens(b).Some? then LastTokens(b) else LastTokens(a)
    decreases |b|
  {
    if |b| == 0 {
      assert a + b == a;
    } else {
      var b' := b[..|b| - 1];
      assert (a + b)[..|a + b| - 1] == a + b';
      LastTokensAppend(a, b');
    }
  }

  /** The contract of `FirstFail` determines it. */
  lemma FirstFailUnique(steps: seq<Step>, k: nat)
    requires k <= |steps|
    requires forall j :: 0 <= j < k ==> !steps[j].Fail?
    requires k < |steps| ==> steps[k].Fail?
    ensures FirstFail(steps) == k
  {
  }

  lemma FirstFailAppend(a: seq<Step>, b: seq<Step>)
    ensures FirstFail(a + b) == if FirstFail(a) < |a| then FirstFail(a) else |a| + FirstFail(b)
  {
    var k := if FirstFail(a) < |a| then FirstFail(a) else |a| + FirstFail(b);
    FirstFailUnique(a + b, k);
  }

  lemma EmittedSkip(a: seq<Step>, c: seq<Step>)
    ensures Emitted(a + [Skip] + c) == Emitted(a + c)
  {
    EmittedAppend(a + [Skip], c);
    EmittedAppend(a, [Skip]);
    EmittedAppend(a, c);
    assert [Skip][..0] == [];
  }

  lemma LastTokensSkip(a: seq<Step>, c: seq<Step>)
    ensures LastTokens(a + [Skip] + c) == LastTokens(a + c)
  {
    LastTokensAppend(a + [Skip], c);
    LastTokensAppend(a, [Skip]);
    LastTokensAppend(a, c);
  }

  lemma FirstFailSkip(a: seq<Step>, b: seq<Step>)
    ensures FirstFail(a + [Skip] + b) == if FirstFail(a + b) < |a| then FirstFail(a + b) else FirstFail(a + b) + 1
  {
    FirstFailAppend(a + [Skip], b);
    FirstFailAppend(a, [Skip]);
    FirstFailAppend(a, b);
    FirstFailUnique([Skip], 1);
  }

  /**
   * Events that contribute nothing can be dropped anywhere without changing
   * what the callback receives or what the decoder returns.
   */
  lemma SkipsAreInvisible(a: seq<Step>, b: seq<Step>)
    ensures Trace(a + [Skip] + b) == Trace(a + b)
    ensures Outcome(a + [Skip] + b) == Outcome(a + b)
  {
    var withSkip, without := a + [Skip] + b, a + b;
    var k := FirstFail(without);
    FirstFailSkip(a, b);
    if k < |a| {
      assert withSkip[..k] == without[..k];
      assert withSkip[k] == without[k];
    } else {
      var c := b[..k - |a|];
      assert without[..k] == a + c;
      assert withSkip[..k + 1] == a + [Skip] + c;
      EmittedSkip(a, c);
      if k < |without| {
        assert withSkip[k + 1] == without[k];
      } else {
        assert c == b;
        LastTokensSkip(a, b);
      }
    }
  }

  /** Classifying one more event adds its step at the end. */
  lemma ClassifyLast<E>(events: seq<E>, classify: E -> Step)
    requires |events| > 0
    ensures Classify(events, classify)[..|events| - 1] == Classify(events[..|events| - 1], classify)
    ensures Classify(events, classify)[|events| - 1] == classify(events[|events| - 1])
  {
  }

  /**
   * The decoder's result computed event by event from the front, as the loop
   * does: the text grows by each emitted piece, the token count is replaced by
   * each report, and the first failure is final.
   */
  function Decode<E>(events: seq<E>, classify: E -> Step): Result<Final, Error>
  {
    if |events| == 0 then Ok(Final("", 0))
    else
      var n := |events| - 1;
      match Decode(events[..n], classify)
      case Err(e) => Err(e)
      case Ok(f) =>
        match classify(events[n])
        case Fail(e) => Err(e)
        case Emit(t) => Ok(Final(f.text + t, f.outputTokens))
        case Tokens(c) => Ok(Final(f.text, c))
        case Skip => Ok(f)
  }

  /** The running fold agrees with the whole-stream description `Outcome`. */
  lemma {:induction false} DecodeIsOutcome<E>(events: seq<E>, classify: E -> Step)
    ensures Decode(events, classify) == Outcome(Classify(events, classify))
    decreases |events|
  {
    if |events| > 0 {
      var n := |events| - 1;
      var steps, p, s := Classify(events, classify), Classify(events[..n], classify), classify(events[n]);
      DecodeIsOutcome(events[..n], classify);
      ClassifyLast(events, classify);
      assert steps == p + [s];
      FirstFailAppend(p, [s]);
      if FirstFail(p) == n && !s.Fail? {
        FirstFailUnique([s], 1);
        EmittedAppend(p, [s]);
        LastTokensAppend(p, [s]);
        assert [s][..0] == [];
        if s.Emit? {
          assert Emitted([s]) == [s.text];
          ConcatAppend(Emitted(p), [s.text]);
          assert Concat([s.text]) == s.text by {
            assert [s.text][..0] == [];
          }
        } else {
          assert Emitted([s]) == [];
          assert Emitted(steps) == Emitted(p);
          assert s.Tokens? ==> LastTokens(steps) == Some(s.count);
          assert s.Skip? ==> LastTokens(steps) == LastTokens(p);
        }
      }
    }
  }

  /** The callback arguments computed event by event from the front: nothing more after the first failure. */
  function DecodeTrace<E>(events: seq<E>, classify: E -> Step): seq<string>
  {
    if |events| == 0 then []
    else
      var n := |events| - 1;
      var before := DecodeTrace(events[..n], classify);
      if Decode(events[..n], classify).Err? then before
      else match classify(events[n])
        case Emit(t) => before + [t]
        case _ => before
  }

  lemma TraceAfterFailure(p: seq<Step>, s: Step)
    requires FirstFail(p) < |p|
    ensures Trace(p + [s]) == Trace(p)
  {
    FirstFailAppend(p, [s]);
    assert (p + [s])[..FirstFail(p)] == p[..FirstFail(p)];
  }

  lemma TraceAtFailure(p: seq<Step>, s: Step)
    requires FirstFail(p) == |p| && s.Fail?
    ensures Trace(p + [s]) == Emitted(p)
  {
    FirstFailUnique(p + [s], |p|);
    assert (p + [s])[..|p|] == p;
  }

  lemma TraceBeforeFailure(p: seq<Step>, s: Step)
    requires FirstFail(p) == |p| && !s.Fail?
    ensures Trace(p + [s]) == Emitted(p) + (if s.Emit? then [s.text] else [])
  {
    FirstFailUnique(p + [s], |p| + 1);
    assert (p + [s])[..|p| + 1] == p + [s];
    EmittedAppend(p, [s]);
    assert [s][..0] == [];
  }

  /** The running trace agrees with the whole-stream description `Trace`. */
  lemma {:induction false} DecodeTraceIsTrace<E>(events: seq<E>, classify: E -> Step)
    ensures DecodeTrace(events, classify) == Trace(Classify(events, classify))
    decreases |events|
  {
    if |events| > 0 {
      var n := |events| - 1;
      var p, s := Classify(events[..n], classify), classify(events[n]);
      DecodeTraceIsTrace(events[..n], classify);
      DecodeIsOutcome(events[..n], classify);
      ClassifyLast(events, classify);
      assert Classify(events, classify) == p + [s];
      if FirstFail(p) < n {
        TraceAfterFailure(p, s);
      } else {
        assert p[..n] == p;
        if s.Fail? {
          TraceAtFailure(p, s);
        } else {
          TraceBeforeFailure(p, s);
        }
      }
    }
  }

  /**
   * The loop every decoder runs: one step per event, the callback once per
   * emitted text, and the text accumulated beside it.
   */
  method Drain<E>(events: seq<E>, classify: E -> Step) returns (trace: seq<string>, outcome: Result<Final, Error>)
    ensures trace == Trace(Classify(events, classify))
    ensures outcome == Outcome(Classify(events, classify))
    ensures outcome.Ok? ==> Concat(trace) == outcome.value.text
    ensures |events| == 0 ==> trace == [] && outcome == Ok(Final("", 0))
  {
    ghost var steps := Classify(events, classify);
    var text := "";
    var tokens := 0;
    trace := [];
    var i := 0;
    while i < |events|
      invariant 0 <= i <= |events|
      invariant forall j :: 0 <= j < i ==> !steps[j].Fail?
      invariant trace == Emitted(steps[..i])
      invariant text == Concat(trace)
      invariant tokens == (if LastTokens(steps[..i]).Some? then LastTokens(steps[..i]).value else 0)
    {
      assert steps[..i + 1][..i] == steps[..i];
      match classify(events[i]) {
        case Fail(e) =>
          outcome := Err(e);
          return;
        case Emit(t) =>
          trace := trace + [t];
          text := text + t;
        case Tokens(n) =>
          tokens := n;
        case Skip =>
      }
      i := i + 1;
    }
    assert steps[..i] == steps;
    outcome := Ok(Final(text, tokens));
  }
}
