/**
 * Generation time: the autoregressive loop that extends a seed melody with
 * tokens drawn from the predictor, and the run-length decoder that turns a
 * token melody back into notes and rests.
 *
 * The trained network and the temperature sampler are one oracle,
 * `predictAndSample(window, step)`: the id drawn at loop iteration `step`
 * when the predictor is shown `window`.
 */
module Melody {
  import opened Wrappers
  import opened Strings
  import opened Music
  import opened Vocabulary
  import Preprocess

  /** `int(symbol)` raising ValueError on a symbol the decoder has to turn into a note. */
  datatype DecodeError = NotAPitch(symbol: string)

  // ----- context truncation -----

  /** The start index Python uses for `s[k:]` on a list of length `n`. */
  function SliceStart(n: nat, k: int): (start: nat)
    ensures start <= n
  {
    if k < 0 then (if n + k < 0 then 0 else n + k)
    else if k > n then n
    else k
  }

  /** `seed[-max_sequence_length:]`. */
  function Truncate(context: seq<nat>, maxSequenceLength: int): seq<nat> {
    context[SliceStart(|context|, -maxSequenceLength)..]
  }

  /**
   * The window is a suffix of the context: its last `maxSequenceLength` ids
   * (all of them when there are fewer) for a positive maximum; the whole
   * context for 0, because `-0` is `0`; all but the first `-maxSequenceLength`
   * for a negative maximum.
   */
  lemma TruncateWindow(context: seq<nat>, maxSequenceLength: int)
    ensures var window := Truncate(context, maxSequenceLength);
            && |window| <= |context| && window == context[|context| - |window|..]
            && (maxSequenceLength > 0 ==>
                  |window| == if |context| < maxSequenceLength then |context| else maxSequenceLength)
            && (maxSequenceLength == 0 ==> window == context)
            && (maxSequenceLength < 0 ==>
                  |window| == if |context| + maxSequenceLength < 0 then 0 else |context| + maxSequenceLength)
  {
  }

  // ----- generation -----

  /** Every id is below `numClasses`, so `to_categorical(window, num_classes=numClasses)` succeeds. */
  predicate InClasses(window: seq<nat>, numClasses: nat) {
    forall i :: 0 <= i < |window| ==> window[i] < numClasses
  }

  /**
   * What a generation run produced: the melody, the windows the predictor
   * was shown, one per iteration, and whether it stopped on a `'/'`.
   */
  datatype Outcome = Outcome(melody: seq<string>, windows: seq<seq<nat>>, stopped: bool)

  /**
   * The loop of `generate_melody` from iteration `step` on, with the context
   * and melody reached so far. Each iteration one-hot encodes the truncated
   * context over the mapping's size, which fails on a larger id, then draws
   * an id and maps it back to its key.
   */
  function Run(m: Mapping, context: seq<nat>, melody: seq<string>, step: nat, numSteps: nat,
               maxSequenceLength: int, predictAndSample: (seq<nat>, nat) -> nat): Result<Outcome, LookupError>
    decreases numSteps - step
  {
    if step >= numSteps then Ok(Outcome(melody, [], false))
    else
      var window := Truncate(context, maxSequenceLength);
      if !InClasses(window, |m|) then Err(ClassOutOfRange)
      else
        var id := predictAndSample(window, step);
        match KeyOf(m, id)
        case None => Err(UnknownId(id))
        case Some(symbol) =>
          if symbol == DELIM then Ok(Outcome(melody, [window], true))
          else
            match Run(m, window + [id], melody + [symbol], step + 1, numSteps, maxSequenceLength, predictAndSample)
            case Err(e) => Err(e)
            case Ok(o) => Ok(Outcome(o.melody, [window] + o.windows, o.stopped))
  }

  function MelodyOf(r: Result<Outcome, LookupError>): Result<seq<string>, LookupError> {
    match r
    case Ok(o) => Ok(o.melody)
    case Err(e) => Err(e)
  }

  /**
   * `generate_melody` on the seed tokens: the start symbols and the seed
   * mapped to ids (KeyError on a token without one), then the loop.
   */
  function Generated(m: Mapping, startSymbols: seq<string>, seedTokens: seq<string>, numSteps: nat,
                     maxSequenceLength: int, predictAndSample: (seq<nat>, nat) -> nat): Result<seq<string>, LookupError>
  {
    match MapSymbols(m, startSymbols + seedTokens)
    case Err(e) => Err(e)
    case Ok(context) => MelodyOf(Run(m, context, seedTokens, 0, numSteps, maxSequenceLength, predictAndSample))
  }

  // ----- decoding -----

  /** The event `save_melody` builds for a symbol: a rest for `'r'`, else a note at `int(symbol)`. */
  function ToEvent(symbol: string, duration: nat): Result<Event, DecodeError> {
    if symbol == REST then Ok(Event(Rest, duration))
    else match ParseNat(symbol)
      case Some(p) => Ok(Event(Note(p), duration))
      case None => Err(NotAPitch(symbol))
  }

  function Cons(e: Event, r: Result<seq<Event>, DecodeError>): Result<seq<Event>, DecodeError> {
    match r
    case Ok(es) => Ok([e] + es)
    case Err(err) => Err(err)
  }

  function PrependEvents(es: seq<Event>, r: Result<seq<Event>, DecodeError>): Result<seq<Event>, DecodeError> {
    match r
    case Ok(rest) => Ok(es + rest)
    case Err(err) => Err(err)
  }

  /**
   * The decoding loop of `save_melody` on the tokens `ms` still to come,
   * with the pending symbol (`start_symbol`) and `step_counter`. A position
   * triggers when its token is not `'_'` or it is the last one; a trigger
   * emits the pending symbol, if any, and makes its own token pending.
   */
  function DecodeFrom(ms: seq<string>, pending: Option<string>, counter: nat, stepDuration: nat): Result<seq<Event>, DecodeError>
    decreases |ms|
  {
    if ms == [] then Ok([])
    else if ms[0] != HOLD || |ms| == 1 then
      match pending
      case None => DecodeFrom(ms[1..], Some(ms[0]), counter, stepDuration)
      case Some(s) =>
        match ToEvent(s, stepDuration * counter)
        case Err(e) => Err(e)
        case Ok(ev) => Cons(ev, DecodeFrom(ms[1..], Some(ms[0]), 1, stepDuration))
    else DecodeFrom(ms[1..], pending, counter + 1, stepDuration)
  }

  /** The events `save_melody` appends to its stream, or the ValueError it raises. */
  function Decode(melody: seq<string>, stepDuration: nat): Result<seq<Event>, DecodeError> {
    DecodeFrom(melody, None, 1, stepDuration)
  }

  // ----- the generator object -----

  class MelodyMaker {
    /** The vocabulary read from the mapping file. */
    const mappings: Mapping
    /** `['/'] * SEQUENCE_LENGTH`. */
    const startSymbols: seq<string>

    constructor (mappings: Mapping)
      ensures this.mappings == mappings
      ensures startSymbols == Repeat(DELIM, Preprocess.SEQUENCE_LENGTH)
    {
      this.mappings := mappings;
      this.startSymbols := Repeat(DELIM, Preprocess.SEQUENCE_LENGTH);
    }

    /**
     * `generate_melody`: the seed's tokens, extended by at most `numSteps`
     * drawn tokens, stopping at the first `'/'`.
     */
    method GenerateMelody(seed: string, numSteps: nat, maxSequenceLength: int,
                          predictAndSample: (seq<nat>, nat) -> nat) returns (r: Result<seq<string>, LookupError>)
      ensures r == Generated(mappings, startSymbols, Words(seed), numSteps, maxSequenceLength, predictAndSample)
    {
      var tokens := Words(seed);
      var melody := tokens;
      var initial := MapSymbols(mappings, startSymbols + tokens);
      if initial.Err? {
        return Err(initial.error);
      }
      var context := initial.value;
      var step := 0;
      while step < numSteps
        invariant step <= numSteps
        invariant Generated(mappings, startSymbols, tokens, numSteps, maxSequenceLength, predictAndSample)
                  == MelodyOf(Run(mappings, context, melody, step, numSteps, maxSequenceLength, predictAndSample))
        decreases numSteps - step
      {
        context := Truncate(context, maxSequenceLength);
        if !InClasses(context, |mappings|) {
          return Err(ClassOutOfRange);
        }
        var outputInt := predictAndSample(context, step);
        context := context + [outputInt];
        var outputSymbol := KeyOf(mappings, outputInt);
        if outputSymbol.None? {
          return Err(UnknownId(outputInt));
        }
        if outputSymbol.value == DELIM {
          break;
        }
        melody := melody + [outputSymbol.value];
        step := step + 1;
      }
      return Ok(melody);
    }

    /**
     * The decoding loop of `save_melody`: the events it would write, or the
     * ValueError of `int(symbol)`. Durations are `stepDuration * step_counter`.
     */
    method SaveMelody(melody: seq<string>, stepDuration: nat) returns (r: Result<seq<Event>, DecodeError>)
      ensures r == Decode(melody, stepDuration)
    {
      var startSymbol: Option<string> := None;
      var stepCounter: nat := 1;
      var stream: seq<Event> := [];
      assert melody[0..] == melody;
      assert PrependEvents([], Decode(melody, stepDuration)) == Decode(melody, stepDuration) by {
        if Decode(melody, stepDuration).Ok? {
          assert [] + Decode(melody, stepDuration).value == Decode(melody, stepDuration).value;
        }
      }
      for i := 0 to |melody|
        invariant Decode(melody, stepDuration) == PrependEvents(stream, DecodeFrom(melody[i..], startSymbol, stepCounter, stepDuration))
      {
        var symbol := melody[i];
        assert melody[i..][0] == symbol && melody[i..][1..] == melody[i + 1..];
        if symbol != HOLD || i + 1 == |melody| {
          if startSymbol.Some? {
            var quarterLengthDuration := stepDuration * stepCounter;
            var event: Event;
            if startSymbol.value == REST {
              event := Event(Rest, quarterLengthDuration);
            } else {
              var pitch := ParseNat(startSymbol.value);
              if pitch.None? {
                return Err(NotAPitch(startSymbol.value));
              }
              event := Event(Note(pitch.value), quarterLengthDuration);
            }
            AppendEvent(stream, event, DecodeFrom(melody[i + 1..], Some(symbol), 1, stepDuration));
            stream := stream + [event];
            stepCounter := 1;
          }
          startSymbol := Some(symbol);
        } else {
          stepCounter := stepCounter + 1;
        }
      }
      assert melody[|melody|..] == [];
      assert stream + [] == stream;
      return Ok(stream);
    }
  }

  lemma AppendEvent(es: seq<Event>, e: Event, r: Result<seq<Event>, DecodeError>)
    ensures PrependEvents(es, Cons(e, r)) == PrependEvents(es + [e], r)
  {
    if r.Ok? {
      assert es + ([e] + r.value) == (es + [e]) + r.value;
    }
  }

  // ----- properties of the decoder -----

  /**
   * Number of trigger positions of a melody: those whose token is not `'_'`,
   * and the last position whatever its token.
   */
  function Triggers(ms: seq<string>): nat {
    if ms == [] then 0
    else (if ms[0] != HOLD || |ms| == 1 then 1 else 0) + Triggers(ms[1..])
  }

  lemma {:induction false} CountFrom(ms: seq<string>, pending: Option<string>, counter: nat, stepDuration: nat)
    requires DecodeFrom(ms, pending, counter, stepDuration).Ok?
    ensures |DecodeFrom(ms, pending, counter, stepDuration).value|
            == Triggers(ms) - (if pending.None? && ms != [] then 1 else 0)
    decreases |ms|
  {
    if ms != [] {
      if ms[0] != HOLD || |ms| == 1 {
        CountFrom(ms[1..], Some(ms[0]), if pending.None? then counter else 1, stepDuration);
      } else {
        CountFrom(ms[1..], pending, counter + 1, stepDuration);
      }
    }
  }

  /** Every trigger position but the first emits one event. */
  lemma DecodeCount(melody: seq<string>, stepDuration: nat)
    requires melody != [] && Decode(melody, stepDuration).Ok?
    ensures |Decode(melody, stepDuration).value| == Triggers(melody) - 1
  {
    CountFrom(melody, None, 1, stepDuration);
  }

  lemma {:induction false} IgnoresLastFrom(ms: seq<string>, x: string, y: string, pending: Option<string>, counter: nat, stepDuration: nat)
    ensures DecodeFrom(ms + [x], pending, counter, stepDuration) == DecodeFrom(ms + [y], pending, counter, stepDuration)
    decreases |ms|
  {
    var mx, my := ms + [x], ms + [y];
    if ms == [] {
      assert mx[1..] == [] == my[1..];
    } else {
      assert mx[1..] == ms[1..] + [x] && my[1..] == ms[1..] + [y];
      assert mx[0] == ms[0] == my[0];
      if ms[0] != HOLD {
        IgnoresLastFrom(ms[1..], x, y, Some(ms[0]), if pending.None? then counter else 1, stepDuration);
      } else {
        IgnoresLastFrom(ms[1..], x, y, pending, counter + 1, stepDuration);
      }
    }
  }

  /**
   * The token at the last position never reaches the output: whatever it
   * is (a symbol or a trailing `'_'`), the decoded events are the same.
   */
  lemma DecodeIgnoresLastToken(melody: seq<string>, x: string, y: string, stepDuration: nat)
    ensures Decode(melody + [x], stepDuration) == Decode(melody + [y], stepDuration)
  {
    IgnoresLastFrom(melody, x, y, None, 1, stepDuration);
  }

  /** Adds `extra` to the duration of the first event. */
  function AddToFirst(r: Result<seq<Event>, DecodeError>, extra: nat): Result<seq<Event>, DecodeError> {
    match r
    case Err(e) => Err(e)
    case Ok(es) => Ok(if es == [] then [] else [Event(es[0].kind, es[0].duration + extra)] + es[1..])
  }

  lemma {:induction false} HoldsBefore(k: nat, ms: seq<string>, pending: Option<string>, counter: nat, stepDuration: nat)
    requires ms != []
    ensures DecodeFrom(Repeat(HOLD, k) + ms, pending, counter, stepDuration)
            == DecodeFrom(ms, pending, counter + k, stepDuration)
  {
    if k > 0 {
      var hs := Repeat(HOLD, k) + ms;
      assert hs[0] == HOLD && |hs| > 1;
      assert hs[1..] == Repeat(HOLD, k - 1) + ms;
      HoldsBefore(k - 1, ms, pending, counter + 1, stepDuration);
    } else {
      assert Repeat(HOLD, 0) + ms == ms;
    }
  }

  lemma {:induction false} CounterShift(ms: seq<string>, s: string, counter: nat, k: nat, stepDuration: nat)
    ensures DecodeFrom(ms, Some(s), counter + k, stepDuration)
            == AddToFirst(DecodeFrom(ms, Some(s), counter, stepDuration), stepDuration * k)
    decreases |ms|
  {
    if ms != [] {
      if ms[0] != HOLD || |ms| == 1 {
        assert stepDuration * (counter + k) == stepDuration * counter + stepDuration * k;
      } else {
        CounterShift(ms[1..], s, counter + 1, k, stepDuration);
        assert counter + k + 1 == counter + 1 + k;
      }
    }
  }

  /**
   * `'_'` tokens before the first symbol raise `step_counter` while no
   * symbol is pending, and it is not reset: they lengthen the first event
   * by one step each.
   */
  lemma DecodeLeadingHolds(k: nat, melody: seq<string>, stepDuration: nat)
    requires melody != [] && melody[0] != HOLD
    ensures Decode(Repeat(HOLD, k) + melody, stepDuration) == AddToFirst(Decode(melody, stepDuration), stepDuration * k)
  {
    HoldsBefore(k, melody, None, 1, stepDuration);
    CounterShift(melody[1..], melody[0], 1, k, stepDuration);
  }

  lemma {:induction false} ScaledFrom(ms: seq<string>, pending: Option<string>, counter: nat, stepDuration: nat)
    requires counter >= 1
    ensures var r, u := DecodeFrom(ms, pending, counter, stepDuration), DecodeFrom(ms, pending, counter, 1);
            && (r.Ok? <==> u.Ok?)
            && (r.Err? ==> r.error == u.error)
            && (r.Ok? ==> |r.value| == |u.value|
                          && forall i :: 0 <= i < |r.value| ==>
                               r.value[i].kind == u.value[i].kind && u.value[i].duration >= 1
                               && r.value[i].duration == stepDuration * u.value[i].duration)
    decreases |ms|
  {
    if ms != [] {
      if ms[0] != HOLD || |ms| == 1 {
        if pending.None? {
          ScaledFrom(ms[1..], Some(ms[0]), counter, stepDuration);
        } else {
          ScaledFrom(ms[1..], Some(ms[0]), 1, stepDuration);
          assert 1 * counter == counter;
        }
      } else {
        ScaledFrom(ms[1..], pending, counter + 1, stepDuration);
      }
    }
  }

  /**
   * Every emitted event lasts a whole number of steps, at least one: its
   * duration is `stepDuration` times the count of the unit-step decoding,
   * which is at least 1, with the same kinds and the same errors.
   */
  lemma DecodeDurations(melody: seq<string>, stepDuration: nat)
    ensures var r, u := Decode(melody, stepDuration), Decode(melody, 1);
            && (r.Ok? <==> u.Ok?)
            && (r.Err? ==> r.error == u.error)
            && (r.Ok? ==> |r.value| == |u.value|
                          && forall i :: 0 <= i < |r.value| ==>
                               r.value[i].kind == u.value[i].kind && u.value[i].duration >= 1
                               && r.value[i].duration == stepDuration * u.value[i].duration)
  {
    ScaledFrom(melody, None, 1, stepDuration);
  }

  /**
   * A melody ending on a rest loses the rest, and a trailing hold run is one
   * step short.
   */
  lemma DecodeExamples()
    ensures Decode(["60", "_", "_", "r"], 1) == Ok([Event(Note(60), 3)])
    ensures Decode(["60", "_", "_"], 1) == Ok([Event(Note(60), 2)])
    ensures Decode(["/", "60", "_"], 1) == Err(NotAPitch("/"))
  {
    assert ParseNat("60") == Some(60) by {
      assert "60"[..1] == "6";
      assert DigitsValue("6") == 6 by { assert "6"[..0] == []; }
    }
    assert ToEvent("60", 3) == Ok(Event(Note(60), 3));
    assert ToEvent("60", 2) == Ok(Event(Note(60), 2));
    var a := ["60", "_", "_", "r"];
    assert a[1..] == ["_", "_", "r"] && a[1..][1..] == ["_", "r"] && a[1..][1..][1..] == ["r"];
    assert DecodeFrom(["r"], Some("60"), 3, 1) == Cons(Event(Note(60), 3), DecodeFrom([], Some("r"), 1, 1));
    assert DecodeFrom(["_", "r"], Some("60"), 2, 1) == DecodeFrom(["r"], Some("60"), 3, 1);
    assert DecodeFrom(["_", "_", "r"], Some("60"), 1, 1) == DecodeFrom(["_", "r"], Some("60"), 2, 1);
    assert Decode(a, 1) == DecodeFrom(["_", "_", "r"], Some("60"), 1, 1);
    assert [Event(Note(60), 3)] + [] == [Event(Note(60), 3)];
    var b := ["60", "_", "_"];
    assert b[1..] == ["_", "_"] && b[1..][1..] == ["_"];
    assert DecodeFrom(["_"], Some("60"), 2, 1) == Cons(Event(Note(60), 2), DecodeFrom([], Some("_"), 1, 1));
    assert DecodeFrom(["_", "_"], Some("60"), 1, 1) == DecodeFrom(["_"], Some("60"), 2, 1);
    assert Decode(b, 1) == DecodeFrom(["_", "_"], Some("60"), 1, 1);
    assert [Event(Note(60), 2)] + [] == [Event(Note(60), 2)];
    var c := ["/", "60", "_"];
    assert c[1..] == ["60", "_"];
    assert ParseNat("/") == None by { assert !IsDigit('/'); }
  }

  // ----- properties of the generation loop -----

  /**
   * The run only appends: the melody reached so far is kept as a prefix;
   * the run stops after at most `numSteps - step` predictor calls, short of
   * them only on a `'/'`, which is never appended; every other call appends
   * exactly one token.
   */
  lemma {:induction false} RunShape(m: Mapping, context: seq<nat>, melody: seq<string>, step: nat, numSteps: nat,
                                    maxSequenceLength: int, predictAndSample: (seq<nat>, nat) -> nat)
    requires step <= numSteps
    requires Run(m, context, melody, step, numSteps, maxSequenceLength, predictAndSample).Ok?
    ensures var o := Run(m, context, melody, step, numSteps, maxSequenceLength, predictAndSample).value;
            && |melody| <= |o.melody| && o.melody[..|melody|] == melody
            && (forall j :: |melody| <= j < |o.melody| ==> o.melody[j] != DELIM)
            && |o.windows| <= numSteps - step
            && (o.stopped ==> |o.windows| >= 1)
            && (!o.stopped ==> |o.windows| == numSteps - step)
            && |o.melody| == |melody| + |o.windows| - (if o.stopped then 1 else 0)
    decreases numSteps - step
  {
    if step < numSteps {
      var window := Truncate(context, maxSequenceLength);
      var id := predictAndSample(window, step);
      var symbol := KeyOf(m, id).value;
      if symbol != DELIM {
        RunShape(m, window + [id], melody + [symbol], step + 1, numSteps, maxSequenceLength, predictAndSample);
        var o := Run(m, window + [id], melody + [symbol], step + 1, numSteps, maxSequenceLength, predictAndSample).value;
        assert o.melody[..|melody|] == (o.melody[..|melody| + 1])[..|melody|];
      }
    }
  }

  /**
   * What the predictor is shown: the first window is the truncated context,
   * and each next window is the truncation of the previous one with the id
   * drawn from it appended, so the context grows by one id per iteration.
   */
  lemma {:induction false} RunWindows(m: Mapping, context: seq<nat>, melody: seq<string>, step: nat, numSteps: nat,
                                      maxSequenceLength: int, predictAndSample: (seq<nat>, nat) -> nat)
    requires step <= numSteps
    requires Run(m, context, melody, step, numSteps, maxSequenceLength, predictAndSample).Ok?
    ensures var o := Run(m, context, melody, step, numSteps, maxSequenceLength, predictAndSample).value;
            && (o.windows != [] ==> o.windows[0] == Truncate(context, maxSequenceLength))
            && (forall i :: 0 <= i < |o.windows| - 1 ==>
                  o.windows[i + 1] == Truncate(o.windows[i] + [predictAndSample(o.windows[i], step + i)], maxSequenceLength))
    decreases numSteps - step
  {
    if step < numSteps {
      var window := Truncate(context, maxSequenceLength);
      var id := predictAndSample(window, step);
      var symbol := KeyOf(m, id).value;
      if symbol != DELIM {
        var ctx' := window + [id];
        RunWindows(m, ctx', melody + [symbol], step + 1, numSteps, maxSequenceLength, predictAndSample);
        var o := Run(m, ctx', melody + [symbol], step + 1, numSteps, maxSequenceLength, predictAndSample).value;
        var ws := [window] + o.windows;
        forall i | 0 <= i < |ws| - 1
          ensures ws[i + 1] == Truncate(ws[i] + [predictAndSample(ws[i], step + i)], maxSequenceLength)
        {
          if i > 0 {
            assert ws[i] == o.windows[i - 1] && ws[i + 1] == o.windows[i];
            assert step + i == (step + 1) + (i - 1);
          }
        }
      }
    }
  }

  /**
   * What is appended: each generated token is the key of the id drawn at its
   * iteration, and a run that stopped drew the id of `'/'` last.
   */
  lemma {:induction false} RunSymbols(m: Mapping, context: seq<nat>, melody: seq<string>, step: nat, numSteps: nat,
                                      maxSequenceLength: int, predictAndSample: (seq<nat>, nat) -> nat)
    requires step <= numSteps
    requires Run(m, context, melody, step, numSteps, maxSequenceLength, predictAndSample).Ok?
    ensures var o := Run(m, context, melody, step, numSteps, maxSequenceLength, predictAndSample).value;
            && |melody| <= |o.melody| && o.melody[..|melody|] == melody
            && (forall i :: 0 <= i < |o.windows| && |melody| + i < |o.melody| ==>
                  KeyOf(m, predictAndSample(o.windows[i], step + i)) == Some(o.melody[|melody| + i]))
    decreases numSteps - step
  {
    if step < numSteps {
      var window := Truncate(context, maxSequenceLength);
      var id := predictAndSample(window, step);
      var symbol := KeyOf(m, id).value;
      if symbol != DELIM {
        var ctx', mel' := window + [id], melody + [symbol];
        RunSymbols(m, ctx', mel', step + 1, numSteps, maxSequenceLength, predictAndSample);
        var o := Run(m, ctx', mel', step + 1, numSteps, maxSequenceLength, predictAndSample).value;
        var ws := [window] + o.windows;
        assert Run(m, context, melody, step, numSteps, maxSequenceLength, predictAndSample).value
               == Outcome(o.melody, ws, o.stopped);
        SymbolsStep(m, melody, symbol, o.melody, id, window, o.windows, step, predictAndSample);
      }
    }
  }

  /** The inductive step of `RunSymbols`, on the outcome of the rest of the run. */
  lemma SymbolsStep(m: Mapping, melody: seq<string>, symbol: string, out: seq<string>, id: nat,
                    window: seq<nat>, windows: seq<seq<nat>>, step: nat, predictAndSample: (seq<nat>, nat) -> nat)
    requires KeyOf(m, id) == Some(symbol) && id == predictAndSample(window, step)
    requires |melody| + 1 <= |out| && out[..|melody| + 1] == melody + [symbol]
    requires forall i :: 0 <= i < |windows| && |melody| + 1 + i < |out| ==>
               KeyOf(m, predictAndSample(windows[i], step + 1 + i)) == Some(out[|melody| + 1 + i])
    ensures |melody| <= |out| && out[..|melody|] == melody
    ensures var ws := [window] + windows;
            forall i :: 0 <= i < |ws| && |melody| + i < |out| ==>
              KeyOf(m, predictAndSample(ws[i], step + i)) == Some(out[|melody| + i])
  {
    assert out[..|melody|] == out[..|melody| + 1][..|melody|];
    var ws := [window] + windows;
    forall i | 0 <= i < |ws| && |melody| + i < |out|
      ensures KeyOf(m, predictAndSample(ws[i], step + i)) == Some(out[|melody| + i])
    {
      if i == 0 {
        assert out[|melody|] == out[..|melody| + 1][|melody|];
      } else {
        assert ws[i] == windows[i - 1];
        assert step + i == step + 1 + (i - 1);
        assert |melody| + i == |melody| + 1 + (i - 1);
      }
    }
  }

  lemma LastAfterCons(w: seq<nat>, ws: seq<seq<nat>>)
    requires ws != []
    ensures ([w] + ws)[|[w] + ws| - 1] == ws[|ws| - 1] && |[w] + ws| - 1 == |ws|
  {
  }

  /** A run that stopped early drew the id of `'/'` at its last iteration. */
  lemma {:induction false} RunStopsOnDelimiter(m: Mapping, context: seq<nat>, melody: seq<string>, step: nat, numSteps: nat,
                                               maxSequenceLength: int, predictAndSample: (seq<nat>, nat) -> nat)
    requires step <= numSteps
    requires Run(m, context, melody, step, numSteps, maxSequenceLength, predictAndSample).Ok?
    requires Run(m, context, melody, step, numSteps, maxSequenceLength, predictAndSample).value.stopped
    ensures var o := Run(m, context, melody, step, numSteps, maxSequenceLength, predictAndSample).value;
            && o.windows != []
            && KeyOf(m, predictAndSample(o.windows[|o.windows| - 1], step + |o.windows| - 1)) == Some(DELIM)
    decreases numSteps - step
  {
    var window := Truncate(context, maxSequenceLength);
    var id := predictAndSample(window, step);
    var symbol := KeyOf(m, id).value;
    if symbol != DELIM {
      var ctx', mel' := window + [id], melody + [symbol];
      var o := Run(m, ctx', mel', step + 1, numSteps, maxSequenceLength, predictAndSample).value;
      assert Run(m, context, melody, step, numSteps, maxSequenceLength, predictAndSample).value
             == Outcome(o.melody, [window] + o.windows, o.stopped);
      RunStopsOnDelimiter(m, ctx', mel', step + 1, numSteps, maxSequenceLength, predictAndSample);
      LastAfterCons(window, o.windows);
    }
  }

  /**
   * With a vocabulary built by `create_mapping`, a context of ids below its
   * size and an oracle that draws ids below its size, neither the one-hot
   * encoding nor the reverse lookup fails.
   */
  lemma {:induction false} RunTotal(m: Mapping, context: seq<nat>, melody: seq<string>, step: nat, numSteps: nat,
                                    maxSequenceLength: int, predictAndSample: (seq<nat>, nat) -> nat)
    requires Dense(m) && InClasses(context, |m|)
    requires forall w, k :: predictAndSample(w, k) < |m|
    ensures Run(m, context, melody, step, numSteps, maxSequenceLength, predictAndSample).Ok?
    decreases numSteps - step
  {
    if step < numSteps {
      var window := Truncate(context, maxSequenceLength);
      TruncateWindow(context, maxSequenceLength);
      assert InClasses(window, |m|) by {
        forall i | 0 <= i < |window| ensures window[i] < |m| {
          assert window[i] == context[|context| - |window| + i];
        }
      }
      var id := predictAndSample(window, step);
      KeyOfDense(m, id, 0);
      var symbol := KeyOf(m, id).value;
      if symbol != DELIM {
        RunTotal(m, window + [id], melody + [symbol], step + 1, numSteps, maxSequenceLength, predictAndSample);
      }
    }
  }

  lemma {:induction false} MapSymbolsConcat(m: Mapping, a: seq<string>, b: seq<string>)
    ensures MapSymbols(m, a + b) ==
              match MapSymbols(m, a)
              case Err(e) => Err(e)
              case Ok(ia) => (match MapSymbols(m, b) case Err(e) => Err(e) case Ok(ib) => Ok(ia + ib))
  {
    if a == [] {
      assert a + b == b;
      if MapSymbols(m, b).Ok? {
        assert [] + MapSymbols(m, b).value == MapSymbols(m, b).value;
      }
    } else {
      assert (a + b)[0] == a[0] && (a + b)[1..] == a[1..] + b;
      MapSymbolsConcat(m, a[1..], b);
      if MapSymbols(m, a).Ok? && MapSymbols(m, b).Ok? {
        var ia := MapSymbols(m, a[1..]).value;
        assert [Lookup(m, a[0]).value] + (ia + MapSymbols(m, b).value) == ([Lookup(m, a[0]).value] + ia) + MapSymbols(m, b).value;
      }
    }
  }

  /**
   * The initial context is the id of `'/'` once per start symbol, then the
   * seed tokens' ids; a missing `'/'` or seed token is a KeyError.
   */
  lemma InitialContext(m: Mapping, startCount: nat, seedTokens: seq<string>)
    ensures Lookup(m, DELIM).None? && startCount > 0 ==> MapSymbols(m, Repeat(DELIM, startCount) + seedTokens) == Err(UnknownToken(DELIM))
    ensures Lookup(m, DELIM).Some? ==>
              MapSymbols(m, Repeat(DELIM, startCount) + seedTokens) ==
                match MapSymbols(m, seedTokens)
                case Err(e) => Err(e)
                case Ok(ids) => Ok(Repeat(Lookup(m, DELIM).value, startCount) + ids)
  {
    var starts := Repeat(DELIM, startCount);
    MapSymbolsConcat(m, starts, seedTokens);
    MapSymbolsMeaning(m, starts);
    if startCount > 0 && Lookup(m, DELIM).None? {
      var k :| 0 <= k < |starts| && MapSymbols(m, starts).error == UnknownToken(starts[k]) && Lookup(m, starts[k]).None?
               && forall j :: 0 <= j < k ==> Lookup(m, starts[j]).Some?;
    }
    if startCount > 0 && Lookup(m, DELIM).Some? {
      assert MapSymbols(m, starts).value == Repeat(Lookup(m, DELIM).value, startCount);
    }
    if startCount == 0 && Lookup(m, DELIM).Some? {
      assert starts == [];
      assert MapSymbols(m, starts) == Ok([]);
      if MapSymbols(m, seedTokens).Ok? {
        assert Repeat(Lookup(m, DELIM).value, 0) + MapSymbols(m, seedTokens).value == MapSymbols(m, seedTokens).value;
        assert [] + MapSymbols(m, seedTokens).value == MapSymbols(m, seedTokens).value;
      }
    }
  }

  /**
   * `generate_melody`: a token with no id among the start symbols and the
   * seed is the error; otherwise the result starts with the seed tokens
   * unchanged, has at most `numSteps` generated tokens after them and none
   * of them is `'/'`.
   */
  lemma GeneratedShape(m: Mapping, startSymbols: seq<string>, seedTokens: seq<string>, numSteps: nat,
                       maxSequenceLength: int, predictAndSample: (seq<nat>, nat) -> nat)
    ensures MapSymbols(m, startSymbols + seedTokens).Err? ==>
              Generated(m, startSymbols, seedTokens, numSteps, maxSequenceLength, predictAndSample)
              == Err(MapSymbols(m, startSymbols + seedTokens).error)
    ensures var r := Generated(m, startSymbols, seedTokens, numSteps, maxSequenceLength, predictAndSample);
            r.Ok? ==>
              && |seedTokens| <= |r.value| <= |seedTokens| + numSteps
              && r.value[..|seedTokens|] == seedTokens
              && forall j :: |seedTokens| <= j < |r.value| ==> r.value[j] != DELIM
  {
    var init := MapSymbols(m, startSymbols + seedTokens);
    if init.Ok? {
      var run := Run(m, init.value, seedTokens, 0, numSteps, maxSequenceLength, predictAndSample);
      if run.Ok? {
        RunShape(m, init.value, seedTokens, 0, numSteps, maxSequenceLength, predictAndSample);
      }
    }
  }

  /**
   * When the oracle never draws the id of `'/'`, a run that succeeds makes
   * every one of its `numSteps` iterations and appends one token for each.
   */
  lemma GeneratedFullLength(m: Mapping, startSymbols: seq<string>, seedTokens: seq<string>, numSteps: nat,
                            maxSequenceLength: int, predictAndSample: (seq<nat>, nat) -> nat)
    requires forall w, k :: KeyOf(m, predictAndSample(w, k)) != Some(DELIM)
    ensures var r := Generated(m, startSymbols, seedTokens, numSteps, maxSequenceLength, predictAndSample);
            r.Ok? ==> |r.value| == |seedTokens| + numSteps
  {
    var init := MapSymbols(m, startSymbols + seedTokens);
    if init.Ok? {
      var run := Run(m, init.value, seedTokens, 0, numSteps, maxSequenceLength, predictAndSample);
      if run.Ok? {
        RunShape(m, init.value, seedTokens, 0, numSteps, maxSequenceLength, predictAndSample);
        if run.value.stopped {
          RunStopsOnDelimiter(m, init.value, seedTokens, 0, numSteps, maxSequenceLength, predictAndSample);
          assert false;
        }
      }
    }
  }

  /**
   * `generate_melody` with a vocabulary built by `create_mapping` cannot
   * fail once the start symbols and the seed have ids, as long as the
   * sampler draws ids below the vocabulary's size.
   */
  lemma GeneratedTotal(m: Mapping, startSymbols: seq<string>, seedTokens: seq<string>, numSteps: nat,
                       maxSequenceLength: int, predictAndSample: (seq<nat>, nat) -> nat)
    requires Dense(m) && MapSymbols(m, startSymbols + seedTokens).Ok?
    requires forall w, k :: predictAndSample(w, k) < |m|
    ensures Generated(m, startSymbols, seedTokens, numSteps, maxSequenceLength, predictAndSample).Ok?
  {
    var ws := startSymbols + seedTokens;
    var ids := MapSymbols(m, ws).value;
    MapSymbolsMeaning(m, ws);
    forall k | 0 <= k < |ids| ensures ids[k] < |m| {
      LookupThenKeyOf(m, ws[k]);
    }
    RunTotal(m, ids, seedTokens, 0, numSteps, maxSequenceLength, predictAndSample);
  }

  /**
   * A mapping whose ids are not 0..n-1 makes the one-hot encoding fail:
   * with `{'/': 0, '60': 5}`, the seed `60` and a sampler that draws 5,
   * the first window holds the id 5, which is not below the 2 classes.
   */
  lemma OneHotBeyondClasses()
    ensures Generated([Entry(DELIM, 0), Entry("60", 5)], Repeat(DELIM, Preprocess.SEQUENCE_LENGTH), ["60"], 1,
                      Preprocess.SEQUENCE_LENGTH, (w: seq<nat>, k: nat) => 5)
            == Err(ClassOutOfRange)
  {
    var m := [Entry(DELIM, 0), Entry("60", 5)];
    assert Lookup(m, DELIM) == Some(0);
    assert "60" != DELIM by { assert |"60"| == 2; }
    assert Lookup(m, "60") == Some(5) by { assert m[1..] == [Entry("60", 5)]; }
    assert MapSymbols(m, ["60"]) == Ok([5]) by {
      assert ["60"][0] == "60" && ["60"][1..] == [];
      assert MapSymbols(m, []) == Ok([]);
      assert [5] + [] == [5];
    }
    InitialContext(m, Preprocess.SEQUENCE_LENGTH, ["60"]);
    var context := Repeat(0, Preprocess.SEQUENCE_LENGTH) + [5];
    var window := Truncate(context, Preprocess.SEQUENCE_LENGTH);
    assert window[|window| - 1] == 5;
  }
}
