/**
 * Encoding a song with `encode_song` and decoding the tokens with the loop of
 * `save_melody` at the same step gives the song back, quantised to whole
 * steps, with one exception the decoder's trigger rule makes: the last
 * event loses its final step, and an event of one step at the end is lost.
 */
module RoundTrip {
  import opened Wrappers
  import opened Strings
  import opened Music
  import opened Preprocess
  import opened Melody

  /** Every event covers at least one time step, so none vanishes when encoded. */
  predicate Audible(song: seq<Event>, timeStep: nat)
    requires timeStep > 0
  {
    forall i :: 0 <= i < |song| ==> Steps(song[i], timeStep) >= 1
  }

  /** An event with its duration rounded down to whole time steps. */
  function Quantised(e: Event, timeStep: nat): Event
    requires timeStep > 0
  {
    Event(e.kind, timeStep * Steps(e, timeStep))
  }

  /** The last event as the decoder recovers it: one step shorter, or nothing if it was one step. */
  function LastRecovered(e: Event, timeStep: nat): seq<Event>
    requires timeStep > 0
  {
    if Steps(e, timeStep) >= 2 then [Event(e.kind, timeStep * (Steps(e, timeStep) - 1))] else []
  }

  /** What decoding the encoding of `song` yields. */
  function Recovered(song: seq<Event>, timeStep: nat): seq<Event>
    requires timeStep > 0
  {
    if song == [] then []
    else
      var init := song[..|song| - 1];
      seq(|init|, i requires 0 <= i < |init| => Quantised(init[i], timeStep)) + LastRecovered(song[|song| - 1], timeStep)
  }

  lemma RecoveredCons(p: Event, song: seq<Event>, timeStep: nat)
    requires timeStep > 0 && song != []
    ensures Recovered([p] + song, timeStep) == [Quantised(p, timeStep)] + Recovered(song, timeStep)
  {
    var ps := [p] + song;
    assert ps[|ps| - 1] == song[|song| - 1];
    assert ps[..|ps| - 1] == [p] + song[..|song| - 1];
  }

  lemma TextsConcat(a: seq<Token>, b: seq<Token>)
    ensures Texts(a + b) == Texts(a) + Texts(b)
  {
  }

  lemma TextsHolds(n: nat)
    ensures Texts(Repeat(Hold, n)) == Repeat(HOLD, n)
  {
  }

  lemma AudibleTail(song: seq<Event>, timeStep: nat)
    requires timeStep > 0 && song != [] && Audible(song, timeStep)
    ensures Audible(song[1..], timeStep)
  {
    forall i | 0 <= i < |song| - 1 ensures Steps(song[1..][i], timeStep) >= 1 {
      assert song[1..][i] == song[i + 1];
    }
  }

  /** The string form of an event's symbol is not `'_'`, and reads back as that event. */
  lemma SymbolText(k: Kind, duration: nat)
    ensures Text(Symbol(k)) != HOLD
    ensures ToEvent(Text(Symbol(k)), duration) == Ok(Event(k, duration))
  {
    if k.Note? {
      var s := Decimal(k.midi);
      assert IsDigit(s[0]);
      assert s != HOLD && s != REST;
      ParseDecimal(k.midi);
    }
  }

  lemma BlockTexts(k: Kind, s: nat)
    requires s >= 1
    ensures Texts(Block(k, s)) == [Text(Symbol(k))] + Repeat(HOLD, s - 1)
  {
    TextsConcat([Symbol(k)], Repeat(Hold, s - 1));
    TextsHolds(s - 1);
  }

  lemma EncodingFront(p: Event, song: seq<Event>, timeStep: nat)
    requires timeStep > 0
    ensures Encoding([p] + song, timeStep) == Block(p.kind, Steps(p, timeStep)) + Encoding(song, timeStep)
  {
    EncodingConcat([p], song, timeStep);
    EncodingSnoc([], p, timeStep);
    assert [] + [p] == [p];
    var blk := Block(p.kind, Steps(p, timeStep));
    assert [] + blk == blk;
  }

  /** The tokens of a song, from the front: the first event's symbol, its holds, then the rest. */
  lemma TokensFront(p: Event, song: seq<Event>, timeStep: nat)
    requires timeStep > 0 && Steps(p, timeStep) >= 1
    ensures Texts(Encoding([p] + song, timeStep))
            == [Text(Symbol(p.kind))] + Repeat(HOLD, Steps(p, timeStep) - 1) + Texts(Encoding(song, timeStep))
  {
    var s := Steps(p, timeStep);
    var b := Block(p.kind, s);
    var rest := Encoding(song, timeStep);
    EncodingFront(p, song, timeStep);
    TextsConcat(b, rest);
    BlockTexts(p.kind, s);
  }

  /** The holds of the last event: the final one triggers with one step fewer than the event has. */
  lemma DecodeLastEvent(p: Event, timeStep: nat)
    requires timeStep > 0 && Steps(p, timeStep) >= 1
    ensures DecodeFrom(Repeat(HOLD, Steps(p, timeStep) - 1), Some(Text(Symbol(p.kind))), 1, timeStep)
            == Ok(LastRecovered(p, timeStep))
  {
    var s := Steps(p, timeStep);
    var sym := Text(Symbol(p.kind));
    if s >= 2 {
      var ev := Event(p.kind, timeStep * (s - 1));
      SymbolText(p.kind, timeStep * (s - 1));
      assert Repeat(HOLD, s - 1) == Repeat(HOLD, s - 2) + [HOLD];
      HoldsBefore(s - 2, [HOLD], Some(sym), 1, timeStep);
      assert 1 + (s - 2) == s - 1;
      assert DecodeFrom([HOLD], Some(sym), s - 1, timeStep) == Cons(ev, DecodeFrom([], Some(HOLD), 1, timeStep));
      assert [ev] + [] == [ev];
    }
  }

  /** A symbol after a pending one closes the pending event with the counter's duration. */
  lemma SymbolStep(symQ: string, after: seq<string>, sym: string, counter: nat, timeStep: nat, ev: Event)
    requires symQ != HOLD && ToEvent(sym, timeStep * counter) == Ok(ev)
    ensures DecodeFrom([symQ] + after, Some(sym), counter, timeStep)
            == Cons(ev, DecodeFrom(after, Some(symQ), 1, timeStep))
  {
    assert ([symQ] + after)[0] == symQ;
    assert ([symQ] + after)[1..] == after;
  }

  /** The decoder after the symbol of a song's only event. */
  lemma DecodeSingle(p: Event, timeStep: nat)
    requires timeStep > 0 && Steps(p, timeStep) >= 1
    ensures DecodeFrom(Repeat(HOLD, Steps(p, timeStep) - 1) + Texts(Encoding([], timeStep)),
                       Some(Text(Symbol(p.kind))), 1, timeStep)
            == Ok(Recovered([p], timeStep))
  {
    var holds := Repeat(HOLD, Steps(p, timeStep) - 1);
    assert Texts(Encoding([], timeStep)) == [];
    assert holds + [] == holds;
    assert [p][..0] == [];
    assert Recovered([p], timeStep) == [] + LastRecovered(p, timeStep) == LastRecovered(p, timeStep);
    DecodeLastEvent(p, timeStep);
  }

  /**
   * One event of the token stream: after `p`'s symbol, its holds and the
   * symbol of the next event `q` close `p` at its quantised duration and
   * leave `q` pending.
   */
  lemma DecodeBlock(p: Event, q: Event, rest: seq<Event>, timeStep: nat)
    requires timeStep > 0 && Steps(p, timeStep) >= 1 && Steps(q, timeStep) >= 1
    ensures DecodeFrom(Repeat(HOLD, Steps(p, timeStep) - 1) + Texts(Encoding([q] + rest, timeStep)),
                       Some(Text(Symbol(p.kind))), 1, timeStep)
            == Cons(Quantised(p, timeStep),
                    DecodeFrom(Repeat(HOLD, Steps(q, timeStep) - 1) + Texts(Encoding(rest, timeStep)),
                               Some(Text(Symbol(q.kind))), 1, timeStep))
  {
    var s := Steps(p, timeStep);
    var sym := Text(Symbol(p.kind));
    var symQ := Text(Symbol(q.kind));
    var holdsQ := Repeat(HOLD, Steps(q, timeStep) - 1);
    var tail := Texts(Encoding(rest, timeStep));
    var after := holdsQ + tail;
    TokensFront(q, rest, timeStep);
    AppendAssoc([symQ], holdsQ, tail);
    assert Texts(Encoding([q] + rest, timeStep)) == [symQ] + after;
    SymbolText(q.kind, 0);
    SymbolText(p.kind, timeStep * s);
    HoldsBefore(s - 1, [symQ] + after, Some(sym), 1, timeStep);
    assert 1 + (s - 1) == s;
    SymbolStep(symQ, after, sym, s, timeStep, Quantised(p, timeStep));
  }

  /**
   * The decoder just after reading the symbol of event `p`, with `p`'s
   * holds and the encoding of `song` still to read, yields what is
   * recovered from `p` followed by `song`.
   */
  lemma {:induction false} DecodeAfterSymbol(p: Event, song: seq<Event>, timeStep: nat)
    requires timeStep > 0 && Steps(p, timeStep) >= 1 && Audible(song, timeStep)
    ensures DecodeFrom(Repeat(HOLD, Steps(p, timeStep) - 1) + Texts(Encoding(song, timeStep)),
                       Some(Text(Symbol(p.kind))), 1, timeStep)
            == Ok(Recovered([p] + song, timeStep))
    decreases |song|
  {
    if song == [] {
      DecodeSingle(p, timeStep);
    } else {
      var q, rest := song[0], song[1..];
      assert song == [q] + rest;
      AudibleTail(song, timeStep);
      DecodeBlock(p, q, rest, timeStep);
      DecodeAfterSymbol(q, rest, timeStep);
      RecoveredCons(p, song, timeStep);
    }
  }

  /** The first token, when it is not `'_'`, becomes the pending symbol with the counter at one. */
  lemma DecodeFirstSymbol(sym: string, after: seq<string>, timeStep: nat)
    requires sym != HOLD
    ensures Decode([sym] + after, timeStep) == DecodeFrom(after, Some(sym), 1, timeStep)
  {
    assert ([sym] + after)[1..] == after;
  }

  /**
   * Decoding the tokens of an encoded song at the encoding's time step
   * recovers every event but the last, with its duration rounded down to
   * whole steps, and the last one shortened by a step (or dropped if one
   * step long).
   */
  lemma EncodeDecode(song: seq<Event>, timeStep: nat)
    requires timeStep > 0 && Audible(song, timeStep)
    ensures Decode(Texts(Encoding(song, timeStep)), timeStep) == Ok(Recovered(song, timeStep))
  {
    if song != [] {
      var p, rest := song[0], song[1..];
      assert song == [p] + rest;
      AudibleTail(song, timeStep);
      var sym := Text(Symbol(p.kind));
      var holds := Repeat(HOLD, Steps(p, timeStep) - 1);
      var tail := Texts(Encoding(rest, timeStep));
      TokensFront(p, rest, timeStep);
      AppendAssoc([sym], holds, tail);
      SymbolText(p.kind, 0);
      DecodeFirstSymbol(sym, holds + tail, timeStep);
      DecodeAfterSymbol(p, rest, timeStep);
    }
  }

  /**
   * The same through the strings: splitting the line `encode_song` returns
   * and decoding it at the time step gives the recovered events.
   */
  lemma EncodedLineDecodes(song: seq<Event>, timeStep: nat, line: string)
    requires timeStep > 0 && Audible(song, timeStep)
    requires line == Unwords(Texts(Encoding(song, timeStep)))
    ensures Decode(Words(line), timeStep) == Ok(Recovered(song, timeStep))
  {
    WordsUnwords(Texts(Encoding(song, timeStep)));
    EncodeDecode(song, timeStep);
  }

  /**
   * A song that passes the duration filter, encoded and decoded at one
   * sixteenth (0.25 quarter lengths), comes back exactly except for its
   * last event, which is one sixteenth shorter, or gone if it was one
   * sixteenth long.
   */
  lemma {:induction false} FilteredSongRoundTrip(song: seq<Event>)
    requires song != []
    requires forall i :: 0 <= i < |song| ==> song[i].duration in ACCEPTABLE_DURATIONS
    ensures var last := song[|song| - 1];
            Decode(Texts(Encoding(song, 1)), 1)
            == Ok(song[..|song| - 1] + if last.duration >= 2 then [Event(last.kind, last.duration - 1)] else [])
  {
    assert Audible(song, 1) by {
      forall i | 0 <= i < |song| ensures Steps(song[i], 1) >= 1 {
        assert song[i].duration >= 1;
      }
    }
    EncodeDecode(song, 1);
    var init := song[..|song| - 1];
    assert seq(|init|, i requires 0 <= i < |init| => Quantised(init[i], 1)) == init;
  }
}
