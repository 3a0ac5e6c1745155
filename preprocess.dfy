/**
 * Corpus preparation: the duration filter, the quantising time-series
 * encoder, the single-file dataset with its song delimiters, the vocabulary
 * and the integer training windows.
 */
module Preprocess {
  import opened Wrappers
  import opened Strings
  import opened Music
  import opened Vocabulary

  /** The model's context length. */
  const SEQUENCE_LENGTH: nat := 64

  /** 0.25, 0.5, 0.75, 1, 1.5, 2, 3 and 4 quarter lengths, in sixteenths. */
  const ACCEPTABLE_DURATIONS: seq<nat> := [1, 2, 3, 4, 6, 8, 12, 16]

  // ----- duration filter -----

  /** True exactly when every event's duration is one of the acceptable ones; an empty song passes. */
  method HasAcceptableDurations(song: seq<Event>, acceptableDurations: seq<nat>) returns (ok: bool)
    ensures ok <==> forall i :: 0 <= i < |song| ==> song[i].duration in acceptableDurations
  {
    for i := 0 to |song|
      invariant forall j :: 0 <= j < i ==> song[j].duration in acceptableDurations
    {
      if song[i].duration !in acceptableDurations {
        return false;
      }
    }
    return true;
  }

  // ----- quantising encoder -----

  /** `int(duration / time_step)`: the number of time steps an event covers. */
  function Steps(e: Event, timeStep: nat): nat
    requires timeStep > 0
  {
    e.duration / timeStep
  }

  /** An event's block: its symbol once, then `steps - 1` holds; nothing when `steps` is 0. */
  function Block(k: Kind, steps: nat): (b: seq<Token>)
    ensures |b| == steps
  {
    if steps == 0 then [] else [Symbol(k)] + Repeat(Hold, steps - 1)
  }

  /** The blocks of the events, in event order. */
  function Encoding(song: seq<Event>, timeStep: nat): seq<Token>
    requires timeStep > 0
  {
    if song == [] then []
    else
      var last := song[|song| - 1];
      Encoding(song[..|song| - 1], timeStep) + Block(last.kind, Steps(last, timeStep))
  }

  /** Sum of the events' step counts. */
  function TotalSteps(song: seq<Event>, timeStep: nat): nat
    requires timeStep > 0
  {
    if song == [] then 0
    else TotalSteps(song[..|song| - 1], timeStep) + Steps(song[|song| - 1], timeStep)
  }

  /** `encode_song`: the encoded tokens joined by single spaces. */
  method EncodeSong(song: seq<Event>, timeStep: nat) returns (encodedSong: string)
    requires timeStep > 0
    ensures encodedSong == Unwords(Texts(Encoding(song, timeStep)))
  {
    var encoded: seq<Token> := [];
    for i := 0 to |song|
      invariant encoded == Encoding(song[..i], timeStep)
    {
      var event := song[i];
      var symbol := Symbol(event.kind);
      var steps := event.duration / timeStep;
      for step := 0 to steps
        invariant encoded == Encoding(song[..i], timeStep) + Block(event.kind, step)
      {
        if step == 0 {
          encoded := encoded + [symbol];
        } else {
          encoded := encoded + [Hold];
        }
      }
      assert song[..i + 1][..i] == song[..i];
    }
    assert song[..|song|] == song;
    encodedSong := Unwords(Texts(encoded));
  }

  /** The encoding has one token per time step of every event. */
  lemma {:induction false} EncodingLength(song: seq<Event>, timeStep: nat)
    requires timeStep > 0
    ensures |Encoding(song, timeStep)| == TotalSteps(song, timeStep)
  {
    if song != [] {
      EncodingLength(song[..|song| - 1], timeStep);
    }
  }

  /**
   * Event `i`'s block starts after the steps of the events before it; its
   * first token is the event's symbol (never a hold) and the rest are holds.
   */
  lemma EncodingAt(song: seq<Event>, timeStep: nat, i: nat, j: nat)
    requires timeStep > 0
    requires i < |song| && j < Steps(song[i], timeStep)
    ensures TotalSteps(song[..i], timeStep) + j < |Encoding(song, timeStep)|
    ensures Encoding(song, timeStep)[TotalSteps(song[..i], timeStep) + j]
            == if j == 0 then Symbol(song[i].kind) else Hold
  {
    var a, e, b := song[..i], song[i], song[i + 1..];
    assert song == (a + [e]) + b;
    EncodingConcat(a + [e], b, timeStep);
    EncodingSnoc(a, e, timeStep);
    EncodingLength(a, timeStep);
    BlockAt(e.kind, Steps(e, timeStep), j);
    var enc, blk, rest := Encoding(a, timeStep), Block(e.kind, Steps(e, timeStep)), Encoding(b, timeStep);
    assert Encoding(song, timeStep) == (enc + blk) + rest;
    assert ((enc + blk) + rest)[|enc| + j] == blk[j];
  }

  lemma BlockAt(k: Kind, steps: nat, j: nat)
    requires j < steps
    ensures Block(k, steps)[j] == if j == 0 then Symbol(k) else Hold
  {
  }

  /** Appending an event appends its block. */
  lemma EncodingSnoc(song: seq<Event>, e: Event, timeStep: nat)
    requires timeStep > 0
    ensures Encoding(song + [e], timeStep) == Encoding(song, timeStep) + Block(e.kind, Steps(e, timeStep))
  {
    var se := song + [e];
    assert se[..|se| - 1] == song && se[|se| - 1] == e;
  }

  lemma EncodingConcatStep(a: seq<Event>, init: seq<Event>, last: Event, timeStep: nat)
    requires timeStep > 0
    requires Encoding(a + init, timeStep) == Encoding(a, timeStep) + Encoding(init, timeStep)
    ensures Encoding(a + (init + [last]), timeStep) == Encoding(a, timeStep) + Encoding(init + [last], timeStep)
  {
    var blk := Block(last.kind, Steps(last, timeStep));
    AppendAssoc(a, init, [last]);
    EncodingSnoc(a + init, last, timeStep);
    EncodingSnoc(init, last, timeStep);
    AppendAssoc(Encoding(a, timeStep), Encoding(init, timeStep), blk);
  }

  lemma AppendAssoc<T>(a: seq<T>, b: seq<T>, c: seq<T>)
    ensures (a + b) + c == a + (b + c)
  {
  }

  /** Encoding distributes over concatenation of songs. */
  lemma {:induction false} EncodingConcat(a: seq<Event>, b: seq<Event>, timeStep: nat)
    requires timeStep > 0
    ensures Encoding(a + b, timeStep) == Encoding(a, timeStep) + Encoding(b, timeStep)
    decreases |b|
  {
    if b == [] {
      assert a + b == a;
    } else {
      var init, last := b[..|b| - 1], b[|b| - 1];
      assert b == init + [last];
      EncodingConcat(a, init, timeStep);
      EncodingConcatStep(a, init, last, timeStep);
    }
  }

  lemma DropShortLast(a: seq<Event>, e: Event, timeStep: nat)
    requires timeStep > 0 && e.duration < timeStep
    ensures Encoding(a + [e], timeStep) == Encoding(a, timeStep)
  {
    var ae := a + [e];
    assert ae[..|ae| - 1] == a;
    assert Steps(e, timeStep) == 0;
  }

  /** An event shorter than one time step leaves no trace in the encoding. */
  lemma ShortEventVanishes(a: seq<Event>, e: Event, b: seq<Event>, timeStep: nat)
    requires timeStep > 0 && e.duration < timeStep
    ensures Encoding(a + [e] + b, timeStep) == Encoding(a + b, timeStep)
  {
    var ae := a + [e];
    EncodingConcat(ae, b, timeStep);
    EncodingConcat(a, b, timeStep);
    DropShortLast(a, e, timeStep);
  }

  /** A quarter note at MIDI 60 with the default time step is `60 _ _ _`. */
  lemma EncodeQuarterNote()
    ensures Encoding([Event(Note(60), 4)], 1) == [Pitch(60), Hold, Hold, Hold]
    ensures Unwords(Texts(Encoding([Event(Note(60), 4)], 1))) == "60 _ _ _"
  {
    var song := [Event(Note(60), 4)];
    assert song[..0] == [];
    assert Block(Note(60), 4) == [Pitch(60), Hold, Hold, Hold];
    var ws := Texts([Pitch(60), Hold, Hold, Hold]);
    assert Decimal(60) == "60" by {
      assert Decimal(6) == "6";
    }
    assert ws == ["60", "_", "_", "_"];
  }

  // ----- single-file dataset -----

  /** `'/ ' * sequence_length`. */
  function DelimiterText(n: nat): (s: string)
    ensures s == [] || s[|s| - 1] == ' '
  {
    if n == 0 then "" else "/ " + DelimiterText(n - 1)
  }

  /** The string `create_single_file_dataset` accumulates before trimming. */
  function Assembled(songs: seq<string>, sequenceLength: nat): string {
    if songs == [] then ""
    else Assembled(songs[..|songs| - 1], sequenceLength) + songs[|songs| - 1] + " " + DelimiterText(sequenceLength)
  }

  /** The tokens of the dataset: each song's tokens followed by `sequenceLength` delimiters. */
  function DelimitedTokens(songs: seq<string>, sequenceLength: nat): seq<string> {
    if songs == [] then []
    else DelimitedTokens(songs[..|songs| - 1], sequenceLength) + Words(songs[|songs| - 1]) + Repeat(DELIM, sequenceLength)
  }

  lemma {:induction false} WordsOfDelimiters(n: nat)
    ensures Words(DelimiterText(n)) == Repeat(DELIM, n)
  {
    if n > 0 {
      var d := DelimiterText(n - 1);
      WordsOfDelimiters(n - 1);
      assert "/" + [' '] == "/ ";
      WordsAround("/", ' ', d);
      WordsOfWord("/");
      assert Repeat(DELIM, n) == [DELIM] + Repeat(DELIM, n - 1);
    }
  }

  /** One more song adds its tokens and the delimiters to the token stream. */
  lemma AppendSongWords(acc: string, song: string, sequenceLength: nat)
    requires acc == [] || IsSpace(acc[|acc| - 1])
    ensures Words(acc + song + " " + DelimiterText(sequenceLength))
            == Words(acc) + Words(song) + Repeat(DELIM, sequenceLength)
  {
    var d := DelimiterText(sequenceLength);
    assert acc + song + " " + d == acc + (song + [' '] + d);
    WordsAfterSpace(acc, song + [' '] + d);
    WordsAround(song, ' ', d);
    WordsOfDelimiters(sequenceLength);
  }

  /**
   * `create_single_file_dataset` on the song files' contents, in traversal
   * order: each song, a space and `sequenceLength` delimiters, with only the
   * single trailing character (a space) trimmed; so its tokens are each
   * song's tokens followed by the delimiters.
   */
  method CreateSingleFileDataset(files: seq<string>, sequenceLength: nat) returns (songs: string)
    ensures files == [] ==> songs == ""
    ensures files != [] ==> songs + " " == Assembled(files, sequenceLength)
    ensures Words(songs) == DelimitedTokens(files, sequenceLength)
  {
    var newSongDelimiter := DelimiterText(sequenceLength);
    songs := "";
    for i := 0 to |files|
      invariant songs == Assembled(files[..i], sequenceLength)
      invariant Words(songs) == DelimitedTokens(files[..i], sequenceLength)
      invariant songs == [] || songs[|songs| - 1] == ' '
      invariant i > 0 ==> songs != []
    {
      var song := files[i];
      AppendSongWords(songs, song, sequenceLength);
      assert files[..i + 1][..i] == files[..i];
      songs := songs + song + " " + newSongDelimiter;
    }
    assert files[..|files|] == files;
    if songs != [] {
      var trimmed := songs[..|songs| - 1];
      assert trimmed + " " == songs;
      WordsTrailingSpace(trimmed);
      songs := trimmed;
    }
  }

  // ----- vocabulary -----

  /**
   * `create_mapping`: every distinct token of the stream gets an id; the ids
   * are 0..n-1 in the order the set is enumerated, which is arbitrary.
   */
  method CreateMapping(songs: string) returns (mappings: Mapping)
    ensures Symbols(mappings) == set w | w in Words(songs)
    ensures DistinctSymbols(mappings) && Dense(mappings)
    ensures |mappings| == |set w | w in Words(songs)|
  {
    var vocabulary := set w | w in Words(songs);
    var rest := vocabulary;
    mappings := [];
    while rest != {}
      invariant Symbols(mappings) + rest == vocabulary
      invariant Symbols(mappings) !! rest
      invariant DistinctSymbols(mappings) && Dense(mappings)
      invariant |mappings| + |rest| == |vocabulary|
      decreases |rest|
    {
      var symbol :| symbol in rest;
      AddEntry(mappings, symbol);
      RemoveOne(Symbols(mappings), rest, symbol);
      mappings := mappings + [Entry(symbol, |mappings|)];
      rest := rest - {symbol};
    }
  }

  /** Moving one element from one side of a disjoint union to the other keeps the union and the total size. */
  lemma RemoveOne(done: set<string>, rest: set<string>, x: string)
    requires x in rest && done !! rest
    ensures (done + {x}) + (rest - {x}) == done + rest
    ensures (done + {x}) !! (rest - {x})
    ensures |done + {x}| + |rest - {x}| == |done| + |rest|
  {
    assert |rest - {x}| == |rest| - 1;
    assert |done + {x}| == |done| + 1;
  }

  /** Appending a fresh key with the next id keeps the mapping a dense, duplicate-free dict. */
  lemma AddEntry(m: Mapping, symbol: string)
    requires DistinctSymbols(m) && Dense(m) && symbol !in Symbols(m)
    ensures Symbols(m + [Entry(symbol, |m|)]) == Symbols(m) + {symbol}
    ensures DistinctSymbols(m + [Entry(symbol, |m|)]) && Dense(m + [Entry(symbol, |m|)])
  {
    var m' := m + [Entry(symbol, |m|)];
    forall j | 0 <= j < |m| ensures m[j].symbol != symbol {
      assert m[j] in m;
    }
    forall x ensures x in Symbols(m') <==> x in Symbols(m) + {symbol} {
      if x in Symbols(m') {
        var e :| e in m' && e.symbol == x;
      }
      if x in Symbols(m) {
        var e :| e in m && e.symbol == x;
        assert e in m';
      }
      if x == symbol {
        assert m'[|m|] in m';
      }
    }
  }

  // ----- integer training sequences -----

  function PrependIds(prefix: seq<nat>, r: Result<seq<nat>, LookupError>): Result<seq<nat>, LookupError> {
    match r
    case Ok(ids) => Ok(prefix + ids)
    case Err(e) => Err(e)
  }

  /** `convert_songs_to_int`: each token of the stream replaced by its id, KeyError on a token without one. */
  method ConvertSongsToInt(songs: string, mappings: Mapping) returns (r: Result<seq<nat>, LookupError>)
    ensures r == MapSymbols(mappings, Words(songs))
  {
    var symbols := Words(songs);
    var intSongs: seq<nat> := [];
    assert symbols[0..] == symbols;
    assert PrependIds([], MapSymbols(mappings, symbols)) == MapSymbols(mappings, symbols) by {
      if MapSymbols(mappings, symbols).Ok? {
        assert [] + MapSymbols(mappings, symbols).value == MapSymbols(mappings, symbols).value;
      }
    }
    for i := 0 to |symbols|
      invariant MapSymbols(mappings, symbols) == PrependIds(intSongs, MapSymbols(mappings, symbols[i..]))
    {
      var id := Lookup(mappings, symbols[i]);
      assert symbols[i..][0] == symbols[i] && symbols[i..][1..] == symbols[i + 1..];
      if id.None? {
        return Err(UnknownToken(symbols[i]));
      }
      var rest := MapSymbols(mappings, symbols[i + 1..]);
      assert MapSymbols(mappings, symbols[i..]) == PrependIds([id.value], rest);
      if rest.Ok? {
        assert intSongs + ([id.value] + rest.value) == (intSongs + [id.value]) + rest.value;
      }
      intSongs := intSongs + [id.value];
    }
    assert symbols[|symbols|..] == [];
    assert intSongs + [] == intSongs;
    return Ok(intSongs);
  }

  /** The stride-1 windows of `sequenceLength` ids, each with the id that follows it as target. */
  method TrainingWindows(ids: seq<nat>, sequenceLength: nat) returns (inputs: seq<seq<nat>>, targets: seq<nat>)
    ensures |inputs| == |targets| == if |ids| > sequenceLength then |ids| - sequenceLength else 0
    ensures forall i :: 0 <= i < |inputs| ==>
              i + sequenceLength < |ids| && inputs[i] == ids[i..i + sequenceLength] && targets[i] == ids[i + sequenceLength]
  {
    inputs, targets := [], [];
    var numSequences := |ids| - sequenceLength;
    var i := 0;
    while i < numSequences
      invariant 0 <= i <= (if numSequences > 0 then numSequences else 0)
      invariant |inputs| == |targets| == i
      invariant forall k :: 0 <= k < i ==> inputs[k] == ids[k..k + sequenceLength] && targets[k] == ids[k + sequenceLength]
    {
      inputs := inputs + [ids[i..i + sequenceLength]];
      targets := targets + [ids[i + sequenceLength]];
      i := i + 1;
    }
  }

  /**
   * The loading and windowing part of `generating_training_sequences`:
   * KeyError when a token of the stream has no id, else the windows over the
   * stream's ids.
   */
  method GeneratingTrainingSequences(songs: string, mappings: Mapping, sequenceLength: nat)
    returns (r: Result<(seq<seq<nat>>, seq<nat>), LookupError>)
    ensures r.Err? <==> exists k :: 0 <= k < |Words(songs)| && Lookup(mappings, Words(songs)[k]).None?
    ensures r.Err? ==> MapSymbols(mappings, Words(songs)).Err? && r.error == MapSymbols(mappings, Words(songs)).error
    ensures r.Ok? ==>
              MapSymbols(mappings, Words(songs)).Ok? &&
              var ids := MapSymbols(mappings, Words(songs)).value;
              var (inputs, targets) := r.value;
              && |inputs| == |targets| == (if |ids| > sequenceLength then |ids| - sequenceLength else 0)
              && forall i :: 0 <= i < |inputs| ==>
                   i + sequenceLength < |ids| && inputs[i] == ids[i..i + sequenceLength] && targets[i] == ids[i + sequenceLength]
  {
    var intSongs := ConvertSongsToInt(songs, mappings);
    MapSymbolsMeaning(mappings, Words(songs));
    if intSongs.Err? {
      return Err(intSongs.error);
    }
    var inputs, targets := TrainingWindows(intSongs.value, sequenceLength);
    return Ok((inputs, targets));
  }
}
