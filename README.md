# melody-maker token logic in Dafny

melody-maker trains an LSTM on folk songs and then generates melodies with it. Its core is plain
token processing around two library calls. The music-parsing library turns scores into events,
and the neural network predicts the next token. This project models that token logic and proves
what it does.

- **Corpus preparation** (`preprocess.py`):
  - the duration filter;
  - the quantising time-series encoder: each event becomes its symbol (MIDI number or `r`)
    followed by hold tokens `_`, one token per time step;
  - the single-file dataset: songs joined, each followed by `/` delimiters;
  - the vocabulary, which gives each distinct token a dense id;
  - the conversion of tokens to ids;
  - the stride-1 training windows.
- **Generation** (`melodymaker.py`):
  - `MelodyMaker.generate_melody`: keeps a rolling id context seeded with `/` start symbols,
    truncates it, draws the next id, maps it back to a token and stops on `/`;
  - the run-length decoding loop of `MelodyMaker.save_melody`.

Durations are natural numbers in sixteenth notes, i.e. quarterLength × 4:

- the acceptable durations 0.25 … 4 are `[1, 2, 3, 4, 6, 8, 12, 16]`;
- the default time step and step duration of 0.25 are `1`;
- `int(d / time_step)` is integer division.

Tokens are the datatype `Pitch(midi) | RestMark | Hold | Delim`. Their string forms are
`str(midi)`, `r`, `_` and `/`.

Every step from the encoder onwards works on strings, because the program does too:

- `' '.join(map(str, …))` is `Strings.Unwords`;
- `str.split()` is `Strings.Words`;
- `str(n)` is `Strings.Decimal`;
- `int(s)` is `Strings.ParseNat`.

A Python dict is a sequence of entries in insertion order. The generator's reverse lookup
`[k for k, v in items() if v == id][0]` depends on that order: it takes the first entry with
the id (`Vocabulary.KeyOf`).

The network's prediction and the temperature sampler together are one oracle,
`predictAndSample(window, step)`: the id drawn at loop iteration `step` when the network is shown
`window`. The step index stands for the sampler's fresh randomness. The oracle may return any
natural number; an id with no key is the `IndexError` of the reverse lookup. Before each
prediction, `to_categorical(seed, num_classes=len(self._mappings))` one-hot encodes the truncated
context. It raises `IndexError` when the context holds an id that is not below the mapping's size.
The model returns that error as `ClassOutOfRange`. It cannot happen with a mapping `create_mapping`
built (`Melody.GeneratedTotal`), but it can with any other (`Melody.OneHotBeyondClasses`).

Five of the loops in the source are Dafny methods with a loop, each proved against a recursive
specification function:

| method | specification function |
|---|---|
| `EncodeSong` | `Encoding` |
| `CreateSingleFileDataset` | `Assembled` / `DelimitedTokens` |
| `ConvertSongsToInt` | `MapSymbols` |
| `GenerateMelody` | `Generated` / `Run` |
| `SaveMelody` | `Decode` / `DecodeFrom` |

The other three loop methods, `HasAcceptableDurations`, `CreateMapping` and `TrainingWindows`,
state their results directly with quantified `ensures` clauses.

The lemmas state what the source promises about those functions. The central one is the round
trip of encoder and decoder, `RoundTrip.EncodeDecode`. Decoding an encoded song recovers every
event but the last exactly, quantised to whole steps. The last event comes back one step
shorter, or not at all if it was one step long.

The decoder never emits the pending symbol of the last position, so `60 _ _ r` decodes to
`Note(60)` of three steps alone; the rest is lost (`Melody.DecodeExamples`).

Files:

| file | contents |
|---|---|
| `wrappers.dfy` | `Option`, `Result` |
| `strings.dfy` | the Python string built-ins |
| `music.dfy` | events, tokens and their string form |
| `vocabulary.dfy` | the token-to-id dict |
| `preprocess.dfy` | corpus preparation |
| `melody.dfy` | generation and decoding, the `MelodyMaker` class |
| `roundtrip.dfy` | encoder–decoder round trip |

## Model

| member | source | states |
|---|---|---|
| Strings.WordsUnwords | preprocess.py:88 | splitting the `' '.join` of words gives the same words back |
| Strings.ParseDecimal | melodymaker.py:93 | `int(str(n)) == n` for every natural number `n` |
| Music.Symbol | preprocess.py:74-77 | an event's symbol is a pitch for a note and `r` for a rest, never `_` or `/` |
| Music.ParseText | preprocess.py:88 | every token is read back from its string form, so distinct tokens have distinct strings |
| Vocabulary.Lookup | preprocess.py:162 | `mappings[s]` finds an id exactly when `s` is a key, and the entry `(s, id)` is in the dict |
| Vocabulary.KeyOfMeaning | melodymaker.py:49-50 | the reverse lookup finds nothing (IndexError) exactly when no entry has the id; otherwise the found key's entry has that id |
| Vocabulary.MapSymbolsMeaning | preprocess.py:159-162 | mapping tokens to ids succeeds exactly when every token is a key; the result has one id per token, that token's id; otherwise KeyError names the first missing token |
| Vocabulary.VocabularyBijection | preprocess.py:141-146 | for a duplicate-free dict with ids 0..n-1: looking up a key and resolving its id back gives the key; an id resolves exactly when it is below n, and looks back up to itself |
| Vocabulary.KeyOfUnique | melodymaker.py:49-50 | when no two entries share an id, the key found for an id is the only key with that id |
| Preprocess.HasAcceptableDurations | preprocess.py:38-42 | true exactly when every event's duration is acceptable (so an empty song passes); the loop returns false at the first event that is not |
| Preprocess.EncodeSong | preprocess.py:69-89 | the nested append loops produce the space-joined string forms of `Encoding`: each event's block, symbol first and then holds, `int(d / time_step)` tokens per event, in event order |
| Preprocess.EncodingLength | preprocess.py:80-85 | the encoding has as many tokens as the events' step counts add up to |
| Preprocess.EncodingAt | preprocess.py:74-85 | the block of event `i` starts after the steps of the events before it; its first token is the event's symbol and the rest are holds |
| Preprocess.EncodingConcat | preprocess.py:72-85 | encoding a concatenation of songs concatenates their encodings |
| Preprocess.ShortEventVanishes | preprocess.py:80-81 | an event shorter than one time step contributes no tokens |
| Preprocess.EncodeQuarterNote | preprocess.py:70 | pitch 60 lasting a quarter note at time step 0.25 encodes to `60 _ _ _` |
| Preprocess.WordsOfDelimiters | preprocess.py:123 | `'/ ' * n` splits into `n` delimiter tokens |
| Preprocess.CreateSingleFileDataset | preprocess.py:121-135 | no files gives `""`; otherwise the result plus one space is the accumulated string, so only the single trailing space is trimmed; its tokens are, for each song in order, the song's tokens followed by `sequence_length` delimiters |
| Preprocess.CreateMapping | preprocess.py:138-146 | the keys are exactly the distinct tokens of the stream, no key repeats, entry `i` has id `i`, and there are as many entries as distinct tokens |
| Preprocess.ConvertSongsToInt | preprocess.py:153-163 | the append loop yields the token-by-token id list of the split stream, or KeyError at the first token without an id |
| Preprocess.TrainingWindows | preprocess.py:176-179 | `max(0, len - L)` windows; window `i` is `ids[i:i+L]` and its target is `ids[i+L]` |
| Preprocess.GeneratingTrainingSequences | preprocess.py:166-179 | fails exactly when some token of the stream has no id, with the first such token; otherwise returns the windows over the stream's ids |
| Melody.TruncateWindow | melodymaker.py:32 | `seed[-max_sequence_length:]` is a suffix of the context of length `min(max, len)` for a positive maximum; the whole context for 0; `max(0, len + max)` for a negative maximum |
| Melody.MelodyMaker.constructor | melodymaker.py:18 | the start symbols are `SEQUENCE_LENGTH` copies of `/` |
| Melody.MelodyMaker.GenerateMelody | melodymaker.py:20-59 | the loop with truncation, one-hot range check, append and `break` computes `Generated`: the start symbols and seed mapped to ids, then the iterations of `Run`, each failing with IndexError on a context id not below the mapping's size or on an id with no key |
| Melody.InitialContext | melodymaker.py:25-28 | the initial context is the id of `/` once per start symbol followed by the seed tokens' ids; a missing `/` or seed token is KeyError |
| Melody.MapSymbolsConcat | melodymaker.py:28 | mapping a concatenation of token lists to ids concatenates the id lists, or fails with the first failure |
| Melody.GeneratedShape | melodymaker.py:23-59 | a KeyError on the initial context is returned as is; a successful melody starts with the seed tokens unchanged, has at most `num_steps` tokens after them, and none of those is `/` |
| Melody.GeneratedFullLength | melodymaker.py:30-57 | when `/` is never drawn, a successful melody has exactly `len(seed) + num_steps` tokens |
| Melody.RunShape | melodymaker.py:30-57 | the melody so far is kept as a prefix and never gets `/`; there are at most `num_steps` predictor calls, fewer only when the run stopped on `/`; every other call appends one token |
| Melody.RunWindows | melodymaker.py:32-46 | the first window is the truncated initial context; each next window is the truncation of the previous window with the id drawn from it appended |
| Melody.RunSymbols | melodymaker.py:46-57 | each appended token is the key of the id drawn at its iteration, and the run keeps the melody so far as a prefix |
| Melody.RunStopsOnDelimiter | melodymaker.py:53-54 | a run that stopped early drew the id of `/` at its last iteration |
| Melody.RunTotal | melodymaker.py:32-50 | with ids 0..n-1, a context of ids below n and an oracle that draws ids below n, neither the one-hot encoding nor the reverse lookup fails |
| Melody.GeneratedTotal | melodymaker.py:25-59 | with ids 0..n-1, start symbols and seed that all have ids, and an oracle that draws ids below n, `generate_melody` succeeds |
| Melody.OneHotBeyondClasses | melodymaker.py:35-36 | with the mapping `{'/': 0, '60': 5}`, seed `60` and a sampler drawing 5, the first `to_categorical` raises IndexError |
| Melody.MelodyMaker.SaveMelody | melodymaker.py:71-104 | the loop over `start_symbol`, `step_counter` and the stream computes `Decode`: the events it appends, or the ValueError of `int(symbol)` |
| Melody.DecodeCount | melodymaker.py:81-100 | the number of emitted events is the number of positions whose token is not `_` or that are last, minus one |
| Melody.DecodeIgnoresLastToken | melodymaker.py:81-100 | the token at the last position only becomes `start_symbol` and is never emitted: replacing it does not change the result |
| Melody.DecodeLeadingHolds | melodymaker.py:77-104 | leading `_` tokens raise `step_counter` before any symbol and are not reset, so each lengthens the first event by one step |
| Melody.DecodeDurations | melodymaker.py:84-99 | every emitted event lasts `step_duration * step_counter` with a step count of at least 1; kinds and errors do not depend on the step duration |
| Melody.DecodeExamples | melodymaker.py:79-104 | `60 _ _ r` decodes to one note of 3 steps (the rest is lost); `60 _ _` decodes to a note of 2 steps (the trailing hold is not counted); `/ 60 _` raises ValueError on `/` |
| RoundTrip.SymbolText | melodymaker.py:86-94 | the string form of an event's symbol is never `_`, and the decoder turns it back into that event's kind |
| RoundTrip.DecodeLastEvent | melodymaker.py:81-84 | the holds of the last block are emitted with one step fewer than the block has, or not at all after a one-step block |
| RoundTrip.DecodeAfterSymbol | melodymaker.py:79-104 | from the state after reading an event's symbol, decoding the rest of the encoding recovers that event and the ones after it |
| RoundTrip.EncodeDecode | melodymaker.py:79-104 | decoding the encoding of events of at least one step each, at the encoding's time step, gives every event but the last with its duration rounded down to whole steps, then the last event shortened by one step, or nothing if that event was one step long |
| RoundTrip.EncodedLineDecodes | preprocess.py:88 | the same starting from the line `encode_song` returns, split into tokens |
| RoundTrip.FilteredSongRoundTrip | preprocess.py:38-42 | a non-empty song whose durations all pass the filter, encoded and decoded at 0.25, comes back exactly except its last event, which is one sixteenth shorter, or gone if it was one sixteenth long |

## Left out

- `train.py`: Keras model construction and training. It has no token logic.
- `load_songs_in_kern`, `transpose` and music21 parsing: events are taken as input, already
  parsed and transposed.
- The `preprocess` driver loop (preprocess.py:92-112) is not modelled. It only chains the filter,
  `transpose`, `encode_song` and a file write per song.
- File and JSON I/O:
  - `load`, the file writes and `json.dump` / `json.load`: the mapping is a parameter;
  - `stream.write` (melodymaker.py:107): `SaveMelody` returns the events it would append;
  - the `os.walk` order: the song files' contents are a sequence.
- JSON keeps a dict's insertion order, so the dict `generate_melody` loads is the one
  `create_mapping` built.
- `_sample_with_temperature`, `model.predict` and the `temperature` parameter: floating point and
  randomness. They are the oracle `predictAndSample`.
- The one-hot arrays that `keras.utils.to_categorical` and `np.array` build (preprocess.py:182-185,
  melodymaker.py:35-37) are input for the network, which the oracle stands in for. In generation
  only the range check that can make `to_categorical` fail is modelled (`InClasses`).
- Float durations: durations are exact sixteenths. Floating-point rounding in
  `in acceptable_durations` and in `duration / time_step` is not modelled. Neither are durations
  that are not whole sixteenths, such as triplets.
- Chords and other elements of `notesAndRests` that are neither a note nor a rest are not
  modelled. In the source, `encode_song` reuses the previous symbol for them, or raises when one
  comes first.
- Preprocess.EncodeSong: requires `timeStep > 0`. A time step of 0 raises ZeroDivisionError in
  the source, and that error is not modelled.
- `Strings.Words` splits only at ASCII whitespace; Python's `str.split()` also splits at Unicode
  whitespace. `Strings.ParseNat` accepts only plain ASCII digit strings,
  not signs, underscores, surrounding spaces or non-ASCII digits. A generation symbol in one of
  those forms is reported as a ValueError where Python would parse it.
- Melody.MelodyMaker.GenerateMelody: `num_steps` is a natural number. A negative `num_steps`
  makes zero iterations in Python, which is the same as 0.
- Preprocess.GeneratingTrainingSequences: the one-hot encoding of the windows with
  `num_classes = len(set(int_songs))` (preprocess.py:182-184) is not modelled. It raises
  `IndexError` when an id of the stream is not below the number of distinct ids, which a mapping
  not built from this same stream can cause. The method returns the windows of ids.
