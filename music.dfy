/**
 * The musical values shared by the encoder and the decoder: parsed events
 * and the tokens of the time-series representation, with their string form.
 * Durations are natural numbers in sixteenth notes (a quarterLength times 4),
 * so the default time step of 0.25 quarter lengths is 1.
 */
module Music {
  import opened Wrappers
  import opened Strings

  /** What a parsed event is: a note at a MIDI number, or a rest. */
  datatype Kind = Note(midi: nat) | Rest

  /** A note or rest with its duration in sixteenths. */
  datatype Event = Event(kind: Kind, duration: nat)

  /** One element of the time-series encoding. */
  datatype Token = Pitch(midi: nat) | RestMark | Hold | Delim

  const REST: string := "r"
  const HOLD: string := "_"
  const DELIM: string := "/"

  /** The symbol that starts an event's block: `pitch.midi` for a note, `'r'` for a rest. */
  function Symbol(k: Kind): (t: Token)
    ensures t != Hold && t != Delim
    ensures k.Note? <==> t.Pitch?
  {
    match k
    case Note(m) => Pitch(m)
    case Rest => RestMark
  }

  /** The string form of a token: `str(pitch)`, `"r"`, `"_"` or `"/"`. */
  function Text(t: Token): (s: string)
    ensures IsWord(s)
  {
    match t
    case Pitch(m) => DecimalIsWord(m); Decimal(m)
    case RestMark => REST
    case Hold => HOLD
    case Delim => DELIM
  }

  /** Reads a token back from its string form. */
  function ParseToken(s: string): Option<Token> {
    if s == REST then Some(RestMark)
    else if s == HOLD then Some(Hold)
    else if s == DELIM then Some(Delim)
    else match ParseNat(s)
      case Some(m) => Some(Pitch(m))
      case None => None
  }

  /** Every token is read back from its string form; so distinct tokens have distinct strings. */
  lemma ParseText(t: Token)
    ensures ParseToken(Text(t)) == Some(t)
  {
    if t.Pitch? {
      ParseDecimal(t.midi);
      var s := Decimal(t.midi);
      assert IsDigit(s[0]);
      assert s != REST && s != HOLD && s != DELIM;
    }
  }

  /** The string forms of a token list, as `map(str, ...)` gives them. */
  function Texts(ts: seq<Token>): (ws: seq<string>)
    ensures |ws| == |ts|
    ensures forall i :: 0 <= i < |ts| ==> ws[i] == Text(ts[i])
  {
    seq(|ts|, i requires 0 <= i < |ts| => Text(ts[i]))
  }

  /** `n` copies of `s`, as `[s] * n`. */
  function Repeat<T>(s: T, n: nat): (r: seq<T>)
    ensures |r| == n
    ensures forall i :: 0 <= i < n ==> r[i] == s
  {
    seq(n, _ => s)
  }
}
