/**
 * The token-to-id mapping. A Python dict keeps its insertion order, and the
 * generator's reverse lookup depends on that order, so the mapping is the
 * sequence of its entries in that order.
 */
module Vocabulary {
  import opened Wrappers

  datatype Entry = Entry(symbol: string, id: nat)

  type Mapping = seq<Entry>

  /**
   * The errors of working with ids: `mappings[token]` raising KeyError,
   * `[...][0]` raising IndexError, and `to_categorical` raising IndexError
   * on an id that is not below `num_classes`, the size of the mapping.
   */
  datatype LookupError = UnknownToken(token: string) | UnknownId(id: nat) | ClassOutOfRange

  /** The keys of the mapping. */
  function Symbols(m: Mapping): set<string> {
    set e | e in m :: e.symbol
  }

  /** No key appears twice, as in every dict. */
  predicate DistinctSymbols(m: Mapping) {
    forall i, j :: 0 <= i < j < |m| ==> m[i].symbol != m[j].symbol
  }

  /** The ids are 0, 1, ..., |m| - 1 in insertion order, as `create_mapping` assigns them. */
  predicate Dense(m: Mapping) {
    forall i :: 0 <= i < |m| ==> m[i].id == i
  }

  /** `mappings[s]`: the id of the first entry whose key is `s`, or none. */
  function Lookup(m: Mapping, s: string): (r: Option<nat>)
    ensures r.Some? <==> s in Symbols(m)
    ensures r.Some? ==> Entry(s, r.value) in m
  {
    if m == [] then None
    else if m[0].symbol == s then Some(m[0].id)
    else Lookup(m[1..], s)
  }

  /** `[k for k, v in mappings.items() if v == id][0]`: the key of the first entry with that id, or none. */
  function KeyOf(m: Mapping, id: nat): Option<string> {
    if m == [] then None
    else if m[0].id == id then Some(m[0].symbol)
    else KeyOf(m[1..], id)
  }

  /** The reverse lookup finds nothing exactly when no entry has the id; otherwise it finds an entry with that id. */
  lemma {:induction false} KeyOfMeaning(m: Mapping, id: nat)
    ensures KeyOf(m, id).None? <==> forall i :: 0 <= i < |m| ==> m[i].id != id
    ensures KeyOf(m, id).Some? ==> Entry(KeyOf(m, id).value, id) in m
  {
    if m != [] && m[0].id != id {
      KeyOfMeaning(m[1..], id);
      assert forall i :: 1 <= i < |m| ==> m[i] == m[1..][i - 1];
    }
  }

  /**
   * `[mappings[s] for s in ws]`: the ids of the tokens in order, or KeyError
   * at the first token that is not a key.
   */
  function MapSymbols(m: Mapping, ws: seq<string>): Result<seq<nat>, LookupError> {
    if ws == [] then Ok([])
    else match Lookup(m, ws[0])
      case None => Err(UnknownToken(ws[0]))
      case Some(v) =>
        match MapSymbols(m, ws[1..])
        case Err(e) => Err(e)
        case Ok(rest) => Ok([v] + rest)
  }

  /**
   * The comprehension succeeds exactly when every token is a key; then it
   * has one id per token, that token's id; otherwise it fails at the first
   * token that is not a key.
   */
  lemma {:induction false} MapSymbolsMeaning(m: Mapping, ws: seq<string>)
    ensures MapSymbols(m, ws).Ok? <==> forall k :: 0 <= k < |ws| ==> Lookup(m, ws[k]).Some?
    ensures MapSymbols(m, ws).Ok? ==>
              |MapSymbols(m, ws).value| == |ws| && forall k :: 0 <= k < |ws| ==> Lookup(m, ws[k]) == Some(MapSymbols(m, ws).value[k])
    ensures MapSymbols(m, ws).Err? ==>
              exists k :: 0 <= k < |ws| && MapSymbols(m, ws).error == UnknownToken(ws[k]) && Lookup(m, ws[k]).None?
                          && forall j :: 0 <= j < k ==> Lookup(m, ws[j]).Some?
  {
    if ws != [] {
      MapSymbolsMeaning(m, ws[1..]);
      var r := MapSymbols(m, ws[1..]);
      if Lookup(m, ws[0]).Some? {
        if r.Err? {
          var k :| 0 <= k < |ws[1..]| && r.error == UnknownToken(ws[1..][k]) && Lookup(m, ws[1..][k]).None?
                   && forall j :: 0 <= j < k ==> Lookup(m, ws[1..][j]).Some?;
          assert ws[k + 1] == ws[1..][k];
          assert forall j :: 0 <= j < k + 1 ==> Lookup(m, ws[j]).Some? by {
            forall j | 0 <= j < k + 1 ensures Lookup(m, ws[j]).Some? {
              if j > 0 { assert ws[j] == ws[1..][j - 1]; }
            }
          }
        } else {
          forall k | 0 <= k < |ws| ensures Lookup(m, ws[k]) == Some(MapSymbols(m, ws).value[k]) {
            if k > 0 { assert ws[k] == ws[1..][k - 1]; }
          }
        }
      }
    }
  }

  lemma {:induction false} LookupAt(m: Mapping, i: nat)
    requires DistinctSymbols(m) && i < |m|
    ensures Lookup(m, m[i].symbol) == Some(m[i].id)
  {
    if i > 0 {
      assert m[0].symbol != m[i].symbol;
      LookupAt(m[1..], i - 1);
    }
  }

  lemma {:induction false} KeyOfDense(m: Mapping, i: nat, offset: nat)
    requires forall j :: 0 <= j < |m| ==> m[j].id == offset + j
    requires i < |m|
    ensures KeyOf(m, offset + i) == Some(m[i].symbol)
  {
    if i > 0 {
      KeyOfDense(m[1..], i - 1, offset + 1);
    }
  }

  /**
   * A vocabulary built by `create_mapping` is a bijection between its keys
   * and 0..|m|-1: looking a key up and resolving the id back gives the key,
   * and every id in range resolves to the one key that has it.
   */
  lemma VocabularyBijection(m: Mapping)
    requires DistinctSymbols(m) && Dense(m)
    ensures forall s :: Lookup(m, s).Some? ==> Lookup(m, s).value < |m| && KeyOf(m, Lookup(m, s).value) == Some(s)
    ensures forall id: nat :: id < |m| <==> KeyOf(m, id).Some?
    ensures forall id: nat :: id < |m| ==> Lookup(m, KeyOf(m, id).value) == Some(id)
  {
    forall s | Lookup(m, s).Some?
      ensures Lookup(m, s).value < |m| && KeyOf(m, Lookup(m, s).value) == Some(s)
    {
      LookupThenKeyOf(m, s);
    }
    forall id: nat | id < |m|
      ensures KeyOf(m, id).Some? && Lookup(m, KeyOf(m, id).value) == Some(id)
    {
      KeyOfDense(m, id, 0);
      LookupAt(m, id);
    }
    forall id: nat | id >= |m| ensures KeyOf(m, id).None? {
      KeyOfBeyond(m, id);
    }
  }

  lemma LookupThenKeyOf(m: Mapping, s: string)
    requires Dense(m) && Lookup(m, s).Some?
    ensures Lookup(m, s).value < |m| && KeyOf(m, Lookup(m, s).value) == Some(s)
  {
    var i :| 0 <= i < |m| && m[i] == Entry(s, Lookup(m, s).value);
    KeyOfDense(m, i, 0);
  }

  lemma KeyOfBeyond(m: Mapping, id: nat)
    requires Dense(m) && id >= |m|
    ensures KeyOf(m, id).None?
  {
    KeyOfMeaning(m, id);
  }

  /** No two entries share an id. */
  predicate DistinctIds(m: Mapping) {
    forall i, j :: 0 <= i < j < |m| ==> m[i].id != m[j].id
  }

  /** When no two entries share an id, the key found for an id is the only key with that id. */
  lemma KeyOfUnique(m: Mapping, id: nat)
    requires DistinctIds(m)
    ensures KeyOf(m, id).Some? ==> forall i :: 0 <= i < |m| && m[i].id == id ==> m[i].symbol == KeyOf(m, id).value
  {
    KeyOfMeaning(m, id);
    if KeyOf(m, id).Some? {
      var k :| 0 <= k < |m| && m[k] == Entry(KeyOf(m, id).value, id);
      assert forall i :: 0 <= i < |m| && m[i].id == id ==> i == k;
    }
  }
}
