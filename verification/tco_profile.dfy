/**
  The TCO page's snapshot: exporting the session entries whose key starts
  with `tco_`, and loading a snapshot back by copying its `tco_` entries into
  the session. The session is a map from keys to values of any type; the JSON
  text in between is not modelled.
 */
module TcoProfile {

  const Prefix: string := "tco_"

  /** A key that belongs to the TCO profile. */
  predicate IsTcoKey(k: string) {
    |k| >= |Prefix| && k[..|Prefix|] == Prefix
  }

  /** The snapshot: exactly the session's `tco_` entries, with their values. */
  function Export<V>(store: map<string, V>): (m: map<string, V>)
    ensures forall k :: k in m <==> k in store && IsTcoKey(k)
    ensures forall k :: k in m ==> m[k] == store[k]
  {
    map k | k in store && IsTcoKey(k) :: store[k]
  }

  /** Loading: every `tco_` entry of the snapshot overwrites or adds to the
      session; every other session entry is left as it was, and any other
      entry of the snapshot is ignored. */
  function Import<V>(store: map<string, V>, loaded: map<string, V>): (s: map<string, V>)
    ensures forall k :: k in s <==> k in store || (k in loaded && IsTcoKey(k))
    ensures forall k :: k in loaded && IsTcoKey(k) ==> s[k] == loaded[k]
    ensures forall k :: k in store && !(k in loaded && IsTcoKey(k)) ==> s[k] == store[k]
  {
    store + Export(loaded)
  }

  /** The page's loop over the snapshot's entries in the order `keys` lists
      them, copying each `tco_` one into the session. */
  method LoadProfile<V>(store: map<string, V>, loaded: map<string, V>, keys: seq<string>)
    returns (s: map<string, V>)
    requires forall k :: k in loaded <==> k in keys
    ensures s == Import(store, loaded)
  {
    s := store;
    var i := 0;
    while i < |keys|
      invariant 0 <= i <= |keys|
      invariant forall k :: k in s <==> k in store || (k in keys[..i] && IsTcoKey(k))
      invariant forall k :: k in keys[..i] && IsTcoKey(k) ==> s[k] == loaded[k]
      invariant forall k :: k in store && !(k in keys[..i] && IsTcoKey(k)) ==> s[k] == store[k]
    {
      var k := keys[i];
      assert keys[..i + 1] == keys[..i] + [k];
      if IsTcoKey(k) {
        s := s[k := loaded[k]];
      }
      i := i + 1;
    }
    assert keys[..|keys|] == keys;
    SameMaps(s, Import(store, loaded));
  }

  /** Maps with the same keys and the same value at every key are equal. */
  lemma SameMaps<V>(a: map<string, V>, b: map<string, V>)
    requires forall k :: k in a <==> k in b
    requires forall k :: k in a ==> a[k] == b[k]
    ensures a == b
  {
  }

  /** Loading the session's own snapshot changes nothing. */
  lemma ImportOwnExport<V>(store: map<string, V>)
    ensures Import(store, Export(store)) == store
  {
    SameMaps(Import(store, Export(store)), store);
  }

  /** Loading the same snapshot twice is the same as loading it once. */
  lemma ImportIdempotent<V>(store: map<string, V>, loaded: map<string, V>)
    ensures Import(Import(store, loaded), loaded) == Import(store, loaded)
  {
    SameMaps(Import(Import(store, loaded), loaded), Import(store, loaded));
  }

  /** After loading, the session's snapshot holds the loaded `tco_` entries and,
      for every other `tco_` key, what the session held before. */
  lemma ExportAfterImport<V>(store: map<string, V>, loaded: map<string, V>)
    ensures Export(Import(store, loaded)) == Export(store) + Export(loaded)
  {
    SameMaps(Export(Import(store, loaded)), Export(store) + Export(loaded));
  }

  /** A snapshot loaded into a session whose `tco_` keys it covers reproduces
      itself: exporting again gives back the same snapshot. */
  lemma SnapshotRoundTrip<V>(other: map<string, V>, store: map<string, V>)
    requires forall k :: k in Export(other) ==> k in Export(store)
    ensures Export(Import(other, Export(store))) == Export(store)
  {
    ExportAfterImport(other, Export(store));
    SameMaps(Export(other) + Export(Export(store)), Export(store));
  }

  /** Loading never touches a key outside the profile. */
  lemma ImportKeepsOtherKeys<V>(store: map<string, V>, loaded: map<string, V>, k: string)
    requires !IsTcoKey(k)
    ensures k in Import(store, loaded) <==> k in store
    ensures k in store ==> Import(store, loaded)[k] == store[k]
  {
  }
}
