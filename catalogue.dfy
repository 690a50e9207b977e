/**
 * The catalogue shared by every part of the setlist-guessing game:
 * the `{songs, artists, lives}` dataset as id-keyed records, and the
 * small helpers over sequences and optional JSON values that the rest
 * of the model uses.
 */
module Catalogue {

  datatype Option<T> = None | Some(value: T)

  /** Catalogue identifiers are JSON strings. */
  type Id = string

  /** A display name as the dataset stores it: `null` when the raw record had none. */
  type Name = Option<string>

  /** A song record: its name, English name and the ids of its credited artists. */
  datatype Song = Song(name: Name, englishName: Name, artistIds: seq<Id>)

  /** An artist record. */
  datatype Artist = Artist(name: Name, englishName: Name)

  /** A live (concert): its name, the songs of its setlist and the artists present. */
  datatype Live = Live(name: Name, songIds: seq<Id>, artistIds: seq<Id>)

  /** The dataset with exactly the three id-keyed tables `songs`, `artists` and `lives`. */
  datatype GameData = GameData(songs: map<Id, Song>, artists: map<Id, Artist>, lives: map<Id, Live>)

  /** Python truthiness of an optional string: present and non-empty. */
  predicate Truthy(s: Option<string>) {
    s.Some? && s.value != ""
  }

  /** The set of elements of a sequence. */
  function Elems<T>(s: seq<T>): set<T> {
    set x | x in s
  }

  /** No element occurs twice. */
  predicate Distinct<T(==)>(s: seq<T>) {
    forall i, j :: 0 <= i < j < |s| ==> s[i] != s[j]
  }

  /**
   * `list(s)` for a Python set: some duplicate-free enumeration of `s`.
   * The iteration order of a Python set is not part of the model.
   */
  method SetToList(s: set<Id>) returns (r: seq<Id>)
    ensures Elems(r) == s && Distinct(r)
  {
    r := [];
    var rest := s;
    while rest != {}
      invariant Elems(r) + rest == s
      invariant Elems(r) !! rest
      invariant Distinct(r)
      decreases rest
    {
      var x :| x in rest;
      r := r + [x];
      rest := rest - {x};
    }
  }

  /** `list(d.keys())` for a dict: an enumeration of the keys without duplicates. */
  method ListKeys<T>(m: map<Id, T>) returns (r: seq<Id>)
    ensures Elems(r) == m.Keys && Distinct(r)
  {
    r := SetToList(m.Keys);
  }
}
