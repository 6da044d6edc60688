/** `pickBestAlbum`: choosing one album among the results of the soundtrack search. */
module Selector {
  import opened Wrappers
  import opened Text
  import opened Seqs
  import opened Catalog

  /** `a.collectionName || ""`. */
  function NameOrEmpty(a: Entry): string {
    match a.collectionName
    case None => ""
    case Some(name) => name
  }

  /** The album's lower-cased name contains the lower-cased movie name. */
  predicate Matches(movieName: string, a: Entry): (b: bool)
    ensures movieName == "" ==> b
    ensures b ==> |movieName| <= |NameOrEmpty(a)|
    ensures a.collectionName.None? ==> (b <==> movieName == "")
  {
    Contains(ToLower(NameOrEmpty(a)), ToLower(movieName))
  }

  /**
   * `pickBestAlbum`: the first album whose name contains the movie name, ignoring
   * case; failing that the first album; nothing for an empty list.
   */
  function PickBestAlbum(albums: seq<Entry>, movieName: string): (r: Option<Entry>)
    ensures r.None? <==> albums == []
    ensures r.Some? ==> r.value in albums
  {
    if |albums| == 0 then None
    else
      match FindIndex(albums, a => Matches(movieName, a))
      case Some(i) => Some(albums[i])
      case None => Some(albums[0])
  }

  /** When some album matches, the pick is the first matching album in list order. */
  lemma PickBestAlbumFirstMatch(albums: seq<Entry>, movieName: string, i: nat)
    requires i < |albums| && Matches(movieName, albums[i])
    requires forall j :: 0 <= j < i ==> !Matches(movieName, albums[j])
    ensures PickBestAlbum(albums, movieName) == Some(albums[i])
  {
    var f := FindIndex(albums, a => Matches(movieName, a));
    assert f.Some?;
    assert Matches(movieName, albums[f.value]);
  }

  /** When no album matches, the pick is the first album. */
  lemma PickBestAlbumFallsBackToFirst(albums: seq<Entry>, movieName: string)
    requires albums != []
    requires forall j :: 0 <= j < |albums| ==> !Matches(movieName, albums[j])
    ensures PickBestAlbum(albums, movieName) == Some(albums[0])
  {
    assert FindIndex(albums, a => Matches(movieName, a)).None?;
  }

  /** Matching is the substring relation between the lower-cased names. */
  lemma MatchesIffOccurs(movieName: string, a: Entry)
    ensures Matches(movieName, a) <==> OccursIn(ToLower(movieName), ToLower(NameOrEmpty(a)))
  {
    ContainsIffOccurs(ToLower(NameOrEmpty(a)), ToLower(movieName));
  }

  /** The pick ignores the case of the movie name. */
  lemma PickBestAlbumIgnoresCase(albums: seq<Entry>, m1: string, m2: string)
    requires ToLower(m1) == ToLower(m2)
    ensures PickBestAlbum(albums, m1) == PickBestAlbum(albums, m2)
  {
    if albums != [] {
      var f1 := FindIndex(albums, a => Matches(m1, a));
      var f2 := FindIndex(albums, a => Matches(m2, a));
      assert forall j :: 0 <= j < |albums| ==> (Matches(m1, albums[j]) <==> Matches(m2, albums[j]));
      if f1.Some? {
        assert Matches(m2, albums[f1.value]);
        assert f2.Some?;
        assert Matches(m1, albums[f2.value]);
      }
    }
  }
}
