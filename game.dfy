/**
 * The game engine of game.py: the catalogue loaded into a `LoveLiveGame`
 * object, the choice of the hidden target live, the feedback oracle for a
 * song/artist guess, the live guess, and name resolution.
 */
module Game {
  import opened Catalogue

  /** Feedback codes of a song/artist guess. */
  const Invalid: int := -1
  const NotPresent: int := 0
  const SongOnly: int := 1
  const SongAndArtist: int := 2

  /**
   * The feedback oracle: `Invalid` for a song outside the catalogue,
   * `NotPresent` for a song missing from the target's setlist, and for a
   * song on it `SongAndArtist` or `SongOnly` according to whether the
   * artist is among the live's aggregated artists. The song's own credits
   * are not consulted.
   */
  function Score(songs: map<Id, Song>, songId: Id, artistId: Id, target: Live): (code: int)
    ensures code == Invalid <==> songId !in songs
    ensures songId in songs && songId !in target.songIds ==> code == NotPresent
    ensures songId in songs && songId in target.songIds ==>
              (code == SongAndArtist <==> artistId in target.artistIds) &&
              (code == SongOnly <==> artistId !in target.artistIds)
    ensures songId in songs ==> NotPresent <= code <= SongAndArtist
  {
    if songId !in songs then Invalid
    else if songId in target.songIds then
      if artistId in target.artistIds then SongAndArtist else SongOnly
    else NotPresent
  }

  /**
   * The feedback depends on the song table only through its keys: two
   * catalogues that credit the same song to different artists score every
   * guess alike.
   */
  lemma ScoreIgnoresSongCredits(songs: map<Id, Song>, songs': map<Id, Song>, songId: Id, artistId: Id, target: Live)
    requires songs.Keys == songs'.Keys
    ensures Score(songs, songId, artistId, target) == Score(songs', songId, artistId, target)
  {
  }

  /** The name of a song, artist or live record. */
  function SongName(s: Song): Name { s.name }
  function ArtistName(a: Artist): Name { a.name }
  function LiveName(l: Live): Name { l.name }

  /**
   * The exact-name index `{r['name']: id for id, r in records.items()}`,
   * built in the order of `ids`; a later record with the same name
   * overrides an earlier one.
   */
  function NameIndex<T>(ids: seq<Id>, records: map<Id, T>, nameOf: T -> Name): (index: map<Name, Id>)
    requires forall i :: 0 <= i < |ids| ==> ids[i] in records
    ensures forall n :: n in index ==> index[n] in Elems(ids) && nameOf(records[index[n]]) == n
    ensures forall i :: 0 <= i < |ids| ==> nameOf(records[ids[i]]) in index
    decreases |ids|
  {
    if |ids| == 0 then map[]
    else
      var last := ids[|ids| - 1];
      NameIndex(ids[..|ids| - 1], records, nameOf)[nameOf(records[last]) := last]
  }

  /** Exact lookup first; otherwise the key the fuzzy matcher picked, if any. */
  function Resolve(index: map<Name, Id>, query: Name, fuzzy: Option<Name>): Option<Id>
    requires fuzzy.Some? ==> fuzzy.value in index
  {
    if query in index then Some(index[query])
    else if fuzzy.Some? then Some(index[fuzzy.value])
    else None
  }

  class LoveLiveGame {
    var lives: map<Id, Live>
    var songs: map<Id, Song>
    var artists: map<Id, Artist>

    var liveIds: seq<Id>
    var songIds: seq<Id>
    var artistIds: seq<Id>

    var targetLiveId: Option<Id>
    var targetLive: Option<Live>

    var songNameMap: map<Name, Id>
    var artistNameMap: map<Name, Id>
    var liveNameMap: map<Name, Id>

    /**
     * The id lists enumerate the keys of their tables, each name map sends
     * every name in use to a record with that name, and the target live
     * record, once chosen, is the catalogue's record for the target id.
     */
    ghost predicate Valid()
      reads this
    {
      && Elems(liveIds) == lives.Keys && Distinct(liveIds)
      && Elems(songIds) == songs.Keys && Distinct(songIds)
      && Elems(artistIds) == artists.Keys && Distinct(artistIds)
      && (forall n {:trigger songNameMap[n]} :: n in songNameMap ==> songNameMap[n] in songs && songs[songNameMap[n]].name == n)
      && (forall id :: id in songs ==> songs[id].name in songNameMap)
      && (forall n {:trigger artistNameMap[n]} :: n in artistNameMap ==> artistNameMap[n] in artists && artists[artistNameMap[n]].name == n)
      && (forall id :: id in artists ==> artists[id].name in artistNameMap)
      && (forall n {:trigger liveNameMap[n]} :: n in liveNameMap ==> liveNameMap[n] in lives && lives[liveNameMap[n]].name == n)
      && (forall id :: id in lives ==> lives[id].name in liveNameMap)
      && (targetLiveId.Some? <==> targetLive.Some?)
      && (targetLiveId.Some? ==> targetLiveId.value in lives && targetLive.value == lives[targetLiveId.value])
    }

    /** Loads the catalogue; no target is chosen yet. */
    constructor (data: GameData)
      ensures Valid()
      ensures lives == data.lives && songs == data.songs && artists == data.artists
      ensures targetLiveId == None && targetLive == None
    {
      var lids := ListKeys(data.lives);
      var sids := ListKeys(data.songs);
      var aids := ListKeys(data.artists);
      lives, songs, artists := data.lives, data.songs, data.artists;
      liveIds, songIds, artistIds := lids, sids, aids;
      targetLiveId, targetLive := None, None;
      songNameMap := NameIndex(sids, data.songs, SongName);
      artistNameMap := NameIndex(aids, data.artists, ArtistName);
      liveNameMap := NameIndex(lids, data.lives, LiveName);
    }

    /**
     * Fixes the target: the requested id when it is a non-empty key of
     * `lives`, otherwise some element of `liveIds`. With no lives at all the
     * random choice fails and the state is left as it was (`None`).
     */
    method StartGame(targetId: Option<Id>) returns (r: Option<Id>)
      requires Valid()
      modifies this`targetLiveId, this`targetLive
      ensures Valid()
      ensures Truthy(targetId) && targetId.value in lives ==> r == targetId
      ensures !(Truthy(targetId) && targetId.value in lives) && |liveIds| > 0 ==> r.Some? && r.value in liveIds
      ensures !(Truthy(targetId) && targetId.value in lives) && |liveIds| == 0 ==>
                r == None && targetLiveId == old(targetLiveId) && targetLive == old(targetLive)
      ensures r.Some? ==> targetLiveId == r && targetLive == Some(lives[r.value])
    {
      if Truthy(targetId) && targetId.value in lives {
        targetLiveId := targetId;
      } else if |liveIds| == 0 {
        return None;
      } else {
        assert liveIds[0] in liveIds;
        var t :| t in liveIds;
        targetLiveId := Some(t);
      }
      targetLive := Some(lives[targetLiveId.value]);
      r := targetLiveId;
    }

    /**
     * A song/artist guess against the current target. A song outside the
     * catalogue is `Invalid` even before a target is chosen; any other guess
     * needs the target record.
     */
    function GuessSong(songId: Id, artistId: Id): (code: int)
      reads this
      requires songId !in songs || targetLive.Some?
      ensures songId !in songs ==> code == Invalid
      ensures targetLive.Some? ==> code == Score(songs, songId, artistId, targetLive.value)
    {
      if songId !in songs then Invalid else Score(songs, songId, artistId, targetLive.value)
    }

    /** A live guess is right exactly when it names the target. */
    function GuessLive(liveId: Id): (correct: bool)
      reads this
      ensures correct <==> targetLiveId == Some(liveId)
    {
      targetLiveId == Some(liveId)
    }

    /**
     * Resolves a song name: when some song carries exactly `query` as its
     * name, the result is a song with that name; otherwise the fuzzy
     * matcher's pick (`fuzzy`, a name in the index) or `None`.
     */
    function FindSongId(query: Name, fuzzy: Option<Name>): (r: Option<Id>)
      reads this
      requires Valid()
      requires fuzzy.Some? ==> fuzzy.value in songNameMap
      ensures (exists id :: id in songs && songs[id].name == query) ==>
                r.Some? && r.value in songs && songs[r.value].name == query
      ensures r.Some? ==> r.value in songs
      ensures !(exists id :: id in songs && songs[id].name == query) && fuzzy.None? ==> r == None
    {
      Resolve(songNameMap, query, fuzzy)
    }

    /** Resolves an artist name, as `FindSongId` does for songs. */
    function FindArtistId(query: Name, fuzzy: Option<Name>): (r: Option<Id>)
      reads this
      requires Valid()
      requires fuzzy.Some? ==> fuzzy.value in artistNameMap
      ensures (exists id :: id in artists && artists[id].name == query) ==>
                r.Some? && r.value in artists && artists[r.value].name == query
      ensures r.Some? ==> r.value in artists
      ensures !(exists id :: id in artists && artists[id].name == query) && fuzzy.None? ==> r == None
    {
      Resolve(artistNameMap, query, fuzzy)
    }

    /** Resolves a live name, as `FindSongId` does for songs. */
    function FindLiveId(query: Name, fuzzy: Option<Name>): (r: Option<Id>)
      reads this
      requires Valid()
      requires fuzzy.Some? ==> fuzzy.value in liveNameMap
      ensures (exists id :: id in lives && lives[id].name == query) ==>
                r.Some? && r.value in lives && lives[r.value].name == query
      ensures r.Some? ==> r.value in lives
      ensures !(exists id :: id in lives && lives[id].name == query) && fuzzy.None? ==> r == None
    {
      Resolve(liveNameMap, query, fuzzy)
    }
  }
}
