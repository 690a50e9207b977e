/**
 * The dataset builder of preprocess.py: parsed raw song, artist,
 * performance and setlist records become the `{songs, artists, lives}`
 * catalogue. Reading and writing the JSON files is not modelled; the
 * inputs are the already-parsed records.
 */
module Preprocess {
  import opened Catalogue

  /** One entry of a raw song's `artists` list; `id` is `None` when absent or null. */
  datatype RawCredit = RawCredit(id: Option<string>)

  /** A raw song; a missing `artists` list is the empty sequence. */
  datatype RawSong = RawSong(id: Id, name: Name, englishName: Name, artists: seq<RawCredit>)

  datatype RawArtist = RawArtist(id: Id, name: Name, englishName: Name)

  /** A performance-info record; a missing or falsy `hasSetlist` is `false`. */
  datatype RawLiveInfo = RawLiveInfo(id: Id, name: Name, hasSetlist: bool)

  /** One setlist item, with its optional `type` and `songId`. */
  datatype RawItem = RawItem(itemType: Option<string>, songId: Option<string>)

  /** A setlist; a missing `items` list is the empty sequence. */
  datatype RawSetlist = RawSetlist(items: seq<RawItem>)

  /**
   * A dict filled row by row with `table[key(row)] = value(row)`: a later
   * row with the same key overrides an earlier one.
   */
  function Table<R, V>(rows: seq<R>, keyOf: R -> Id, valueOf: R -> V): (t: map<Id, V>)
    ensures t.Keys == set i | 0 <= i < |rows| :: keyOf(rows[i])
    decreases |rows|
  {
    if |rows| == 0 then map[]
    else
      var last := rows[|rows| - 1];
      Table(rows[..|rows| - 1], keyOf, valueOf)[keyOf(last) := valueOf(last)]
  }

  /** The entry of a key is the value of the LAST row carrying that key. */
  lemma {:induction false} TableLastWins<R, V>(rows: seq<R>, keyOf: R -> Id, valueOf: R -> V, i: nat)
    requires i < |rows|
    requires forall k :: i < k < |rows| ==> keyOf(rows[k]) != keyOf(rows[i])
    ensures keyOf(rows[i]) in Table(rows, keyOf, valueOf)
    ensures Table(rows, keyOf, valueOf)[keyOf(rows[i])] == valueOf(rows[i])
    decreases |rows|
  {
    if i < |rows| - 1 {
      var prefix := rows[..|rows| - 1];
      assert forall k :: i < k < |prefix| ==> prefix[k] == rows[k];
      TableLastWins(prefix, keyOf, valueOf, i);
      assert prefix[i] == rows[i];
    }
  }

  function RawArtistId(a: RawArtist): Id { a.id }
  function RawSongId(s: RawSong): Id { s.id }

  /** The artist record kept for a raw artist. */
  function ArtistRecord(a: RawArtist): Artist {
    Artist(a.name, a.englishName)
  }

  /** The credited artist ids of a song: the truthy `id`s, in their original order. */
  function CreditedIds(credits: seq<RawCredit>): (ids: seq<Id>)
    ensures |ids| <= |credits|
    ensures forall x :: x in ids <==> exists i :: 0 <= i < |credits| && Truthy(credits[i].id) && credits[i].id.value == x
    decreases |credits|
  {
    if |credits| == 0 then []
    else
      var last := credits[|credits| - 1];
      CreditedIds(credits[..|credits| - 1]) + (if Truthy(last.id) then [last.id.value] else [])
  }

  /** Filtering the credits commutes with concatenation, so the original order is kept. */
  lemma {:induction false} CreditedIdsAppend(a: seq<RawCredit>, b: seq<RawCredit>)
    ensures CreditedIds(a + b) == CreditedIds(a) + CreditedIds(b)
    decreases |b|
  {
    if |b| > 0 {
      var b' := b[..|b| - 1];
      assert (a + b)[..|a + b| - 1] == a + b';
      CreditedIdsAppend(a, b');
    } else {
      assert a + b == a;
    }
  }

  /** The song record kept for a raw song. */
  function SongRecord(s: RawSong): Song {
    Song(s.name, s.englishName, CreditedIds(s.artists))
  }

  /**
   * `{l['id']: l for l in lives_info if l.get('hasSetlist')}`: the latest
   * performance record with a truthy `hasSetlist` for each id.
   */
  function SetlistInfos(infos: seq<RawLiveInfo>): (t: map<Id, RawLiveInfo>)
    ensures forall id :: id in t ==> t[id] in infos && t[id].id == id && t[id].hasSetlist
    ensures forall i :: 0 <= i < |infos| && infos[i].hasSetlist ==> infos[i].id in t
    decreases |infos|
  {
    if |infos| == 0 then map[]
    else
      var last := infos[|infos| - 1];
      var t := SetlistInfos(infos[..|infos| - 1]);
      if last.hasSetlist then t[last.id := last] else t
  }

  /** The song ids of a setlist, in order: the truthy `songId` of every item of type `song`. */
  function SetlistSongIds(items: seq<RawItem>): (ids: seq<Id>)
    ensures forall x :: x in ids <==>
              exists i :: 0 <= i < |items| && items[i].itemType == Some("song") &&
                          Truthy(items[i].songId) && items[i].songId.value == x
    decreases |items|
  {
    if |items| == 0 then []
    else
      var last := items[|items| - 1];
      SetlistSongIds(items[..|items| - 1]) +
        (if last.itemType == Some("song") && Truthy(last.songId) then [last.songId.value] else [])
  }

  /** The artists of a live: the union of the credits of its songs that are in the song table. */
  function LiveArtists(songMap: map<Id, Song>, songIds: seq<Id>): (artists: set<Id>)
    ensures forall a :: a in artists <==>
              exists i :: 0 <= i < |songIds| && songIds[i] in songMap && a in songMap[songIds[i]].artistIds
    decreases |songIds|
  {
    if |songIds| == 0 then {}
    else
      var last := songIds[|songIds| - 1];
      LiveArtists(songMap, songIds[..|songIds| - 1]) +
        (if last in songMap then Elems(songMap[last].artistIds) else {})
  }

  /** A setlist entry becomes a live when its performance record has a setlist and it names a song. */
  predicate Kept(setlists: map<Id, RawSetlist>, infos: map<Id, RawLiveInfo>, id: Id) {
    id in setlists && id in infos && |SetlistSongIds(setlists[id].items)| > 0
  }

  /** What a processed live holds: its name, its distinct songs and the distinct artists of those songs. */
  ghost predicate BuiltFrom(live: Live, info: RawLiveInfo, items: seq<RawItem>, songMap: map<Id, Song>) {
    && live.name == info.name
    && Elems(live.songIds) == Elems(SetlistSongIds(items)) && Distinct(live.songIds)
    && Elems(live.artistIds) == LiveArtists(songMap, SetlistSongIds(items)) && Distinct(live.artistIds)
  }

  /** The song ids of a setlist, collected item by item. */
  method CollectSetlistSongs(items: seq<RawItem>) returns (liveSongIds: seq<Id>)
    ensures liveSongIds == SetlistSongIds(items)
  {
    liveSongIds := [];
    for j := 0 to |items|
      invariant liveSongIds == SetlistSongIds(items[..j])
    {
      assert items[..j + 1][..j] == items[..j];
      var item := items[j];
      if item.itemType == Some("song") {
        var sid := item.songId;
        if Truthy(sid) {
          liveSongIds := liveSongIds + [sid.value];
        }
      }
    }
    assert items[..|items|] == items;
  }

  /** The artist set of a live, gathered song by song and credit by credit. */
  method CollectLiveArtists(songMap: map<Id, Song>, liveSongIds: seq<Id>) returns (liveArtistIds: set<Id>)
    ensures liveArtistIds == LiveArtists(songMap, liveSongIds)
  {
    liveArtistIds := {};
    for k := 0 to |liveSongIds|
      invariant liveArtistIds == LiveArtists(songMap, liveSongIds[..k])
    {
      assert liveSongIds[..k + 1][..k] == liveSongIds[..k];
      var sid := liveSongIds[k];
      if sid in songMap {
        var credits := songMap[sid].artistIds;
        for m := 0 to |credits|
          invariant liveArtistIds == LiveArtists(songMap, liveSongIds[..k]) + Elems(credits[..m])
        {
          assert Elems(credits[..m + 1]) == Elems(credits[..m]) + {credits[m]};
          liveArtistIds := liveArtistIds + {credits[m]};
        }
        assert credits[..|credits|] == credits;
      }
    }
    assert liveSongIds[..|liveSongIds|] == liveSongIds;
  }

  /**
   * Builds the catalogue. Every raw artist and song id gets one record (the
   * last row wins); a setlist becomes a live exactly when its performance
   * record has a setlist and it names at least one song, and the live then
   * holds those songs without duplicates and the union of their credited
   * artists.
   */
  method BuildGameData(artists: seq<RawArtist>, songs: seq<RawSong>, livesInfo: seq<RawLiveInfo>,
                       setlists: map<Id, RawSetlist>)
    returns (data: GameData)
    ensures data.artists == Table(artists, RawArtistId, ArtistRecord)
    ensures data.songs == Table(songs, RawSongId, SongRecord)
    ensures forall id :: id in data.lives <==> Kept(setlists, SetlistInfos(livesInfo), id)
    ensures forall id :: id in data.lives ==>
              Kept(setlists, SetlistInfos(livesInfo), id) &&
              BuiltFrom(data.lives[id], SetlistInfos(livesInfo)[id], setlists[id].items, data.songs)
  {
    var artistMap: map<Id, Artist> := map[];
    for i := 0 to |artists|
      invariant artistMap == Table(artists[..i], RawArtistId, ArtistRecord)
    {
      assert artists[..i + 1][..i] == artists[..i];
      var artist := artists[i];
      artistMap := artistMap[artist.id := Artist(artist.name, artist.englishName)];
    }
    assert artists[..|artists|] == artists;

    var songMap: map<Id, Song> := map[];
    for i := 0 to |songs|
      invariant songMap == Table(songs[..i], RawSongId, SongRecord)
    {
      assert songs[..i + 1][..i] == songs[..i];
      var song := songs[i];
      songMap := songMap[song.id := Song(song.name, song.englishName, CreditedIds(song.artists))];
    }
    assert songs[..|songs|] == songs;

    var valid := SetlistInfos(livesInfo);
    var processed: map<Id, Live> := map[];
    var remaining := setlists.Keys;
    while remaining != {}
      invariant remaining <= setlists.Keys
      invariant forall id :: id in processed <==> id !in remaining && Kept(setlists, valid, id)
      invariant forall id :: id in processed ==> BuiltFrom(processed[id], valid[id], setlists[id].items, songMap)
      decreases remaining
    {
      var liveId :| liveId in remaining;
      remaining := remaining - {liveId};
      if liveId !in valid {
        continue;
      }
      var liveName := valid[liveId].name;
      var liveSongIds := CollectSetlistSongs(setlists[liveId].items);
      if |liveSongIds| == 0 {
        continue;
      }
      var liveArtistIds := CollectLiveArtists(songMap, liveSongIds);
      var songList := SetToList(Elems(liveSongIds));
      var artistList := SetToList(liveArtistIds);
      processed := processed[liveId := Live(liveName, songList, artistList)];
    }
    data := GameData(songMap, artistMap, processed);
  }

  /** Every live of the catalogue has a non-empty setlist. */
  lemma LivesHaveSongs(data: GameData, livesInfo: seq<RawLiveInfo>, setlists: map<Id, RawSetlist>, id: Id)
    requires id in data.lives
    requires Kept(setlists, SetlistInfos(livesInfo), id)
    requires BuiltFrom(data.lives[id], SetlistInfos(livesInfo)[id], setlists[id].items, data.songs)
    ensures |data.lives[id].songIds| > 0
  {
    var qualifying := SetlistSongIds(setlists[id].items);
    assert qualifying[0] in Elems(qualifying);
  }
}
