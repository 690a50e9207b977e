/**
 * The catalogue pruner of prune_game_data.py: drop every song no live
 * uses and every artist that neither appears in a live nor is credited on
 * a used song. Reading and writing game_data.json is not modelled.
 */
module Prune {
  import opened Catalogue

  /** The songs named by the setlists of the lives in `ls`. */
  function SongsOfLives(lives: map<Id, Live>, ls: set<Id>): set<Id> {
    set l, s | l in ls && l in lives && s in lives[l].songIds :: s
  }

  /** The artists credited on those songs of `songIds` that exist in `songs`. */
  function CreditedArtists(songs: map<Id, Song>, songIds: seq<Id>): set<Id> {
    set s, a | s in songIds && s in songs && a in songs[s].artistIds :: a
  }

  /** The artists a live keeps alive: its own artist list and the credits of its songs. */
  function ArtistsOfLive(songs: map<Id, Song>, live: Live): set<Id> {
    Elems(live.artistIds) + CreditedArtists(songs, live.songIds)
  }

  /** The artists kept alive by the lives in `ls`. */
  function ArtistsOfLives(lives: map<Id, Live>, songs: map<Id, Song>, ls: set<Id>): set<Id> {
    set l, a | l in ls && l in lives && a in ArtistsOfLive(songs, lives[l]) :: a
  }

  /** The pruned catalogue: only used songs and artists; the lives as they were. */
  function Pruned(data: GameData): GameData {
    var usedSongs := SongsOfLives(data.lives, data.lives.Keys);
    var usedArtists := ArtistsOfLives(data.lives, data.songs, data.lives.Keys);
    data.(songs := map s | s in data.songs && s in usedSongs :: data.songs[s],
          artists := map a | a in data.artists && a in usedArtists :: data.artists[a])
  }

  lemma SongsOfLivesStep(lives: map<Id, Live>, done: set<Id>, l: Id)
    requires l in lives
    ensures SongsOfLives(lives, done + {l}) == SongsOfLives(lives, done) + Elems(lives[l].songIds)
  {
  }

  lemma ArtistsOfLivesStep(lives: map<Id, Live>, songs: map<Id, Song>, done: set<Id>, l: Id)
    requires l in lives
    ensures ArtistsOfLives(lives, songs, done + {l}) == ArtistsOfLives(lives, songs, done) + ArtistsOfLive(songs, lives[l])
  {
  }

  /**
   * The used ids of one live, collected as the nested loops do: each song
   * of the setlist, the credits of each song that is in the table, then
   * the live's own artists.
   */
  method CollectLive(songs: map<Id, Song>, live: Live, usedSongs0: set<Id>, usedArtists0: set<Id>)
    returns (usedSongs: set<Id>, usedArtists: set<Id>)
    ensures usedSongs == usedSongs0 + Elems(live.songIds)
    ensures usedArtists == usedArtists0 + ArtistsOfLive(songs, live)
  {
    usedSongs, usedArtists := usedSongs0, usedArtists0;
    for j := 0 to |live.songIds|
      invariant usedSongs == usedSongs0 + Elems(live.songIds[..j])
      invariant usedArtists == usedArtists0 + CreditedArtists(songs, live.songIds[..j])
    {
      var sid := live.songIds[j];
      assert live.songIds[..j + 1] == live.songIds[..j] + [sid];
      usedSongs := usedSongs + {sid};
      if sid in songs {
        var credits := songs[sid].artistIds;
        for m := 0 to |credits|
          invariant usedArtists == usedArtists0 + CreditedArtists(songs, live.songIds[..j]) + Elems(credits[..m])
        {
          assert credits[..m + 1] == credits[..m] + [credits[m]];
          usedArtists := usedArtists + {credits[m]};
        }
        assert credits[..|credits|] == credits;
      }
    }
    assert live.songIds[..|live.songIds|] == live.songIds;
    for k := 0 to |live.artistIds|
      invariant usedArtists == usedArtists0 + CreditedArtists(songs, live.songIds) + Elems(live.artistIds[..k])
    {
      assert live.artistIds[..k + 1] == live.artistIds[..k] + [live.artistIds[k]];
      usedArtists := usedArtists + {live.artistIds[k]};
    }
    assert live.artistIds[..|live.artistIds|] == live.artistIds;
  }

  /** Collects the used ids over all lives, then replaces the song and artist tables by their filters. */
  method PruneGameData(data: GameData) returns (pruned: GameData)
    ensures pruned == Pruned(data)
  {
    var lives, songs, artists := data.lives, data.songs, data.artists;
    var usedSongs: set<Id> := {};
    var usedArtists: set<Id> := {};
    var remaining := lives.Keys;
    while remaining != {}
      invariant remaining <= lives.Keys
      invariant usedSongs == SongsOfLives(lives, lives.Keys - remaining)
      invariant usedArtists == ArtistsOfLives(lives, songs, lives.Keys - remaining)
      decreases remaining
    {
      var l :| l in remaining;
      SongsOfLivesStep(lives, lives.Keys - remaining, l);
      ArtistsOfLivesStep(lives, songs, lives.Keys - remaining, l);
      assert lives.Keys - (remaining - {l}) == (lives.Keys - remaining) + {l};
      usedSongs, usedArtists := CollectLive(songs, lives[l], usedSongs, usedArtists);
      remaining := remaining - {l};
    }
    assert lives.Keys - remaining == lives.Keys;
    var prunedSongs := map s | s in songs && s in usedSongs :: songs[s];
    var prunedArtists := map a | a in artists && a in usedArtists :: artists[a];
    pruned := data.(songs := prunedSongs, artists := prunedArtists);
  }

  /** A song is kept exactly when it is in the table and some live's setlist names it; its record is unchanged. */
  lemma SongKeptIff(data: GameData, s: Id)
    ensures s in Pruned(data).songs <==>
              s in data.songs && exists l :: l in data.lives && s in data.lives[l].songIds
    ensures s in Pruned(data).songs ==> Pruned(data).songs[s] == data.songs[s]
  {
    if s in data.songs && (exists l :: l in data.lives && s in data.lives[l].songIds) {
      var l :| l in data.lives && s in data.lives[l].songIds;
      assert s in SongsOfLives(data.lives, data.lives.Keys);
    }
  }

  /** Live `l` lists artist `a`, or a song of its setlist that is in the table credits `a`. */
  predicate UsesArtist(data: GameData, l: Id, a: Id)
    requires l in data.lives
  {
    a in data.lives[l].artistIds ||
    exists s :: s in data.lives[l].songIds && s in data.songs && a in data.songs[s].artistIds
  }

  /**
   * An artist is kept exactly when it is in the table and some live lists
   * it, or credits it on a setlist song that is in the song table; its
   * record is unchanged.
   */
  lemma ArtistKeptIff(data: GameData, a: Id)
    ensures a in Pruned(data).artists <==>
              a in data.artists &&
              exists l :: l in data.lives && UsesArtist(data, l, a)
    ensures a in Pruned(data).artists ==> Pruned(data).artists[a] == data.artists[a]
  {
    if a in data.artists && exists l :: l in data.lives && UsesArtist(data, l, a) {
      var l :| l in data.lives && UsesArtist(data, l, a);
      assert a in ArtistsOfLive(data.songs, data.lives[l]);
    }
  }

  /** The lives are untouched, and the song and artist tables only shrink, so neither count grows. */
  lemma PrunedIsSubCatalogue(data: GameData)
    ensures Pruned(data).lives == data.lives
    ensures Pruned(data).songs.Keys <= data.songs.Keys && Pruned(data).artists.Keys <= data.artists.Keys
    ensures forall s :: s in Pruned(data).songs ==> Pruned(data).songs[s] == data.songs[s]
    ensures forall a :: a in Pruned(data).artists ==> Pruned(data).artists[a] == data.artists[a]
    ensures |Pruned(data).songs| <= |data.songs| && |Pruned(data).artists| <= |data.artists|
  {
    var p := Pruned(data);
    assert |p.songs.Keys| <= |data.songs.Keys| by { SubsetCard(p.songs.Keys, data.songs.Keys); }
    assert |p.artists.Keys| <= |data.artists.Keys| by { SubsetCard(p.artists.Keys, data.artists.Keys); }
  }

  lemma SubsetCard(a: set<Id>, b: set<Id>)
    requires a <= b
    ensures |a| <= |b|
  {
    if a != {} {
      var x :| x in a;
      SubsetCard(a - {x}, b - {x});
    }
  }

  /** Every song a live names that was in the table before pruning is still there. */
  lemma ReferencedSongsSurvive(data: GameData, l: Id, s: Id)
    requires l in data.lives && s in data.lives[l].songIds && s in data.songs
    ensures s in Pruned(data).songs
  {
    SongKeptIff(data, s);
  }

  /** Pruning a pruned catalogue changes nothing. */
  lemma PruneIdempotent(data: GameData)
    ensures Pruned(Pruned(data)) == Pruned(data)
  {
    var p := Pruned(data);
    var q := Pruned(p);
    forall s ensures s in q.songs <==> s in p.songs {
      SongKeptIff(data, s);
      SongKeptIff(p, s);
    }
    forall a ensures a in q.artists <==> a in p.artists {
      ArtistKeptIff(data, a);
      ArtistKeptIff(p, a);
      if a in p.artists {
        var l :| l in data.lives && UsesArtist(data, l, a);
        if a !in data.lives[l].artistIds {
          var s :| s in data.lives[l].songIds && s in data.songs && a in data.songs[s].artistIds;
          SongKeptIff(data, s);
        }
      }
    }
    assert q.songs == p.songs;
    assert q.artists == p.artists;
  }
}
