/**
 * The data preparation of train.py: the id-to-index maps of the catalogue
 * and the encoding of one guess sequence as three fixed-length, 1-shifted,
 * zero-padded integer rows plus the index of the target live. The random
 * choice of target and guesses is not modelled; they arrive as inputs.
 */
module Train {
  import opened Catalogue
  import opened Game

  /** Embedding sizes: feedback codes 0, 1, 2 shifted by one, plus the padding value 0. */
  const NumFeedback: int := 4

  /** `{id: i for i, id in enumerate(ids)}`: a later occurrence of an id overrides an earlier one. */
  function IndexMap(ids: seq<Id>): (m: map<Id, int>)
    ensures m.Keys == Elems(ids)
    decreases |ids|
  {
    if |ids| == 0 then map[]
    else
      var prefix := ids[..|ids| - 1];
      assert Elems(ids) == Elems(prefix) + {ids[|ids| - 1]} by {
        assert ids == prefix + [ids[|ids| - 1]];
      }
      IndexMap(prefix)[ids[|ids| - 1] := |ids| - 1]
  }

  /**
   * On a duplicate-free id list the index map sends each id to its
   * position, so it is a bijection from the ids onto `0 .. |ids| - 1`.
   */
  lemma {:induction false} IndexMapPositions(ids: seq<Id>)
    requires Distinct(ids)
    ensures forall i :: 0 <= i < |ids| ==> IndexMap(ids)[ids[i]] == i
    ensures forall x :: x in IndexMap(ids) ==> 0 <= IndexMap(ids)[x] < |ids| && ids[IndexMap(ids)[x]] == x
    decreases |ids|
  {
    if |ids| > 0 {
      var prefix := ids[..|ids| - 1];
      assert Distinct(prefix);
      IndexMapPositions(prefix);
      assert forall i :: 0 <= i < |prefix| ==> prefix[i] == ids[i] && ids[i] != ids[|ids| - 1];
    }
  }

  /** Distinct ids get distinct indices. */
  lemma IndexMapInjective(ids: seq<Id>, x: Id, y: Id)
    requires Distinct(ids)
    requires x in IndexMap(ids) && y in IndexMap(ids) && IndexMap(ids)[x] == IndexMap(ids)[y]
    ensures x == y
  {
    IndexMapPositions(ids);
  }

  /** A duplicate-free list is exactly as long as its set of elements is large. */
  lemma {:induction false} DistinctLength(s: seq<Id>)
    requires Distinct(s)
    ensures |Elems(s)| == |s|
    decreases |s|
  {
    if |s| > 0 {
      var prefix := s[..|s| - 1];
      assert Distinct(prefix);
      DistinctLength(prefix);
      assert s == prefix + [s[|s| - 1]];
      assert Elems(s) == Elems(prefix) + {s[|s| - 1]};
      assert s[|s| - 1] !in Elems(prefix);
    }
  }

  /** One guess of a generated sequence. */
  datatype Guess = Guess(songId: Id, artistId: Id)

  /** One training sample: three padded rows and the target live's index. */
  datatype Sample = Sample(songs: seq<int>, artists: seq<int>, feedbacks: seq<int>, target: int)

  /** `p` is `xs` shifted by one and padded with zeros to length `maxLen`. */
  predicate PaddedFrom(p: seq<int>, xs: seq<int>, maxLen: nat) {
    && |p| == maxLen && |xs| <= maxLen
    && (forall i :: 0 <= i < |xs| ==> p[i] == xs[i] + 1)
    && (forall i :: |xs| <= i < maxLen ==> p[i] == 0)
  }

  /**
   * `np.zeros(maxLen)` followed by `padded[:len(xs)] = [x + 1 for x in xs]`.
   */
  method PadShifted(xs: seq<int>, maxLen: nat) returns (p: seq<int>)
    requires |xs| <= maxLen
    ensures PaddedFrom(p, xs, maxLen)
  {
    var padded := new int[maxLen](_ => 0);
    for i := 0 to |xs|
      invariant forall k :: 0 <= k < i ==> padded[k] == xs[k] + 1
      invariant forall k :: |xs| <= k < maxLen ==> padded[k] == 0
    {
      padded[i] := xs[i] + 1;
    }
    p := padded[..];
  }

  /** The song indices of a guess sequence. */
  function SongIndices(guesses: seq<Guess>, songToIdx: map<Id, int>): seq<int>
    requires forall i :: 0 <= i < |guesses| ==> guesses[i].songId in songToIdx
  {
    seq(|guesses|, i requires 0 <= i < |guesses| => songToIdx[guesses[i].songId])
  }

  /** The artist indices of a guess sequence. */
  function ArtistIndices(guesses: seq<Guess>, artistToIdx: map<Id, int>): seq<int>
    requires forall i :: 0 <= i < |guesses| ==> guesses[i].artistId in artistToIdx
  {
    seq(|guesses|, i requires 0 <= i < |guesses| => artistToIdx[guesses[i].artistId])
  }

  /** The oracle's feedback for each guess of a sequence against the target. */
  function FeedbackCodes(songs: map<Id, Song>, target: Live, guesses: seq<Guess>): seq<int> {
    seq(|guesses|, i requires 0 <= i < |guesses| => Score(songs, guesses[i].songId, guesses[i].artistId, target))
  }

  /** Every guess has an entry in the song index and in the artist index. */
  predicate Indexed(guesses: seq<Guess>, songToIdx: map<Id, int>, artistToIdx: map<Id, int>) {
    forall i :: 0 <= i < |guesses| ==> guesses[i].songId in songToIdx && guesses[i].artistId in artistToIdx
  }

  /**
   * The encoding half of `generate_sample`: each guess is scored against
   * the target and mapped to its song and artist index, failing (`None`)
   * on an id the index maps lack; the three rows are then shifted by one
   * and zero-padded to `maxSeqLen`, and the sample is labelled with the
   * target's index.
   */
  method EncodeSample(songs: map<Id, Song>, lives: map<Id, Live>, targetId: Id, guesses: seq<Guess>, maxSeqLen: nat,
                      songToIdx: map<Id, int>, artistToIdx: map<Id, int>, liveToIdx: map<Id, int>)
    returns (sample: Option<Sample>)
    requires targetId in lives && targetId in liveToIdx
    requires |guesses| <= maxSeqLen
    ensures sample.Some? <==> Indexed(guesses, songToIdx, artistToIdx)
    ensures sample.Some? ==>
              && PaddedFrom(sample.value.songs, SongIndices(guesses, songToIdx), maxSeqLen)
              && PaddedFrom(sample.value.artists, ArtistIndices(guesses, artistToIdx), maxSeqLen)
              && PaddedFrom(sample.value.feedbacks, FeedbackCodes(songs, lives[targetId], guesses), maxSeqLen)
              && sample.value.target == liveToIdx[targetId]
  {
    var target := lives[targetId];
    var songsSeq: seq<int> := [];
    var artistsSeq: seq<int> := [];
    var feedbacksSeq: seq<int> := [];
    for i := 0 to |guesses|
      invariant Indexed(guesses[..i], songToIdx, artistToIdx)
      invariant songsSeq == SongIndices(guesses[..i], songToIdx)
      invariant artistsSeq == ArtistIndices(guesses[..i], artistToIdx)
      invariant feedbacksSeq == FeedbackCodes(songs, target, guesses[..i])
    {
      var g := guesses[i];
      var feedback := Score(songs, g.songId, g.artistId, target);
      if g.songId !in songToIdx || g.artistId !in artistToIdx {
        return None;
      }
      songsSeq := songsSeq + [songToIdx[g.songId]];
      artistsSeq := artistsSeq + [artistToIdx[g.artistId]];
      feedbacksSeq := feedbacksSeq + [feedback];
    }
    assert guesses[..|guesses|] == guesses;
    var paddedSongs := PadShifted(songsSeq, maxSeqLen);
    var paddedArtists := PadShifted(artistsSeq, maxSeqLen);
    var paddedFeedbacks := PadShifted(feedbacksSeq, maxSeqLen);
    sample := Some(Sample(paddedSongs, paddedArtists, paddedFeedbacks, liveToIdx[targetId]));
  }

  /**
   * A padded row of values in `0 .. bound - 1` holds values in `0 .. bound`,
   * and its non-zero entries are exactly the prefix of real guesses.
   */
  lemma PaddedRange(p: seq<int>, xs: seq<int>, maxLen: nat, bound: nat)
    requires PaddedFrom(p, xs, maxLen)
    requires forall i :: 0 <= i < |xs| ==> 0 <= xs[i] < bound
    ensures forall i :: 0 <= i < |p| ==> 0 <= p[i] <= bound
    ensures forall i :: 0 <= i < |p| ==> (p[i] != 0 <==> i < |xs|)
  {
  }

  /**
   * A sample built from the catalogue's own index maps fits the model's
   * embedding tables: song entries stay below `|songs| + 1`, artist entries
   * below `|artists| + 1`, feedback entries below `NumFeedback`, the padding
   * is exactly the tail, and the target index lies in `0 .. |lives| - 1`.
   */
  lemma SampleFitsModel(songs: map<Id, Song>, artists: map<Id, Artist>, lives: map<Id, Live>,
                        songIds: seq<Id>, artistIds: seq<Id>, liveIds: seq<Id>,
                        targetId: Id, guesses: seq<Guess>, maxSeqLen: nat, sample: Sample)
    requires Elems(songIds) == songs.Keys && Distinct(songIds)
    requires Elems(artistIds) == artists.Keys && Distinct(artistIds)
    requires Elems(liveIds) == lives.Keys && Distinct(liveIds)
    requires targetId in lives && |guesses| <= maxSeqLen
    requires forall i :: 0 <= i < |guesses| ==> guesses[i].songId in songs && guesses[i].artistId in artists
    requires PaddedFrom(sample.songs, SongIndices(guesses, IndexMap(songIds)), maxSeqLen)
    requires PaddedFrom(sample.artists, ArtistIndices(guesses, IndexMap(artistIds)), maxSeqLen)
    requires PaddedFrom(sample.feedbacks, FeedbackCodes(songs, lives[targetId], guesses), maxSeqLen)
    requires sample.target == IndexMap(liveIds)[targetId]
    ensures forall i :: 0 <= i < maxSeqLen ==> 0 <= sample.songs[i] < |songs| + 1
    ensures forall i :: 0 <= i < maxSeqLen ==> 0 <= sample.artists[i] < |artists| + 1
    ensures forall i :: 0 <= i < maxSeqLen ==> 0 <= sample.feedbacks[i] < NumFeedback
    ensures forall i :: 0 <= i < maxSeqLen ==>
              (sample.songs[i] != 0 <==> i < |guesses|) &&
              (sample.artists[i] != 0 <==> i < |guesses|) &&
              (sample.feedbacks[i] != 0 <==> i < |guesses|)
    ensures 0 <= sample.target < |lives|
  {
    IndexMapPositions(songIds);
    IndexMapPositions(artistIds);
    IndexMapPositions(liveIds);
    DistinctLength(songIds);
    DistinctLength(artistIds);
    DistinctLength(liveIds);
    PaddedRange(sample.songs, SongIndices(guesses, IndexMap(songIds)), maxSeqLen, |songs|);
    PaddedRange(sample.artists, ArtistIndices(guesses, IndexMap(artistIds)), maxSeqLen, |artists|);
    PaddedRange(sample.feedbacks, FeedbackCodes(songs, lives[targetId], guesses), maxSeqLen, NumFeedback - 1);
  }
}
