/**
 * The session glue of app.py: the snapshot that carries a game between
 * requests, its restoration on a freshly loaded catalogue, the guards and
 * state changes of the two guess handlers, and the feedback labels of the
 * history view.
 *
 * Names typed by the user reach the handlers already resolved by the
 * game's `Find*Id` functions; the handlers receive those results.
 */
module App {
  import opened Catalogue
  import opened Game

  /** One history entry `[song id, artist id, feedback code]`. */
  datatype Entry = Entry(songId: Id, artistId: Id, feedback: int)

  /** The session attributes the handlers keep on a restored game object. */
  datatype Session = Session(
    targetLiveId: Id,
    targetLive: Live,
    possibleLiveIds: set<Id>,
    guessedSongIds: set<Id>,
    guessedLiveIds: set<Id>,
    history: seq<Entry>)

  /** The serialized session dict; the id sets become lists. */
  datatype Snapshot = Snapshot(
    targetLiveId: Id,
    possibleLiveIds: seq<Id>,
    guessedSongIds: seq<Id>,
    guessedLiveIds: seq<Id>,
    history: seq<Entry>)

  /** The state a handler receives: `None` when it is missing or an empty dict. */
  type State = Option<Snapshot>

  /**
   * A game as `deserialize_game` leaves it: freshly started (the session
   * attributes are not set), restored from a snapshot, or failed (the
   * snapshot's target is not a live, or there is no live to start with).
   */
  datatype Loaded = Fresh(targetLiveId: Id, targetLive: Live) | Restored(session: Session) | Broken

  /** `s` is a serialization of `g`: same target and history, each id set listed once. */
  predicate Encodes(s: Snapshot, g: Session) {
    && s.targetLiveId == g.targetLiveId
    && Elems(s.possibleLiveIds) == g.possibleLiveIds && Distinct(s.possibleLiveIds)
    && Elems(s.guessedSongIds) == g.guessedSongIds && Distinct(s.guessedSongIds)
    && Elems(s.guessedLiveIds) == g.guessedLiveIds && Distinct(s.guessedLiveIds)
    && s.history == g.history
  }

  /** `serialize_game`: the id sets are listed in some order. */
  method Serialize(g: Session) returns (s: Snapshot)
    ensures Encodes(s, g)
  {
    var possible := SetToList(g.possibleLiveIds);
    var guessedSongs := SetToList(g.guessedSongIds);
    var guessedLives := SetToList(g.guessedLiveIds);
    s := Snapshot(g.targetLiveId, possible, guessedSongs, guessedLives, g.history);
  }

  /**
   * `deserialize_game` on a non-empty state: the target record is looked
   * up in `lives` (failing when the id is not a live), the lists become
   * sets and the history is taken as it is.
   */
  function Restore(lives: map<Id, Live>, s: Snapshot): (r: Option<Session>)
    ensures r.Some? <==> s.targetLiveId in lives
    ensures r.Some? ==>
              && r.value.targetLiveId == s.targetLiveId
              && r.value.targetLive == lives[s.targetLiveId]
              && r.value.possibleLiveIds == Elems(s.possibleLiveIds)
              && r.value.guessedSongIds == Elems(s.guessedSongIds)
              && r.value.guessedLiveIds == Elems(s.guessedLiveIds)
              && r.value.history == s.history
  {
    if s.targetLiveId in lives then
      Some(Session(s.targetLiveId, lives[s.targetLiveId], Elems(s.possibleLiveIds),
                   Elems(s.guessedSongIds), Elems(s.guessedLiveIds), s.history))
    else None
  }

  /**
   * Restoring a serialized session reproduces it exactly, provided its
   * target record is the catalogue's record for the target id.
   */
  lemma RoundTrip(lives: map<Id, Live>, g: Session, s: Snapshot)
    requires Encodes(s, g)
    requires g.targetLiveId in lives && g.targetLive == lives[g.targetLiveId]
    ensures Restore(lives, s) == Some(g)
  {
  }

  /** The loaded game for a non-empty state. */
  function Load(lives: map<Id, Live>, s: Snapshot): Loaded {
    match Restore(lives, s)
    case Some(g) => Restored(g)
    case None => Broken
  }

  /**
   * `deserialize_game`: a new game over the catalogue; an empty state
   * starts a game with a randomly chosen target, any other state is
   * restored.
   */
  method Deserialize(data: GameData, state: State) returns (r: Loaded)
    ensures state.None? && data.lives.Keys != {} ==>
              r.Fresh? && r.targetLiveId in data.lives && r.targetLive == data.lives[r.targetLiveId]
    ensures state.None? && data.lives.Keys == {} ==> r == Broken
    ensures state.Some? ==> r == Load(data.lives, state.value)
  {
    if state.None? {
      r := StartFresh(data);
    } else {
      r := Load(data.lives, state.value);
    }
  }

  /** A new game with a target chosen by `start_game`; it fails when there is no live. */
  method StartFresh(data: GameData) returns (r: Loaded)
    ensures data.lives.Keys != {} ==>
              r.Fresh? && r.targetLiveId in data.lives && r.targetLive == data.lives[r.targetLiveId]
    ensures data.lives.Keys == {} ==> r == Broken
  {
    var game := new LoveLiveGame(data);
    var t := game.StartGame(None);
    if t.None? {
      assert Elems(game.liveIds) == {};
      return Broken;
    }
    assert t.value in data.lives;
    r := Fresh(t.value, data.lives[t.value]);
  }

  /** What a handler tells the player. */
  datatype Message =
    | SongNotFound
    | ArtistNotFound
    | AlreadyGuessed
    | LiveNotFound
    | Congratulations(liveName: Name)
    | IncorrectLive(remaining: nat)

  /** Every history entry names a catalogue song and a catalogue artist, so the history view can look them up. */
  predicate Showable(history: seq<Entry>, songs: map<Id, Song>, artists: map<Id, Artist>) {
    forall e :: e in history ==> e.songId in songs && e.artistId in artists
  }

  /** How a name is rendered in an f-string: a null name prints as `None`. */
  function NameText(n: Name): string {
    if n.Some? then n.value else "None"
  }

  /** The layout of one history line: `- <song> / <artist>: <label>`. */
  function Render(song: string, artist: string, tag: string): string {
    "- " + song + " / " + artist + ": " + tag + "\n"
  }

  /** The history line of one entry. */
  function HistoryLine(songs: map<Id, Song>, artists: map<Id, Artist>, e: Entry): string
    requires e.songId in songs && e.artistId in artists
  {
    Render(NameText(songs[e.songId].name), NameText(artists[e.artistId].name), Label(e.feedback))
  }

  /** The lines of the history view, one per entry, in history order. */
  function HistoryLines(songs: map<Id, Song>, artists: map<Id, Artist>, history: seq<Entry>): (lines: seq<string>)
    requires Showable(history, songs, artists)
    ensures |lines| == |history|
  {
    seq(|history|, i requires 0 <= i < |history| => HistoryLine(songs, artists, history[i]))
  }

  /** The concatenation of a sequence of strings. */
  function Concat(parts: seq<string>): string
    decreases |parts|
  {
    if |parts| == 0 then "" else Concat(parts[..|parts| - 1]) + parts[|parts| - 1]
  }

  /** Concatenation distributes over the joining of two sequences of parts. */
  lemma {:induction false} ConcatAppend(a: seq<string>, b: seq<string>)
    ensures Concat(a + b) == Concat(a) + Concat(b)
    decreases |b|
  {
    if |b| == 0 {
      assert a + b == a;
    } else {
      var b' := b[..|b| - 1];
      assert (a + b)[..|a + b| - 1] == a + b';
      ConcatAppend(a, b');
    }
  }

  /** Appending one part appends its text. */
  lemma ConcatSnoc(parts: seq<string>, x: string)
    ensures Concat(parts + [x]) == Concat(parts) + x
  {
    assert (parts + [x])[..|parts|] == parts;
  }

  /** The text of the history view. */
  function HistoryView(songs: map<Id, Song>, artists: map<Id, Artist>, history: seq<Entry>): string
    requires Showable(history, songs, artists)
  {
    "History:\n" + Concat(HistoryLines(songs, artists, history))
  }

  /** The lines of a joined history are the lines of its parts, joined. */
  lemma LinesAppend(songs: map<Id, Song>, artists: map<Id, Artist>, a: seq<Entry>, b: seq<Entry>)
    requires Showable(a, songs, artists) && Showable(b, songs, artists) && Showable(a + b, songs, artists)
    ensures HistoryLines(songs, artists, a + b) == HistoryLines(songs, artists, a) + HistoryLines(songs, artists, b)
  {
    var l, la, lb := HistoryLines(songs, artists, a + b), HistoryLines(songs, artists, a), HistoryLines(songs, artists, b);
    forall i | 0 <= i < |a + b|
      ensures l[i] == (la + lb)[i]
    {
      if i < |a| {
        assert (a + b)[i] == a[i];
      } else {
        assert (a + b)[i] == b[i - |a|];
      }
    }
  }

  /**
   * The view of a longer history extends the view of a shorter one by the
   * lines of the added entries, so past lines never change.
   */
  lemma HistoryViewAppend(songs: map<Id, Song>, artists: map<Id, Artist>, a: seq<Entry>, b: seq<Entry>)
    requires Showable(a + b, songs, artists)
    ensures Showable(a, songs, artists) && Showable(b, songs, artists)
    ensures HistoryView(songs, artists, a + b) ==
              HistoryView(songs, artists, a) + Concat(HistoryLines(songs, artists, b))
  {
    assert forall e :: e in a ==> e in a + b;
    assert forall e :: e in b ==> e in a + b;
    var la, lb := HistoryLines(songs, artists, a), HistoryLines(songs, artists, b);
    assert HistoryLines(songs, artists, a + b) == la + lb by {
      LinesAppend(songs, artists, a, b);
    }
    assert Concat(la + lb) == Concat(la) + Concat(lb) by {
      ConcatAppend(la, lb);
    }
  }

  /** One more entry adds exactly its own line at the end of the view. */
  lemma HistoryViewStep(songs: map<Id, Song>, artists: map<Id, Artist>, history: seq<Entry>, e: Entry)
    requires Showable(history, songs, artists) && e.songId in songs && e.artistId in artists
    ensures Showable(history + [e], songs, artists)
    ensures HistoryView(songs, artists, history + [e]) == HistoryView(songs, artists, history) + HistoryLine(songs, artists, e)
  {
    var lines := HistoryLines(songs, artists, history);
    var line := HistoryLine(songs, artists, e);
    assert HistoryLines(songs, artists, history + [e]) == lines + [line] by {
      LinesAppend(songs, artists, history, [e]);
    }
    ConcatSnoc(lines, line);
  }

  /**
   * `format_history`: the view built line by line; it fails (`None`) on
   * the first entry whose song or artist is not in the catalogue.
   */
  method FormatHistory(songs: map<Id, Song>, artists: map<Id, Artist>, history: seq<Entry>) returns (text: Option<string>)
    ensures text.Some? <==> Showable(history, songs, artists)
    ensures text.Some? ==> text.value == HistoryView(songs, artists, history)
  {
    var txt := "History:\n";
    assert history[..0] == [];
    for i := 0 to |history|
      invariant Showable(history[..i], songs, artists)
      invariant txt == HistoryView(songs, artists, history[..i])
    {
      var h := history[i];
      if h.songId !in songs || h.artistId !in artists {
        assert h in history;
        return None;
      }
      assert history[..i + 1] == history[..i] + [h];
      HistoryViewStep(songs, artists, history[..i], h);
      txt := txt + HistoryLine(songs, artists, h);
    }
    assert history[..|history|] == history;
    text := Some(txt);
  }

  /** Where the song-guess handler stops. */
  datatype SongOutcome =
    | Reply(state: State, message: Message, view: string)   // the input state returned unchanged
    | Scored(session: Session, feedback: int)               // a new guess, scored; candidate pruning comes next
    | Crash                                                 // an exception: missing attribute, unknown id

  /**
   * The song-guess handler on a restored session. Its guards run in order:
   * an unresolved song, an unresolved artist, a song guessed before. Each
   * returns the state it was given, with the history view, and fails when
   * that view cannot be built. A guess that passes the guards is scored
   * against the target.
   */
  function GuessSongStep(g: Session, state: State, data: GameData, sid: Option<Id>, aid: Option<Id>)
    : (out: SongOutcome)
    ensures out.Scored? <==> Truthy(sid) && Truthy(aid) && sid.value !in g.guessedSongIds
    ensures out.Scored? ==> out.session == g && out.feedback == Score(data.songs, sid.value, aid.value, g.targetLive)
    ensures !out.Scored? ==> (out.Reply? <==> Showable(g.history, data.songs, data.artists))
    ensures out.Reply? ==>
              && Showable(g.history, data.songs, data.artists)
              && out.state == state
              && out.view == HistoryView(data.songs, data.artists, g.history)
              && out.message == (if !Truthy(sid) then SongNotFound else if !Truthy(aid) then ArtistNotFound else AlreadyGuessed)
  {
    var guarded := !Truthy(sid) || !Truthy(aid) || sid.value in g.guessedSongIds;
    if !guarded then Scored(g, Score(data.songs, sid.value, aid.value, g.targetLive))
    else if !Showable(g.history, data.songs, data.artists) then Crash
    else if !Truthy(sid) then Reply(state, SongNotFound, HistoryView(data.songs, data.artists, g.history))
    else if !Truthy(aid) then Reply(state, ArtistNotFound, HistoryView(data.songs, data.artists, g.history))
    else Reply(state, AlreadyGuessed, HistoryView(data.songs, data.artists, g.history))
  }

  /**
   * The song-guess handler up to the scoring of a new guess. A fresh game
   * has no history and no guessed-song set, so every path on it fails, as
   * does a snapshot whose target is not a live.
   */
  method GuessSongHandler(data: GameData, state: State, sid: Option<Id>, aid: Option<Id>) returns (out: SongOutcome)
    ensures state.Some? && Load(data.lives, state.value).Restored? ==>
              out == GuessSongStep(Load(data.lives, state.value).session, state, data, sid, aid)
    ensures (state.None? || Load(data.lives, state.value).Broken?) ==> out == Crash
  {
    var loaded := Deserialize(data, state);
    match loaded
    case Restored(g) =>
      out := GuessSongStep(g, state, data, sid, aid);
    case _ =>
      out := Crash;
  }

  /** A scored guess of a catalogue song has a feedback of 0, 1 or 2. */
  lemma ScoredFeedbackInRange(g: Session, state: State, data: GameData, sid: Option<Id>, aid: Option<Id>)
    requires sid.Some? ==> sid.value in data.songs
    ensures GuessSongStep(g, state, data, sid, aid).Scored? ==>
              NotPresent <= GuessSongStep(g, state, data, sid, aid).feedback <= SongAndArtist
  {
  }

  /** Where the live-guess handler stops, before the session is serialized. */
  datatype LiveOutcome =
    | LiveReply(state: State, message: Message, view: string)   // the input state returned unchanged
    | Updated(session: Session, message: Message, view: string)
    | LiveCrash

  /**
   * The live-guess handler on a restored session: an unresolved live
   * returns the state as it was; a right guess keeps the candidates; a
   * wrong one removes exactly that live from them, if present. Every path
   * also builds the history view and fails when it cannot.
   */
  function GuessLiveStep(g: Session, state: State, data: GameData, lid: Option<Id>): (out: LiveOutcome)
    requires g.targetLiveId in data.lives
    ensures out.LiveCrash? <==> !Showable(g.history, data.songs, data.artists)
    ensures !out.LiveCrash? ==> (out.LiveReply? <==> !Truthy(lid))
    ensures out.LiveReply? ==>
              out == LiveReply(state, LiveNotFound, HistoryView(data.songs, data.artists, g.history))
    ensures out.Updated? && lid.value == g.targetLiveId ==>
              out == Updated(g, Congratulations(data.lives[lid.value].name), HistoryView(data.songs, data.artists, g.history))
    ensures out.Updated? && lid.value != g.targetLiveId ==>
              && out.session.possibleLiveIds == g.possibleLiveIds - {lid.value}
              && out.session == g.(possibleLiveIds := out.session.possibleLiveIds)
              && out.message == IncorrectLive(|out.session.possibleLiveIds|)
              && out.view == HistoryView(data.songs, data.artists, g.history)
  {
    if !Showable(g.history, data.songs, data.artists) then LiveCrash
    else
      var view := HistoryView(data.songs, data.artists, g.history);
      if !Truthy(lid) then LiveReply(state, LiveNotFound, view)
      else if lid.value == g.targetLiveId then Updated(g, Congratulations(data.lives[lid.value].name), view)
      else
        var g' := g.(possibleLiveIds := g.possibleLiveIds - {lid.value});
        Updated(g', IncorrectLive(|g'.possibleLiveIds|), view)
  }

  /** The live-guess response: new state, message and history view. */
  datatype Response = Response(state: State, message: Message, view: string)

  /**
   * The live-guess handler: deserialize, apply the guess, serialize the
   * updated session; `None` stands for an exception, which is what every
   * path on a fresh game or an unknown target raises.
   */
  method GuessLiveHandler(data: GameData, state: State, lid: Option<Id>) returns (out: Option<Response>)
    ensures state.Some? && Load(data.lives, state.value).Restored? ==>
              var g := Load(data.lives, state.value).session;
              match GuessLiveStep(g, state, data, lid)
              case LiveReply(st, msg, view) => out == Some(Response(st, msg, view))
              case Updated(g', msg, view) =>
                out.Some? && out.value.message == msg && out.value.view == view &&
                out.value.state.Some? && Encodes(out.value.state.value, g')
              case LiveCrash => out == None
    ensures (state.None? || Load(data.lives, state.value).Broken?) ==> out == None
  {
    var loaded := Deserialize(data, state);
    if !loaded.Restored? {
      return None;
    }
    var step := GuessLiveStep(loaded.session, state, data, lid);
    match step
    case LiveReply(st, msg, view) =>
      out := Some(Response(st, msg, view));
    case Updated(g', msg, view) =>
      var snap := Serialize(g');
      out := Some(Response(Some(snap), msg, view));
    case LiveCrash =>
      out := None;
  }

  /** The message headline of a scored song guess. */
  function Headline(feedback: int): (text: string)
    ensures text == "PERFECT MATCH! (Song & Artist correct)" <==> feedback == SongAndArtist
    ensures text == "SONG CORRECT! (Artist incorrect)" <==> feedback == SongOnly
    ensures text == "WRONG. (Song not in live)" <==> feedback != SongAndArtist && feedback != SongOnly
  {
    if feedback == 2 then "PERFECT MATCH! (Song & Artist correct)"
    else if feedback == 1 then "SONG CORRECT! (Artist incorrect)"
    else "WRONG. (Song not in live)"
  }

  /** The label of a history entry in the history view. */
  function Label(feedback: int): (tag: string)
    ensures tag == "PERFECT" <==> feedback == SongAndArtist
    ensures tag == "SONG OK" <==> feedback == SongOnly
    ensures tag == "MISS" <==> feedback != SongAndArtist && feedback != SongOnly
  {
    if feedback == 2 then "PERFECT"
    else if feedback == 1 then "SONG OK"
    else "MISS"
  }

  /** The history label and the handler's headline split the feedback codes alike. */
  lemma LabelMatchesHeadline(feedback: int)
    ensures Label(feedback) == "PERFECT" <==> Headline(feedback) == "PERFECT MATCH! (Song & Artist correct)"
    ensures Label(feedback) == "SONG OK" <==> Headline(feedback) == "SONG CORRECT! (Artist incorrect)"
    ensures Label(feedback) == "MISS" <==> Headline(feedback) == "WRONG. (Song not in live)"
  {
  }
}
