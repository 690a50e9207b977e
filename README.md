# LoveLive setlist Wordle — a verified model of the game core

The repository is a guessing game over LoveLive! concerts ("lives").
A hidden target live is chosen. The player guesses a song together with an artist.
Each guess gets feedback:

- `2`: the song is on the live's setlist and the artist performed at the live.
- `1`: the song is on the setlist, but the artist did not perform.
- `0`: the song is not on the setlist.
- `-1`: the song is not in the catalogue at all.

The player finally names the live.

This model covers:

- the catalogue and the feedback oracle (`game.py`);
- the offline dataset builder (`preprocess.py`);
- the catalogue pruner (`prune_game_data.py`);
- the session snapshot, the two guess handlers and the history view of the web front end (`app.py`);
- the index maps and sample encoding of the training set (`train.py`).

The modules follow the files:

| file | module | what it holds |
|---|---|---|
| `catalogue.dfy` | `Catalogue` | song, artist and live records; the `{songs, artists, lives}` dataset; Python truthiness of optional strings; enumeration of sets and dict keys |
| `game.dfy` | `Game` | the `Score` oracle; class `LoveLiveGame` with its id lists, exact-name indexes, `StartGame`, `GuessSong`, `GuessLive` and the `Find*Id` lookups |
| `preprocess.dfy` | `Preprocess` | raw records, `BuildGameData` with its loops, and the functions that specify them |
| `prune.dfy` | `Prune` | the `Pruned` filter, the collecting loops of `PruneGameData`, and the keep/drop theorems |
| `app.dfy` | `App` | the session record and its snapshot; `Deserialize`; the guards and state changes of the song and live handlers; `format_history` and the feedback labels |
| `train.dfy` | `Train` | the id-to-index maps; the 1-shifted, zero-padded encoding of a guess sequence; the bounds the network's embeddings rely on |

Modelling choices:

- JSON names are `Option<string>`, because `.get('name')` may yield `null`.
- Ids are strings, and a truthy id is a present, non-empty string.
- Python's dict and set iteration order is not modelled. `list(d.keys())` and `list(set(...))` become `ListKeys`/`SetToList`, which return some duplicate-free enumeration.
- Dict comprehensions and dict-filling loops keep the last entry for a key (`Table`, `NameIndex`, `IndexMap`). They are built in the order of the id list.
- `random.choice` becomes "some element of" (`:|`).
- `StartGame` with no lives returns `None` and changes nothing. This stands for the `IndexError` of `random.choice([])`. The handlers treat it as a failure.
- The fuzzy matcher (`difflib.get_close_matches`) is an input `fuzzy: Option<Name>`: the index key it picked, if any.
- A handler's exception is an explicit outcome (`Crash`, `LiveCrash`, `None`).

Where the code and the written design of the game differ, the model follows the code:

- The session attributes `possible_live_ids`, `guessed_song_ids`, `guessed_live_ids` and `history` are read at app.py:18-21 and written at app.py:32-35. `game.py` never defines them.
  - A game started from an empty state therefore lacks them.
  - Every handler path on such a game fails, at the latest in `format_history`. The model says so (`GuessSongHandler`, `GuessLiveHandler`).
- The live-guess handler never adds the guessed live to `guessed_live_ids`. It only removes a wrong live from the candidates.
- `preprocess.py` does not check a live's song ids against the song table.
  - A live may name songs that have no record. Such a song contributes no artists.
  - Pruning keeps such ids in the lives, although it has no record to keep.
  - A guess of such a song scores `-1`.

## Model

| member | source | states |
|---|---|---|
| Catalogue.SetToList | preprocess.py:83-84 | `list(set(...))` lists exactly the set's elements, each once |
| Catalogue.ListKeys | game.py:14-16 | the id lists hold exactly the keys of their tables, without duplicates |
| Game.Score | game.py:41-52 | `-1` exactly for a song outside the catalogue, whatever the artist; `0` for a catalogue song off the target's setlist; for a setlist song `2` iff the artist is among the live's artists, else `1`; always in `0..2` for catalogue songs |
| Game.ScoreIgnoresSongCredits | game.py:44-50 | the song's own credited artists never influence the feedback: two song tables with the same keys score every guess alike |
| Game.NameIndex | game.py:22-24 | every name in the index maps to an id whose record has that name, and every record's name is in the index |
| Game.LoveLiveGame.constructor | game.py:6-24 | the game holds the dataset's three tables, no target, id lists that enumerate the keys without duplicates, and correct, complete name indexes (`Valid`) |
| Game.LoveLiveGame.StartGame | game.py:26-32 | a truthy requested id that is a live becomes the target; otherwise the target is some element of `live_ids`; `target_live` is the record of the target id; with no lives nothing changes |
| Game.LoveLiveGame.GuessSong | game.py:34-52 | `-1` for a song outside the catalogue, otherwise the oracle's feedback against the current target; being a function, it changes no field and repeats its answer |
| Game.LoveLiveGame.GuessLive | game.py:54-55 | true iff the guessed id is the target id |
| Game.LoveLiveGame.FindSongId | game.py:57-64 | when some song carries exactly the queried name, the result is a song with that name; any result is a catalogue song; no exact match and no fuzzy pick gives `None` |
| Game.LoveLiveGame.FindArtistId | game.py:66-72 | the same for artist names |
| Game.LoveLiveGame.FindLiveId | game.py:74-80 | the same for live names |
| Preprocess.Table | preprocess.py:20-37 | the artist and song tables have exactly one entry per id in the input |
| Preprocess.TableLastWins | preprocess.py:20-37 | the entry for an id is built from the last input row with that id |
| Preprocess.CreditedIds | preprocess.py:32 | a song's artist ids are exactly the truthy `id`s of its credits, never more than the credits |
| Preprocess.CreditedIdsAppend | preprocess.py:32 | the credit filter commutes with concatenation, so the original order is kept |
| Preprocess.SetlistInfos | preprocess.py:43 | the valid-live table holds a record exactly for the ids of records with a truthy `hasSetlist`, each a record with its own id |
| Preprocess.SetlistSongIds | preprocess.py:52-58 | an id is collected iff some item of type `song` carries it as a truthy `songId` |
| Preprocess.CollectSetlistSongs | preprocess.py:52-58 | the item loop collects exactly the qualifying song ids, in order |
| Preprocess.LiveArtists | preprocess.py:75-79 | an artist belongs to the live iff it is credited on one of the live's songs that has a record; songs without a record contribute nothing |
| Preprocess.CollectLiveArtists | preprocess.py:75-79 | the nested loop gathers exactly that artist set |
| Preprocess.BuildGameData | preprocess.py:19-93 | the output's tables are the last-wins artist and song tables; a live id is in the output iff it is a setlist key with a valid performance record and at least one qualifying song; each live keeps the record's name, its qualifying songs as a duplicate-free list, and the union of their credited artists, duplicate-free |
| Preprocess.LivesHaveSongs | preprocess.py:60-61 | every live of the output has a non-empty song list |
| Prune.CollectLive | prune_game_data.py:18-29 | one live's pass adds its songs, the credits of those songs that have a record, and its own artist list |
| Prune.PruneGameData | prune_game_data.py:8-40 | the loops and filters compute `Pruned`: lives unchanged, songs and artists filtered by the used ids |
| Prune.SongKeptIff | prune_game_data.py:18-32 | a song is kept iff it has a record and some live's setlist names it; kept records are unchanged |
| Prune.ArtistKeptIff | prune_game_data.py:18-35 | an artist is kept iff it has a record and some live lists it or names a song with a record that credits it; kept records are unchanged |
| Prune.PrunedIsSubCatalogue | prune_game_data.py:32-40 | lives are untouched; the song and artist tables become sub-maps of the originals, so their counts do not grow |
| Prune.ReferencedSongsSurvive | prune_game_data.py:18-32 | every live-referenced song that had a record before pruning still has it |
| Prune.PruneIdempotent | prune_game_data.py:8-40 | pruning a pruned catalogue changes nothing |
| App.Serialize | app.py:15-22 | the snapshot carries the target id and the history, and lists each id set exactly, once per element |
| App.Restore | app.py:30-36 | a snapshot restores iff its target id is a live; the target record is that live's record, the lists become sets and the history is kept |
| App.RoundTrip | app.py:15-36 | restoring a serialized session gives the same session back |
| App.StartFresh | app.py:25-28 | an empty state starts a new game whose target is a live with its own record; with no lives this fails |
| App.Deserialize | app.py:24-36 | an empty state gives a freshly started game; any other state is restored as `Restore` says, or fails |
| App.HistoryViewAppend | app.py:175-185 | the view of a longer history extends the view of a shorter one line by line: past lines never change |
| App.HistoryViewStep | app.py:177-184 | one more history entry appends exactly its own line to the view |
| App.FormatHistory | app.py:175-185 | the loop builds exactly the history view, and fails exactly when some entry names a song or artist without a record |
| App.GuessSongStep | app.py:70-81 | on a restored game the guards run in order (song unresolved, artist unresolved, song already guessed); each returns the input state with the right message and the history view, or fails if the view fails; a guess passing them is scored by the oracle against the target |
| App.GuessSongHandler | app.py:67-81 | the handler deserializes and then behaves as `GuessSongStep`; on a freshly started game or an unknown target it fails |
| App.ScoredFeedbackInRange | app.py:81-87 | a scored catalogue song has feedback `0`, `1` or `2` |
| App.GuessLiveStep | app.py:95-110 | an unresolved live returns the input state; a right guess keeps the session unchanged and congratulates with the live's name; a wrong one removes exactly that id from the candidates, changes nothing else and reports how many remain; every path fails when the history view fails |
| App.GuessLiveHandler | app.py:93-110 | the handler deserializes, applies `GuessLiveStep` and returns a snapshot that encodes the updated session; on a freshly started game or an unknown target it fails |
| App.Headline | app.py:84-87 | the message headline is "PERFECT MATCH!…" iff the feedback is 2, "SONG CORRECT!…" iff 1, and "WRONG.…" for every other code |
| App.Label | app.py:180-183 | the history label is "PERFECT" iff the feedback is 2, "SONG OK" iff 1, and "MISS" for every other code |
| App.LabelMatchesHeadline | app.py:180-183 | the label and the message headline split the feedback codes the same way |
| Train.IndexMap | train.py:96-98 | the index map has exactly the listed ids as keys |
| Train.IndexMapPositions | train.py:96-98 | on a duplicate-free id list each id maps to its position, and every index lies in `0..n-1` and points back to its id |
| Train.IndexMapInjective | train.py:96-98 | distinct ids get distinct indices |
| Train.DistinctLength | train.py:112-115 | a duplicate-free id list is as long as its table has keys, so `len(ids)` equals `len(table)` |
| Train.PadShifted | train.py:72-79 | the padded row has length `max_seq_len`, holds value + 1 at positions below the guess count and 0 from there on |
| Train.EncodeSample | train.py:64-84 | the three rows are the padded, shifted song indices, artist indices and oracle feedback of the guesses, and the label is the target's index; an id missing from the index maps fails |
| Train.PaddedRange | train.py:76-79 | a padded row's non-zero entries are exactly the prefix of real guesses, and the shift keeps values within the bound plus one |
| Train.SampleFitsModel | train.py:72-115 | with the catalogue's own index maps, song entries stay below `len(songs) + 1`, artist entries below `len(artists) + 1`, feedback entries below `num_feedback = 4`, padding is exactly the tail, and the label lies in `0..num_lives-1` |

## Left out

- File input and output (`json.load`, `json.dump`, `load_json`) throughout. Every operation starts from already-parsed records and returns records.
- `prune_candidates` and `get_best_moves` are not part of this model: `game.py` does not define them. The song handler therefore stops at the scored guess (`Scored`), before candidate pruning, the "Candidates remaining" suffix and the history view that follow it.
- What a freshly started game's session holds: `game.py` never creates those attributes, so the model only records that the handlers fail on it.
- Entropy hints, the AI prediction handler, `model.py` and all torch code: floating point and neural-network code.
- The gradio layout, `init_game`, `play_cli`, `benchmark.py` and `evaluate.py`: user interface and orchestration of the parts above.
- Fuzzy name matching: a foreign library call. It is an input naming an index key.
- Randomness: the target choice is "some live", and the guess generation of `generate_sample` (train.py:29-69) is an input sequence of guesses.
- Python dict and set ordering: enumerations are arbitrary duplicate-free lists.
- JSON values of other shapes, such as a missing `id` key or a non-string name. The raw records are typed, and a missing `artists`/`items` list is the empty sequence.
- The message wording other than the feedback headlines and labels: the handler messages are kinds (`SongNotFound`, `IncorrectLive(remaining)`, …).
- Prune.PruneGameData: the source overwrites `data['songs']` and `data['artists']` in place; the model returns the new dataset as a value.
- Game.LoveLiveGame.GuessSong: requires a chosen target for catalogue songs. The source raises an exception when it is called before `start_game`.
- Train.EncodeSample: requires at most `max_seq_len` guesses, as `random.randint(1, max_seq_len)` guarantees. It does not require at least one guess.
