# Slot machine and duel stores of a chat bot, in Dafny

This project models the game core of a Telegram chat bot written in Rust. The bot has two
mini-games, and each keeps its state in an in-memory store.

- **The casino ledger** maps each player to a `Record`: name, points, tries taken and tries
  left today. A Slot command is refused when the player's record has no tries left.
  Otherwise the bot creates the record if it is missing (with 3 tries), spins once, and
  credits the points of the symbol the dice shows. Once a day, at every start-up, and when
  the maintainer asks, every record gets its 3 tries back. The Top command lists all records by points, highest
  first.
- **The duel table** keeps a win/lose record per player and the open duels, keyed by the
  message that announced them. A Duel command issued as a reply opens a duel between the
  sender and the replied-to user, with a penalty clamped to 2–15 minutes. Each duel has two
  throw slots. A press of the duel's button by a participant whose slot is still empty, and
  who is not muted, fills it. Once both slots are filled the throws are compared: the smaller throw loses, and equal
  throws are a draw.

Files, one module each:

- `types.dfy` (`Types`): identifiers, the Rust `i32`/`i64` ranges as newtypes, `Option`, `Ordering`.
- `casino.dfy` (`Casino`): `src/casino.rs`, plus the `Ledger` class that owns the map the bot shares.
- `duel.dfy` (`Duel`): `src/duel.rs`. `OneDuel` is a class because its throws are updated in
  place. `DuelTable` is the store.
- `handler.dfy` (`Handler`): the parts of `src/main.rs` that act on the stores. These are the
  Slot gate and spin, the maintainer's Refresh, the duel penalty clamp and announcement, and Top.
- `scenarios.dfy` (`Scenarios`): short client sessions proved from the contracts alone.

The code is modelled as written, including these places where one might expect more:
- `shoot` never updates the win/lose records.
- `shoot` never removes a decided duel from the open duels.
- `set_value` overwrites a filled slot. Only the button gate keeps players from throwing twice.
- A returning player keeps the name stored in their record.
- Records are created when a duel opens and stay at 0 wins, 0 losses.

A few consequences are proved:
- Through the gate a filled slot is never overwritten, so a duel is decided at most once
  (`Duel.DuelTable.RequestShot`).
- A player who duels themselves fills both slots with one throw, so the duel ends at once
  as a draw (`Duel.DuelTable.Shoot`).
- The record ordering looks at points only. Two different records with equal points compare
  `Equal` (`Casino.CompareIgnoresAllButPoints`), even though their derived equality says
  they differ.

## Model

| member | source | states |
|---|---|---|
| `Casino.NewRecord` | src/casino.rs:16-23 | a new record keeps the given name and has 0 points, 0 tries and 3 tries left; it satisfies the ledger invariant |
| `Casino.Spin` | src/casino.rs:24-28 | needs a try left (the counter is unsigned); takes exactly one try, counts exactly one more, adds the symbol's points, keeps the name, preserves the invariant (tries left ≤ 3, points ≤ 5 × tries) |
| `Casino.SpinAllEffect` | src/casino.rs:24-28 | a run of spins adds exactly the sum of their points, counts each spin once, uses one try per spin and keeps the name |
| `Casino.CompareRecords` | src/casino.rs:31-40 | records compare as their points do: Less, Equal or Greater exactly when the points are smaller, equal or larger |
| `Casino.CompareIgnoresAllButPoints` | src/casino.rs:31-35 | two different records with equal points still compare Equal, both ways |
| `Casino.CompareRecordsAntisymmetric` | src/casino.rs:36-40 | a < b exactly when b > a, and Equal is symmetric |
| `Casino.Points` | src/casino.rs:70-79 | every symbol is worth at most 5 points, and only `Nothing` is worth 0 |
| `Casino.AllResultsListsEachOnce` | src/casino.rs:43-49 | the table of symbols lists every symbol, and no symbol twice |
| `Casino.AllResultsSum` | src/casino.rs:70-79 | the five symbols are worth 11 points together |
| `Casino.Decode` | src/casino.rs:81-91 | the dice codes 1, 22, 43 and 64 decode to Bars, Grapes, Lemons and Sevens, each one exactly; every other `i32` decodes to Nothing, never to an error |
| `Casino.DiceCode` | src/casino.rs:81-91 | every symbol has a dice code that decodes back to it (0 for Nothing) |
| `Casino.WinningCodesRoundTrip` | src/casino.rs:81-91 | a code that decodes to a winning symbol is that symbol's only code |
| `Casino.UnknownCodeScoresZero` | src/casino.rs:70-91 | decoding and then scoring gives 0 exactly for the codes other than 1, 22, 43 and 64 |
| `Casino.Label` | src/casino.rs:58-67 | `Nothing` shows the empty text and each winning symbol a non-empty one |
| `Casino.LabelInjective` | src/casino.rs:58-67 | different symbols show different texts |
| `Casino.RefreshAll` | src/casino.rs:51-56 | same players; every entry gets 3 tries left, and keeps its points, tries and name; the ledger invariant is preserved |
| `Casino.RefreshIdempotent` | src/casino.rs:51-56 | refreshing twice equals refreshing once |
| `Casino.EachSymbolOnceEarnsEleven` | src/casino.rs:24-56 | a new player crediting each symbol once (three spins, a refresh, two spins) has 11 points and 5 tries |
| `Casino.Ledger.constructor` | src/main.rs:54 | the store starts with the loaded snapshot |
| `Casino.Ledger.Refresh` | src/casino.rs:51-56 | walking the entries in place leaves exactly the refreshed ledger |
| `Duel.NewDuelRecord` | src/duel.rs:21-25 | a new duel record has 0 wins and 0 losses |
| `Duel.CompareDuelRecords` | src/duel.rs:27-36 | duel records compare as their wins do, losses ignored |
| `Duel.Verdict` | src/duel.rs:148-153 | two completed throws always give a verdict: a draw exactly when they are equal, otherwise the participant with the strictly smaller throw loses |
| `Duel.VerdictSymmetric` | src/duel.rs:148-153 | swapping the two participants together with their throws gives the same verdict |
| `Duel.OneDuel.constructor` | src/duel.rs:52-70 | a new duel holds the given ids, names, message and time, with both throws empty |
| `Duel.OneDuel.CannotShoot` | src/duel.rs:71-79 | a user may throw exactly when they are the first participant with an empty slot or the second participant with an empty slot |
| `Duel.OneDuel.NotReady` | src/duel.rs:80-82 | a duel is not ready exactly when some participant may still throw |
| `Duel.OneDuel.SetValue` | src/duel.rs:83-90 | writes the slot of every participant equal to the id, even a filled one; a non-participant changes nothing; afterwards that participant may not throw; the self-duel invariant is kept |
| `Duel.OneDuel.OpponentName` | src/duel.rs:91-97 | for a loser who is a participant, gives (the other participant's name, the loser's name); any id other than the first participant is read as the second |
| `Duel.OneDuel.Results` | src/duel.rs:98-100 | callable only when both slots are filled, so the unwraps cannot fail; returns the two throws in order |
| `Duel.DuelTable.constructor` | src/duel.rs:111-118 | the loaded records with no duel open |
| `Duel.DuelTable.StartDuel` | src/duel.rs:122-136 | both players have a record afterwards: existing ones untouched, new ones at 0/0; under the key sits a fresh duel with the given ids, names and time and empty slots, replacing any earlier one; other duels stay |
| `Duel.DuelTable.Shoot` | src/duel.rs:138-154 | an unknown key gives no verdict and changes nothing; otherwise only that duel's slots change as `set_value` says; no verdict while a slot is empty, else the comparison of the throws; the records and the set of duels never change |
| `Duel.DuelTable.RequestShot` | src/duel.rs:167-198 | a press in a known duel by someone who may not throw, or who is muted, changes nothing; otherwise it throws as `shoot` does; a filled slot is never overwritten, and a duel already decided yields no further verdict |
| `Handler.DiceValue` | src/main.rs:245-248 | the dice reply's value, or 0 (which scores Nothing) when the reply is not a dice |
| `Handler.SlotStep` | src/main.rs:233-257 | a request is refused, with the ledger unchanged, exactly when the player has a record with 0 tries left; a player with no record is allowed; an allowed one applies one spin to the stored or new record (so spin never sees 0 tries left), touches no other player, reports the new tries and points, and keeps the invariant |
| `Handler.FirstSlotCreatesRecord` | src/main.rs:251-256 | a first-time player is stored under their current name with 1 try taken, 2 left and the spin's points |
| `Handler.SlotKeepsStoredName` | src/main.rs:251-256 | a returning player keeps the stored name |
| `Handler.SlotRunGrantsAllowance` | src/main.rs:234-256 | of N requests in a row exactly min(N, tries left) succeed (min(N, 3) for a new player); tries grow by that number; a run with no success changes nothing; other players are untouched |
| `Handler.SlotCommand` | src/main.rs:233-257 | the imperative gate, `entry().or_insert()` and `spin` leave exactly the ledger and outcome of `SlotStep` |
| `Handler.MaintainerCommand` | src/main.rs:97-110 | only the maintainer's Refresh refreshes the ledger; anyone else's changes nothing |
| `Handler.ClampTime` | src/main.rs:275-279 | the penalty is always in 2..15: 16 and above become 15, 2..15 stay, 1 and below become 2 |
| `Handler.ClampIdempotent` | src/main.rs:275-279 | clamping twice is clamping once |
| `Handler.ClampMonotone` | src/main.rs:275-279 | a longer requested penalty never gives a shorter one |
| `Handler.DuelCommand` | src/main.rs:274-308 | a command that is not a reply changes nothing; a reply opens a fresh duel under the announcement's id between sender and replied-to user, with the clamped penalty, and gives both a record |
| `Handler.ValuesByKeyComplete` | src/main.rs:369 | the map's values in key order list every record, one per player |
| `Handler.CollectValues` | src/main.rs:369 | collecting the ordered map's values yields them in ascending key order |
| `Handler.SortByPoints` | src/main.rs:370 | the vector ends sorted by non-decreasing points and is a permutation of what it was |
| `Handler.ReverseRecords` | src/main.rs:371 | the vector ends reversed and is a permutation of what it was |
| `Handler.TopCommand` | src/main.rs:368-373 | the standings are a permutation of all ledger records, ordered by non-increasing points |
| `Scenarios.SpinAlone` | src/main.rs:233-257 | an allowed request on a ledger holding only the requester (or nobody) leaves exactly that player's record after one spin |
| `Scenarios.SlotDay` | src/main.rs:233-257 | a new player gets three spins, is refused the fourth and spins again after the maintainer's Refresh |
| `Scenarios.DuelOfTwo` | src/duel.rs:167-198 | the first throw (5) leaves the duel pending; a repeat press (3) by the same player is ignored, so the other player's 4 loses to the kept 5; a later press gives no verdict and leaves both slots at 5 and 4; both records stay at 0/0 |
| `Scenarios.DrawAndMuted` | src/duel.rs:167-177 | equal throws draw; a muted participant's press in a duel whose other slot is filled gives no verdict and leaves their slot empty |

## Left out

- Chat transport: every message sent, edited or deleted, the dice messages, restricting the loser and answering callback queries. Values the transport supplies are parameters: the dice value, whether the presser is muted, the announcement's message id. A failed transport call ends the command before it touches its store (the `?` on `send_dice` at main.rs:244 and duel.rs:184, on `send_message` at main.rs:299); in the model every command that passes its gate reaches its store.
- Concurrency: each store is a single sequential object, and each command runs as one atomic step. The source takes the lock several times within one command, with awaited calls in between (main.rs:234-256, duel.rs:167-227), so two concurrent Slot requests could both pass the gate. That interleaving is not modelled.
- The daily timer (main.rs:70-83) and its snapshot write. Its first tick completes at once, so the bot also refreshes every record and rewrites the casino file at each start-up. Only the refresh it triggers is modelled (`Casino.Ledger.Refresh`), not when it fires.
- Persistence: `read_from_file`, `Duel::save`, the JSON snapshots. The constructors take the loaded maps.
- Markov text generation, sed-style replacement, Help/Maintainer texts and the random reply chance: foreign library calls, text output and randomness.
- The `dices` buffer of dice message ids (duel.rs:185, duel.rs:214-219): it only drives message deletion.
- The `q.data` check (duel.rs:178): the duel's button always carries data, so every press is taken to carry it.
- Panicking unwraps on a message without a sender (main.rs:237, main.rs:285): the handlers always receive a sender.
- Casino.Spin: requires a try left; what the source does on 0 (a panic in debug builds, a wrap-around in release builds) is not modelled.
- Casino.Record: `usize` counters are unbounded naturals; their overflow is not modelled.
- Handler.TopCommand: does not state the order among equal points (descending player id, from a stable sort of the key-ordered values followed by a reversal).
- Handler.SortByPoints: does not state that the sort is stable.
- Rendering of the Top list (`{:?}` formatting) and of the spin reply text.
