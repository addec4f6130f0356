# Scavenger-hunt round lifecycle, in Dafny

This project models the round lifecycle of the scavenger-hunt game server (`server/index.js`). Players register their sockets under a username. The server picks a target item and starts a round. A player wins the round by uploading a photo whose classifier tags match the label the client sends with it. The server never compares that label with the current item: it trusts the client, so any label, even the previous round's item, can win the current round (`Round.ResumeIgnoresItem`). If every online player votes to skip, the round is skipped instead. After a win or a skip, a timer starts the next round.

Modules:

- `Tagging` (tagging.dfy) is the pure decision inside `checkImageWithAzure`. It turns the classifier's answer into the `{ isCorrect, confidence }` pair that the upload route destructures. It takes the first tag with confidence at least 0.6 whose lower-cased name equals the lower-cased target, contains it, or is contained in it.
- `Leaderboard` (leaderboard.dfy) covers `incrementScore`'s find-or-append update, as a loop method proved against a specification function. It also covers the leaderboard route's sort: scores descending, stable.
- `Presence` (presence.dfy) models the `onlineUsers` Map, from socket id to username, as an insertion-ordered sequence of connections. It also models `Array.from(new Set(onlineUsers.values()))`, both as a loop method and as a function.
- `Round` (round.dfy) gives every handler as a pure transition over the whole server state. That state holds the round fields, the presence map, the skip-vote set, `lastOnlineCount`, the leaderboard, the log of `io.emit` broadcasts and the pending `setTimeout` calls. It also holds the lemmas about the handlers.
- `Server` (game.dfy) is class `Game`, with the same state as mutable fields. Each socket, route and timer handler is a method that updates those fields in place. Every method is proved to perform the corresponding `Round` transition.
- `Races` (races.dfy) states what "one conclusion per round" needs, as an invariant `Settled`. Every handler keeps it except the as-written upload resume `Round.ResumeUpload`; the corrected `Races.ResumeUploadRechecked` keeps it. The module exhibits the two ways the code as written breaks its own comments, and it proves corrected transitions.

Time (`Date.now()`), the random item pick (`getRandomItem`) and the classifier's answer are parameters. The upload route is split at its `await` into two steps:
- a guard (`UploadGuard`, `Game.BeginUpload`), which changes nothing;
- a resume step (`ResumeUpload`, `Game.FinishUpload`), which takes the verdict `CheckImage` computes from the classifier's reply.

Other handlers may run between the two steps. A fired `setTimeout` is the `FireTimer` / `Game.TimerFires` step: it removes that timer and runs `startNewRound`.

In three places the code does less than its own comments state. The model follows the code in all three:
- The comment at `server/index.js:220` says a correct upload wins only if the round is still active, so each round has one `roundEnded`. The code does not check `roundActive` again after the classifier call, so a round can be concluded twice (Findings, row 1).
- The comment at `server/index.js:353` says a round is skipped when all online users have voted. The code counts every stored vote, including those of players who left. A round can therefore be skipped with an online player who never voted. A `skipStatus` can also report more votes than it needs, as in `Races.DepartedVotesOutnumberOnline` (Findings, row 2).
- Nothing ties a timer to the round that started it. Every pending timer starts a new round when it fires. `Races.InFlightUploadsBothWin` and `Races.InFlightUploadWinsSkippedRound` show two timers pending for one round.

## Model

| member | source | states |
|---|---|---|
| Tagging.FirstQualifying | server/index.js:308-317 | the position `find` stops at: that tag qualifies and every earlier one does not; None exactly when no tag qualifies |
| Tagging.CheckImage | server/index.js:263-324 | a thrown call gives Threw; a `false` return destructures to NoMatch with no confidence; with tags, Match holds iff some tag qualifies, and then carries the first qualifying tag's confidence, which is at least 0.6; otherwise the reported confidence is 0 |
| Tagging.ToLowerIdempotent | server/index.js:301-309 | lower-casing an already lower-cased string changes nothing |
| Tagging.MatchIgnoresCase | server/index.js:301-316 | the verdict is the same when the target label, or every tag name, is replaced by its lower-cased form |
| Leaderboard.IndexOf | server/index.js:59 | the entry `board.find` returns: the first entry with that username, None iff there is none |
| Leaderboard.Incremented | server/index.js:57-67 | with an entry for the user: same length, the first such entry has one more point, every other entry is unchanged; without one: the board with `{ username, 1 }` appended |
| Leaderboard.FindEntry | server/index.js:59 | the linear search returns the first index holding the username, or None |
| Leaderboard.IncrementScore | server/index.js:57-67 | the push-then-increment update yields exactly `Incremented` |
| Leaderboard.IncrementAddsOne | server/index.js:57-67 | the winner's score rises by exactly one, also for a first win (0 to 1) |
| Leaderboard.IncrementKeepsOthers | server/index.js:57-67 | every other username keeps its score |
| Leaderboard.IncrementKeepsNamesUnique | server/index.js:59-63 | a board with one entry per username keeps that property |
| Leaderboard.InsertByScore | server/index.js:166 | insertion adds exactly the one entry (as a multiset) |
| Leaderboard.InsertKeepsOrder | server/index.js:166 | inserting into a board sorted by descending score keeps it sorted |
| Leaderboard.SortByScoreDesc | server/index.js:166 | the result is sorted by descending score and is a permutation of the board |
| Leaderboard.InsertKeepsTies | server/index.js:166 | insertion puts the new entry ahead of the entries with its own score |
| Leaderboard.SortIsStable | server/index.js:166 | for every score, the entries with that score come out in their board order |
| Presence.SocketIndex | server/index.js:76 | the position of a socket's entry: it holds that socket and no earlier one does; None iff the socket is absent |
| Presence.Lookup | server/index.js:340 | `onlineUsers.get`: None iff the socket has no entry, otherwise the username of its entry |
| Presence.Set | server/index.js:334 | `onlineUsers.set`: a known socket keeps its place and every socket keeps its position; a new socket is appended at the end |
| Presence.SetThenLookup | server/index.js:334 | after `set`, the socket maps to the new username and every other socket to what it mapped to before |
| Presence.SetKeepsKeysUnique | server/index.js:334 | `set` keeps one entry per socket |
| Presence.Delete | server/index.js:374 | `onlineUsers.delete`: no entry for the socket remains, every remaining entry was there before, one entry per socket is kept |
| Presence.DeleteAbsent | server/index.js:374 | deleting a socket without an entry leaves the Map unchanged |
| Presence.DeleteKeepsOrder | server/index.js:374 | when position `i` holds the socket's only entry, the delete removes exactly that position; the other entries stay in their insertion order |
| Presence.DeleteThenLookup | server/index.js:374 | after `delete`, every other socket maps to what it did |
| Presence.DistinctElements | server/index.js:87 | the distinct-usernames list has no duplicates and holds exactly the usernames online |
| Presence.DistinctCount | server/index.js:87-92 | its length, the `needed` of the skip status, is the number of distinct online usernames |
| Presence.DistinctUsernames | server/index.js:87 | the loop computes the distinct usernames in order of first appearance |
| Presence.CountUsernames | server/index.js:119-123 | `users.length` is the number of distinct online usernames |
| Round.Boot | server/index.js:70-79 | at load there is no round, nobody is online, no vote, the stored board, and the state is consistent |
| Round.StartNewRound | server/index.js:114-136 | the round id rises by exactly one; the round is active with the picked item, started at `now`, with no votes; `skipStatus(0, distinct online count)` then `roundStarted` are broadcast; nothing else changes; consistency is kept |
| Round.BroadcastOnlineUsers | server/index.js:84-107 | broadcasts the distinct usernames and the skip status; `lastOnlineCount` becomes the distinct count; the start time is reset to `now` only when the previous count was 0, the new one is positive and the round is active; round id, item, active flag and votes are untouched |
| Round.RegisterUser | server/index.js:333-336 | the Map is `set` on the socket, so the socket now maps to the username, other sockets are unchanged, then the presence broadcast runs; the round and votes are untouched |
| Round.Disconnect | server/index.js:372-376 | the Map is `delete`d on the socket, keeping the others' order, so the socket no longer maps to anyone, other sockets are unchanged, then the presence broadcast runs; the votes, including the departed player's, stay |
| Round.CastVote | server/index.js:344-368 | the vote set gains the username; `skipStatus` with the new vote count and the distinct online count is broadcast; the round is switched off, `roundSkipped` with the current item and round is broadcast and a grace timer is set exactly when the round was active, someone is online and votes reach needed |
| Round.VoteSkip | server/index.js:339-369 | a socket without a (non-empty) username changes nothing; otherwise the vote is cast; consistency is kept |
| Round.UploadGuard | server/index.js:178-197 | a request without a file fails (500); with a file, the classifier is called iff the round is active, and otherwise the answer is `round_not_active` |
| Round.ResumeUpload | server/index.js:199-254 | a failed classifier call answers `Failed` (500); a non-match answers `NotMatched` with the reported confidence and the client's label; a match answers `Matched` with the uploader, the tag's confidence and the time since the round started; non-wins change no state; a win switches the round off, keeps its id and adds the intermission timer |
| Round.ResumeIgnoresItem | server/index.js:181-203 | the answer does not depend on the round's item: only the label the client sent is matched |
| Round.FireTimer | server/index.js:242-245 | the fired timer is removed (exactly one copy) and `startNewRound` runs on what is left: next id, active, the picked item, started at `now`, no votes, `skipStatus(0, distinct online count)` then `roundStarted` broadcast; presence, `lastOnlineCount` and board unchanged |
| Round.WinAnnouncesBoardFirst | server/index.js:220-238 | a win broadcasts `leaderboardUpdated` then `roundEnded`, both carrying the new board, which names the winner, the current round and item; the winner gains one point, everyone else keeps theirs |
| Round.WinDurationIsElapsedTime | server/index.js:222-223 | in a consistent state with a round, the reported duration is `now` minus the round's start time |
| Round.VoteSkipIdempotent | server/index.js:344-351 | a repeated vote from the same socket leaves votes, active flag and timers as they are and only repeats the status broadcast |
| Round.NoSkipWithNobodyOnline | server/index.js:340-354 | with nobody online a vote changes nothing, so a round is never skipped |
| Round.SkipNeedsActiveRoundAndQuorum | server/index.js:354-362 | a vote that ends an active round comes from a registered username, needs someone online and at least as many votes as online usernames, and ends with `roundSkipped` for the current item and round |
| Races.BootSettled | server/index.js:70-79 | the loaded state satisfies the one-conclusion-per-round invariant |
| Races.StartNewRoundKeepsSettled | server/index.js:114-136 | starting a round keeps the invariant |
| Races.FireTimerKeepsSettled | server/index.js:242-245 | a fired timer keeps the invariant |
| Races.BroadcastOnlineUsersKeepsSettled | server/index.js:84-107 | the presence broadcast keeps the invariant |
| Races.RegisterUserKeepsSettled | server/index.js:333-336 | registration keeps the invariant |
| Races.DisconnectKeepsSettled | server/index.js:372-376 | a disconnect keeps the invariant |
| Races.VoteSkipKeepsSettled | server/index.js:339-369 | a vote keeps the invariant: a skip concludes only the active round |
| Races.InFlightUploadsBothWin | server/index.js:191-245 | as written: two uploads that passed the guard of one active round and both match are both answered as wins, the round is concluded twice and two intermission timers are pending |
| Races.InFlightUploadWinsSkippedRound | server/index.js:220-238 | as written: an upload in flight when the deciding skip vote arrives still wins the skipped round, which is then concluded twice |
| Races.ResumeUploadRechecked | server/index.js:220-221 | corrected resume: on the round that passed the guard, still active, it is the as-written resume; otherwise nothing changes and a matching upload is answered `round_not_active`; a win implies the round was still current and active |
| Races.ResumeUploadRecheckedKeepsSettled | server/index.js:220-221 | the corrected resume keeps the invariant |
| Races.RecheckedUploadsHaveOneWinner | server/index.js:220-221 | with the re-check, of two matching uploads for one round exactly the first to resume wins, the second is answered `round_not_active` and changes nothing, and the invariant holds |
| Races.DepartedVoteCompletesSkip | server/index.js:344-376 | as written, from the hand-built three-player state of round 1: alice votes and leaves, bob votes, and the round is skipped though carol, who is online, never voted |
| Races.VoteSkipCountingOnline | server/index.js:339-369 | corrected vote: it counts only votes of online usernames, so its status never reports more votes than needed; an active round is skipped iff someone is online and every online username has voted; on a skip `roundSkipped` for the current item and round and a grace timer are added, otherwise active flag and timers are unchanged; item, start time, presence and board never change |
| Races.VoteSkipCountingOnlineKeepsSettled | server/index.js:339-369 | the corrected vote keeps the invariant |
| Races.StaleVotesOverCount | server/index.js:87-92 | as written: with more stored votes than online usernames, the presence broadcast reports more votes than needed |
| Races.DepartedVotesOutnumberOnline | server/index.js:372-376 | as written, from the hand-built three-player state of round 1 (reachable except for its empty event log): alice votes and leaves, then bob and carol leave, and the last `skipStatus` reports 1 vote against 0 needed |
| Races.BroadcastOnlineUsersCountingOnline | server/index.js:84-107 | corrected presence broadcast: the same as written except that the status counts only votes of online usernames, never more than needed |
| Races.CountingBroadcastKeepsSettled | server/index.js:84-107 | the corrected broadcast keeps the one-conclusion invariant |
| Races.StartNewRoundKeepsStatusWithinNeeded | server/index.js:114-136 | starting a round keeps every reported status within needed |
| Races.FireTimerKeepsStatusWithinNeeded | server/index.js:242-245 | a fired timer keeps every reported status within needed |
| Races.CountingBroadcastKeepsStatusWithinNeeded | server/index.js:84-107 | the corrected broadcast, after any register or disconnect, keeps every reported status within needed |
| Races.VoteSkipCountingOnlineKeepsStatusWithinNeeded | server/index.js:339-369 | the corrected vote keeps every reported status within needed |
| Races.ResumeUploadRecheckedKeepsStatusWithinNeeded | server/index.js:199-254 | the corrected upload resume keeps every reported status within needed |
| Server.Game.constructor | server/index.js:70-79 | the object starts in the load state |
| Server.Game.StartNewRound | server/index.js:114-136 | updates the fields exactly as `Round.StartNewRound` with the picked catalog item |
| Server.Game.BroadcastOnlineUsers | server/index.js:84-107 | updates the fields exactly as `Round.BroadcastOnlineUsers` |
| Server.Game.RegisterUser | server/index.js:333-336 | updates the fields exactly as `Round.RegisterUser` |
| Server.Game.Disconnect | server/index.js:372-376 | updates the fields exactly as `Round.Disconnect` |
| Server.Game.VoteSkip | server/index.js:339-369 | updates the fields exactly as `Round.VoteSkip` |
| Server.Game.BeginUpload | server/index.js:178-197 | answers as `Round.UploadGuard` and changes nothing; it lets the classifier be called only on an active round |
| Server.Game.FinishUpload | server/index.js:199-254 | answers and updates the fields exactly as `Round.ResumeUpload` |
| Server.Game.TimerFires | server/index.js:242-245 | updates the fields exactly as `Round.FireTimer` |
| Server.Game.SortedLeaderboard | server/index.js:164-168 | the route's answer is sorted by descending score, a permutation of the board, and stable for equal scores |

## Left out

- The Express, multer, socket.io and `node-fetch` plumbing, the login route and the current-item route: these are transport, with no round logic beyond what they read.
- The classifier's HTTP request, its configuration check and the reading of the image file: a foreign network service. Its outcome is the `Reply` input, and `CheckImage` turns that into the verdict.
- Round.ResumeUpload: takes the verdict rather than the classifier's reply, so it does not restate the tag matching; `Tagging.CheckImage` states that part.
- Server.Game.FinishUpload: takes the verdict for the same reason.
- Reading and writing the leaderboard file: the board is kept in memory. A read or write that throws is not modelled. In the code, such a throw after line 221 answers 500 with the round already switched off and no intermission timer scheduled, so no new round would ever start.
- Temp-file deletion after the classification: filesystem I/O with no effect on the state.
- `setTimeout` delays and ordering: a pending timer is an entry of the timer list, and any pending timer may fire next (`FireTimer`). The delays (10000 ms and 3000 ms) are only recorded by `DelayMs`.
- `Math.random` in `getRandomItem`: the pick is an index into the four-item catalog of `server/items.js`.
- Tagging.ToLower: lower-cases ASCII letters only, where JavaScript's `toLowerCase` also folds other scripts.
- Confidences are Dafny `real`s, not floating point.
- Presence.Set: usernames are strings; socket.io would accept any value a client sends.
- A username is an arbitrary string; a client can register as anyone, with no check against the login route.
- Logging (`console.log`/`console.error`) has no effect on the state and is not modelled.

## Findings

| source | as written | input that shows it | evidently intended | confidence | as-written member | corrected member |
|---|---|---|---|---|---|---|
| server/index.js:220-221 | after the `await` the win path sets `roundActive = false` without checking it again, although the comment says "if correct and round is still active" | two uploads for the same active round both pass the guard at line 191 and both match; both are answered as winners, `roundEnded` is broadcast twice for one round id, the board gains two points and two intermission timers start two new rounds | only the first matching upload of an active round wins; a later one gets `round_not_active` | not executed | Races.InFlightUploadsBothWin | Races.ResumeUploadRechecked |
| server/index.js:344-354 | `votes` is the size of `skipVotes`, which keeps the votes of players who disconnected, while `needed` counts only online usernames | alice, bob and carol are online; alice votes and disconnects; bob votes: 2 votes against 2 needed, and the round is skipped although carol never voted. If bob and carol leave instead, the status reports 1 vote against 0 needed | a round is skipped only when all online users have voted, as the comment at line 353 says, and no `skipStatus` reports more votes than needed (with the vote and the presence broadcast both counting online voters only) | not executed | Races.DepartedVoteCompletesSkip | Races.VoteSkipCountingOnline |

The `Game` class follows the code as written. The corrected transitions are in module `Races`, next to their proofs: `Races.RecheckedUploadsHaveOneWinner`, `Races.ResumeUploadRecheckedKeepsSettled`, `Races.VoteSkipCountingOnlineKeepsSettled` and the `…KeepsStatusWithinNeeded` lemmas. In the corrected system, register and disconnect run `Races.BroadcastOnlineUsersCountingOnline` in place of the presence broadcast.
