/**
 * The round lifecycle of the game server, one pure transition per event
 * handler: the module-level round state (current item, round id, start time,
 * active flag), the presence Map, the skip-vote Set, the last online count,
 * the leaderboard, the log of broadcast events and the pending timers.
 * Time is the `now` argument; the random item pick is the `item` argument.
 */
module Round {
  import opened Wrappers
  import opened Tagging
  import opened Leaderboard
  import opened Presence

  /**
   * A catalog item.  Clients show `name` as the target, but the server matches
   * tags against whatever label the client sends with the upload.
   */
  datatype Item = Item(id: nat, name: string, hint: string)

  /** The item pool a round's target is drawn from. */
  const Catalog: seq<Item> := [
    Item(2, "Pen", "You write with it, not type."),
    Item(3, "Scissors", "Careful! Don't run with it!."),
    Item(4, "Notebook", "Lines, pages, and notes."),
    Item(6, "Paper Clip", "It keeps your papers together.")
  ]

  /** What `io.emit` sends to every client. */
  datatype Event =
    | OnlineUsers(users: seq<string>)
    | SkipStatus(votes: nat, needed: nat)
    | RoundStarted(item: Item, roundId: nat, startedAt: int)
    | LeaderboardUpdated(board: seq<Entry>)
    | RoundEnded(winner: string, endedItem: Option<Item>, durationMs: int, leaderboard: seq<Entry>, endedRound: nat)
    | RoundSkipped(skippedItem: Option<Item>, skippedRound: nat)

  /** A `setTimeout` that will call `startNewRound`. */
  datatype Timer = Intermission | SkipGrace

  function DelayMs(t: Timer): nat {
    match t
    case Intermission => 10000
    case SkipGrace => 3000
  }

  datatype State = State(
    item: Option<Item>,
    roundId: nat,
    startTime: Option<int>,
    active: bool,
    online: seq<Connection>,
    votes: set<string>,
    lastOnlineCount: nat,
    board: seq<Entry>,
    events: seq<Event>,
    timers: seq<Timer>)

  /** The JSON body the upload route answers with. */
  datatype UploadResponse =
    | Failed                                               // status 500, "Upload failed"
    | NotActive                                            // reason "round_not_active"
    | NotMatched(reported: Option<real>, targetLabel: string)
    | Matched(winner: string, confidence: real, durationMs: int)

  datatype Outcome = Outcome(state: State, response: UploadResponse)

  /** Facts every reachable state keeps. */
  predicate Consistent(s: State) {
    KeysUnique(s.online) &&
    (s.roundId > 0 <==> s.item.Some?) &&
    (s.roundId > 0 <==> s.startTime.Some?) &&
    (s.active ==> s.roundId > 0)
  }

  /** The state at module load, with the leaderboard file's contents. */
  function Boot(stored: seq<Entry>): (s: State)
    ensures Consistent(s)
    ensures s.roundId == 0 && !s.active && s.item.None? && s.startTime.None?
    ensures s.online == [] && s.votes == {} && s.lastOnlineCount == 0
    ensures s.board == stored && s.events == [] && s.timers == []
  {
    State(None, 0, None, false, [], {}, 0, stored, [], [])
  }

  /** `Date.now() - roundStartTime`, where a null start time counts as 0. */
  function StartOf(s: State): int {
    match s.startTime
    case Some(t) => t
    case None => 0
  }

  /** `startNewRound`, with `item` the randomly picked target. */
  function StartNewRound(s: State, item: Item, now: int): (t: State)
    ensures t.roundId == s.roundId + 1
    ensures t.active && t.item == Some(item) && t.startTime == Some(now) && t.votes == {}
    ensures t.events == s.events + [SkipStatus(0, |OnlineNames(s.online)|), RoundStarted(item, t.roundId, now)]
    ensures t.online == s.online && t.lastOnlineCount == s.lastOnlineCount
    ensures t.board == s.board && t.timers == s.timers
    ensures Consistent(s) ==> Consistent(t)
  {
    var id := s.roundId + 1;
    var votes: set<string> := {};
    s.(item := Some(item), roundId := id, startTime := Some(now), active := true, votes := votes,
       events := s.events + [SkipStatus(|votes|, |OnlineNames(s.online)|), RoundStarted(item, id, now)])
  }

  /**
   * A state with these fields is the one `StartNewRound` yields: plumbing that
   * lets `Server.Game.StartNewRound` build the new state field by field.
   */
  lemma StartNewRoundIs(s: State, item: Item, now: int, needed: nat, t: State)
    requires needed == |OnlineNames(s.online)|
    requires t.item == Some(item) && t.roundId == s.roundId + 1 && t.startTime == Some(now) && t.active
    requires t.votes == {} && t.online == s.online && t.lastOnlineCount == s.lastOnlineCount
    requires t.board == s.board && t.timers == s.timers
    requires t.events == s.events + [SkipStatus(0, needed), RoundStarted(item, s.roundId + 1, now)]
    ensures t == StartNewRound(s, item, now)
  {
  }

  /**
   * `broadcastOnlineUsers`: announce the distinct usernames and the skip
   * status, and restart the round clock when the room stops being empty.
   */
  function BroadcastOnlineUsers(s: State, now: int): (t: State)
    ensures t.events == s.events + [OnlineUsers(Distinct(Names(s.online))), SkipStatus(|s.votes|, |OnlineNames(s.online)|)]
    ensures t.lastOnlineCount == |OnlineNames(s.online)|
    ensures t.startTime == if s.lastOnlineCount == 0 && |OnlineNames(s.online)| > 0 && s.active then Some(now) else s.startTime
    ensures t.item == s.item && t.roundId == s.roundId && t.active == s.active && t.votes == s.votes
    ensures t.online == s.online && t.board == s.board && t.timers == s.timers
    ensures Consistent(s) ==> Consistent(t)
  {
    var users := Distinct(Names(s.online));
    DistinctCount(s.online);
    var newCount := |users|;
    var start := if s.lastOnlineCount == 0 && newCount > 0 && s.active then Some(now) else s.startTime;
    s.(events := s.events + [OnlineUsers(users), SkipStatus(|s.votes|, newCount)],
       startTime := start, lastOnlineCount := newCount)
  }

  /**
   * A state with these fields is the one `BroadcastOnlineUsers` yields: plumbing
   * for `Server.Game.BroadcastOnlineUsers`.
   */
  lemma BroadcastOnlineUsersIs(s: State, now: int, users: seq<string>, t: State)
    requires users == Distinct(Names(s.online))
    requires t.events == s.events + [OnlineUsers(users), SkipStatus(|s.votes|, |users|)]
    requires t.startTime == if s.lastOnlineCount == 0 && |users| > 0 && s.active then Some(now) else s.startTime
    requires t.lastOnlineCount == |users|
    requires t.item == s.item && t.roundId == s.roundId && t.active == s.active && t.votes == s.votes
    requires t.online == s.online && t.board == s.board && t.timers == s.timers
    ensures t == BroadcastOnlineUsers(s, now)
  {
  }

  /** The `registerUser` handler of socket `socket`. */
  function RegisterUser(s: State, socket: SocketId, username: string, now: int): (t: State)
    ensures t.online == Presence.Set(s.online, socket, username)
    ensures Lookup(t.online, socket) == Some(username)
    ensures forall other :: other != socket ==> Lookup(t.online, other) == Lookup(s.online, other)
    ensures t == BroadcastOnlineUsers(s.(online := t.online), now)
    ensures t.votes == s.votes && t.roundId == s.roundId && t.item == s.item && t.active == s.active
    ensures Consistent(s) ==> Consistent(t)
  {
    SetKeepsKeysUnique(s.online, socket, username);
    SetThenLookup(s.online, socket, username);
    BroadcastOnlineUsers(s.(online := Presence.Set(s.online, socket, username)), now)
  }

  /** The `disconnect` handler of socket `socket`; its username's skip vote stays. */
  function Disconnect(s: State, socket: SocketId, now: int): (t: State)
    ensures t.online == Delete(s.online, socket)
    ensures Lookup(t.online, socket).None?
    ensures forall other :: other != socket ==> Lookup(t.online, other) == Lookup(s.online, other)
    ensures t == BroadcastOnlineUsers(s.(online := t.online), now)
    ensures t.votes == s.votes && t.roundId == s.roundId && t.item == s.item && t.active == s.active
    ensures Consistent(s) ==> Consistent(t)
  {
    assert forall other :: other != socket ==> Lookup(Delete(s.online, socket), other) == Lookup(s.online, other) by {
      forall other | other != socket ensures Lookup(Delete(s.online, socket), other) == Lookup(s.online, other) {
        DeleteThenLookup(s.online, socket, other);
      }
    }
    BroadcastOnlineUsers(s.(online := Delete(s.online, socket)), now)
  }

  /** The username `voteSkip` acts for: the socket's, when it is registered and not empty. */
  function Voter(s: State, socket: SocketId): Option<string> {
    match Lookup(s.online, socket)
    case Some(u) => if u == "" then None else Some(u)
    case None => None
  }

  /** `voteSkip` switches the round off exactly when this holds after the vote is added. */
  predicate SkipCompletes(s: State, votes: set<string>) {
    s.active && |OnlineNames(s.online)| > 0 && |votes| >= |OnlineNames(s.online)|
  }

  /**
   * `voteSkip` once the socket's username `u` is known: record the vote,
   * announce the status and skip the round when the vote completes it.
   */
  function CastVote(s: State, u: string): (t: State)
    ensures t.votes == s.votes + {u}
    ensures t.active == (s.active && !SkipCompletes(s, t.votes))
    ensures t.events == s.events + [SkipStatus(|t.votes|, |OnlineNames(s.online)|)]
                        + (if SkipCompletes(s, t.votes) then [RoundSkipped(s.item, s.roundId)] else [])
    ensures t.timers == s.timers + (if SkipCompletes(s, t.votes) then [SkipGrace] else [])
    ensures t.item == s.item && t.roundId == s.roundId && t.startTime == s.startTime
    ensures t.online == s.online && t.lastOnlineCount == s.lastOnlineCount && t.board == s.board
    ensures Consistent(s) ==> Consistent(t)
  {
    var votes := s.votes + {u};
    var needed := |OnlineNames(s.online)|;
    var status := s.(votes := votes, events := s.events + [SkipStatus(|votes|, needed)]);
    if s.active && needed > 0 && |votes| >= needed then
      status.(active := false, events := status.events + [RoundSkipped(s.item, s.roundId)],
              timers := s.timers + [SkipGrace])
    else status
  }

  /** A state with these fields is the one `CastVote` yields: plumbing for `Server.Game.VoteSkip`. */
  lemma CastVoteIs(s: State, u: string, needed: nat, t: State)
    requires needed == |OnlineNames(s.online)| && t.votes == s.votes + {u}
    requires t.item == s.item && t.roundId == s.roundId && t.startTime == s.startTime
    requires t.online == s.online && t.lastOnlineCount == s.lastOnlineCount && t.board == s.board
    requires var done := s.active && needed > 0 && |t.votes| >= needed;
      && t.active == (s.active && !done)
      && (done ==> t.events == s.events + [SkipStatus(|t.votes|, needed), RoundSkipped(s.item, s.roundId)])
      && (!done ==> t.events == s.events + [SkipStatus(|t.votes|, needed)])
      && t.timers == (if done then s.timers + [SkipGrace] else s.timers)
    ensures t == CastVote(s, u)
  {
  }

  /** The `voteSkip` handler of socket `socket`: a no-op unless the socket has a non-empty username. */
  function VoteSkip(s: State, socket: SocketId): (t: State)
    ensures Voter(s, socket).None? ==> t == s
    ensures Voter(s, socket).Some? ==> t == CastVote(s, Voter(s, socket).value)
    ensures Consistent(s) ==> Consistent(t)
  {
    match Voter(s, socket)
    case None => s
    case Some(u) => CastVote(s, u)
  }

  /**
   * The upload route up to the classifier call.  None: the classifier is
   * called; Some(r): the route answers r at once.  No state changes here.
   */
  function UploadGuard(s: State, hasFile: bool): (r: Option<UploadResponse>)
    ensures !hasFile ==> r == Some(Failed)
    ensures hasFile ==> (r.None? <==> s.active)
    ensures hasFile && !s.active ==> r == Some(NotActive)
  {
    if !hasFile then Some(Failed)
    else if !s.active then Some(NotActive)
    else None
  }

  /**
   * The upload route after `checkImageWithAzure` has resolved to `verdict`
   * (`CheckImage` of the classifier's reply), run on the state as it is at
   * that moment.  The active flag is not checked again.
   */
  function ResumeUpload(s: State, username: string, targetLabel: string, verdict: Verdict, now: int): (o: Outcome)
    ensures o.response.Matched? <==> verdict.Match?
    ensures verdict.Threw? ==> o.response == Failed
    ensures verdict.NoMatch? ==> o.response == NotMatched(verdict.reported, targetLabel)
    ensures verdict.Match? ==> o.response == Matched(username, verdict.confidence, now - StartOf(s))
    ensures !verdict.Match? ==> o.state == s
    ensures verdict.Match? ==> !o.state.active && o.state.roundId == s.roundId && o.state.timers == s.timers + [Intermission]
    ensures Consistent(s) ==> Consistent(o.state)
  {
    match verdict
    case Threw => Outcome(s, Failed)
    case NoMatch(reported) => Outcome(s, NotMatched(reported, targetLabel))
    case Match(confidence) =>
      var durationMs := now - StartOf(s);
      var board := Incremented(s.board, username);
      var t := s.(active := false, board := board,
                  events := s.events + [LeaderboardUpdated(board), RoundEnded(username, s.item, durationMs, board, s.roundId)],
                  timers := s.timers + [Intermission]);
      Outcome(t, Matched(username, confidence, durationMs))
  }

  /**
   * A state with these fields is the one a matched upload leaves behind:
   * plumbing for `Server.Game.FinishUpload`.
   */
  lemma ResumeUploadWinIs(s: State, username: string, targetLabel: string, confidence: real, now: int, t: State)
    requires t.item == s.item && t.roundId == s.roundId && t.startTime == s.startTime && !t.active
    requires t.online == s.online && t.votes == s.votes && t.lastOnlineCount == s.lastOnlineCount
    requires t.board == Incremented(s.board, username) && t.timers == s.timers + [Intermission]
    requires t.events == s.events + [LeaderboardUpdated(t.board), RoundEnded(username, s.item, now - StartOf(s), t.board, s.roundId)]
    ensures t == ResumeUpload(s, username, targetLabel, Match(confidence), now).state
  {
  }

  /** The pending timer at position `i` fires: it is dropped and `startNewRound` runs. */
  function FireTimer(s: State, i: nat, item: Item, now: int): (t: State)
    requires i < |s.timers|
    ensures t.roundId == s.roundId + 1 && t.active && t.votes == {}
    ensures t.item == Some(item) && t.startTime == Some(now)
    ensures t.events == s.events + [SkipStatus(0, |OnlineNames(s.online)|), RoundStarted(item, t.roundId, now)]
    ensures t.online == s.online && t.lastOnlineCount == s.lastOnlineCount && t.board == s.board
    ensures t.timers == s.timers[..i] + s.timers[i + 1..]
    ensures multiset(t.timers) + multiset{s.timers[i]} == multiset(s.timers)
    ensures t == StartNewRound(s.(timers := t.timers), item, now)
    ensures Consistent(s) ==> Consistent(t)
  {
    assert s.timers == s.timers[..i] + [s.timers[i]] + s.timers[i + 1..];
    StartNewRound(s.(timers := s.timers[..i] + s.timers[i + 1..]), item, now)
  }

  // ---------------------------------------------------------------------
  // Properties of the handlers
  // ---------------------------------------------------------------------

  /**
   * A win is announced with the board first: `leaderboardUpdated` comes
   * before `roundEnded`, both carry the board in which the winner already
   * has the extra point, and `roundEnded` names the current round and item.
   */
  lemma WinAnnouncesBoardFirst(s: State, username: string, targetLabel: string, verdict: Verdict, now: int)
    requires verdict.Match?
    ensures var t := ResumeUpload(s, username, targetLabel, verdict, now).state;
      |t.events| == |s.events| + 2 &&
      t.events[|s.events|].LeaderboardUpdated? &&
      t.events[|s.events| + 1].RoundEnded? &&
      t.events[|s.events| + 1].endedRound == s.roundId &&
      t.events[|s.events| + 1].endedItem == s.item &&
      t.events[|s.events| + 1].winner == username &&
      t.events[|s.events|].board == t.events[|s.events| + 1].leaderboard == t.board &&
      ScoreOf(t.board, username) == ScoreOf(s.board, username) + 1 &&
      (forall other :: other != username ==> ScoreOf(t.board, other) == ScoreOf(s.board, other))
  {
    IncrementAddsOne(s.board, username);
    forall other | other != username
      ensures ScoreOf(Incremented(s.board, username), other) == ScoreOf(s.board, other)
    {
      IncrementKeepsOthers(s.board, username, other);
    }
  }

  /** In a reachable state a win's duration is the time since the round clock started. */
  lemma WinDurationIsElapsedTime(s: State, username: string, targetLabel: string, verdict: Verdict, now: int)
    requires Consistent(s) && s.roundId > 0
    requires verdict.Match?
    ensures ResumeUpload(s, username, targetLabel, verdict, now).response.durationMs == now - s.startTime.value
  {
  }

  /**
   * The answer to an upload does not depend on the current item: the server
   * trusts the label the client sent, whatever item the round is about.
   */
  lemma ResumeIgnoresItem(s: State, other: Option<Item>, username: string, targetLabel: string, verdict: Verdict, now: int)
    ensures ResumeUpload(s.(item := other), username, targetLabel, verdict, now).response ==
            ResumeUpload(s, username, targetLabel, verdict, now).response
  {
  }

  /** A repeated vote by the same socket changes nothing but re-announces the same status. */
  lemma VoteSkipIdempotent(s: State, socket: SocketId)
    ensures var once := VoteSkip(s, socket);
      var twice := VoteSkip(once, socket);
      twice.votes == once.votes && twice.active == once.active && twice.timers == once.timers &&
      twice.events == once.events + (if Voter(s, socket).Some? then [SkipStatus(|once.votes|, |OnlineNames(s.online)|)] else [])
  {
    var once := VoteSkip(s, socket);
    assert once.online == s.online;
    if Voter(s, socket).Some? {
      assert Voter(once, socket) == Voter(s, socket);
      assert once.votes + {Voter(s, socket).value} == once.votes;
    }
  }

  /** With nobody online no socket can vote, so the round is never skipped. */
  lemma NoSkipWithNobodyOnline(s: State, socket: SocketId)
    requires OnlineNames(s.online) == {}
    ensures VoteSkip(s, socket) == s
  {
  }

  /** A skip happens only on an active round, and only once every online username count is reached. */
  lemma SkipNeedsActiveRoundAndQuorum(s: State, socket: SocketId)
    requires s.active && !VoteSkip(s, socket).active
    ensures Voter(s, socket).Some?
    ensures 0 < |OnlineNames(s.online)| <= |VoteSkip(s, socket).votes|
    ensures VoteSkip(s, socket).events[|VoteSkip(s, socket).events| - 1] == RoundSkipped(s.item, s.roundId)
  {
  }
}
