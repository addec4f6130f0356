/**
 * The server's module-level state as one object, and each socket, route and
 * timer handler as a method that updates it in place.  Each method is proved
 * to perform the corresponding transition of module Round.
 */
module Server {
  import opened Wrappers
  import opened Tagging
  import opened Leaderboard
  import opened Presence
  import opened Round

  class Game {
    var currentItem: Option<Item>
    var currentRoundId: nat
    var roundStartTime: Option<int>
    var roundActive: bool
    /** socket id -> username, in insertion order */
    var onlineUsers: seq<Connection>
    /** usernames that voted to skip the current item */
    var skipVotes: set<string>
    var lastOnlineCount: nat
    /** the contents of the leaderboard file */
    var leaderboard: seq<Entry>
    /** every `io.emit`, oldest first */
    var broadcasts: seq<Event>
    /** the pending `setTimeout(startNewRound, ...)` calls */
    var timers: seq<Timer>

    function Snapshot(): State
      reads this
    {
      State(currentItem, currentRoundId, roundStartTime, roundActive, onlineUsers,
            skipVotes, lastOnlineCount, leaderboard, broadcasts, timers)
    }

    ghost predicate Valid()
      reads this
    {
      Consistent(Snapshot())
    }

    /** Module load: no round yet, nobody online, the stored leaderboard. */
    constructor (stored: seq<Entry>)
      ensures Valid() && Snapshot() == Boot(stored)
    {
      currentItem := None;
      currentRoundId := 0;
      roundStartTime := None;
      roundActive := false;
      onlineUsers := [];
      skipVotes := {};
      lastOnlineCount := 0;
      leaderboard := stored;
      broadcasts := [];
      timers := [];
    }

    /** `startNewRound`, with `Catalog[pick]` the random item. */
    method StartNewRound(pick: nat, now: int)
      requires Valid() && pick < |Catalog|
      modifies this
      ensures Valid() && Snapshot() == Round.StartNewRound(old(Snapshot()), Catalog[pick], now)
    {
      ghost var before := Snapshot();
      var item := Catalog[pick];
      currentItem, currentRoundId, roundStartTime, roundActive, skipVotes :=
        Some(item), currentRoundId + 1, Some(now), true, {};
      var needed := CountUsernames(onlineUsers);
      broadcasts := broadcasts + [SkipStatus(|skipVotes|, needed), RoundStarted(item, currentRoundId, now)];
      StartNewRoundIs(before, item, now, needed, Snapshot());
    }

    /** `broadcastOnlineUsers`. */
    method BroadcastOnlineUsers(now: int)
      requires Valid()
      modifies this
      ensures Valid() && Snapshot() == Round.BroadcastOnlineUsers(old(Snapshot()), now)
    {
      ghost var before := Snapshot();
      var users := DistinctUsernames(onlineUsers);
      var newCount := |users|;
      var start := roundStartTime;
      if lastOnlineCount == 0 && newCount > 0 {
        if roundActive {
          start := Some(now);
        }
      }
      broadcasts, roundStartTime, lastOnlineCount :=
        broadcasts + [OnlineUsers(users), SkipStatus(|skipVotes|, newCount)], start, newCount;
      BroadcastOnlineUsersIs(before, now, users, Snapshot());
    }

    /** The `registerUser` event of socket `socket`. */
    method RegisterUser(socket: SocketId, username: string, now: int)
      requires Valid()
      modifies this
      ensures Valid() && Snapshot() == Round.RegisterUser(old(Snapshot()), socket, username, now)
    {
      SetKeepsKeysUnique(onlineUsers, socket, username);
      onlineUsers := Presence.Set(onlineUsers, socket, username);
      BroadcastOnlineUsers(now);
    }

    /** The `disconnect` event of socket `socket`. */
    method Disconnect(socket: SocketId, now: int)
      requires Valid()
      modifies this
      ensures Valid() && Snapshot() == Round.Disconnect(old(Snapshot()), socket, now)
    {
      onlineUsers := Delete(onlineUsers, socket);
      BroadcastOnlineUsers(now);
    }

    /** The `voteSkip` event of socket `socket`. */
    method VoteSkip(socket: SocketId)
      requires Valid()
      modifies this
      ensures Valid() && Snapshot() == Round.VoteSkip(old(Snapshot()), socket)
    {
      ghost var before := Snapshot();
      var username := Lookup(onlineUsers, socket);
      if username.None? || username.value == "" {
        assert Voter(before, socket).None?;
        return;
      }
      assert Voter(before, socket) == username;
      var votes := skipVotes + {username.value};
      var needed := CountUsernames(onlineUsers);
      var status := broadcasts + [SkipStatus(|votes|, needed)];
      var active, events, pending := roundActive, status, timers;
      if roundActive && needed > 0 && |votes| >= needed {
        active, events, pending := false, status + [RoundSkipped(currentItem, currentRoundId)], timers + [SkipGrace];
      }
      CastVoteIs(before, username.value, needed, before.(votes := votes, active := active, events := events, timers := pending));
      skipVotes, roundActive, broadcasts, timers := votes, active, events, pending;
    }

    /**
     * The upload route up to its `await`: None when the classifier is to be
     * called, otherwise the immediate answer.  Nothing changes.
     */
    method BeginUpload(hasFile: bool) returns (early: Option<UploadResponse>)
      requires Valid()
      ensures early == UploadGuard(Snapshot(), hasFile)
      ensures early.None? ==> roundActive
    {
      if !hasFile {
        return Some(Failed);
      }
      if !roundActive {
        return Some(NotActive);
      }
      return None;
    }

    /** The upload route after its `await`: `verdict` is what `checkImageWithAzure` resolved to. */
    method FinishUpload(username: string, targetLabel: string, verdict: Verdict, now: int) returns (response: UploadResponse)
      requires Valid()
      modifies this
      ensures Valid()
      ensures var o := ResumeUpload(old(Snapshot()), username, targetLabel, verdict, now);
        Snapshot() == o.state && response == o.response
    {
      ghost var before := Snapshot();
      match verdict
      case Threw =>
        return Failed;
      case NoMatch(reported) =>
        return NotMatched(reported, targetLabel);
      case Match(confidence) =>
        var start := if roundStartTime.Some? then roundStartTime.value else 0;
        var durationMs := now - start;
        var board := IncrementScore(leaderboard, username);
        roundActive, leaderboard, broadcasts, timers :=
          false, board,
          broadcasts + [LeaderboardUpdated(board), RoundEnded(username, currentItem, durationMs, board, currentRoundId)],
          timers + [Intermission];
        ResumeUploadWinIs(before, username, targetLabel, confidence, now, Snapshot());
        return Matched(username, confidence, durationMs);
    }

    /** The pending timer at position `i` fires and starts a round with `Catalog[pick]`. */
    method TimerFires(i: nat, pick: nat, now: int)
      requires Valid() && i < |timers| && pick < |Catalog|
      modifies this
      ensures Valid() && Snapshot() == FireTimer(old(Snapshot()), i, Catalog[pick], now)
    {
      timers := timers[..i] + timers[i + 1..];
      StartNewRound(pick, now);
    }

    /** The leaderboard route's answer: the board sorted by score, highest first, stably. */
    function SortedLeaderboard(): (r: seq<Entry>)
      reads this
      ensures SortedByScore(r)
      ensures multiset(r) == multiset(leaderboard)
      ensures forall k: nat :: WithScore(r, k) == WithScore(leaderboard, k)
    {
      var sorted := SortByScoreDesc(leaderboard);
      assert forall k: nat :: WithScore(sorted, k) == WithScore(leaderboard, k) by {
        forall k: nat ensures WithScore(sorted, k) == WithScore(leaderboard, k) {
          SortIsStable(leaderboard, k);
        }
      }
      sorted
    }
  }
}
