/**
 * What the handlers promise when they interleave.  Two defects of the upload
 * and vote handlers are exhibited here on the as-written transitions, next to
 * corrected transitions for which the intended property is proved:
 *  - the upload route checks the active flag before the classifier call and
 *    not after it, so two uploads in flight can both win a round (or one can
 *    win a round that a skip already ended);
 *  - a vote stays in the vote set after its voter disconnects, so a round can
 *    be skipped although some online player never voted.
 */
module Races {
  import opened Wrappers
  import opened Tagging
  import opened Leaderboard
  import opened Presence
  import opened Round

  /** The round an event concludes: `roundEnded` and `roundSkipped` do. */
  function ConcludedRound(e: Event): Option<nat> {
    match e
    case RoundEnded(_, _, _, _, id) => Some(id)
    case RoundSkipped(_, id) => Some(id)
    case _ => None
  }

  /** No round is concluded twice in the event log. */
  predicate AtMostOneConclusion(events: seq<Event>) {
    forall i, j :: 0 <= i < j < |events| && ConcludedRound(events[i]).Some? ==>
      ConcludedRound(events[j]) != ConcludedRound(events[i])
  }

  /**
   * The invariant behind "one conclusion per round": conclusions name rounds
   * already started, and none names the round that is still active.
   */
  predicate Settled(s: State) {
    Consistent(s) && AtMostOneConclusion(s.events) &&
    forall i :: 0 <= i < |s.events| && ConcludedRound(s.events[i]).Some? ==>
      ConcludedRound(s.events[i]).value <= s.roundId &&
      (s.active ==> ConcludedRound(s.events[i]).value < s.roundId)
  }

  lemma BootSettled(stored: seq<Entry>)
    ensures Settled(Boot(stored))
  {
  }

  /** Appending events that conclude nothing keeps the invariant. */
  lemma {:induction false} QuietEventsKeepSettled(s: State, t: State, extra: seq<Event>)
    requires Settled(s) && Consistent(t)
    requires t.events == s.events + extra && t.roundId >= s.roundId
    requires t.active ==> s.active || t.roundId > s.roundId
    requires forall k :: 0 <= k < |extra| ==> ConcludedRound(extra[k]).None?
    ensures Settled(t)
  {
    assert forall k :: |s.events| <= k < |t.events| ==> ConcludedRound(t.events[k]).None? by {
      forall k | |s.events| <= k < |t.events| ensures ConcludedRound(t.events[k]).None? {
        assert t.events[k] == extra[k - |s.events|];
      }
    }
    assert forall k :: 0 <= k < |s.events| ==> t.events[k] == s.events[k];
  }

  /** Appending one conclusion of the active round ends it and keeps the invariant. */
  lemma ConcludingActiveRoundKeepsSettled(s: State, t: State, extra: seq<Event>, last: Event)
    requires Settled(s) && Consistent(t) && s.active && !t.active && t.roundId == s.roundId
    requires t.events == s.events + extra + [last] && ConcludedRound(last) == Some(s.roundId)
    requires forall k :: 0 <= k < |extra| ==> ConcludedRound(extra[k]).None?
    ensures Settled(t)
  {
    var mid := s.(events := s.events + extra);
    QuietEventsKeepSettled(s, mid, extra);
    forall i, j | 0 <= i < j < |t.events| && ConcludedRound(t.events[i]).Some?
      ensures ConcludedRound(t.events[j]) != ConcludedRound(t.events[i])
    {
      if j == |t.events| - 1 {
        assert t.events[i] == mid.events[i];
      } else {
        assert t.events[i] == mid.events[i] && t.events[j] == mid.events[j];
      }
    }
    forall i | 0 <= i < |t.events| && ConcludedRound(t.events[i]).Some?
      ensures ConcludedRound(t.events[i]).value <= t.roundId
    {
      if i < |t.events| - 1 { assert t.events[i] == mid.events[i]; }
    }
  }

  lemma StartNewRoundKeepsSettled(s: State, item: Item, now: int)
    requires Settled(s)
    ensures Settled(StartNewRound(s, item, now))
  {
    var t := StartNewRound(s, item, now);
    QuietEventsKeepSettled(s, t, [SkipStatus(0, |OnlineNames(s.online)|), RoundStarted(item, t.roundId, now)]);
  }

  lemma FireTimerKeepsSettled(s: State, i: nat, item: Item, now: int)
    requires Settled(s) && i < |s.timers|
    ensures Settled(FireTimer(s, i, item, now))
  {
    StartNewRoundKeepsSettled(s.(timers := s.timers[..i] + s.timers[i + 1..]), item, now);
  }

  lemma BroadcastOnlineUsersKeepsSettled(s: State, now: int)
    requires Settled(s)
    ensures Settled(BroadcastOnlineUsers(s, now))
  {
    var t := BroadcastOnlineUsers(s, now);
    QuietEventsKeepSettled(s, t, [OnlineUsers(Distinct(Names(s.online))), SkipStatus(|s.votes|, |OnlineNames(s.online)|)]);
  }

  lemma RegisterUserKeepsSettled(s: State, socket: SocketId, username: string, now: int)
    requires Settled(s)
    ensures Settled(RegisterUser(s, socket, username, now))
  {
    var online := Presence.Set(s.online, socket, username);
    SetKeepsKeysUnique(s.online, socket, username);
    BroadcastOnlineUsersKeepsSettled(s.(online := online), now);
  }

  lemma DisconnectKeepsSettled(s: State, socket: SocketId, now: int)
    requires Settled(s)
    ensures Settled(Disconnect(s, socket, now))
  {
    BroadcastOnlineUsersKeepsSettled(s.(online := Delete(s.online, socket)), now);
  }

  lemma VoteSkipKeepsSettled(s: State, socket: SocketId)
    requires Settled(s)
    ensures Settled(VoteSkip(s, socket))
  {
    var t := VoteSkip(s, socket);
    if Voter(s, socket).Some? {
      var votes := s.votes + {Voter(s, socket).value};
      var status := [SkipStatus(|votes|, |OnlineNames(s.online)|)];
      if SkipCompletes(s, votes) {
        ConcludingActiveRoundKeepsSettled(s, t, status, RoundSkipped(s.item, s.roundId));
      } else {
        QuietEventsKeepSettled(s, t, status);
      }
    }
  }

  /**
   * The upload route resumed as its own comment says it should: the win is
   * taken only if the round that passed the guard (`seenRound`) is still the
   * current, active one; otherwise the upload is answered as a late one.
   */
  function ResumeUploadRechecked(s: State, seenRound: nat, username: string, targetLabel: string, verdict: Verdict, now: int): (o: Outcome)
    ensures s.active && s.roundId == seenRound ==> o == ResumeUpload(s, username, targetLabel, verdict, now)
    ensures !(s.active && s.roundId == seenRound) ==> o.state == s
    ensures !(s.active && s.roundId == seenRound) && verdict.Match? ==> o.response == NotActive
    ensures o.response.Matched? ==> s.active && s.roundId == seenRound && !o.state.active
  {
    if s.active && s.roundId == seenRound then ResumeUpload(s, username, targetLabel, verdict, now)
    else if verdict.Match? then Outcome(s, NotActive)
    else ResumeUpload(s, username, targetLabel, verdict, now)
  }

  lemma ResumeUploadRecheckedKeepsSettled(s: State, seenRound: nat, username: string, targetLabel: string, verdict: Verdict, now: int)
    requires Settled(s)
    ensures Settled(ResumeUploadRechecked(s, seenRound, username, targetLabel, verdict, now).state)
  {
    if s.active && s.roundId == seenRound && verdict.Match? {
      var o := ResumeUpload(s, username, targetLabel, verdict, now);
      var board := Incremented(s.board, username);
      var duration := now - StartOf(s);
      ConcludingActiveRoundKeepsSettled(s, o.state, [LeaderboardUpdated(board)],
        RoundEnded(username, s.item, duration, board, s.roundId));
    }
  }

  /**
   * As written: two uploads that both passed the guard of the same active
   * round and both come back matched are both declared winners, the round is
   * concluded twice, the board gains two points and two intermission timers
   * are pending, so two new rounds will be started.
   */
  lemma InFlightUploadsBothWin(s: State, first: string, second: string, targetLabel: string, verdict: Verdict, now1: int, now2: int)
    requires Settled(s) && s.active
    requires verdict.Match?
    ensures UploadGuard(s, true).None?
    ensures var o1 := ResumeUpload(s, first, targetLabel, verdict, now1);
      var o2 := ResumeUpload(o1.state, second, targetLabel, verdict, now2);
      o1.response.Matched? && o2.response.Matched? &&
      !AtMostOneConclusion(o2.state.events) &&
      o2.state.timers == s.timers + [Intermission, Intermission]
  {
    var o1 := ResumeUpload(s, first, targetLabel, verdict, now1);
    var o2 := ResumeUpload(o1.state, second, targetLabel, verdict, now2);
    var n := |s.events|;
    assert ConcludedRound(o2.state.events[n + 1]) == Some(s.roundId);
    assert ConcludedRound(o2.state.events[n + 3]) == Some(s.roundId);
  }

  /**
   * As written: an upload in flight when the last skip vote arrives still
   * wins the round that was just skipped, and both a skip grace timer and an
   * intermission timer are pending.
   */
  lemma InFlightUploadWinsSkippedRound(s: State, socket: SocketId, winner: string, targetLabel: string, verdict: Verdict, now: int)
    requires Settled(s) && s.active
    requires Voter(s, socket).Some? && SkipCompletes(s, s.votes + {Voter(s, socket).value})
    requires verdict.Match?
    ensures var skipped := VoteSkip(s, socket);
      var o := ResumeUpload(skipped, winner, targetLabel, verdict, now);
      !skipped.active && o.response.Matched? &&
      !AtMostOneConclusion(o.state.events) &&
      o.state.timers == s.timers + [SkipGrace, Intermission]
  {
    var skipped := VoteSkip(s, socket);
    var o := ResumeUpload(skipped, winner, targetLabel, verdict, now);
    var n := |s.events|;
    assert ConcludedRound(o.state.events[n + 1]) == Some(s.roundId);
    assert ConcludedRound(o.state.events[n + 3]) == Some(s.roundId);
  }

  /** With the re-check, of two uploads in flight for one round only the first to resume wins. */
  lemma RecheckedUploadsHaveOneWinner(s: State, first: string, second: string, targetLabel: string, verdict: Verdict, now1: int, now2: int)
    requires Settled(s) && s.active
    requires verdict.Match?
    ensures var o1 := ResumeUploadRechecked(s, s.roundId, first, targetLabel, verdict, now1);
      var o2 := ResumeUploadRechecked(o1.state, s.roundId, second, targetLabel, verdict, now2);
      o1.response.Matched? && o2.response == NotActive && o2.state == o1.state &&
      Settled(o2.state)
  {
    ResumeUploadRecheckedKeepsSettled(s, s.roundId, first, targetLabel, verdict, now1);
  }

  // ---------------------------------------------------------------------
  // Votes of players who left
  // ---------------------------------------------------------------------

  /**
   * Three players online in round 1, nobody has voted yet.  Built by hand:
   * the round and presence fields are reachable, the event log is left empty.
   */
  function ThreePlayers(): (s: State)
    ensures Settled(s) && s.active
  {
    State(Some(Catalog[0]), 1, Some(0), true,
          [Connection("a", "alice"), Connection("b", "bob"), Connection("c", "carol")],
          {}, 3, [], [], [])
  }

  function AliceVoted(): State { VoteSkip(ThreePlayers(), "a") }
  function AliceLeft(): State { Disconnect(AliceVoted(), "a", 5) }
  function BobVoted(): State { VoteSkip(AliceLeft(), "b") }

  lemma ThreeNamesOnline()
    ensures OnlineNames(ThreePlayers().online) == {"alice", "bob", "carol"}
    ensures |OnlineNames(ThreePlayers().online)| == 3
  {
    var c := ThreePlayers().online;
    assert c[0].username == "alice" && c[1].username == "bob" && c[2].username == "carol";
    assert "alice" != "bob" && "bob" != "carol" && "alice" != "carol" by {
      assert "alice"[0] != "bob"[0] && "bob"[0] != "carol"[0] && "alice"[0] != "carol"[0];
    }
  }

  lemma AliceVoteCounted()
    ensures AliceVoted().active && AliceVoted().votes == {"alice"}
    ensures AliceVoted().online == ThreePlayers().online
  {
    ThreeNamesOnline();
    assert Lookup(ThreePlayers().online, "a") == Some("alice");
  }

  lemma DeleteFirstOfThree(c: seq<Connection>)
    requires c == [Connection("a", "alice"), Connection("b", "bob"), Connection("c", "carol")]
    ensures Delete(c, "a") == [Connection("b", "bob"), Connection("c", "carol")]
  {
    assert "b" != "a" && "c" != "a";
    assert c[1..][1..][1..] == [];
    assert Delete(c[1..][1..], "a") == [Connection("c", "carol")];
  }

  lemma AliceVoteOutlivesHer()
    ensures AliceLeft().active && AliceLeft().votes == {"alice"} && AliceLeft().roundId == 1
    ensures AliceLeft().online == [Connection("b", "bob"), Connection("c", "carol")]
  {
    var s1 := AliceVoted();
    AliceVoteCounted();
    DeleteFirstOfThree(s1.online);
    assert AliceLeft() == Disconnect(s1, "a", 5);
  }

  lemma TwoNamesOnline(c: seq<Connection>)
    requires c == [Connection("b", "bob"), Connection("c", "carol")]
    ensures OnlineNames(c) == {"bob", "carol"}
    ensures |OnlineNames(c)| == 2
  {
    assert c[0].username == "bob" && c[1].username == "carol";
    assert "bob" != "carol" by { assert "bob"[0] != "carol"[0]; }
  }

  lemma BobCompletesSkip(s: State)
    requires s.active && s.votes == {"alice"}
    requires s.online == [Connection("b", "bob"), Connection("c", "carol")]
    ensures !VoteSkip(s, "b").active
    ensures VoteSkip(s, "b").events[|VoteSkip(s, "b").events| - 1] == RoundSkipped(s.item, s.roundId)
    ensures "carol" in OnlineNames(s.online) && "carol" !in VoteSkip(s, "b").votes
  {
    TwoNamesOnline(s.online);
    assert Lookup(s.online, "b") == Some("bob");
    var votes := s.votes + {"bob"};
    assert votes == {"alice", "bob"};
    assert |votes| == 2 by { assert "alice"[0] != "bob"[0]; }
    assert "carol" !in votes by { assert "carol"[0] != "bob"[0] && "carol"[0] != "alice"[0]; }
    assert SkipCompletes(s, votes);
  }

  /**
   * As written: alice votes and leaves; bob's vote then makes two votes for
   * two online players and the round is skipped, though carol, who is
   * online, never voted.
   */
  lemma DepartedVoteCompletesSkip()
    ensures !BobVoted().active
    ensures BobVoted().events[|BobVoted().events| - 1] == RoundSkipped(Some(Catalog[0]), 1)
    ensures "carol" in OnlineNames(BobVoted().online) && "carol" !in BobVoted().votes
  {
    AliceVoteOutlivesHer();
    BobCompletesSkip(AliceLeft());
  }

  lemma SubsetSize<T>(a: set<T>, b: set<T>)
    requires a <= b
    ensures |b| == |a| + |b - a|
    ensures |a| >= |b| ==> a == b
  {
    assert b == a + (b - a);
  }

  /**
   * `voteSkip` counting, as its comment says, only the votes of players who
   * are online: the reported count never exceeds the needed count, and the
   * round is skipped only when every online username has voted.
   */
  function VoteSkipCountingOnline(s: State, socket: SocketId): (t: State)
    ensures Voter(s, socket).None? ==> t == s
    ensures Voter(s, socket).Some? ==> t.votes == s.votes + {Voter(s, socket).value}
    ensures |t.events| > |s.events| ==>
      t.events[|s.events|].SkipStatus? &&
      t.events[|s.events|].votes <= t.events[|s.events|].needed == |OnlineNames(s.online)|
    ensures s.active && !t.active ==> |OnlineNames(s.online)| > 0 && OnlineNames(s.online) <= t.votes
    ensures Voter(s, socket).Some? && s.active && |OnlineNames(s.online)| > 0 && OnlineNames(s.online) <= t.votes ==>
      !t.active
    ensures t.active ==> s.active
    ensures var skipped := s.active && !t.active;
      t.timers == s.timers + (if skipped then [SkipGrace] else []) &&
      (Voter(s, socket).Some? ==>
        t.events == s.events + [SkipStatus(|t.votes * OnlineNames(s.online)|, |OnlineNames(s.online)|)]
                    + (if skipped then [RoundSkipped(s.item, s.roundId)] else []))
    ensures t.roundId == s.roundId && t.online == s.online && t.board == s.board
    ensures t.item == s.item && t.startTime == s.startTime && t.lastOnlineCount == s.lastOnlineCount
  {
    match Voter(s, socket)
    case None => s
    case Some(u) =>
      var votes := s.votes + {u};
      var online := OnlineNames(s.online);
      var counted := votes * online;
      SubsetSize(counted, online);
      var status := s.(votes := votes, events := s.events + [SkipStatus(|counted|, |online|)]);
      if s.active && |online| > 0 && |counted| >= |online| then
        status.(active := false, events := status.events + [RoundSkipped(s.item, s.roundId)],
                timers := s.timers + [SkipGrace])
      else status
  }

  lemma VoteSkipCountingOnlineKeepsSettled(s: State, socket: SocketId)
    requires Settled(s)
    ensures Settled(VoteSkipCountingOnline(s, socket))
  {
    var t := VoteSkipCountingOnline(s, socket);
    if Voter(s, socket).Some? {
      var online := OnlineNames(s.online);
      var counted := (s.votes + {Voter(s, socket).value}) * online;
      var status := [SkipStatus(|counted|, |online|)];
      if s.active && |online| > 0 && |counted| >= |online| {
        ConcludingActiveRoundKeepsSettled(s, t, status, RoundSkipped(s.item, s.roundId));
      } else {
        QuietEventsKeepSettled(s, t, status);
      }
    }
  }

  // ---------------------------------------------------------------------
  // Reported votes never above needed
  // ---------------------------------------------------------------------

  /** Every `skipStatus` in the log reports no more votes than it needs. */
  predicate StatusWithinNeeded(events: seq<Event>) {
    forall i :: 0 <= i < |events| && events[i].SkipStatus? ==> events[i].votes <= events[i].needed
  }

  /**
   * As written: once more usernames have voted than are online (a voter left),
   * the presence broadcast reports more votes than it needs.
   */
  lemma StaleVotesOverCount(s: State, now: int)
    requires |OnlineNames(s.online)| < |s.votes|
    ensures !StatusWithinNeeded(BroadcastOnlineUsers(s, now).events)
  {
    var t := BroadcastOnlineUsers(s, now);
    assert t.events[|s.events| + 1] == SkipStatus(|s.votes|, |OnlineNames(s.online)|);
  }

  /**
   * As written, from the three-player state: after alice voted and left, bob and carol leave
   * too, and the last status reports alice's vote against nobody needed.
   */
  lemma DepartedVotesOutnumberOnline()
    ensures !StatusWithinNeeded(Disconnect(Disconnect(AliceLeft(), "b", 6), "c", 7).events)
  {
    AliceVoteOutlivesHer();
    var c := AliceLeft().online;
    assert "c" != "b";
    assert c[1..][1..] == [];
    assert Delete(c, "b") == [Connection("c", "carol")];
    var s1 := Disconnect(AliceLeft(), "b", 6);
    assert Delete(s1.online, "c") == [];
    StaleVotesOverCount(s1.(online := []), 7);
  }

  /**
   * `broadcastOnlineUsers` counting, like the corrected vote, only the votes
   * of usernames that are online; everything else as written.
   */
  function BroadcastOnlineUsersCountingOnline(s: State, now: int): (t: State)
    ensures t.events == s.events + [OnlineUsers(Distinct(Names(s.online))),
                                    SkipStatus(|s.votes * OnlineNames(s.online)|, |OnlineNames(s.online)|)]
    ensures t.events[|s.events| + 1].votes <= t.events[|s.events| + 1].needed
    ensures t == BroadcastOnlineUsers(s, now).(events := t.events)
  {
    var online := OnlineNames(s.online);
    SubsetSize(s.votes * online, online);
    BroadcastOnlineUsers(s, now).(events := s.events + [OnlineUsers(Distinct(Names(s.online))), SkipStatus(|s.votes * online|, |online|)])
  }

  lemma CountingBroadcastKeepsSettled(s: State, now: int)
    requires Settled(s)
    ensures Settled(BroadcastOnlineUsersCountingOnline(s, now))
  {
    var online := OnlineNames(s.online);
    QuietEventsKeepSettled(s, BroadcastOnlineUsersCountingOnline(s, now),
      [OnlineUsers(Distinct(Names(s.online))), SkipStatus(|s.votes * online|, |online|)]);
  }

  lemma StartNewRoundKeepsStatusWithinNeeded(s: State, item: Item, now: int)
    requires StatusWithinNeeded(s.events)
    ensures StatusWithinNeeded(StartNewRound(s, item, now).events)
  {
    var t := StartNewRound(s, item, now);
    assert t.events[|s.events|] == SkipStatus(0, |OnlineNames(s.online)|);
  }

  lemma FireTimerKeepsStatusWithinNeeded(s: State, i: nat, item: Item, now: int)
    requires StatusWithinNeeded(s.events) && i < |s.timers|
    ensures StatusWithinNeeded(FireTimer(s, i, item, now).events)
  {
    StartNewRoundKeepsStatusWithinNeeded(s.(timers := FireTimer(s, i, item, now).timers), item, now);
  }

  /** Registration and disconnection with the corrected broadcast: any presence table. */
  lemma CountingBroadcastKeepsStatusWithinNeeded(s: State, now: int)
    requires StatusWithinNeeded(s.events)
    ensures StatusWithinNeeded(BroadcastOnlineUsersCountingOnline(s, now).events)
  {
    var t := BroadcastOnlineUsersCountingOnline(s, now);
    assert t.events[|s.events|].OnlineUsers?;
  }

  lemma VoteSkipCountingOnlineKeepsStatusWithinNeeded(s: State, socket: SocketId)
    requires StatusWithinNeeded(s.events)
    ensures StatusWithinNeeded(VoteSkipCountingOnline(s, socket).events)
  {
    var t := VoteSkipCountingOnline(s, socket);
    if |t.events| > |s.events| + 1 {
      assert t.events[|s.events| + 1].RoundSkipped?;
    }
  }

  lemma ResumeUploadRecheckedKeepsStatusWithinNeeded(s: State, seenRound: nat, username: string, targetLabel: string, verdict: Verdict, now: int)
    requires StatusWithinNeeded(s.events)
    ensures StatusWithinNeeded(ResumeUploadRechecked(s, seenRound, username, targetLabel, verdict, now).state.events)
  {
    var t := ResumeUploadRechecked(s, seenRound, username, targetLabel, verdict, now).state;
    if t != s {
      assert t.events[|s.events|].LeaderboardUpdated? && t.events[|s.events| + 1].RoundEnded?;
    }
  }
}
