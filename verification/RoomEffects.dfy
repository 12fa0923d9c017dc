/** What each request leaves behind, in values: whoever reads these need not read the handlers. */
module RoomEffects {
  import opened Util
  import opened Video
  import opened RoleLattice
  import opened RoomModel
  import opened RoomInvariant
  import opened RoomRuns
  import opened RoomTheorems
  import RoomDecisions
  import RoomQueueTheorems
  import Timestamp
  import VideoQueue

  // ---------------------------------------------------------------- heartbeats

  /** The same viewers in the same order, the named one with the given status. */
  ghost predicate Relabelled(users: seq<Viewer>, after: seq<Viewer>, id: ClientId, status: PlayerStatus) {
    && |after| == |users|
    && forall i :: 0 <= i < |users| ==>
         after[i] == users[i].(status := if users[i].id == id then status else users[i].status)
  }

  lemma {:induction false} StatusIsWritten(users: seq<Viewer>, id: ClientId, status: PlayerStatus)
    requires UniqueIds(users)
    ensures Relabelled(users, WithStatus(users, id, status), id, status)
  {
    if users != [] {
      HeadIsUnique(users);
      if users[0].id == id {
        assert forall i :: 0 < i < |users| ==> users[i] == users[1..][i - 1];
      } else {
        StatusIsWritten(users[1..], id, status);
      }
    }
  }

  lemma AbsentIsUnchanged(users: seq<Viewer>, id: ClientId, status: PlayerStatus)
    requires FindUser(users, id).None?
    ensures Relabelled(users, users, id, status)
  {
    assert forall i :: 0 <= i < |users| ==> users[i] in users;
  }

  /** A viewer's patience ran out in this very evaluation. */
  ghost predicate RunsOut(s: State, id: ClientId) {
    && s.gate.Some? && s.now >= s.gate.value.startedAt + BUFFER_GATE_MAX_WAIT_MS
    && |s.users| == 1 && id in s.gate.value.waitingOn
  }

  ghost predicate IsHere(s: State, id: ClientId) {
    exists i :: 0 <= i < |s.users| && s.users[i].id == id
  }

  /**
   A reported status is recorded, for that viewer only. A status other than buffering restores
   the viewer's patience, unless the hold they were waited for runs out with this very report.
   */
  lemma HeartbeatIsRecorded(s: State, id: ClientId, status: PlayerStatus, prepared: Option<Prepared>)
    requires Inv(s)
    ensures var t := Handle(s, UpdateUserEvent(id, Some(status), prepared));
            && Relabelled(s.users, t.users, id, status)
            && forall other :: other in t.exhausted <==>
                 (other in s.exhausted && !(other == id && IsHere(s, id) && status != Buffering)) || RunsOut(s, other)
  {
    Found(s.users, id);
    if FindUser(s.users, id).None? {
      AbsentIsUnchanged(s.users, id, status);
      EvaluateKeeps(s);
    } else {
      StatusIsWritten(s.users, id, status);
      RecordedWhenHere(s, id, status, prepared);
    }
  }

  lemma RecordedWhenHere(s: State, id: ClientId, status: PlayerStatus, prepared: Option<Prepared>)
    requires Inv(s) && FindUser(s.users, id).Some?
    ensures var t := Handle(s, UpdateUserEvent(id, Some(status), prepared));
            && t.users == WithStatus(s.users, id, status)
            && forall other :: other in t.exhausted <==>
                 (other in s.exhausted && !(other == id && status != Buffering)) || RunsOut(s, other)
  {
    var u := Reported(s, id, status);
    ReportedKeeps(s, id, status);
    RecordedAfterReport(u, id, status, prepared);
    assert forall other :: RunsOut(u, other) <==> RunsOut(s, other);
  }

  lemma RecordedAfterReport(u: State, id: ClientId, status: PlayerStatus, prepared: Option<Prepared>)
    requires Inv(u)
    ensures var t := EvaluateGate(FinishPreparation(u, id, Some(status), prepared));
            && t.users == u.users
            && forall other :: other in t.exhausted <==> other in u.exhausted || RunsOut(u, other)
  {
    FinishKeeps(u, id, Some(status), prepared);
    FinishKeepsGate(u, id, Some(status), prepared);
    EvaluateKeeps(FinishPreparation(u, id, Some(status), prepared));
  }

  lemma Found(users: seq<Viewer>, id: ClientId)
    ensures FindUser(users, id).Some? <==> exists i :: 0 <= i < |users| && users[i].id == id
  {
    if FindUser(users, id).Some? {
      var i :| 0 <= i < |users| && users[i] == FindUser(users, id).value;
    } else {
      assert forall i :: 0 <= i < |users| ==> users[i] in users;
    }
  }

  /** A readiness report concerns a round, and a room held by the gate has none. */
  lemma FinishKeepsGate(s: State, id: ClientId, status: Option<PlayerStatus>, prepared: Option<Prepared>)
    requires Inv(s)
    ensures s.round.None? ==> FinishPreparation(s, id, status, prepared) == s
    ensures s.round.Some? ==> FinishPreparation(s, id, status, prepared).gate.None?
  {
    FinishKeeps(s, id, status, prepared);
  }

  /** A heartbeat without a status leaves the statuses alone. */
  lemma SilentHeartbeat(s: State, id: ClientId, prepared: Option<Prepared>)
    requires Inv(s)
    ensures Handle(s, UpdateUserEvent(id, None, prepared)).users == s.users
  {
    FinishKeeps(s, id, None, prepared);
    EvaluateKeeps(s);
    EvaluateKeeps(FinishPreparation(s, id, None, prepared));
  }

  /** The room waits for its viewers, and a new hold may begin. */
  ghost predicate WouldHold(s: State) {
    && (s.gatePauses || |s.users| == 1) && s.source.Some? && s.boost.None? && RoomDecisions.MayBegin(s)
  }

  ghost predicate Permitted(s: State, id: ClientId) {
    exists i :: 0 <= i < |s.users| && s.users[i].id == id && MayPlayPause(s.grants, s.users[i])
  }

  /**
   While the room plays, the buffering report of a viewer makes it hold for that viewer exactly
   when the viewer may play and still has patience, the room waits for its viewers, and a hold
   may begin; a held room does not play.
   */
  lemma BufferingReportHoldsIff(s: State, id: ClientId, prepared: Option<Prepared>)
    requires Inv(s) && s.playing
    ensures var t := Handle(s, UpdateUserEvent(id, Some(Buffering), prepared));
            && (t.gate.Some? && id in t.gate.value.waitingOn <==>
                  WouldHold(s) && Permitted(s, id) && id !in s.exhausted)
            && (t.gate.Some? ==> !t.playing)
  {
    var u := if FindUser(s.users, id).None? then s else Reported(s, id, Buffering);
    Found(s.users, id);
    if FindUser(s.users, id).Some? {
      StatusIsWritten(s.users, id, Buffering);
      ReportedKeeps(s, id, Buffering);
      FinishKeepsGate(u, id, Some(Buffering), prepared);
      BufferingHoldsUp(s, u, id);
    }
    RoomDecisions.HeldIff(u);
    RoomDecisions.WaitedForIff(u.users, u.grants, u.exhausted, id);
  }

  lemma BufferingHoldsUp(s: State, u: State, id: ClientId)
    requires Relabelled(s.users, u.users, id, Buffering) && u.grants == s.grants
    ensures RoomDecisions.HoldsUp(u.users, u.grants, id) <==> Permitted(s, id)
  {
    if Permitted(s, id) {
      var i :| 0 <= i < |s.users| && s.users[i].id == id && MayPlayPause(s.grants, s.users[i]);
      assert u.users[i].id == id && MayPlayPause(u.grants, u.users[i]) && u.users[i].status == Buffering;
    }
    if RoomDecisions.HoldsUp(u.users, u.grants, id) {
      var i :| 0 <= i < |u.users| && u.users[i].id == id && MayPlayPause(u.grants, u.users[i])
        && u.users[i].status == Buffering;
      assert s.users[i].id == id && MayPlayPause(s.grants, s.users[i]);
    }
  }

  /** Somebody other than the given viewer holds up the room. */
  ghost predicate OthersWaitedFor(s: State, id: ClientId) {
    exists other :: other != id && other !in s.exhausted && RoomDecisions.HoldsUp(s.users, s.grants, other)
  }

  /**
   A held viewer's recovery ends the hold exactly when nobody else is waited for, the room no
   longer waits for its viewers, or the hold is 15 s old; the room then plays on.
   */
  lemma RecoveryEndsHoldIff(s: State, id: ClientId, status: PlayerStatus, prepared: Option<Prepared>)
    requires Inv(s) && s.gate.Some? && IsHere(s, id) && status != Buffering
    ensures var t := Handle(s, UpdateUserEvent(id, Some(status), prepared));
            && (t.gate.None? <==>
                  !OthersWaitedFor(s, id) || !(s.gatePauses || |s.users| == 1)
                  || s.now >= s.gate.value.startedAt + BUFFER_GATE_MAX_WAIT_MS)
            && t.playing == t.gate.None?
  {
    Found(s.users, id);
    var u := Reported(s, id, status);
    StatusIsWritten(s.users, id, status);
    ReportedKeeps(s, id, status);
    FinishKeepsGate(u, id, Some(status), prepared);
    HereHeartbeat(s, id, status, prepared);
    RecoveredGate(s, u, id, status);
  }

  lemma HereHeartbeat(s: State, id: ClientId, status: PlayerStatus, prepared: Option<Prepared>)
    requires FindUser(s.users, id).Some?
    ensures Handle(s, UpdateUserEvent(id, Some(status), prepared))
            == EvaluateGate(FinishPreparation(Reported(s, id, status), id, Some(status), prepared))
  {
  }

  lemma RecoveredGate(s: State, u: State, id: ClientId, status: PlayerStatus)
    requires Inv(s) && Inv(u) && s.gate.Some? && Relabelled(s.users, u.users, id, status) && status != Buffering
    requires u == s.(users := u.users, exhausted := s.exhausted - {id}) && s.users != []
    ensures var t := EvaluateGate(u);
            && (t.gate.None? <==>
                  !OthersWaitedFor(s, id) || !(s.gatePauses || |s.users| == 1)
                  || s.now >= s.gate.value.startedAt + BUFFER_GATE_MAX_WAIT_MS)
            && t.playing == t.gate.None?
  {
    forall other
      ensures (other !in u.exhausted && RoomDecisions.HoldsUp(u.users, u.grants, other)) <==>
                (other != id && other !in s.exhausted && RoomDecisions.HoldsUp(s.users, s.grants, other))
    {
      RecoveredHoldsUp(s.users, u.users, s.grants, id, status, other);
    }
    RoomDecisions.HeldIff(u);
    EndedHoldPlays(u);
  }

  lemma RecoveredHoldsUp(
    users: seq<Viewer>, after: seq<Viewer>, grants: Masks, id: ClientId, status: PlayerStatus, other: ClientId)
    requires Relabelled(users, after, id, status) && status != Buffering
    ensures RoomDecisions.HoldsUp(after, grants, other) <==> other != id && RoomDecisions.HoldsUp(users, grants, other)
  {
    if RoomDecisions.HoldsUp(after, grants, other) {
      var i :| 0 <= i < |after| && after[i].id == other && MayPlayPause(grants, after[i])
        && after[i].status == Buffering;
      assert users[i].id == other && MayPlayPause(grants, users[i]) && users[i].status == Buffering;
    }
    if other != id && RoomDecisions.HoldsUp(users, grants, other) {
      var i :| 0 <= i < |users| && users[i].id == other && MayPlayPause(grants, users[i])
        && users[i].status == Buffering;
      assert after[i].id == other && MayPlayPause(grants, after[i]) && after[i].status == Buffering;
    }
  }

  /** A held room with viewers either stays held or plays. */
  lemma EndedHoldPlays(s: State)
    requires Inv(s) && s.gate.Some? && s.users != []
    ensures EvaluateGate(s).playing == EvaluateGate(s).gate.None?
  {
    RoomDecisions.EndedHoldResumesIff(s, true);
    RoomDecisions.EndedHoldResumesIff(s, false);
  }

  // ---------------------------------------------------------------- leaving

  /** One viewer taken out of the list, the others in their order. */
  ghost predicate TakenOut(users: seq<Viewer>, after: seq<Viewer>, id: ClientId) {
    exists at ::
      0 <= at < |users| && users[at].id == id && after == users[..at] + users[at + 1..]
  }

  lemma RemovedIsTakenOut(users: seq<Viewer>, id: ClientId)
    requires exists i :: 0 <= i < |users| && users[i].id == id
    ensures TakenOut(users, RemoveUser(users, id), id)
  {
    var at := IndexWhere(users, (u: Viewer) => u.id == id);
    RemovedAt(users, at, id);
  }

  lemma TakenOutIsGone(users: seq<Viewer>, after: seq<Viewer>, id: ClientId)
    requires UniqueIds(users) && TakenOut(users, after, id)
    ensures forall u :: u in after <==> u in users && u.id != id
    ensures |after| + 1 == |users|
  {
    var at :| 0 <= at < |users| && users[at].id == id && after == users[..at] + users[at + 1..];
    SplicedMembers(users, at, after);
    assert forall i :: 0 <= i < |users| && i != at ==> users[i].id != id;
  }

  lemma LeaveKeepsUsers(s: State, id: ClientId)
    requires Inv(s) && FindUser(s.users, id).Some?
    ensures Leave(s, id).users == RemoveUser(s.users, id)
  {
    EndBoostKeeps(s);
    EndingKeepsHistory(s);
    var b := if s.boost.Some? && s.boost.value.client == id then EndBoost(s) else s;
    GoneKeeps(b, id);
    var gone := Gone(b, id);
    SettledUsers(gone, id);
    EvaluateKeeps(AfterLeave(gone, id));
  }

  lemma SettledUsers(s: State, id: ClientId)
    requires Inv(s)
    ensures Inv(AfterLeave(s, id)) && AfterLeave(s, id).users == s.users
  {
    if s.users == [] {
      EmptiedKeeps(s);
    } else if s.round.Some? && id in s.round.value.eligible {
      RebuiltKeeps(s);
    }
  }

  /** A leave takes exactly the leaving viewer out of the room; the others stay in their order. */
  lemma LeaveTakesOut(s: State, id: ClientId)
    requires Inv(s)
    ensures var t := Handle(s, LeaveEvent(id));
            && (forall u :: u in t.users <==> u in s.users && u.id != id)
            && (if IsHere(s, id) then TakenOut(s.users, t.users, id) else t.users == s.users)
            && !IsHere(t, id)
  {
    Found(s.users, id);
    if FindUser(s.users, id).Some? {
      LeaveKeepsUsers(s, id);
      RemovedIsTakenOut(s.users, id);
      TakenOutIsGone(s.users, RemoveUser(s.users, id), id);
    } else {
      EndingKeepsHistory(s);
      assert forall i :: 0 <= i < |s.users| ==> s.users[i] in s.users;
    }
    var t := Handle(s, LeaveEvent(id));
    assert forall i :: 0 <= i < |t.users| ==> t.users[i] in t.users;
  }

  /** In vote mode the votes of the leaving viewer are withdrawn, and only those; in other modes votes stay. */
  lemma LeaveWithdrawsVotes(s: State, id: ClientId)
    requires IsHere(s, id)
    ensures var t := Handle(s, LeaveEvent(id));
            if s.mode == Vote
            then t.votes.Keys == s.votes.Keys && forall k :: k in s.votes ==> t.votes[k] == s.votes[k] - {id}
            else t.votes == s.votes
  {
    Found(s.users, id);
    var b := if s.boost.Some? && s.boost.value.client == id then EndBoost(s) else s;
    RoomQueueTheorems.EndingKeepsItems(s);
    RoomQueueTheorems.GoneKeepsItems(b, id);
    assert Handle(s, LeaveEvent(id)) == EvaluateGate(AfterLeave(Gone(b, id), id));
    GoneVotes(b, id);
  }

  lemma GoneVotes(s: State, id: ClientId)
    ensures if s.mode == Vote
            then Gone(s, id).votes.Keys == s.votes.Keys
                 && forall k :: k in s.votes ==> Gone(s, id).votes[k] == s.votes[k] - {id}
            else Gone(s, id).votes == s.votes
  {
  }

  /** A round that loses a viewer starts over with exactly the remaining viewers who can prepare, nobody ready yet. */
  lemma LeaveRestartsRound(s: State, id: ClientId)
    requires Inv(s) && s.round.Some? && id in s.round.value.eligible && IsHere(s, id) && |s.users| > 1
    requires CanPrepare(s) && s.position >= 0.0
    ensures var t := Handle(s, LeaveEvent(id));
            && (t.round.Some? <==> exists other :: RoomDecisions.CanPrepareHere(t.users, t.grants, other))
            && t.resume && !t.playing
            && (t.round.Some? ==>
                  && t.round.value.id == s.nextRound && t.round.value.ready == [] && t.round.value.startAt.None?
                  && t.round.value.eligible != [] && t.round.value.client == t.round.value.eligible[0]
                  && t.round.value.position == s.position
                  && t.round.value.deadlineAt == s.now + PLAYBACK_READY_WAIT_MS
                  && forall other :: other in t.round.value.eligible <==>
                       RoomDecisions.CanPrepareHere(t.users, t.grants, other))
  {
    Found(s.users, id);
    GoneKeeps(s, id);
    var gone := Gone(s, id);
    var cancelled := CancelRound(gone).(resume := true);
    RebuiltKeeps(gone);
    RestartedRound(cancelled);
    RestartedGate(gone, PrepareEmpty(cancelled));
    assert Handle(s, LeaveEvent(id)) == EvaluateGate(PrepareEmpty(cancelled));
  }

  lemma RestartedRound(s: State)
    requires s.resume && !s.playing && s.round.None? && CanPrepare(s) && s.position >= 0.0
    ensures var t := PrepareEmpty(s);
            && t.users == s.users && t.grants == s.grants && t.resume && !t.playing
            && (t.round.Some? <==> exists other :: RoomDecisions.CanPrepareHere(t.users, t.grants, other))
            && (t.round.Some? ==>
                  && t.round.value.id == s.nextRound && t.round.value.ready == [] && t.round.value.startAt.None?
                  && t.round.value.eligible != [] && t.round.value.client == t.round.value.eligible[0]
                  && t.round.value.position == s.position
                  && t.round.value.deadlineAt == s.now + PLAYBACK_READY_WAIT_MS
                  && forall other :: other in t.round.value.eligible <==>
                       RoomDecisions.CanPrepareHere(t.users, t.grants, other))
  {
    var eligible := Preparers(s.users, s.grants);
    forall other
      ensures other in eligible <==> RoomDecisions.CanPrepareHere(s.users, s.grants, other)
    {
      RoomDecisions.PreparesIff(s.users, s.grants, other);
    }
    if eligible != [] {
      assert eligible[0] in eligible;
    }
  }

  /** A paused room without a hold is not touched by an evaluation. */
  lemma RestartedGate(s: State, t: State)
    requires !t.playing && t.gate.None?
    ensures EvaluateGate(t) == t
  {
  }

  /** The leave of a held room's viewer ends the hold exactly as a recovery of that viewer would. */
  lemma LeaveEndsHoldIff(s: State, id: ClientId)
    requires Inv(s) && s.gate.Some? && IsHere(s, id) && |s.users| > 1
    ensures var t := Handle(s, LeaveEvent(id));
            && (t.gate.None? <==>
                  !OthersWaitedFor(s, id) || !(s.gatePauses || |s.users| == 2)
                  || s.now >= s.gate.value.startedAt + BUFFER_GATE_MAX_WAIT_MS)
            && t.playing == t.gate.None?
  {
    Found(s.users, id);
    GoneKeeps(s, id);
    RemovedIsTakenOut(s.users, id);
    TakenOutIsGone(s.users, RemoveUser(s.users, id), id);
    var gone := Gone(s, id);
    LeftGate(s, gone, id);
    assert Handle(s, LeaveEvent(id)) == EvaluateGate(gone);
  }

  lemma LeftGate(s: State, gone: State, id: ClientId)
    requires Inv(s) && Inv(gone) && s.gate.Some? && gone.users != [] && |gone.users| + 1 == |s.users|
    requires gone == s.(users := gone.users, votes := gone.votes)
    requires forall u :: u in gone.users <==> u in s.users && u.id != id
    ensures var t := EvaluateGate(gone);
            && (t.gate.None? <==>
                  !OthersWaitedFor(s, id) || !(s.gatePauses || |s.users| == 2)
                  || s.now >= s.gate.value.startedAt + BUFFER_GATE_MAX_WAIT_MS)
            && t.playing == t.gate.None?
  {
    forall other
      ensures RoomDecisions.HoldsUp(gone.users, s.grants, other) <==>
                other != id && RoomDecisions.HoldsUp(s.users, s.grants, other)
    {
      HoldsUpMember(gone.users, s.grants, other);
      HoldsUpMember(s.users, s.grants, other);
    }
    RoomDecisions.HeldIff(gone);
    EndedHoldPlays(gone);
  }

  lemma HoldsUpMember(users: seq<Viewer>, grants: Masks, id: ClientId)
    ensures RoomDecisions.HoldsUp(users, grants, id) <==>
              exists u :: u in users && u.id == id && MayPlayPause(grants, u) && u.status == Buffering
  {
    if u :| u in users && u.id == id && MayPlayPause(grants, u) && u.status == Buffering {
      var i :| 0 <= i < |users| && users[i] == u;
    }
  }

  /**
   The last viewer's leave stops the room where it is, without hold or round; it will go on with
   the next viewer exactly if it was going on, or about to, and what is on can be prepared.
   */
  lemma LastLeaveStops(s: State, id: ClientId)
    requires Inv(s) && |s.users| == 1 && s.users[0].id == id
    ensures var t := Handle(s, LeaveEvent(id));
            && t.users == [] && !t.playing && t.gate.None? && t.round.None? && t.boost.None?
            && RealPosition(t) == RealPosition(s) && t.source == s.source
            && (t.resume <==> (s.playing || s.gate.Some? || s.round.Some? || s.resume) && CanPrepare(s))
  {
    RoomDecisions.EndedBoostStands(s);
    EndedBoostIsOver(s);
    var gone := Gone(if s.boost.Some? && s.boost.value.client == id then EndBoost(s) else s, id);
    RoomDecisions.LastLeaves(s, id, gone);
    EmptiedStops(gone);
    RoomDecisions.NobodyWaits(Emptied(gone));
  }

  lemma EmptiedStops(s: State)
    requires s.users == [] && (s.boost.Some? ==> s.playing && s.gate.None?) && (s.gate.Some? ==> !s.playing)
    ensures var t := Emptied(s);
            && t.users == [] && !t.playing && t.gate.None? && t.round.None? && t.boost.None?
            && RealPosition(t) == RealPosition(s) && t.source == s.source
            && (t.resume <==> (s.playing || s.gate.Some? || s.round.Some? || s.resume) && CanPrepare(s))
  {
    var released := s.(gate := None);
    assert ReleaseGate(s, false) == released;
    PausedAt(released);
  }

  lemma PausedAt(s: State)
    requires s.boost.Some? ==> s.playing
    ensures var t := PauseClock(s);
            && !t.playing && t.boost.None? && t.gate == s.gate && RealPosition(t) == RealPosition(s)
            && t.source == s.source && t.users == s.users
  {
    RoomDecisions.EndedBoostStands(s);
    EndedBoostIsOver(s);
  }

  // ---------------------------------------------------------------- play and pause

  /** Nothing plays and nothing will play by itself. */
  ghost predicate Resting(s: State) {
    !s.playing && s.gate.None? && s.round.None? && s.boost.None? && !s.resume
  }

  /** A manual pause revokes every hold, round and boost, and stops the room where it is. */
  lemma PauseRevokesEverything(s: State)
    requires Inv(s)
    ensures var t := Handle(s, PauseEvent);
            && Resting(t) && t.position == RealPosition(s) && RealPosition(t) == RealPosition(s)
            && t.source == s.source && t.queue == s.queue && t.users == s.users
  {
    var c := CancelRound(s.(gate := None));
    assert RealPosition(c) == RealPosition(s);
    StoppedAt(c);
  }

  lemma StoppedAt(s: State)
    requires (s.boost.Some? ==> s.playing) && s.gate.None? && s.round.None? && !s.resume
    ensures var t := PauseClock(s);
            && Resting(t) && t.position == RealPosition(s) && RealPosition(t) == RealPosition(s)
            && t.source == s.source && t.queue == s.queue && t.users == s.users
  {
    RoomDecisions.EndedBoostStands(s);
    EndedBoostIsOver(s);
    RoomQueueTheorems.EndingKeepsItems(s);
  }

  lemma EndedBoostIsOver(s: State)
    ensures EndBoost(s).boost.None? && EndBoost(s).playing == s.playing && EndBoost(s).gate == s.gate
    ensures EndBoost(s).round == s.round && EndBoost(s).resume == s.resume
  {
  }

  /** What does not start playback by choice: everything but play, seek, and the choice of another source. */
  predicate Passive(e: Event) {
    !(e.PlayEvent? || e.SkipEvent? || e.SeekEvent? || e.PlayNowEvent? || e.UndoSkipEvent? || e.UndoAddEvent?)
  }

  /** At rest, with something on, nothing changes but who is there, the settings, the queue and the votes. */
  ghost predicate RestsOn(s: State, t: State) {
    Resting(t) && t.source == s.source && RealPosition(t) == RealPosition(s)
  }

  lemma RestingGate(s: State)
    requires Resting(s)
    ensures EvaluateGate(s) == s
  {
  }

  lemma RestingTick(s: State, skipTo: Option<real>)
    requires Resting(s) && s.source.Some?
    ensures RestsOn(s, Tick(s, skipTo))
  {
    RestingGate(s);
    assert TickRound(s) == Ticked(s);
    assert TickBoost(Ticked(s)) == Ticked(s);
  }

  lemma RestingUpdate(s: State, id: ClientId, status: Option<PlayerStatus>, prepared: Option<Prepared>)
    requires Resting(s)
    ensures RestsOn(s, UpdateUser(s, id, status, prepared))
  {
    RestingGate(s);
    if FindUser(s.users, id).Some? {
      var u := if status.None? then s else Reported(s, id, status.value);
      assert FinishPreparation(u, id, status, prepared) == u;
      RestingGate(u);
    }
  }

  lemma RestingLeave(s: State, id: ClientId)
    requires Resting(s)
    ensures RestsOn(s, Leave(s, id))
  {
    if FindUser(s.users, id).Some? {
      var gone := Gone(s, id);
      assert RestsOn(s, gone);
      RestingEmptied(gone);
      RestingGate(AfterLeave(gone, id));
    }
  }

  lemma RestingEmptied(s: State)
    requires Resting(s)
    ensures RestsOn(s, Emptied(s))
  {
    assert ReleaseGate(s, false) == s && PauseClock(s) == s;
  }

  lemma RestingJoin(s: State, viewer: Viewer, reconnect: bool)
    requires Resting(s)
    ensures RestsOn(s, Join(s, viewer, reconnect))
  {
    assert HoldEmpty(s, reconnect) == s;
  }

  lemma RestingSpeed(s: State, e: Event)
    requires Resting(s)
    requires e.StartTimer? || e.LeaseTimer? || e.SpeedEvent? || e.StartBoostEvent? || e.RenewBoostEvent?
            || e.StopBoostEvent?
    ensures RestsOn(s, Handle(s, e))
  {
  }

  /** One event. */
  lemma RestingStep(s: State, e: Event)
    requires Resting(s) && s.source.Some? && Passive(e)
    ensures RestsOn(s, Handle(s, e))
  {
    match e
    case TickEvent(skipTo) => RestingTick(s, skipTo);
    case UpdateUserEvent(id, status, prepared) => RestingUpdate(s, id, status, prepared);
    case LeaveEvent(id) => RestingLeave(s, id);
    case JoinEvent(viewer, reconnect) => RestingJoin(s, viewer, reconnect);
    case PauseEvent => RestingPause(s);
    case StartTimer | LeaseTimer | SpeedEvent(_) => RestingSpeed(s, e);
    case StartBoostEvent(_, _, _) | RenewBoostEvent(_, _) | StopBoostEvent(_, _) => RestingSpeed(s, e);
    case Settings(mode, gatePauses, grants) =>
      RestingGate(s.(mode := mode, gatePauses := gatePauses, grants := grants));
    case _ =>
  }

  lemma RestingPause(s: State)
    requires Resting(s)
    ensures RestsOn(s, Handle(s, PauseEvent))
  {
    assert CancelRound(s.(gate := None)).boost.None?;
  }

  ghost predicate PassiveRun(trace: seq<Timed>) {
    forall k :: 0 <= k < |trace| ==> Passive(trace[k].event)
  }

  /**
   A paused room stays paused, on its source and where it was, under heartbeats, ticks, timers,
   settings, comings and goings, until somebody plays, seeks or chooses another source.
   */
  lemma {:induction false} PausedStaysPaused(s: State, trace: seq<Timed>)
    requires Resting(s) && s.source.Some? && PassiveRun(trace)
    ensures RestsOn(s, Run(s, trace))
  {
    if trace != [] {
      var prefix, last := trace[..|trace| - 1], trace[|trace| - 1];
      PausedStaysPaused(s, prefix);
      var elapsed := Elapse(Run(s, prefix), last.at);
      assert RestsOn(Run(s, prefix), elapsed);
      RestingStep(elapsed, last.event);
    }
  }

  /** Play overrides a hold or a round, continues where the room is, and is not recaptured at once. */
  lemma PlayTakesEffect(s: State)
    requires Inv(s) && Timely(s)
    ensures var t := Handle(s, PlayEvent);
            && t.playing && t.gate.None? && t.round.None? && !t.resume && t.boost == s.boost && t.speed == s.speed
            && RealPosition(t) == RealPosition(s) && t.source == s.source
            && (forall at :: s.now <= at < s.now + BUFFER_GATE_COOLDOWN_MS && s.gate.Some? ==>
                  !RoomDecisions.MayBegin(Elapse(t, at)))
            && (forall at :: s.now <= at < s.now + BUFFER_GATE_START_GRACE_MS && !s.playing ==>
                  !RoomDecisions.MayBegin(Elapse(t, at)))
  {
    Timestamp.NoTimeNoProgress(s.now, 0.0, s.speed);
  }

  /** A seek within a day of the beginning lands there, drops a round, and neither plays nor pauses. */
  lemma SeekTakesEffect(s: State, value: real)
    ensures var t := Handle(s, SeekEvent(value));
            if 0.0 <= value <= 86400.0
            then && RealPosition(t) == value && t.round.None? && !t.resume
                 && t.playing == s.playing && t.gate == s.gate && t.boost == s.boost && t.speed == s.speed
                 && t.source == s.source && t.queue == s.queue
            else t == s
  {
    Timestamp.NoTimeNoProgress(s.now, 0.0, s.speed);
  }

  // ---------------------------------------------------------------- speed

  /** A speed request in range sets that speed, ends a boost, and does not move the position; others change nothing. */
  lemma SpeedIsSet(s: State, speed: real)
    ensures var t := Handle(s, SpeedEvent(speed));
            if 0.25 <= speed <= 4.0
            then t.speed == speed && t.boost.None? && RealPosition(t) == RealPosition(s) && t.playing == s.playing
            else t == s
  {
    Timestamp.NoTimeNoProgress(s.now, 0.0, speed);
  }

  /** The boost is over, with the speed it found, at the same position. */
  ghost predicate BoostIsOver(s: State, t: State)
    requires s.boost.Some?
  {
    t.boost.None? && t.speed == s.boost.value.previousSpeed && RealPosition(t) == RealPosition(s)
      && t.playing == s.playing
  }

  lemma EndedBoostRestores(s: State)
    requires s.boost.Some?
    ensures BoostIsOver(s, EndBoost(s))
  {
    Timestamp.NoTimeNoProgress(s.now, 0.0, s.boost.value.previousSpeed);
  }

  /** A boost lasts until 5 s after it was started or renewed, and no longer; its lease timer ends it then. */
  lemma BoostLapses(s: State)
    requires s.boost.Some?
    ensures var t := Handle(s, LeaseTimer); if s.now >= s.boost.value.leaseUntil then BoostIsOver(s, t) else t == s
  {
    EndedBoostRestores(s);
  }

  /** Its owner may renew it, with permission, and end it, without. */
  lemma OwnerRenewsAndStops(s: State, client: ClientId, gesture: string)
    requires OwnsGesture(s, client, gesture) && FindUser(s.users, client).Some?
    ensures BoostIsOver(s, Handle(s, StopBoostEvent(client, gesture)))
    ensures var t := Handle(s, RenewBoostEvent(client, gesture));
            if MaySetSpeed(s.grants, FindUser(s.users, client).value)
            then t == s.(boost := Some(s.boost.value.(leaseUntil := s.now + 5000)))
            else t == s
  {
    EndedBoostRestores(s);
  }

  // ---------------------------------------------------------------- votes, settings and roles

  /** A vote for a queued item counts once for its voter, and a withdrawn one not at all; nothing else changes. */
  lemma VoteCounts(s: State, client: ClientId, item: Item, add: bool)
    ensures var t := Handle(s, VoteEvent(client, item, add));
            var queued := exists k :: 0 <= k < |s.queue| && s.queue[k].video == item.video;
            && t == s.(votes := t.votes)
            && (!queued ==> t.votes == s.votes)
            && (queued && add ==>
                  t.votes == s.votes[item.VoteKey() := VotersOf(s.votes, item.VoteKey()) + {client}])
            && (queued && !add ==>
                  t.votes.Keys == s.votes.Keys
                  && (item.VoteKey() in s.votes ==>
                        t.votes == s.votes[item.VoteKey() := s.votes[item.VoteKey()] - {client}]))
  {
    VoteChangesVotes(s, client, item, add);
    var none: set<ClientId> := {};
    assert none + {client} == {client};
  }

  function VotersOf(votes: VideoQueue.Votes, key: string): set<ClientId> {
    if key in votes then votes[key] else {}
  }

  /** New settings arrive, whatever the gate makes of them, and nothing else of the room's tables changes. */
  lemma SettingsArrive(s: State, mode: QueueMode, gatePauses: bool, grants: Masks)
    requires Inv(s)
    ensures var t := Handle(s, Settings(mode, gatePauses, grants));
            && t.mode == mode && t.gatePauses == gatePauses && t.grants == grants
            && t.users == s.users && t.queue == s.queue && t.source == s.source && t.votes == s.votes
  {
    var u := s.(mode := mode, gatePauses := gatePauses, grants := grants);
    RoomQueueTheorems.EvaluatingKeepsItems(u);
    EvaluateKeeps(u);
  }

  /** And a hold is reconsidered under them at once. */
  lemma SettingsReconsiderHold(s: State, mode: QueueMode, gatePauses: bool, grants: Masks)
    requires Inv(s)
    ensures var t := Handle(s, Settings(mode, gatePauses, grants));
            && (t.gate.Some? <==>
                  && (gatePauses || |s.users| == 1) && s.source.Some? && s.boost.None? && s.round.None?
                  && (exists id :: id !in s.exhausted && RoomDecisions.HoldsUp(s.users, grants, id))
                  && if s.gate.Some? then s.now < s.gate.value.startedAt + BUFFER_GATE_MAX_WAIT_MS
                     else RoomDecisions.MayBegin(s))
            && (t.gate.Some? ==> !t.playing)
  {
    RoomDecisions.HeldIff(s.(mode := mode, gatePauses := gatePauses, grants := grants));
  }

  lemma {:induction false} RoleIsWritten(users: seq<Viewer>, id: ClientId, role: Role)
    requires UniqueIds(users)
    ensures |WithRole(users, id, role)| == |users|
    ensures forall i :: 0 <= i < |users| ==>
              WithRole(users, id, role)[i] == users[i].(role := if users[i].id == id then role else users[i].role)
  {
    if users != [] {
      HeadIsUnique(users);
      if users[0].id == id {
        assert forall i :: 0 < i < |users| ==> users[i] == users[1..][i - 1];
      } else {
        RoleIsWritten(users[1..], id, role);
      }
    }
  }

  /** A promotion gives the named viewer the role, and changes nothing else. */
  lemma PromotionArrives(s: State, id: ClientId, role: Role)
    requires Inv(s)
    ensures var t := Handle(s, Promote(id, role));
            && t == s.(users := t.users) && |t.users| == |s.users|
            && forall i :: 0 <= i < |s.users| ==>
                 t.users[i] == s.users[i].(role := if s.users[i].id == id then role else s.users[i].role)
  {
    RoleIsWritten(s.users, id, role);
  }

  // ---------------------------------------------------------------- joining, and another source

  /** A join adds the viewer to the end of the list and leaves what is on and queued alone. */
  lemma JoinArrives(s: State, viewer: Viewer, reconnect: bool)
    requires Inv(s) && IsNew(s, viewer.id)
    ensures var t := Handle(s, JoinEvent(viewer, reconnect));
            && t.users == s.users + [viewer] && t.source == s.source && t.queue == s.queue && t.votes == s.votes
            && (s.users != [] ==> t.playing == s.playing && t.gate == s.gate && t.boost == s.boost)
            && (s.users != [] && s.round.Some? ==> t.round == s.round)
  {
    JoinHandled(s, viewer, reconnect);
    RoomQueueTheorems.JoiningKeepsItems(s, viewer, reconnect);
    var j := s.(users := s.users + [viewer]);
    if s.users != [] {
      assert HoldEmpty(s, reconnect) == s;
      assert |j.users| > 1;
      PreparingLeavesOverlays(j);
    }
  }

  lemma PreparingLeavesOverlays(s: State)
    ensures var t := PrepareEmpty(s);
            t.playing == s.playing && t.gate == s.gate && t.boost == s.boost && (s.round.Some? ==> t.round == s.round)
  {
  }

  /** The first viewer of a room that plays to nobody finds it held, at its position, in a round of their own. */
  lemma FirstViewerHolds(s: State, viewer: Viewer)
    requires Inv(s) && s.users == [] && s.playing && CanPrepare(s) && RealPosition(s) >= 0.0
    requires MayPlayPause(s.grants, viewer)
    ensures var t := Handle(s, JoinEvent(viewer, false));
            && !t.playing && RealPosition(t) == RealPosition(s) && t.source == s.source
            && t.round.Some? && t.round.value.eligible == [viewer.id] && t.round.value.position == RealPosition(s)
  {
    var p := PauseClock(s.(gate := None));
    StoppedAt(s.(gate := None));
    var h := p.(resume := true);
    assert RoomDecisions.Dormant(h) && h.grants == s.grants by {
      RoomQueueTheorems.PausingKeepsItems(s.(gate := None));
    }
    FirstJoin(s, h, viewer);
    RoomDecisions.NextJoinPicksUp(h, viewer, false);
  }

  lemma FirstJoin(s: State, h: State, viewer: Viewer)
    requires h == HoldEmpty(s, false) && RoomDecisions.Dormant(h)
    ensures Handle(s, JoinEvent(viewer, false)) == Join(h, viewer, false)
  {
    assert HoldEmpty(h, false) == h;
  }

  /** Another source forgets every hold, round, boost and impatience, keeps the queue, and is given a grace period. */
  lemma NewSourceForgets(s: State, source: Option<Item>)
    requires Inv(s)
    ensures var t := SetSource(s, source);
            && t.source == source && t.queue == s.queue && t.exhausted == {}
            && t.gate.None? && t.round.None? && t.boost.None? && !t.resume && t.startTimer.None?
            && t.speed == NominalSpeed(s) && t.playing == s.playing && RealPosition(t) == RealPosition(s)
            && forall at :: s.now <= at < s.now + BUFFER_GATE_START_GRACE_MS ==> !RoomDecisions.MayBegin(Elapse(t, at))
  {
    RoomDecisions.EndedBoostStands(s.(gate := None, exhausted := {}, lastPlayAt := Some(s.now)));
  }
}
