/** What the playback machine decides, exactly: when it holds, whom it waits for, and when it starts. */
module RoomDecisions {
  import opened Util
  import opened Video
  import opened RoleLattice
  import opened RoomModel
  import opened RoomInvariant
  import Timestamp

  /** A viewer holds up playback: present, permitted to play, and reported to be buffering. */
  ghost predicate HoldsUp(users: seq<Viewer>, grants: Masks, id: ClientId) {
    exists i :: 0 <= i < |users| && users[i].id == id && MayPlayPause(grants, users[i]) && users[i].status == Buffering
  }

  lemma {:induction false} WaitedForIff(users: seq<Viewer>, grants: Masks, exhausted: set<ClientId>, id: ClientId)
    ensures id in Waiting(users, grants, exhausted) <==> id !in exhausted && HoldsUp(users, grants, id)
  {
    if users != [] {
      WaitedForIff(users[1..], grants, exhausted, id);
      assert HoldsUp(users[1..], grants, id) ==> HoldsUp(users, grants, id) by {
        if HoldsUp(users[1..], grants, id) {
          var i :| 0 <= i < |users[1..]| && users[1..][i].id == id && MayPlayPause(grants, users[1..][i])
            && users[1..][i].status == Buffering;
          assert users[i + 1] == users[1..][i];
        }
      }
      if HoldsUp(users, grants, id) {
        var i :| 0 <= i < |users| && users[i].id == id && MayPlayPause(grants, users[i])
          && users[i].status == Buffering;
        assert i > 0 ==> users[1..][i - 1] == users[i];
      }
    }
  }

  /** A viewer could take part in a round: present and permitted to play. */
  ghost predicate CanPrepareHere(users: seq<Viewer>, grants: Masks, id: ClientId) {
    exists i :: 0 <= i < |users| && users[i].id == id && MayPlayPause(grants, users[i])
  }

  lemma {:induction false} PreparesIff(users: seq<Viewer>, grants: Masks, id: ClientId)
    ensures id in Preparers(users, grants) <==> CanPrepareHere(users, grants, id)
  {
    if users != [] {
      PreparesIff(users[1..], grants, id);
      assert CanPrepareHere(users[1..], grants, id) ==> CanPrepareHere(users, grants, id) by {
        if CanPrepareHere(users[1..], grants, id) {
          var i :| 0 <= i < |users[1..]| && users[1..][i].id == id && MayPlayPause(grants, users[1..][i]);
          assert users[i + 1] == users[1..][i];
        }
      }
      if CanPrepareHere(users, grants, id) {
        var i :| 0 <= i < |users| && users[i].id == id && MayPlayPause(grants, users[i]);
        assert i > 0 ==> users[1..][i - 1] == users[i];
      }
    }
  }

  // ---------------------------------------------------------------- the buffer gate

  /** Somebody who is not exhausted holds up a room that waits for its viewers. */
  ghost predicate MustWait(s: State) {
    && (s.gatePauses || |s.users| == 1) && s.source.Some? && s.boost.None? && s.round.None?
    && exists id :: id !in s.exhausted && HoldsUp(s.users, s.grants, id)
  }

  /** A new hold may begin: playing, past the grace period of the start and the cooldown of the last hold. */
  ghost predicate MayBegin(s: State) {
    && s.playing
    && (s.lastPlayAt.Some? ==> s.now >= s.lastPlayAt.value + BUFFER_GATE_START_GRACE_MS)
    && (s.cooldownUntil.Some? ==> s.now >= s.cooldownUntil.value)
  }

  lemma SomebodyWaitsIff(s: State)
    ensures Waiting(s.users, s.grants, s.exhausted) != [] <==>
              exists id :: id !in s.exhausted && HoldsUp(s.users, s.grants, id)
  {
    var waiting := Waiting(s.users, s.grants, s.exhausted);
    if waiting != [] {
      WaitedForIff(s.users, s.grants, s.exhausted, waiting[0]);
      assert waiting[0] in waiting;
    } else if id :| id !in s.exhausted && HoldsUp(s.users, s.grants, id) {
      WaitedForIff(s.users, s.grants, s.exhausted, id);
    }
  }

  /**
   After an evaluation the room is held exactly when it must wait and a hold younger than 15 s
   is there or a new one may begin; a held room is paused and waits for exactly the viewers
   who hold it up.
   */
  lemma HeldIff(s: State)
    requires Inv(s)
    ensures EvaluateGate(s).gate.Some? <==>
              MustWait(s)
              && if s.gate.Some? then s.now < s.gate.value.startedAt + BUFFER_GATE_MAX_WAIT_MS else MayBegin(s)
    ensures EvaluateGate(s).gate.Some? ==> !EvaluateGate(s).playing
    ensures EvaluateGate(s).gate.Some? ==>
              EvaluateGate(s).gate.value.waitingOn == Waiting(s.users, s.grants, s.exhausted)
              && EvaluateGate(s).gate.value.startedAt == if s.gate.Some? then s.gate.value.startedAt else s.now
  {
    SomebodyWaitsIff(s);
    EvaluateKeeps(s);
  }

  /** A hold that ends resumes playback by itself exactly when somebody is still in the room. */
  lemma EndedHoldResumesIff(s: State, timedOut: bool)
    requires Inv(s) && s.gate.Some?
    ensures ReleaseGate(s, timedOut).gate.None?
    ensures ReleaseGate(s, timedOut).playing <==> s.users != []
  {
  }

  // ---------------------------------------------------------------- preparation rounds

  /** A freshly put on source is either held in a new round, with everybody who can prepare, or plays. */
  lemma NewSourceIsHeldOrPlays(s: State)
    requires Inv(s) && s.round.None? && s.gate.None? && s.boost.None? && s.position >= 0.0
    ensures var r := HoldOrPlay(s);
            if CanHold(s)
            then !r.playing && r.round.Some? && r.round.value.id == s.nextRound && r.round.value.ready == []
                 && r.round.value.eligible == Preparers(s.users, s.grants) && r.round.value.startAt.None?
                 && r.round.value.position == s.position
            else r.playing
  {
    assert EndBoost(s) == s;
  }

  /** One of the three reasons to start holds now. */
  ghost predicate MustStart(s: State, r: Round) {
    || AllReady(Live(r.eligible, s.users, s.grants), r.ready)
    || (s.now >= r.deadlineAt && r.ready != [])
    || s.now >= r.hardDeadlineAt
  }

  /** A tick writes the start time of an undecided round exactly when one of the three reasons holds. */
  lemma DecidesIff(s: State)
    requires Inv(s) && s.round.Some? && s.round.value.startAt.None?
    ensures (Decided(s).history.starts != s.history.starts) <==> MustStart(s, s.round.value)
    ensures MustStart(s, s.round.value) ==>
              Decided(s).playing || (Decided(s).round.Some?
                && Decided(s).round.value.startAt == Some(s.now + PLAYBACK_START_LEAD_MS))
    ensures !MustStart(s, s.round.value) ==>
              Decided(s).round.Some? && Decided(s).round.value.startAt.None? && !Decided(s).playing
  {
    ScheduledIsLogged(s, None);
    ScheduledIsLogged(s, Some(Partial));
    ScheduledIsLogged(s, Some(Forced));
  }

  lemma ScheduledIsLogged(s: State, fallback: Option<Fallback>)
    requires Inv(s) && s.round.Some? && s.round.value.startAt.None?
    ensures var t := ScheduleStart(s, fallback);
            && |t.history.starts| == |s.history.starts| + 1
            && (t.playing || (t.round.Some? && t.round.value.startAt == Some(s.now + PLAYBACK_START_LEAD_MS)))
  {
  }

  lemma SchedulingKeepsReports(s: State)
    requires s.round.Some?
    ensures var t := ScheduleIfAllReady(s);
            t.round.Some? ==> t.round.value.id == s.round.value.id && t.round.value.ready == s.round.value.ready
  {
    StartKeepsReports(s, None);
  }

  lemma StartKeepsReports(s: State, fallback: Option<Fallback>)
    requires s.round.Some?
    ensures var t := ScheduleStart(s, fallback);
            t.round.Some? ==> t.round.value.id == s.round.value.id && t.round.value.ready == s.round.value.ready
  {
  }

  /** A report that proves readiness counts, once, and leaves the reports of others alone. */
  lemma ReadyReportCounts(s: State, id: ClientId, status: Option<PlayerStatus>, prepared: Prepared)
    requires Inv(s) && Concerns(s, id, prepared) && !prepared.failed && prepared.visible
    requires ProvesReady(s, status, prepared)
    ensures var t := FinishPreparation(s, id, status, Some(prepared));
            t.round.Some? && t.round.value.id == s.round.value.id ==>
              && id in t.round.value.ready
              && forall other :: other != id ==> (other in t.round.value.ready <==> other in s.round.value.ready)
  {
    var r := s.round.value;
    SchedulingKeepsReports(s.(round := Some(r.(ready := Without(r.ready, id) + [id]))));
  }

  // ---------------------------------------------------------------- the temporary speed

  /** The requester may change the speed of what is on, and it is on: playing, or held by the gate. */
  ghost predicate MayBoost(s: State, client: ClientId, video: VideoId) {
    && FindUser(s.users, client).Some? && MaySetSpeed(s.grants, FindUser(s.users, client).value)
    && (s.playing || s.gate.Some?)
    && s.source.Some? && s.source.value.video == video && s.source.value.length.Some?
    && s.source.value.length.value > 0.0
  }

  /** Without a boost, a request starts one exactly when it may; it remembers the speed found, and a hold gives way. */
  lemma BoostStartsIff(s: State, client: ClientId, gesture: string, video: VideoId)
    requires Inv(s) && s.boost.None?
    ensures var t := StartBoost(s, client, gesture, video);
            && (t.boost.Some? <==> MayBoost(s, client, video))
            && (t.boost.Some? ==>
                  && t.playing && t.speed == TEMPORARY_PLAYBACK_SPEED && t.gate.None?
                  && t.boost.value == Boost(client, gesture, s.speed, s.now + TEMPORARY_PLAYBACK_SPEED_LEASE_MS))
            && (t.boost.None? ==> t == s)
  {
    if MayBoost(s, client, video) {
      assert s.users != [];
      if s.gate.Some? { EndedHoldResumesIff(s, false); }
    }
  }

  /** Somebody else's boost, or another gesture of the same viewer, is neither replaced nor ended by a request. */
  lemma BoostsBelongToTheirGesture(s: State, client: ClientId, gesture: string, video: VideoId)
    requires Inv(s) && s.boost.Some? && !OwnsGesture(s, client, gesture)
    ensures StartBoost(s, client, gesture, video) == s
    ensures RenewBoost(s, client, gesture) == s && StopBoost(s, client, gesture) == s
  {
  }

  // ---------------------------------------------------------------- an emptied room

  /** Nobody is here, and the room stands still with the intent to go on. */
  ghost predicate Dormant(s: State) {
    s.users == [] && !s.playing && s.resume && s.gate.None? && s.round.None? && s.boost.None? && CanPrepare(s)
  }

  lemma StoppedWhereItWas(s: State)
    requires Inv(s) && s.playing && s.gate.None?
    ensures var p := PauseClock(s);
            && !p.playing && p.position == RealPosition(s) && p.boost.None? && p.gate.None?
            && p.source == s.source && p.users == s.users && p.grants == s.grants
  {
    EndBoostKeeps(s);
    PauseClockKeeps(s);
  }

  lemma NobodyWaits(s: State)
    requires s.users == [] && s.gate.None?
    ensures EvaluateGate(s) == s
  {
  }

  /** The last viewer leaves a playing room that can prepare: it stops where it was and will go on. */
  lemma LastLeaveKeepsIntent(s: State, id: ClientId)
    requires Inv(s) && |s.users| == 1 && s.users[0].id == id && s.playing && CanPrepare(s)
    ensures var t := Leave(s, id);
            Dormant(t) && t.position == RealPosition(s) && t.source == s.source && t.grants == s.grants
  {
    var gone := Gone(if s.boost.Some? && s.boost.value.client == id then EndBoost(s) else s, id);
    GoneStands(s, id, gone);
    LastLeaves(s, id, gone);
    EmptiedStands(gone);
    NobodyWaits(Emptied(gone));
  }

  lemma GoneStands(s: State, id: ClientId, gone: State)
    requires Inv(s) && |s.users| == 1 && s.users[0].id == id && s.playing && CanPrepare(s)
    requires gone == Gone(if s.boost.Some? && s.boost.value.client == id then EndBoost(s) else s, id)
    ensures Inv(gone) && gone.users == [] && gone.playing && CanPrepare(gone)
    ensures RealPosition(gone) == RealPosition(s) && gone.source == s.source && gone.grants == s.grants
  {
    EndBoostKeeps(s);
    EndedBoostStands(s);
  }

  lemma LastLeaves(s: State, id: ClientId, gone: State)
    requires |s.users| == 1 && s.users[0].id == id
    requires gone == Gone(if s.boost.Some? && s.boost.value.client == id then EndBoost(s) else s, id)
    ensures gone.users == [] && Leave(s, id) == EvaluateGate(Emptied(gone))
  {
    EndedBoostStands(s);
  }

  lemma EndedBoostStands(s: State)
    ensures var e := EndBoost(s);
            RealPosition(e) == RealPosition(s) && e.source == s.source && e.grants == s.grants && e.users == s.users
  {
    Timestamp.NoTimeNoProgress(s.now, 0.0, s.speed);
  }

  lemma EmptiedStands(s: State)
    requires Inv(s) && s.users == [] && s.playing && CanPrepare(s)
    ensures var t := Emptied(s);
            Dormant(t) && t.position == RealPosition(s) && t.source == s.source && t.grants == s.grants
  {
    StoppedWhereItWas(s);
    assert ReleaseGate(s, false) == s;
  }

  /** The next viewer finds the room where it stopped: held in a round of their own, or playing on after a reconnect. */
  lemma NextJoinPicksUp(s: State, viewer: Viewer, reconnect: bool)
    requires Dormant(s) && s.position >= 0.0 && MayPlayPause(s.grants, viewer)
    ensures var t := Join(s, viewer, reconnect);
            && RealPosition(t) == s.position && t.playing == reconnect
            && (!reconnect ==>
                  t.round.Some? && t.round.value.eligible == [viewer.id] && t.round.value.position == s.position)
  {
    Timestamp.NoTimeNoProgress(s.now, 0.0, s.speed);
    assert HoldEmpty(s, reconnect) == s;
    assert s.users + [viewer] == [viewer] && [viewer][1..] == [];
    assert Preparers([viewer], s.grants) == [viewer.id];
  }

  /** However long a playing room stays empty, it continues exactly where its last viewer left it. */
  lemma EmptyRoomContinuesWhereItWasLeft(s: State, id: ClientId, later: int, viewer: Viewer, reconnect: bool)
    requires Inv(s) && |s.users| == 1 && s.users[0].id == id && s.playing && CanPrepare(s)
    requires RealPosition(s) >= 0.0 && MayPlayPause(s.grants, viewer)
    ensures var t := Join(Elapse(Leave(s, id), later), viewer, reconnect);
            && RealPosition(t) == RealPosition(s) && t.playing == reconnect
            && (!reconnect ==> t.round.Some? && t.round.value.position == RealPosition(s))
  {
    LastLeaveKeepsIntent(s, id);
    NextJoinPicksUp(Elapse(Leave(s, id), later), viewer, reconnect);
  }
}
