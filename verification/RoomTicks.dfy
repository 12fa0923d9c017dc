/** What a tick, a report and an advance of the queue decide, in values. */
module RoomTicks {
  import opened Util
  import opened Video
  import opened RoomModel
  import opened RoomInvariant
  import opened RoomRuns
  import RoomDecisions
  import RoomEffects
  import RoomQueueTheorems
  import RoomRounds
  import Timestamp
  import VideoQueue

  // ---------------------------------------------------------------- advancing the queue

  /** A recorded item plays and is strictly past its end: its end position if it has one, else its length. */
  ghost predicate PastItsEnd(s: State) {
    && s.playing && s.source.Some? && !s.source.value.isLive
    && ((s.source.value.endAt.Some? && s.source.value.endAt.value > 0.0
         && RealPosition(s) > s.source.value.endAt.value)
        || (s.source.value.endAt.None? && s.source.value.length.Some? && s.source.value.length.value > 0.0
            && RealPosition(s) > s.source.value.length.value))
  }

  ghost predicate MustAdvance(s: State) {
    (s.source.None? && s.queue != []) || PastItsEnd(s)
  }

  /** The queue's part of a tick moves on exactly when nothing is on but something queued, or what is on is over. */
  lemma QueueTickAdvancesIff(s: State)
    requires Inv(s)
    ensures TickQueue(s).history.sources > s.history.sources <==> MustAdvance(s)
    ensures !MustAdvance(s) ==> TickQueue(s) == s.(queue := TickQueue(s).queue)
    ensures MustAdvance(s) ==> TickQueue(s) == DequeueNext(s).(queue := TickQueue(s).queue)
  {
    if MustAdvance(s) {
      DequeueNextKeeps(s);
    }
  }

  /** A permutation with falling votes in which ties keep their order. */
  ghost predicate OrderedByVotes(before: seq<Item>, after: seq<Item>, votes: VideoQueue.Votes) {
    && multiset(after) == multiset(before)
    && (forall i, j :: 0 <= i <= j < |after| ==>
          VideoQueue.VotesFor(votes, after[i]) >= VideoQueue.VotesFor(votes, after[j]))
    && forall n: nat :: VideoQueue.WithVotes(after, votes, n) == VideoQueue.WithVotes(before, votes, n)
  }

  lemma IsOrderedByVotes(items: seq<Item>, votes: VideoQueue.Votes)
    ensures OrderedByVotes(items, VideoQueue.OrderedByVotes(items, votes), votes)
  {
    RoomQueueTheorems.OrderedLength(items, votes);
    VideoQueue.OrderedByVotesIsOrdered(items, votes);
    forall n: nat
      ensures VideoQueue.WithVotes(VideoQueue.OrderedByVotes(items, votes), votes, n)
              == VideoQueue.WithVotes(items, votes, n)
    {
      VideoQueue.TiesKeepOrder(items, votes, n);
    }
  }

  /** A tick puts the queue in the order of the votes in vote mode, and leaves its order alone in the others. */
  lemma TickOrdersQueue(s: State)
    ensures var t := TickQueue(s);
            var before := if MustAdvance(s) then DequeueNext(s).queue else s.queue;
            if t.mode == Vote then OrderedByVotes(before, t.queue, t.votes) else t.queue == before
  {
    var d := if MustAdvance(s) then DequeueNext(s) else s;
    IsOrderedByVotes(d.queue, d.votes);
  }

  /** Nothing but the queue can change at the next tick: no overlay is there, and no hold must begin. */
  ghost predicate Plain(s: State) {
    && s.gate.None? && s.round.None? && s.boost.None?
    && !(RoomDecisions.MustWait(s) && RoomDecisions.MayBegin(s))
  }

  /** A whole tick of such a room is its queue's part, and then the segment to skip. */
  lemma PlainTick(s: State, skipTo: Option<real>)
    requires Inv(s) && Plain(s)
    ensures var q := TickQueue(Ticked(s));
            Handle(s, TickEvent(skipTo)) == if skipTo.Some? && q.playing then SeekRaw(q, skipTo.value) else q
  {
    PlainGate(s);
    assert TickRound(s) == Ticked(s) && TickBoost(Ticked(s)) == Ticked(s);
  }

  lemma PlainGate(s: State)
    requires Inv(s) && Plain(s)
    ensures EvaluateGate(s) == s
  {
    RoomDecisions.HeldIff(s);
    RoomDecisions.SomebodyWaitsIff(s);
  }

  /** So it moves on exactly when something is over or waiting, and skips exactly where it is told to. */
  lemma PlainTickAdvancesIff(s: State, skipTo: Option<real>)
    requires Inv(s) && Plain(s)
    ensures var t := Handle(s, TickEvent(skipTo));
            && (t.history.sources > s.history.sources <==> MustAdvance(s))
            && (!MustAdvance(s) ==>
                  && t.source == s.source && t.playing == s.playing
                  && RealPosition(t) == if skipTo.Some? && s.playing then skipTo.value else RealPosition(s))
  {
    PlainTick(s, skipTo);
    var u := Ticked(s);
    assert RealPosition(u) == RealPosition(s) && MustAdvance(u) == MustAdvance(s);
    TickedInvariant(s);
    QueueTickAdvancesIff(u);
    SkippedTo(TickQueue(u), skipTo);
  }

  lemma TickedInvariant(s: State)
    requires Inv(s) && s.round.None?
    ensures Inv(Ticked(s))
  {
    TickedKeeps(s);
  }

  lemma SkippedTo(q: State, skipTo: Option<real>)
    ensures var t := if skipTo.Some? && q.playing then SeekRaw(q, skipTo.value) else q;
            && t.history.sources == q.history.sources && t.source == q.source && t.playing == q.playing
            && RealPosition(t) == if skipTo.Some? && q.playing then skipTo.value else RealPosition(q)
  {
  }

  /** A boost survives a tick exactly while its owner is there and permitted, and what is on is not over. */
  lemma BoostSurvivesTickIff(s: State, skipTo: Option<real>)
    requires Inv(s) && s.boost.Some?
    ensures var t := Handle(s, TickEvent(skipTo));
            var owner := FindUser(s.users, s.boost.value.client);
            && (t.boost.Some? <==> owner.Some? && MaySetSpeed(s.grants, owner.value) && !PastItsEnd(s))
            && (t.boost.Some? ==> t.boost == s.boost)
            && (t.boost.None? && !PastItsEnd(s) ==> t.playing && t.speed == s.boost.value.previousSpeed)
  {
    assert EvaluateGate(s) == s && TickRound(s) == Ticked(s);
    TickedInvariant(s);
    var b := TickBoost(Ticked(s));
    TickBoostKeeps(Ticked(s));
    EndedBoostAt(Ticked(s));
    QueueTickAdvancesIff(b);
    if MustAdvance(b) { AdvanceEndsBoost(b); }
    assert MustAdvance(b) == PastItsEnd(s);
    SkippedBoost(TickQueue(b), skipTo);
  }

  lemma EndedBoostAt(s: State)
    requires s.boost.Some?
    ensures var e := EndBoost(s);
            RoomEffects.BoostIsOver(s, e) && e.source == s.source && e.queue == s.queue
            && RealPosition(e) == RealPosition(s)
  {
    RoomEffects.EndedBoostRestores(s);
    RoomQueueTheorems.EndingKeepsItems(s);
  }

  lemma SkippedBoost(q: State, skipTo: Option<real>)
    ensures var t := if skipTo.Some? && q.playing then SeekRaw(q, skipTo.value) else q;
            t.boost == q.boost && t.playing == q.playing && t.speed == q.speed
  {
  }

  lemma AdvanceEndsBoost(s: State)
    requires Inv(s) && MustAdvance(s)
    ensures DequeueNext(s).boost.None?
  {
    AdvanceSetsSpeed(s);
  }

  /** An advance ends a boost and resets the speed to 1; a repetition in dj mode keeps the speed under the boost. */
  lemma AdvanceSetsSpeed(s: State)
    requires Inv(s) && (s.source.Some? || s.queue != [])
    ensures var t := DequeueNext(s);
            && t.boost.None?
            && t.speed == if s.source.Some? && s.mode == Dj then NominalSpeed(s) else 1.0
  {
    ReleaseKeeps(s);
    RoomQueueTheorems.ReleasingKeepsQueue(s);
    ReleasedSpeed(s);
    var r := ReleaseGate(s, false);
    if r.source.Some? && r.mode == Dj {
      RepeatedSpeed(r);
    } else {
      var requeued := if r.source.Some? && r.mode == Loop then r.queue + [r.source.value.Untrimmed()] else r.queue;
      AdvancedBoost(r, requeued);
    }
  }

  lemma ReleasedSpeed(s: State)
    requires Inv(s)
    ensures ReleaseGate(s, false).speed == s.speed && ReleaseGate(s, false).boost == s.boost
  {
  }

  lemma RepeatedSpeed(s: State)
    requires s.source.Some?
    ensures Repeated(s).boost.None? && Repeated(s).speed == NominalSpeed(s)
  {
  }

  lemma AdvancedBoost(s: State, queue: seq<Item>)
    requires s.source.Some? || queue != []
    ensures DequeueFrom(s, queue).boost.None?
  {
    if queue != [] {
      assert Taken(s, queue).boost.None?;
    }
  }

  /** Dj mode plays what is on again, untrimmed, from its beginning; queue and votes stay. */
  lemma DjRepeats(s: State)
    requires Inv(s) && s.source.Some? && s.mode == Dj
    ensures var t := DequeueNext(s);
            && t.source == Some(s.source.value.Untrimmed()) && t.playing && RealPosition(t) == 0.0
            && t.queue == s.queue && t.votes == s.votes
  {
    RoomQueueTheorems.ReleaseKeepsItems(s, false);
    var r := ReleaseGate(s, false);
    RepeatedPlays(r);
    assert DequeueNext(s) == Repeated(r);
  }

  lemma RepeatedPlays(s: State)
    requires s.source.Some?
    ensures var t := Repeated(s);
            && t.source == Some(s.source.value.Untrimmed()) && t.playing && RealPosition(t) == 0.0
            && t.queue == s.queue && t.votes == s.votes
  {
    var again := Reposition(SetSource(s, Some(s.source.value.Untrimmed())), 0.0);
    RepeatedSource(s);
    Timestamp.NoTimeNoProgress(again.now, 0.0, again.speed);
  }

  lemma RepeatedSource(s: State)
    requires s.source.Some?
    ensures var again := Reposition(SetSource(s, Some(s.source.value.Untrimmed())), 0.0);
            && again.source == Some(s.source.value.Untrimmed())
            && again.position == 0.0 && again.anchor == Some(again.now)
            && again.queue == s.queue && again.votes == s.votes && again.gate.None?
  {
    RoomQueueTheorems.EndingKeepsItems(s.(gate := None, exhausted := {}, lastPlayAt := Some(s.now)));
  }

  /** With nothing left to take, the room is empty, stopped and back at the beginning. */
  lemma QueueRunsDry(s: State)
    requires s.source.Some?
    ensures var t := DequeueFrom(s, []);
            t.source.None? && t.queue == [] && !t.playing && RealPosition(t) == 0.0 && t.gate.None? && t.round.None?
  {
    RoomQueueTheorems.DequeueFromEmpty(s, []);
  }

  /** The item that comes on takes its votes with it; all other votes stay. */
  lemma AdvanceDropsVotes(s: State, queue: seq<Item>)
    requires queue != []
    ensures DequeueFrom(s, queue).votes == s.votes - {queue[0].VoteKey()}
  {
    var taken := Taken(s, queue);
    assert EndBoost(taken).votes == taken.votes;
  }

  // ---------------------------------------------------------------- rounds

  /** A tick keeps in a round exactly the viewers who are still here and permitted, and their reports. */
  lemma TickRefreshesRound(s: State, id: ClientId)
    requires Inv(s) && s.round.Some? && RoomRounds.Holds(TickRound(s), s.round.value.id)
    ensures var t := TickRound(s).round.value;
            && (id in t.eligible <==> id in s.round.value.eligible && IsPreparer(s.users, s.grants, id))
            && (id in t.ready <==> id in s.round.value.ready && IsPreparer(s.users, s.grants, id))
  {
    RoomRounds.RefreshHolds(s);
    RefreshKeeps(s);
    var r := RefreshRound(s);
    RefreshedViewers(s, id);
    TickKeepsViewers(r);
  }

  lemma RefreshedViewers(s: State, id: ClientId)
    requires Inv(s) && s.round.Some? && RefreshRound(s).round.Some?
    ensures var r := RefreshRound(s).round.value;
            && (id in r.eligible <==> id in s.round.value.eligible && IsPreparer(s.users, s.grants, id))
            && (id in r.ready <==> id in s.round.value.ready && IsPreparer(s.users, s.grants, id))
  {
    var live := Live(s.round.value.eligible, s.users, s.grants);
    RefreshedHas(s, live, id);
    assert id in live <==> id in s.round.value.eligible && IsPreparer(s.users, s.grants, id);
  }

  lemma RefreshedHas(s: State, live: seq<ClientId>, id: ClientId)
    requires s.round.Some? && Refreshed(s, live).round.Some?
    requires forall x :: x in s.round.value.ready ==> x in s.round.value.eligible
    ensures var r := Refreshed(s, live).round.value;
            (id in r.eligible <==> id in live) && (id in r.ready <==> id in s.round.value.ready && id in live)
  {
    if live != s.round.value.eligible {
      assert Refreshed(s, live).round == Some(ShrunkTo(s.round.value, live));
      ShrunkShape(s.round.value, live);
    }
  }

  lemma ShrunkShape(r: Round, live: seq<ClientId>)
    ensures ShrunkTo(r, live).eligible == live && ShrunkTo(r, live).ready == Only(r.ready, live)
  {
  }

  /** Deciding and starting leave the viewers of a held round alone. */
  lemma TickKeepsViewers(r: State)
    requires Inv(r) && r.round.Some?
    ensures var d := if r.round.value.startAt.Some? then r else Decided(r);
            var t := if d.round.Some? && d.round.value.startAt.Some? && d.now >= d.round.value.startAt.value
                     then StartPrepared(d) else d;
            t.round.Some? ==>
              t.round.value.eligible == r.round.value.eligible && t.round.value.ready == r.round.value.ready
  {
    if r.round.value.startAt.None? { DecidingKeepsViewers(r); }
    var d := if r.round.value.startAt.Some? then r else Decided(r);
    StartingKeepsRound(d);
  }

  lemma StartingKeepsRound(s: State)
    ensures StartPrepared(s).round.Some? ==> StartPrepared(s).round == s.round
  {
  }

  lemma DecidingKeepsViewers(r: State)
    requires r.round.Some?
    ensures var d := Decided(r);
            d.round.Some? ==>
              d.round.value.eligible == r.round.value.eligible && d.round.value.ready == r.round.value.ready
  {
    var live := Live(r.round.value.eligible, r.users, r.grants);
    if AllReady(live, r.round.value.ready) {
      StartKeepsViewers(r, None);
    } else if r.round.value.ready != [] {
      StartKeepsViewers(r, Some(Partial));
    } else {
      StartKeepsViewers(r, Some(Forced));
    }
  }

  lemma StartKeepsViewers(s: State, fallback: Option<Fallback>)
    requires s.round.Some?
    ensures var t := ScheduleStart(s, fallback);
            t.round.Some? ==>
              t.round.value.eligible == s.round.value.eligible && t.round.value.ready == s.round.value.ready
              && t.round.value.client == s.round.value.client
  {
    if s.round.value.startAt.None? {
      ScheduledRound(s, fallback);
    }
  }

  /** Scheduling writes start time and fallback into the round, or ends it. */
  lemma ScheduledRound(s: State, fallback: Option<Fallback>)
    requires s.round.Some? && s.round.value.startAt.None?
    ensures var t := ScheduleStart(s, fallback);
            t.round.Some? ==>
              t.round.value == s.round.value.(fallback := fallback, startAt := t.round.value.startAt)
  {
  }

  /**
   How an undecided round is decided: with everybody ready it starts plainly, past the soft
   deadline with those who are, past the hard one without anybody; between the two it asks
   for a click; before the soft one it waits. A start with company is announced a second
   ahead and its timer armed; alone, playback begins at once.
   */
  lemma DecidesHow(s: State)
    requires Inv(s) && s.round.Some? && s.round.value.startAt.None?
    ensures var r := s.round.value;
            var live := Live(r.eligible, s.users, s.grants);
            var d := Decided(s);
            if AllReady(live, r.ready) then StartsWith(s, d, |live|, None)
            else if s.now < r.deadlineAt then d == s
            else if r.ready != [] then StartsWith(s, d, |live|, Some(Partial))
            else if s.now >= r.hardDeadlineAt then StartsWith(s, d, |live|, Some(Forced))
            else d == s.(round := Some(r.(fallback := Some(NoneReady))))
  {
    SchedulesWith(s, None);
    SchedulesWith(s, Some(Partial));
    SchedulesWith(s, Some(Forced));
  }

  ghost predicate StartsWith(s: State, d: State, company: nat, fallback: Option<Fallback>)
    requires s.round.Some?
  {
    if company <= 1
    then d.playing && d.round.None? && d.position == s.round.value.position && d.anchor == Some(s.now)
    else && !d.playing && d.startTimer == Some(s.now + 1000)
         && d.round == Some(s.round.value.(fallback := fallback, startAt := Some(s.now + 1000)))
  }

  lemma SchedulesWith(s: State, fallback: Option<Fallback>)
    requires Inv(s) && s.round.Some? && s.round.value.startAt.None?
    ensures StartsWith(s, ScheduleStart(s, fallback), |Live(s.round.value.eligible, s.users, s.grants)|, fallback)
  {
  }

  /** The start timer starts a scheduled round, at most 50 ms early; without a schedule it does nothing. */
  lemma StartTimerStartsIff(s: State)
    requires Inv(s) && s.round.Some? && s.round.value.startAt.Some? && s.startTimer.Some?
    ensures var t := Handle(s, StartTimer);
            && (t.playing <==> s.now + 50 >= s.round.value.startAt.value)
            && (t.playing ==> t.round.None? && t.startTimer.None? && t.anchor == s.round.value.startAt
                              && t.position == s.round.value.position)
            && (!t.playing ==> t == s)
  {
  }

  /** A report of a failed or hidden player takes its viewer out of the round, and nobody else. */
  lemma FailedReportDrops(s: State, id: ClientId, status: Option<PlayerStatus>, prepared: Prepared)
    requires Inv(s) && Concerns(s, id, prepared) && (prepared.failed || !prepared.visible)
    requires RoomRounds.Holds(FinishPreparation(s, id, status, Some(prepared)), s.round.value.id)
    ensures var t := FinishPreparation(s, id, status, Some(prepared)).round.value;
            && (forall other :: other in t.eligible <==> other in s.round.value.eligible && other != id)
            && (forall other :: other in t.ready <==> other in s.round.value.ready && other != id)
            && (if t.eligible != [] then t.client == t.eligible[0] else t.fallback == Some(NoneReady))
  {
    var r := s.round.value;
    var left := Without(r.eligible, id);
    if left != [] {
      ReadyKeepsViewers(s.(round := Some(r.(eligible := left, ready := Without(r.ready, id), client := left[0]))));
    }
  }

  lemma ReadyKeepsViewers(s: State)
    requires s.round.Some?
    ensures var t := ScheduleIfAllReady(s);
            t.round.Some? ==>
              t.round.value.eligible == s.round.value.eligible && t.round.value.ready == s.round.value.ready
              && t.round.value.client == s.round.value.client
  {
    StartKeepsViewers(s, None);
  }

  /** What a healthy report must show: the round, the item and the position, a first frame, and enough buffer. */
  ghost predicate ShowsReadiness(s: State, id: ClientId, status: Option<PlayerStatus>, p: Prepared) {
    && s.round.Some? && p.id == s.round.value.id && id in s.round.value.eligible && IsPreparer(s.users, s.grants, id)
    && s.source.Some? && s.source.value.video == s.round.value.video && !s.playing
    && status == Some(Ready) && p.firstFrame
    && p.position.Some? && p.position.value >= 0.0
    && s.position - 1.0 <= p.position.value <= s.position + 1.0
    && (p.bufferAhead.None?
        || p.bufferAhead.value >= if s.source.value.video.service in ["hls", "dash"] then 6.0 else 3.0)
  }

  /** A healthy report of a viewer not counted yet has an effect exactly when it shows all that. */
  lemma ReportCountsIff(s: State, id: ClientId, status: Option<PlayerStatus>, prepared: Prepared)
    requires Inv(s) && prepared.visible && !prepared.failed
    requires s.round.Some? ==> id !in s.round.value.ready && s.round.value.startAt.None?
    ensures FinishPreparation(s, id, status, Some(prepared)) != s <==> ShowsReadiness(s, id, status, prepared)
  {
    if ShowsReadiness(s, id, status, prepared) {
      var r := s.round.value;
      CountedChanges(s, id);
    }
  }

  lemma CountedChanges(s: State, id: ClientId)
    requires Inv(s) && s.round.Some? && id !in s.round.value.ready
    ensures var r := s.round.value;
            ScheduleIfAllReady(s.(round := Some(r.(ready := Without(r.ready, id) + [id])))) != s
  {
    var r := s.round.value;
    var counted := s.(round := Some(r.(ready := Without(r.ready, id) + [id])));
    ReadyKeepsViewers(counted);
    assert (Without(r.ready, id) + [id])[|Without(r.ready, id)|] == id;
  }
}
