/** What the queue promises through the playback machine: restoring a saved room, and loop mode. */
module RoomQueueTheorems {
  import opened Util
  import opened Video
  import opened RoomModel
  import opened RoomTheorems
  import VideoQueue

  // ---------------------------------------------------------------- the restored flag

  /**
   A dequeue leaves a room playing without an anchor, its position frozen, exactly when the
   restored flag survived until playback and there is a next item to take.
   */
  lemma DequeueStallsIff(s: State)
    requires (s.playing ==> s.anchor.Some?) && (s.gate.Some? ==> !s.playing)
    ensures DequeueNext(s).playing && DequeueNext(s).anchor.None?
       <==> (s.restored && s.playing && !(s.source.Some? && s.mode == Dj)
             && (s.queue != [] || (s.source.Some? && s.mode == Loop)))
  {
    var r := ReleaseGate(s, false);
    if r.source.Some? && r.mode == Dj {
    } else {
      var requeued := if r.source.Some? && r.mode == Loop then r.queue + [r.source.value.Untrimmed()] else r.queue;
      DequeueFromStallsIff(r, requeued);
    }
  }

  lemma PreparingKeeps(s: State)
    ensures PrepareEmpty(s).source == s.source && PrepareEmpty(s).queue == s.queue && PrepareEmpty(s).votes == s.votes
    ensures PrepareEmpty(s).mode == s.mode && PrepareEmpty(s).grants == s.grants
    ensures PrepareEmpty(s).gatePauses == s.gatePauses && PrepareEmpty(s).playing == s.playing
  {
  }

  lemma HoldingKeeps(s: State)
    ensures HoldForPreparation(s).source == s.source && HoldForPreparation(s).queue == s.queue
    ensures !HoldForPreparation(s).playing
  {
    PreparingKeeps(EndBoost(s).(anchor := None, playing := false, resume := true));
  }

  /** Choosing between holding and playing never touches what is played next, nor stops a running clock. */
  lemma HoldOrPlayKeepsQueue(s: State)
    ensures HoldOrPlay(s).source == s.source && HoldOrPlay(s).queue == s.queue
    ensures s.anchor.Some? && HoldOrPlay(s).playing ==> HoldOrPlay(s).anchor.Some?
  {
    HoldingKeeps(s);
  }

  lemma DequeueFromStallsIff(s: State, queue: seq<Item>)
    requires s.playing ==> s.anchor.Some?
    ensures DequeueFrom(s, queue).playing && DequeueFrom(s, queue).anchor.None? <==>
              s.restored && s.playing && queue != []
  {
    if queue != [] {
      HoldOrPlayKeepsQueue(Taken(s, queue));
    }
  }

  // ---------------------------------------------------------------- playing an item now

  lemma SwitchedQueue(s: State, queue: seq<Item>, target: Item)
    ensures SwitchTo(s, queue, target).source == Some(target) && SwitchTo(s, queue, target).queue == queue
  {
    HoldOrPlayKeepsQueue(Reposition(SetSource(s.(queue := queue), Some(target)), 0.0));
  }

  lemma ChosenPlays(s: State, evicted: seq<Item>, target: Item)
    requires s.source.Some? ==> |evicted| + 1 <= VideoQueue.MAX_QUEUE_ITEMS
    ensures PlayChosen(s, evicted, target).source == Some(target)
    ensures PlayChosen(s, evicted, target).queue
            == if s.source.Some? then [s.source.value.(startAt := Some(RealPosition(s)))] + evicted else evicted
  {
    if s.source.Some? {
      SwitchedQueue(s, [s.source.value.(startAt := Some(RealPosition(s)))] + evicted, target);
    } else {
      SwitchedQueue(s, evicted, target);
    }
  }

  /** A queue within its cap, or, before anything is on, one restored from a full room and its current item. */
  predicate WithinCap(s: State) {
    |s.queue| <= VideoQueue.MAX_QUEUE_ITEMS || (s.source.None? && |s.queue| <= VideoQueue.MAX_QUEUE_ITEMS + 1)
  }

  /**
   While the queue is within its cap, a play-now request either changes nothing or puts the
   requested video on, taking it out of the queue if it was there, with the old current item,
   trimmed to where it was, on top of the rest: no item is ever lost to a refusal.
   */
  lemma PlayNowIsAllOrNothing(s: State, item: Item)
    requires WithinCap(s)
    ensures var t := PlayNow(s, item);
            var at := VideoQueue.FindIndex(s.queue, item.video);
            var rest := if at >= 0 then VideoQueue.RemoveAt(s.queue, at) else s.queue;
            || t == s
            || (&& t.source.Some? && t.source.value.video == item.video
                && t.queue == if s.source.Some? then [s.source.value.(startAt := Some(RealPosition(s)))] + rest
                              else rest)
  {
    var at := VideoQueue.FindIndex(s.queue, item.video);
    if (s.source.None? || s.source.value.video != item.video) && (at >= 0 || |s.queue| < VideoQueue.MAX_QUEUE_ITEMS) {
      ChosenPlays(s, if at >= 0 then VideoQueue.RemoveAt(s.queue, at) else s.queue,
        if at >= 0 then s.queue[at] else item);
    }
  }

  /**
   A queued video that is not on is lost by playing it, taken out of the queue and not put on,
   exactly when the queue is over its cap.
   */
  lemma PlayNowLosesIff(s: State, item: Item)
    requires s.source.Some? && s.source.value.video != item.video && VideoQueue.FindIndex(s.queue, item.video) >= 0
    ensures var t := PlayNow(s, item);
            |s.queue| > VideoQueue.MAX_QUEUE_ITEMS
            <==> (t.queue == VideoQueue.RemoveAt(s.queue, VideoQueue.FindIndex(s.queue, item.video))
                  && t.source.Some? && t.source.value.video == s.source.value.video)
  {
    var at := VideoQueue.FindIndex(s.queue, item.video);
    var evicted := VideoQueue.RemoveAt(s.queue, at);
    if |s.queue| <= VideoQueue.MAX_QUEUE_ITEMS {
      ChosenPlays(s, evicted, s.queue[at]);
    }
  }

  // ---------------------------------------------------------------- the cap over runs

  /** What the requests behind these events see to: added items fit; a skip is undone only after something was on. */
  predicate Respectful(s: State, e: Event) {
    match e
    case EditQueue(queue) => |queue| <= VideoQueue.MAX_QUEUE_ITEMS || |queue| <= |s.queue|
    case UndoSkipEvent(_, _) => s.source.Some? || |s.queue| <= VideoQueue.MAX_QUEUE_ITEMS
    case _ => true
  }

  ghost predicate SameQueue(s: State, r: State) {
    r.queue == s.queue && r.source == s.source
  }

  /** What no change of the clock or its overlays touches: queue, source, votes and settings. */
  ghost predicate SameItems(s: State, r: State) {
    && SameQueue(s, r) && r.votes == s.votes
    && r.mode == s.mode && r.grants == s.grants && r.gatePauses == s.gatePauses
  }

  lemma EvaluatingKeepsItems(s: State)
    ensures SameItems(s, EvaluateGate(s))
  {
    ReleaseKeepsItems(s, true);
    ReleaseKeepsItems(s, false);
    var gate := Gate(s.now, Waiting(s.users, s.grants, s.exhausted));
    PausingKeepsItems(CancelRound(s.(gate := Some(gate))));
  }

  lemma ReleaseKeepsItems(s: State, timedOut: bool)
    ensures SameItems(s, ReleaseGate(s, timedOut))
  {
    if s.gate.Some? {
      PlayKeepsItems(Ungated(s, s.gate.value, timedOut));
    }
  }

  lemma PlayKeepsItems(s: State)
    ensures SameItems(s, Play(s))
  {
  }

  lemma SchedulingKeepsItems(s: State, fallback: Option<Fallback>)
    ensures SameItems(s, ScheduleStart(s, fallback))
  {
    if s.round.Some? && s.round.value.startAt.None? {
      var r := s.round.value;
      var live := Live(r.eligible, s.users, s.grants);
      var startAt := if |live| <= 1 then s.now else s.now + PLAYBACK_START_LEAD_MS;
      var start := Start(r.id, s.now, startAt, live, r.ready, r.deadlineAt, r.hardDeadlineAt);
      StartingKeepsItems(s.(
        round := Some(r.(fallback := fallback, startAt := Some(startAt))),
        history := s.history.(starts := s.history.starts + [start])));
    }
  }

  lemma SchedulingReadyKeepsItems(s: State)
    ensures SameItems(s, ScheduleIfAllReady(s))
  {
    SchedulingKeepsItems(s, None);
  }

  lemma DroppingKeepsItems(s: State, id: ClientId)
    ensures SameItems(s, DropParticipant(s, id))
  {
    if s.round.Some? && id in s.round.value.eligible {
      var r := s.round.value;
      var left := Without(r.eligible, id);
      if left != [] {
        SchedulingReadyKeepsItems(s.(round := Some(r.(eligible := left, ready := Without(r.ready, id),
          client := left[0]))));
      }
    }
  }

  lemma ReportKeepsItems(s: State, id: ClientId, status: Option<PlayerStatus>, prepared: Option<Prepared>)
    ensures SameItems(s, FinishPreparation(s, id, status, prepared))
  {
    if prepared.Some? && Concerns(s, id, prepared.value) {
      DroppingKeepsItems(s, id);
      var r := s.round.value;
      SchedulingReadyKeepsItems(s.(round := Some(r.(ready := Without(r.ready, id) + [id]))));
    }
  }

  lemma RefreshingKeepsItems(s: State)
    ensures SameItems(s, RefreshRound(s))
  {
    if s.round.Some? {
      RefreshedKeepsItems(s, Live(s.round.value.eligible, s.users, s.grants));
    }
  }

  lemma RefreshedKeepsItems(s: State, live: seq<ClientId>)
    requires s.round.Some?
    ensures SameItems(s, Refreshed(s, live))
  {
    CancellingKeepsItems(s);
    RoundKeepsItems(s, Refreshed(s, live).round);
  }

  lemma CancellingKeepsItems(s: State)
    ensures SameItems(s, CancelRound(s))
  {
  }

  lemma RoundKeepsItems(s: State, round: Option<Round>)
    ensures SameItems(s, s.(round := round))
  {
  }

  lemma DecidingKeepsItems(s: State)
    requires s.round.Some?
    ensures SameItems(s, Decided(s))
  {
    SchedulingKeepsItems(s, None);
    SchedulingKeepsItems(s, Some(Partial));
    SchedulingKeepsItems(s, Some(Forced));
  }

  lemma StartingKeepsItems(s: State)
    ensures SameItems(s, StartPrepared(s))
  {
  }

  lemma RoundTickKeepsItems(s: State)
    ensures SameItems(s, TickRound(s))
  {
    if s.round.Some? {
      RefreshingKeepsItems(s);
      var r := RefreshRound(s);
      if r.round.Some? && r.round.value.startAt.None? { DecidingKeepsItems(r); }
      var decided := if r.round.None? || r.round.value.startAt.Some? then r else Decided(r);
      StartingKeepsItems(decided);
    }
  }

  lemma AdvancingKeepsCap(s: State)
    requires WithinCap(s)
    ensures WithinCap(DequeueNext(s))
  {
    ReleasingKeepsQueue(s);
    var r := ReleaseGate(s, false);
    if r.source.Some? && r.mode == Dj {
      RepeatingKeepsQueue(r);
    } else {
      var requeued := if r.source.Some? && r.mode == Loop then r.queue + [r.source.value.Untrimmed()] else r.queue;
      if requeued != [] {
        DequeueFromTakesHead(r, requeued);
      } else {
        DequeueFromEmpty(r, requeued);
      }
    }
  }

  lemma RepeatingKeepsQueue(s: State)
    requires s.source.Some?
    ensures Repeated(s).source == Some(s.source.value.Untrimmed()) && Repeated(s).queue == s.queue
  {
  }

  lemma DequeueFromEmpty(s: State, queue: seq<Item>)
    requires queue == []
    ensures DequeueFrom(s, queue).queue == []
  {
    assert EndBoost(s.(queue := queue)).queue == [];
  }

  lemma TickingKeepsCap(s: State, skipTo: Option<real>)
    requires WithinCap(s)
    ensures WithinCap(Tick(s, skipTo))
  {
    EvaluatingKeepsItems(s);
    RoundTickKeepsItems(EvaluateGate(s));
    QueueTickKeepsCap(TickBoost(TickRound(EvaluateGate(s))));
  }

  lemma QueueTickKeepsCap(s: State)
    requires WithinCap(s)
    ensures WithinCap(TickQueue(s))
  {
    AdvancingKeepsCap(s);
    var d := if (s.source.None? && s.queue != []) || Ended(s) then DequeueNext(s) else s;
    OrderedLength(d.queue, d.votes);
  }

  lemma OrderedLength(items: seq<Item>, votes: VideoQueue.Votes)
    ensures |VideoQueue.OrderedByVotes(items, votes)| == |items|
  {
    VideoQueue.OrderedByVotesIsOrdered(items, votes);
    assert |multiset(VideoQueue.OrderedByVotes(items, votes))| == |multiset(items)|;
  }

  lemma LeavingKeepsItems(s: State, id: ClientId)
    ensures SameQueue(s, Leave(s, id))
  {
    var b := if s.boost.Some? && s.boost.value.client == id then EndBoost(s) else s;
    EndingKeepsItems(s);
    if FindUser(s.users, id).Some? {
      GoneKeepsItems(b, id);
    }
  }

  lemma EndingKeepsItems(s: State)
    ensures SameItems(s, EndBoost(s))
  {
  }

  lemma GoneKeepsItems(s: State, id: ClientId)
    ensures SameItems(Gone(s, id), EvaluateGate(AfterLeave(Gone(s, id), id)))
  {
    AfterLeavingKeepsItems(Gone(s, id), id);
    EvaluatingKeepsItems(AfterLeave(Gone(s, id), id));
  }

  lemma AfterLeavingKeepsItems(s: State, id: ClientId)
    ensures SameItems(s, AfterLeave(s, id))
  {
    EmptyingKeepsItems(s);
    PreparingKeeps(CancelRound(s).(resume := true));
  }

  lemma EmptyingKeepsItems(s: State)
    ensures SameItems(s, Emptied(s))
  {
    ReleasingKeepsQueue(s);
    PausingKeepsItems(ReleaseGate(s, false));
    assert SameItems(s, CancelRound(PauseClock(ReleaseGate(s, false))));
  }

  lemma PausingKeepsItems(s: State)
    ensures SameItems(s, PauseClock(s))
  {
    EndingKeepsItems(s);
    var e := EndBoost(s);
    if e.playing {
      assert SameItems(e, Flush(e).(anchor := None, playing := false));
    }
  }

  lemma UpdatingKeepsItems(s: State, id: ClientId, status: Option<PlayerStatus>, prepared: Option<Prepared>)
    ensures SameItems(s, UpdateUser(s, id, status, prepared))
  {
    if FindUser(s.users, id).None? {
      EvaluatingKeepsItems(s);
    } else {
      var u := if status.None? then s else Reported(s, id, status.value);
      ReportKeepsItems(u, id, status, prepared);
      EvaluatingKeepsItems(FinishPreparation(u, id, status, prepared));
    }
  }

  lemma PlayingNowKeepsCap(s: State, item: Item)
    requires WithinCap(s)
    ensures WithinCap(PlayNow(s, item))
  {
    PlayNowIsAllOrNothing(s, item);
  }

  lemma UndoingSkipKeepsCap(s: State, item: Item, prevPosition: real)
    requires WithinCap(s) && Respectful(s, UndoSkipEvent(item, prevPosition))
    ensures WithinCap(UndoSkip(s, item, prevPosition))
  {
  }

  lemma JoiningKeepsItems(s: State, viewer: Viewer, reconnect: bool)
    ensures SameItems(s, Join(s, viewer, reconnect))
  {
    PausingKeepsItems(s.(gate := None));
    var h := HoldEmpty(s, reconnect);
    PreparingKeeps(h.(users := h.users + [viewer]));
  }

  lemma SpeedKeepsItems(s: State, e: Event)
    requires e.LeaseTimer? || e.SpeedEvent? || e.StartBoostEvent? || e.RenewBoostEvent? || e.StopBoostEvent?
    ensures SameItems(s, Handle(s, e))
  {
    EndingKeepsItems(s);
    match e
    case SpeedEvent(speed) => SettingSpeedKeepsItems(s, speed);
    case StartBoostEvent(client, gesture, video) => BoostingKeepsItems(s, client, gesture, video);
    case _ =>
  }

  lemma SettingSpeedKeepsItems(s: State, speed: real)
    ensures SameItems(s, SetSpeed(s, speed))
  {
  }

  lemma BoostingKeepsItems(s: State, client: ClientId, gesture: string, video: VideoId)
    ensures SameItems(s, StartBoost(s, client, gesture, video))
  {
    ReleaseKeepsItems(s, false);
    var r := ReleaseGate(s, false);
    assert SameItems(r, Boosted(r, client, gesture));
  }

  lemma ViewersKeepItems(s: State, e: Event)
    requires e.JoinEvent? || e.LeaveEvent? || e.UpdateUserEvent? || e.HoldEmptyEvent? || e.Promote? || e.Settings?
            || e.VoteEvent?
    ensures SameQueue(s, Handle(s, e))
  {
    match e
    case JoinEvent(viewer, reconnect) => JoiningKeepsItems(s, viewer, reconnect);
    case LeaveEvent(id) => LeavingKeepsItems(s, id);
    case UpdateUserEvent(id, status, prepared) => UpdatingKeepsItems(s, id, status, prepared);
    case HoldEmptyEvent(_) => PausingKeepsItems(s.(gate := None));
    case Settings(mode, gatePauses, grants) => EvaluatingKeepsItems(s.(mode := mode, gatePauses := gatePauses,
      grants := grants));
    case _ =>
  }

  lemma PlaybackKeepsItems(s: State, e: Event)
    requires e.StartTimer? || e.PlayEvent? || e.PauseEvent? || e.SeekEvent?
    ensures SameItems(s, Handle(s, e))
  {
    StartingKeepsItems(s);
    PausingKeepsItems(CancelRound(s.(gate := None)));
  }

  /** Every event keeps the queue within its cap. */
  lemma CapIsKept(s: State, e: Event)
    requires WithinCap(s) && Respectful(s, e)
    ensures WithinCap(Handle(s, e))
  {
    match e
    case TickEvent(skipTo) => TickingKeepsCap(s, skipTo);
    case SkipEvent => AdvancingKeepsCap(s);
    case PlayNowEvent(item) => PlayingNowKeepsCap(s, item);
    case UndoSkipEvent(item, prevPosition) => UndoingSkipKeepsCap(s, item, prevPosition);
    case UndoAddEvent => assert SetSource(s, None).queue == s.queue;
    case EditQueue(_) =>
    case LeaseTimer | SpeedEvent(_) | StartBoostEvent(_, _, _) | RenewBoostEvent(_, _) | StopBoostEvent(_, _) =>
      SpeedKeepsItems(s, e);
    case StartTimer | PlayEvent | PauseEvent | SeekEvent(_) => PlaybackKeepsItems(s, e);
    case _ => ViewersKeepItems(s, e);
  }

  ghost predicate RespectfulRun(s: State, trace: seq<Timed>) {
    trace == [] ||
    (RespectfulRun(s, trace[..|trace| - 1])
     && Respectful(Elapse(Run(s, trace[..|trace| - 1]), trace[|trace| - 1].at), trace[|trace| - 1].event))
  }

  lemma {:induction false} CapOverRuns(s: State, trace: seq<Timed>)
    requires WithinCap(s) && RespectfulRun(s, trace)
    ensures WithinCap(Run(s, trace))
  {
    if trace != [] {
      var prefix, last := trace[..|trace| - 1], trace[|trace| - 1];
      CapOverRuns(s, prefix);
      var elapsed := Elapse(Run(s, prefix), last.at);
      assert SameItems(Run(s, prefix), elapsed);
      CapIsKept(elapsed, last.event);
    }
  }

  /** So in every reachable state a play-now request is all or nothing. */
  lemma PlayNowNeverLoses(s: State, trace: seq<Timed>, item: Item)
    requires WithinCap(s) && RespectfulRun(s, trace)
    ensures var r := Run(s, trace);
            var t := PlayNow(r, item);
            t == r || (t.source.Some? && t.source.value.video == item.video)
  {
    CapOverRuns(s, trace);
    PlayNowIsAllOrNothing(Run(s, trace), item);
  }

  // ---------------------------------------------------------------- loop mode

  /** The current item followed by the queue. */
  ghost function Ring(s: State): seq<Item>
    requires s.source.Some?
  {
    [s.source.value] + s.queue
  }

  ghost function Untrimmed(items: seq<Item>): seq<Item> {
    seq(|items|, i requires 0 <= i < |items| => items[i].Untrimmed())
  }

  lemma DequeueFromTakesHead(s: State, queue: seq<Item>)
    requires queue != []
    ensures DequeueFrom(s, queue).source == Some(queue[0]) && DequeueFrom(s, queue).queue == queue[1..]
  {
    HoldOrPlayKeepsQueue(Taken(s, queue));
  }

  lemma ReleasingKeepsQueue(s: State)
    ensures var r := ReleaseGate(s, false); r.source == s.source && r.queue == s.queue && r.mode == s.mode
  {
  }

  lemma LoopAdvance(s: State, requeued: seq<Item>)
    requires s.mode == Loop && s.source.Some? && requeued == s.queue + [s.source.value.Untrimmed()]
    ensures DequeueNext(s).source == DequeueFrom(ReleaseGate(s, false), requeued).source
    ensures DequeueNext(s).queue == DequeueFrom(ReleaseGate(s, false), requeued).queue
  {
    ReleasingKeepsQueue(s);
  }

  lemma LoopRequeues(s: State)
    requires s.mode == Loop && s.source.Some?
    ensures var requeued := s.queue + [s.source.value.Untrimmed()];
            DequeueNext(s).source == Some(requeued[0]) && DequeueNext(s).queue == requeued[1..]
  {
    var requeued := s.queue + [s.source.value.Untrimmed()];
    LoopAdvance(s, requeued);
    DequeueFromTakesHead(ReleaseGate(s, false), requeued);
  }

  /** One advance in loop mode rotates the ring by one and removes the trim of the item that moves to its end. */
  lemma LoopRotates(s: State)
    requires s.mode == Loop && s.source.Some?
    ensures DequeueNext(s).source.Some? && |DequeueNext(s).queue| == |s.queue|
    ensures Ring(DequeueNext(s)) == Ring(s)[1..] + [s.source.value.Untrimmed()]
  {
    LoopRequeues(s);
    var requeued := s.queue + [s.source.value.Untrimmed()];
    assert [requeued[0]] + requeued[1..] == requeued;
    assert Ring(s)[1..] == s.queue;
  }

  /** The states in which a loop advances: between advances anything may happen that leaves mode and ring alone. */
  ghost predicate LoopRun(states: seq<State>) {
    && (forall i :: 0 <= i < |states| ==> states[i].mode == Loop && states[i].source.Some?)
    && (forall i :: 0 <= i < |states| - 1 ==>
          DequeueNext(states[i]).source.Some? && Ring(states[i + 1]) == Ring(DequeueNext(states[i])))
  }

  lemma RotateOnce(ring: seq<Item>, n: nat, before: seq<Item>)
    requires 0 < n <= |ring| && before == ring[n - 1..] + Untrimmed(ring[..n - 1])
    ensures before != [] && before[1..] + [before[0].Untrimmed()] == ring[n..] + Untrimmed(ring[..n])
  {
    assert ring[..n] == ring[..n - 1] + [ring[n - 1]];
    assert Untrimmed(ring[..n]) == Untrimmed(ring[..n - 1]) + [ring[n - 1].Untrimmed()];
    assert before[0] == ring[n - 1];
    assert before[1..] == ring[n..] + Untrimmed(ring[..n - 1]);
  }

  /** After n advances the ring is rotated by n, with the trims of the first n items gone. */
  lemma {:induction false} LoopAfter(states: seq<State>, n: nat)
    requires LoopRun(states) && n < |states| && n <= |Ring(states[0])|
    ensures Ring(states[n]) == Ring(states[0])[n..] + Untrimmed(Ring(states[0])[..n])
  {
    if n > 0 {
      LoopAfter(states, n - 1);
      LoopRotates(states[n - 1]);
      assert Ring(states[n - 1 + 1]) == Ring(DequeueNext(states[n - 1]));
      RotateOnce(Ring(states[0]), n, Ring(states[n - 1]));
    }
  }

  lemma RotationConserves(ring: seq<Item>, n: nat)
    requires n <= |ring|
    ensures multiset(Untrimmed(ring[n..] + Untrimmed(ring[..n]))) == multiset(Untrimmed(ring))
  {
    assert Untrimmed(ring[n..] + Untrimmed(ring[..n])) == Untrimmed(ring[n..]) + Untrimmed(ring[..n]);
    assert Untrimmed(ring) == Untrimmed(ring[..n]) + Untrimmed(ring[n..]);
  }

  /** Queue length + 1 advances restore the original order, up to trims. */
  lemma LoopComesAround(states: seq<State>)
    requires LoopRun(states) && states != [] && |states| > |Ring(states[0])|
    ensures Ring(states[|states[0].queue| + 1]) == Untrimmed(Ring(states[0]))
  {
    var ring := Ring(states[0]);
    LoopAfter(states, |ring|);
    assert ring[|ring|..] == [] && ring[..|ring|] == ring;
  }

  /** No advance loses or invents an item, and the queue never gets longer. */
  lemma LoopConserves(states: seq<State>, n: nat)
    requires LoopRun(states) && n < |states| && n <= |Ring(states[0])|
    ensures multiset(Untrimmed(Ring(states[n]))) == multiset(Untrimmed(Ring(states[0])))
    ensures |states[n].queue| == |states[0].queue|
  {
    LoopAfter(states, n);
    RotationConserves(Ring(states[0]), n);
  }
}
