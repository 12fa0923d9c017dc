/**
 The playback machine of a room as a function of its state: a wall-clock-anchored
 position and the three overlays that pause or bend it (the buffer gate, the playback
 preparation round, and the leased temporary speed). `now` is the wall clock as the
 running handler reads it; only `Elapse` moves it.
 */
module RoomModel {
  import opened Util
  import opened RoleLattice
  import opened Video
  import Permissions
  import Timestamp
  import VideoQueue

  const TEMPORARY_PLAYBACK_SPEED := 2.0
  const TEMPORARY_PLAYBACK_SPEED_LEASE_MS := 5000
  const BUFFER_GATE_MAX_WAIT_MS := 15000
  const BUFFER_GATE_START_GRACE_MS := 2000
  const BUFFER_GATE_COOLDOWN_MS := 30000
  const PLAYBACK_READY_WAIT_MS := 8000
  const PLAYBACK_HARD_FALLBACK_MS := 20000
  const PLAYBACK_START_LEAD_MS := 1000
  const MAX_SEEK_SECONDS := 86400.0

  type ClientId = string

  datatype QueueMode = Manual | Vote | Loop | Dj
  datatype PlayerStatus = Unknown | Ready | Buffering | Broken
  datatype Fallback = Partial | NoneReady | Forced

  datatype Viewer = Viewer(id: ClientId, role: Role, status: PlayerStatus)

  /** A hold that paused the room clock for buffering viewers. */
  datatype Gate = Gate(startedAt: int, waitingOn: seq<ClientId>)

  /** The leased 2x speed of one gesture; the lease timer is armed for `leaseUntil`. */
  datatype Boost = Boost(client: ClientId, gesture: string, previousSpeed: real, leaseUntil: int)

  /** A preparation round. `ready` lists the viewers whose reports were accepted. */
  datatype Round = Round(
    id: nat, client: ClientId, video: VideoId, position: real,
    eligible: seq<ClientId>, ready: seq<ClientId>,
    deadlineAt: int, hardDeadlineAt: int, startAt: Option<int>, fallback: Option<Fallback>)

  /** A player's readiness report; an unusable position is absent. */
  datatype Prepared = Prepared(
    id: nat, position: Option<real>, failed: bool, visible: bool, firstFrame: bool, bufferAhead: Option<real>)

  /** What a scheduled start looked like when `startAt` was written. */
  datatype Start = Start(
    round: nat, at: int, startAt: int, live: seq<ClientId>, ready: seq<ClientId>, deadlineAt: int, hardDeadlineAt: int)

  /**
   History variables; no handler reads them. `ledger` is the reference clock: it runs at the
   effective speed while the room plays and is set only where a handler chooses a position.
   `chosen` is the last explicitly chosen speed. `starts` and `timeouts` log the writes of
   `startAt` and the beginnings of holds that ran out; `sources` counts source changes;
   `lastTick` and `maxGap` are the latest tick and the longest wait since a tick so far.
   */
  datatype History = History(
    ledger: real, chosen: real, starts: seq<Start>, timeouts: seq<int>, sources: nat, lastTick: int, maxGap: int)

  datatype State = State(
    now: int,
    users: seq<Viewer>,
    grants: Masks,
    gatePauses: bool,
    mode: QueueMode,
    source: Option<Item>,
    queue: seq<Item>,
    votes: VideoQueue.Votes,
    playing: bool,
    position: real,
    anchor: Option<int>,
    speed: real,
    boost: Option<Boost>,
    gate: Option<Gate>,
    exhausted: set<ClientId>,
    lastPlayAt: Option<int>,
    cooldownUntil: Option<int>,
    round: Option<Round>,
    startTimer: Option<int>,
    nextRound: nat,
    resume: bool,
    restored: bool,
    history: History)

  // ---------------------------------------------------------------- reading the state

  function DurationFromPlaybackStart(s: State): real {
    if s.anchor.Some? then Timestamp.CalculateCurrentPosition(s.anchor.value, s.now, 0.0, s.speed) else 0.0
  }

  function RealPosition(s: State): real {
    if s.anchor.Some? && s.playing then s.position + DurationFromPlaybackStart(s) else s.position
  }

  predicate MayPlayPause(grants: Masks, user: Viewer) {
    Permissions.Granted(grants, user.role, Permissions.PLAY_PAUSE)
  }

  predicate MaySetSpeed(grants: Masks, user: Viewer) {
    Permissions.Granted(grants, user.role, Permissions.SPEED)
  }

  function FindUser(users: seq<Viewer>, id: ClientId): (r: Option<Viewer>)
    ensures r.Some? ==> r.value in users && r.value.id == id
    ensures r.None? ==> forall u :: u in users ==> u.id != id
  {
    if users == [] then None
    else if users[0].id == id then Some(users[0])
    else FindUser(users[1..], id)
  }

  /** The viewers who can report readiness, in room order. */
  function Preparers(users: seq<Viewer>, grants: Masks): (ids: seq<ClientId>)
    ensures forall id :: id in ids ==> exists u :: u in users && u.id == id
  {
    if users == [] then []
    else (if MayPlayPause(grants, users[0]) then [users[0].id] else []) + Preparers(users[1..], grants)
  }

  predicate IsPreparer(users: seq<Viewer>, grants: Masks, id: ClientId) {
    FindUser(users, id).Some? && MayPlayPause(grants, FindUser(users, id).value)
  }

  /** The round's viewers who are still here and still permitted, in the round's order. */
  function Live(eligible: seq<ClientId>, users: seq<Viewer>, grants: Masks): (live: seq<ClientId>)
    ensures forall id :: id in live <==> id in eligible && IsPreparer(users, grants, id)
    ensures Distinct(eligible) ==> Distinct(live)
  {
    if eligible == [] then []
    else (if IsPreparer(users, grants, eligible[0]) then [eligible[0]] else []) + Live(eligible[1..], users, grants)
  }

  /** Viewers holding up playback: permitted, explicitly buffering, and not timed out already. */
  function Waiting(users: seq<Viewer>, grants: Masks, exhausted: set<ClientId>): (ids: seq<ClientId>)
    ensures forall id :: id in ids ==> id !in exhausted && exists u :: u in users && u.id == id && u.status == Buffering
  {
    if users == [] then []
    else
      var waiting := MayPlayPause(grants, users[0]) && users[0].status == Buffering && users[0].id !in exhausted;
      (if waiting then [users[0].id] else []) + Waiting(users[1..], grants, exhausted)
  }

  function Without(ids: seq<ClientId>, id: ClientId): (r: seq<ClientId>)
    ensures forall x :: x in r <==> x in ids && x != id
    ensures Distinct(ids) ==> Distinct(r)
  {
    if ids == [] then []
    else
      var rest := Without(ids[1..], id);
      assert Distinct(ids) ==> ids[0] !in ids[1..];
      if ids[0] == id then rest else [ids[0]] + rest
  }

  function Only(ids: seq<ClientId>, allowed: seq<ClientId>): (r: seq<ClientId>)
    ensures forall x :: x in r <==> x in ids && x in allowed
    ensures Distinct(ids) ==> Distinct(r)
  {
    if ids == [] then [] else (if ids[0] in allowed then [ids[0]] else []) + Only(ids[1..], allowed)
  }

  predicate AllReady(live: seq<ClientId>, ready: seq<ClientId>) {
    live != [] && forall id :: id in live ==> id in ready
  }

  predicate CanPrepareItem(item: Item) {
    && !item.isLive && item.length.Some? && item.length.value > 0.0
    && (item.video.service in ["direct", "googledrive", "hls", "reddit", "tubi", "pluto", "dash"]
        || (item.video.service == "odysee" && item.nativeMime))
  }

  predicate CanPrepare(s: State) {
    s.source.Some? && CanPrepareItem(s.source.value)
  }

  predicate CanHold(s: State) {
    CanPrepare(s) && Preparers(s.users, s.grants) != []
  }

  function ReadyBufferSeconds(service: string): real {
    if service == "hls" || service == "dash" then 6.0 else 3.0
  }

  // ---------------------------------------------------------------- the clock

  /** The rate at which the room really advances. */
  function EffectiveSpeed(s: State): real {
    if s.playing then s.speed else 0.0
  }

  /** Time passes: the wall clock moves and the reference clock runs. Nothing else changes. */
  function Elapse(s: State, now: int): State {
    s.(now := now, history := s.history.(
      ledger := Timestamp.CalculateCurrentPosition(s.now, now, s.history.ledger, EffectiveSpeed(s)),
      maxGap := Max(s.history.maxGap, now - s.history.lastTick)))
  }

  function Flush(s: State): State {
    s.(position := RealPosition(s), anchor := Some(s.now))
  }

  /** A handler chooses a position and restarts the anchor there. */
  function Reposition(s: State, position: real): State {
    s.(position := position, anchor := Some(s.now), history := s.history.(ledger := position))
  }

  function EndBoost(s: State): State {
    match s.boost
    case None => s
    case Some(b) => Flush(s).(boost := None, speed := b.previousSpeed)
  }

  function CancelRound(s: State): State {
    s.(startTimer := None, round := None, resume := false)
  }

  function PauseClock(s: State): State {
    var e := EndBoost(s);
    if e.playing then Flush(e).(anchor := None, playing := false) else e
  }

  function Play(s: State): State {
    var ungated := s.(
      gate := None,
      cooldownUntil := if s.gate.Some? then Some(s.now + BUFFER_GATE_COOLDOWN_MS) else s.cooldownUntil);
    CancelRound(ungated).(
      restored := false,
      playing := true,
      lastPlayAt := if s.playing then s.lastPlayAt else Some(s.now),
      anchor := if s.playing then s.anchor else Some(s.now))
  }

  function Pause(s: State, byBufferGate: bool): State {
    PauseClock(CancelRound(if byBufferGate then s else s.(gate := None)))
  }

  function SetSource(s: State, source: Option<Item>): State {
    CancelRound(EndBoost(s.(gate := None, exhausted := {}, lastPlayAt := Some(s.now)))).(
      source := source,
      history := s.history.(sources := s.history.sources + 1))
  }

  // ---------------------------------------------------------------- the buffer gate

  /** The hold is over; one that ran out starts the cooldown and costs a lone viewer's patience. */
  function Ungated(s: State, g: Gate, timedOut: bool): State {
    s.(gate := None,
       cooldownUntil := if timedOut then Some(s.now + BUFFER_GATE_COOLDOWN_MS) else s.cooldownUntil,
       exhausted := if timedOut && |s.users| == 1 then s.exhausted + (set id | id in g.waitingOn) else s.exhausted,
       history := if timedOut then s.history.(timeouts := s.history.timeouts + [g.startedAt]) else s.history)
  }

  function ReleaseGate(s: State, timedOut: bool): State {
    match s.gate
    case None => s
    case Some(g) =>
      var released := Ungated(s, g, timedOut);
      if !s.playing && |s.users| > 0 && s.source.Some? && s.round.None? then Play(released) else released
  }

  function EvaluateGate(s: State): State {
    if s.gate.Some? && s.now - s.gate.value.startedAt >= BUFFER_GATE_MAX_WAIT_MS then
      ReleaseGate(s, true)
    else if (!s.gatePauses && |s.users| != 1) || s.boost.Some? || s.round.Some? || s.source.None? then
      ReleaseGate(s, false)
    else
      var waiting := Waiting(s.users, s.grants, s.exhausted);
      if waiting == [] then
        ReleaseGate(s, false)
      else if s.gate.Some? then
        s.(gate := Some(s.gate.value.(waitingOn := waiting)))
      else if !s.playing
           || (s.lastPlayAt.Some? && s.now - s.lastPlayAt.value < BUFFER_GATE_START_GRACE_MS)
           || (s.cooldownUntil.Some? && s.now < s.cooldownUntil.value) then
        s
      else
        Pause(s.(gate := Some(Gate(s.now, waiting))), true)
  }

  // ---------------------------------------------------------------- the preparation round

  function PrepareEmpty(s: State): State {
    var eligible := Preparers(s.users, s.grants);
    if !s.resume || s.playing || s.round.Some? || !CanPrepare(s) || s.position < 0.0 || eligible == [] then s
    else s.(
           round := Some(Round(s.nextRound, eligible[0], s.source.value.video, s.position, eligible, [],
                               s.now + PLAYBACK_READY_WAIT_MS, s.now + PLAYBACK_HARD_FALLBACK_MS, None, None)),
           nextRound := s.nextRound + 1,
           anchor := None)
  }

  function HoldForPreparation(s: State): State {
    var e := EndBoost(s);
    PrepareEmpty(e.(anchor := None, playing := false, resume := true))
  }

  function StartPrepared(s: State): State {
    if s.round.None? || s.round.value.startAt.None? || s.now + 50 < s.round.value.startAt.value then s
    else
      var r := s.round.value;
      s.(startTimer := None, round := None, resume := false,
         position := r.position, playing := true, anchor := Some(r.startAt.value),
         history := s.history.(ledger :=
           Timestamp.CalculateCurrentPosition(r.startAt.value, s.now, r.position, s.speed)))
  }

  function ScheduleStart(s: State, fallback: Option<Fallback>): State {
    if s.round.None? || s.round.value.startAt.Some? then s
    else
      var r := s.round.value;
      var live := Live(r.eligible, s.users, s.grants);
      var startAt := if |live| <= 1 then s.now else s.now + PLAYBACK_START_LEAD_MS;
      var scheduled := s.(
        round := Some(r.(fallback := fallback, startAt := Some(startAt))),
        history := s.history.(
        starts := s.history.starts + [Start(r.id, s.now, startAt, live, r.ready, r.deadlineAt, r.hardDeadlineAt)]));
      if |live| <= 1 then StartPrepared(scheduled) else scheduled.(startTimer := Some(startAt))
  }

  /** Schedules the start once every live viewer of the round is ready. */
  function ScheduleIfAllReady(s: State): State {
    if s.round.Some? && AllReady(Live(s.round.value.eligible, s.users, s.grants), s.round.value.ready)
    then ScheduleStart(s, None) else s
  }

  function DropParticipant(s: State, id: ClientId): State {
    if s.round.None? || id !in s.round.value.eligible then s
    else
      var r := s.round.value;
      var left := Without(r.eligible, id);
      var dropped := r.(eligible := left, ready := Without(r.ready, id));
      if left == [] then s.(round := Some(dropped.(fallback := Some(NoneReady))))
      else ScheduleIfAllReady(s.(round := Some(dropped.(client := left[0]))))
  }

  function RefreshRound(s: State): State {
    if s.round.None? then s else Refreshed(s, Live(s.round.value.eligible, s.users, s.grants))
  }

  /** The round goes on with the viewers who are left, or ends if nobody could ever prepare. */
  function Refreshed(s: State, live: seq<ClientId>): State
    requires s.round.Some?
  {
    if live == s.round.value.eligible then s
    else if live == [] && Preparers(s.users, s.grants) == [] then CancelRound(s)
    else s.(round := Some(ShrunkTo(s.round.value, live)))
  }

  function ShrunkTo(r: Round, live: seq<ClientId>): Round {
    var shrunk := r.(eligible := live, ready := Only(r.ready, live));
    if live != [] then shrunk.(client := live[0]) else shrunk.(fallback := Some(NoneReady))
  }

  /** Whether a report speaks for the round being held, from one of its live viewers. */
  predicate Concerns(s: State, id: ClientId, prepared: Prepared) {
    && s.round.Some? && prepared.id == s.round.value.id
    && id in Live(s.round.value.eligible, s.users, s.grants)
    && s.source.Some? && s.source.value.video == s.round.value.video
    && s.position == s.round.value.position && !s.playing
  }

  /** Whether a report proves the first frame at the held position with enough buffer ahead. */
  predicate ProvesReady(s: State, status: Option<PlayerStatus>, prepared: Prepared)
    requires s.round.Some?
  {
    && status == Some(Ready) && prepared.firstFrame
    && prepared.position.Some? && prepared.position.value >= 0.0
    && -1.0 <= prepared.position.value - s.round.value.position <= 1.0
    && (prepared.bufferAhead.None? || prepared.bufferAhead.value >= ReadyBufferSeconds(s.round.value.video.service))
  }

  function FinishPreparation(s: State, id: ClientId, status: Option<PlayerStatus>, prepared: Option<Prepared>): State {
    if prepared.None? || !Concerns(s, id, prepared.value) then s
    else if prepared.value.failed || !prepared.value.visible then DropParticipant(s, id)
    else if !ProvesReady(s, status, prepared.value) then s
    else
      var r := s.round.value;
      ScheduleIfAllReady(s.(round := Some(r.(ready := Without(r.ready, id) + [id]))))
  }

  function HoldEmpty(s: State, skipForReconnect: bool): State {
    if |s.users| > 0 || skipForReconnect || (!s.playing && s.gate.None?) || !CanPrepare(s) then s
    else PauseClock(s.(gate := None)).(resume := true)
  }

  // ---------------------------------------------------------------- changing the source

  function SeekRaw(s: State, value: real): State {
    Reposition(CancelRound(s), value)
  }

  function WithoutVotesOf(votes: VideoQueue.Votes, item: Item): VideoQueue.Votes {
    votes - {item.VoteKey()}
  }

  /** A freshly chosen source either waits for its first frame or, in an idle room, starts playing. */
  function HoldOrPlay(s: State): State {
    if CanHold(s) then HoldForPreparation(s) else if !s.playing then Play(s) else s
  }

  /** The requested source replaces the current one from its beginning. */
  function SwitchTo(s: State, queue: seq<Item>, target: Item): State {
    HoldOrPlay(Reposition(SetSource(s.(queue := queue), Some(target)), 0.0))
  }

  /** The first item becomes the source, at its own start position. */
  function Taken(s: State, queue: seq<Item>): State
    requires queue != []
  {
    Reposition(SetSource(s.(queue := queue[1..]), Some(queue[0])), queue[0].startAt.GetOr(0.0))
    .(votes := WithoutVotesOf(s.votes, queue[0]))
  }

  function DequeueFrom(s: State, queue: seq<Item>): State {
    if queue != [] then
      if s.restored then Taken(s, queue).(anchor := None) else HoldOrPlay(Taken(s, queue))
    else if s.source.Some? then
      SetSource(Reposition(EndBoost(s.(queue := queue)).(playing := false), 0.0), None)
    else s.(queue := queue)
  }

  /** The current item starts over. */
  function Repeated(s: State): State
    requires s.source.Some?
  {
    var again := Reposition(SetSource(s, Some(s.source.value.Untrimmed())), 0.0);
    if again.playing then again else Play(again)
  }

  /** What comes after the current item, once no hold is left. */
  function Advance(s: State): State {
    if s.source.Some? && s.mode == Dj then Repeated(s)
    else
      var again := s.source.Some? && s.mode == Loop;
      var d := DequeueFrom(s, if again then s.queue + [s.source.value.Untrimmed()] else s.queue);
      d.(speed := 1.0, history := d.history.(chosen := 1.0))
  }

  function DequeueNext(s: State): State {
    Advance(ReleaseGate(s, false))
  }

  /** The current item has a known end and playback ran past it. */
  predicate Ended(s: State) {
    && s.source.Some? && s.playing && !s.source.value.isLive
    && var end := if s.source.value.endAt.Some? then s.source.value.endAt else s.source.value.length;
       end.Some? && end.value > 0.0 && RealPosition(s) > end.value
  }

  // ---------------------------------------------------------------- the one-second tick

  function Ticked(s: State): State {
    s.(history := s.history.(lastTick := s.now))
  }

  /** What a tick makes of a round whose start is not scheduled yet. */
  function Decided(s: State): State
    requires s.round.Some?
  {
    var r := s.round.value;
    if AllReady(Live(r.eligible, s.users, s.grants), r.ready) then ScheduleStart(s, None)
    else if s.now < r.deadlineAt then s
    else if r.ready != [] then ScheduleStart(s, Some(Partial))
    else if s.now >= r.hardDeadlineAt then ScheduleStart(s, Some(Forced))
    else s.(round := Some(r.(fallback := Some(NoneReady))))
  }

  function TickRound(s: State): State {
    if s.round.None? then Ticked(s)
    else
      var r := RefreshRound(s);
      var decided := if r.round.None? || r.round.value.startAt.Some? then r else Decided(r);
      Ticked(
        if decided.round.Some? && decided.round.value.startAt.Some? && decided.now >= decided.round.value.startAt.value
        then StartPrepared(decided) else decided)
  }

  function TickBoost(s: State): State {
    if s.boost.Some? then
      var owner := FindUser(s.users, s.boost.value.client);
      if owner.None? || !MaySetSpeed(s.grants, owner.value) then EndBoost(s) else s
    else s
  }

  function TickQueue(s: State): State {
    var d := if (s.source.None? && s.queue != []) || Ended(s) then DequeueNext(s) else s;
    if d.mode == Vote then d.(queue := VideoQueue.OrderedByVotes(d.queue, d.votes)) else d
  }

  /** `skipTo` is the end of a segment to be skipped, if the segment service reported one here. */
  function Tick(s: State, skipTo: Option<real>): State {
    var q := TickQueue(TickBoost(TickRound(EvaluateGate(s))));
    if skipTo.Some? && q.playing then SeekRaw(q, skipTo.value) else q
  }

  // ---------------------------------------------------------------- room requests

  function Join(s: State, viewer: Viewer, reconnect: bool): State {
    var h := HoldEmpty(s, reconnect);
    var j := h.(users := h.users + [viewer]);
    if reconnect && j.resume && |j.users| == 1 && MayPlayPause(j.grants, viewer) && CanPrepare(j)
    then Play(j.(resume := false)) else PrepareEmpty(j)
  }

  function RemoveUser(users: seq<Viewer>, id: ClientId): (r: seq<Viewer>)
    ensures forall u :: u in r ==> u in users
    ensures |r| <= |users|
    ensures (exists u :: u in users && u.id == id) ==> |r| == |users| - 1
  {
    if users == [] then [] else if users[0].id == id then users[1..] else [users[0]] + RemoveUser(users[1..], id)
  }

  function WithoutVoter(votes: VideoQueue.Votes, id: ClientId): VideoQueue.Votes {
    map k | k in votes :: votes[k] - {id}
  }

  function Emptied(s: State): State {
    var shouldResume := s.playing || s.gate.Some? || s.round.Some? || s.resume;
    var p := CancelRound(PauseClock(ReleaseGate(s, false)));
    p.(resume := shouldResume && CanPrepare(p))
  }

  /** A round loses a viewer by starting over with the others, under a new id and new deadlines. */
  function AfterLeave(gone: State, id: ClientId): State {
    if gone.users == [] then Emptied(gone)
    else if gone.round.Some? && id in gone.round.value.eligible then PrepareEmpty(CancelRound(gone).(resume := true))
    else gone
  }

  function Gone(s: State, id: ClientId): State {
    s.(votes := if s.mode == Vote then WithoutVoter(s.votes, id) else s.votes, users := RemoveUser(s.users, id))
  }

  function Leave(s: State, id: ClientId): State {
    var b := if s.boost.Some? && s.boost.value.client == id then EndBoost(s) else s;
    if FindUser(s.users, id).None? then b
    else
      EvaluateGate(AfterLeave(Gone(b, id), id))
  }

  function WithStatus(users: seq<Viewer>, id: ClientId, status: PlayerStatus): (r: seq<Viewer>)
    ensures |r| == |users|
    ensures forall i :: 0 <= i < |users| ==> r[i].id == users[i].id && r[i].role == users[i].role
  {
    if users == [] then []
    else if users[0].id == id then [users[0].(status := status)] + users[1..]
    else [users[0]] + WithStatus(users[1..], id, status)
  }

  /** A status is recorded, and one other than buffering restores the viewer's patience. */
  function Reported(s: State, id: ClientId, status: PlayerStatus): State {
    s.(users := WithStatus(s.users, id, status),
       exhausted := if status != Buffering then s.exhausted - {id} else s.exhausted)
  }

  /** A heartbeat: a status, a readiness report, both or neither. */
  function UpdateUser(s: State, id: ClientId, status: Option<PlayerStatus>, prepared: Option<Prepared>): State {
    if FindUser(s.users, id).None? then EvaluateGate(s)
    else
      var u := if status.None? then s else Reported(s, id, status.value);
      EvaluateGate(FinishPreparation(u, id, status, prepared))
  }

  function Skip(s: State): State {
    if s.source.None? then s else DequeueNext(s)
  }

  function Seek(s: State, value: real): State {
    if 0.0 <= value <= MAX_SEEK_SECONDS then SeekRaw(s, value) else s
  }

  /** The target starts, and the current item goes back to the top of what is left of the queue. */
  function PlayChosen(s: State, evicted: seq<Item>, target: Item): State {
    if s.source.None? then SwitchTo(s, evicted, target)
    else
      var current := s.source.value.(startAt := Some(RealPosition(s)));
      if |evicted| + 1 > VideoQueue.MAX_QUEUE_ITEMS then s.(queue := evicted, source := Some(current))
      else SwitchTo(s, [current] + evicted, target)
  }

  /**
   `item` is what the queue or the video service returned for the requested video. The current
   item goes back to the top of the queue, trimmed to where it was; a full queue refuses it.
   */
  function PlayNow(s: State, item: Item): State {
    var at := VideoQueue.FindIndex(s.queue, item.video);
    if s.source.Some? && s.source.value.video == item.video then s
    else if at < 0 && |s.queue| >= VideoQueue.MAX_QUEUE_ITEMS then s
    else
      var target := if at >= 0 then s.queue[at] else item;
      var evicted := if at >= 0 then VideoQueue.RemoveAt(s.queue, at) else s.queue;
      PlayChosen(s, evicted, target)
  }

  function SetSpeed(s: State, speed: real): State {
    if 0.25 <= speed <= 4.0
    then Flush(s.(boost := None)).(speed := speed, history := s.history.(chosen := speed))
    else s
  }

  predicate OwnsGesture(s: State, client: ClientId, gesture: string) {
    s.boost.Some? && s.boost.value.client == client && s.boost.value.gesture == gesture
  }

  function Boosted(s: State, client: ClientId, gesture: string): State {
    Flush(s).(boost := Some(Boost(client, gesture, s.speed, s.now + TEMPORARY_PLAYBACK_SPEED_LEASE_MS)),
              speed := TEMPORARY_PLAYBACK_SPEED)
  }

  function StartBoost(s: State, client: ClientId, gesture: string, video: VideoId): State {
    if FindUser(s.users, client).None? || !MaySetSpeed(s.grants, FindUser(s.users, client).value)
       || (!s.playing && s.gate.None?) || s.source.None? || s.source.value.length.None?
       || s.source.value.length.value <= 0.0 || s.source.value.video != video || s.boost.Some? then s
    else
      var r := ReleaseGate(s, false);
      if !r.playing then r
      else Boosted(r, client, gesture)
  }

  function RenewBoost(s: State, client: ClientId, gesture: string): State {
    if FindUser(s.users, client).Some? && MaySetSpeed(s.grants, FindUser(s.users, client).value)
      && OwnsGesture(s, client, gesture)
    then s.(boost := Some(s.boost.value.(leaseUntil := s.now + TEMPORARY_PLAYBACK_SPEED_LEASE_MS))) else s
  }

  function StopBoost(s: State, client: ClientId, gesture: string): State {
    if FindUser(s.users, client).Some? && OwnsGesture(s, client, gesture) then EndBoost(s) else s
  }

  /** Undoing a skip: the current item returns to the queue, the skipped one to its old position. */
  function UndoSkip(s: State, video: Item, prevPosition: real): State {
    var push := s.source.Some? && VideoQueue.FindIndex(s.queue, s.source.value.video) < 0;
    if push && |s.queue| + 1 > VideoQueue.MAX_QUEUE_ITEMS then s
    else
      Reposition(SetSource(s.(queue := if push then [s.source.value] + s.queue else s.queue), Some(video)),
        prevPosition)
  }

  function WithRole(users: seq<Viewer>, id: ClientId, role: Role): (r: seq<Viewer>)
    ensures |r| == |users|
    ensures forall i :: 0 <= i < |users| ==> r[i].id == users[i].id && r[i].status == users[i].status
  {
    if users == [] then []
    else if users[0].id == id then [users[0].(role := role)] + users[1..]
    else [users[0]] + WithRole(users[1..], id, role)
  }

  function CastVote(s: State, client: ClientId, item: Item, add: bool): State {
    var key := item.VoteKey();
    if VideoQueue.FindIndex(s.queue, item.video) < 0 then s
    else if key in s.votes then
      s.(votes := s.votes[key := if add then s.votes[key] + {client} else s.votes[key] - {client}])
    else if add then s.(votes := s.votes[key := {client}])
    else s
  }

  // ---------------------------------------------------------------- the machine

  /**
   Everything that can happen to the room. `EditQueue` stands for every request that only
   changes the queue; `Settings` for a settings or grants change; `LeaseTimer` and
   `StartTimer` for the two timers, which do nothing once they are disarmed.
   */
  datatype Event =
    | TickEvent(skipTo: Option<real>)
    | StartTimer
    | LeaseTimer
    | HoldEmptyEvent(reconnect: bool)
    | JoinEvent(viewer: Viewer, reconnect: bool)
    | LeaveEvent(client: ClientId)
    | UpdateUserEvent(client: ClientId, status: Option<PlayerStatus>, prepared: Option<Prepared>)
    | PlayEvent
    | PauseEvent
    | SkipEvent
    | SeekEvent(value: real)
    | PlayNowEvent(item: Item)
    | SpeedEvent(speed: real)
    | StartBoostEvent(client: ClientId, gesture: string, video: VideoId)
    | RenewBoostEvent(client: ClientId, gesture: string)
    | StopBoostEvent(client: ClientId, gesture: string)
    | UndoSkipEvent(item: Item, prevPosition: real)
    | UndoAddEvent
    | EditQueue(queue: seq<Item>)
    | VoteEvent(client: ClientId, item: Item, add: bool)
    | Settings(newMode: QueueMode, newGatePauses: bool, newGrants: Masks)
    | Promote(client: ClientId, role: Role)

  function Handle(s: State, e: Event): State {
    match e
    case TickEvent(skipTo) => Tick(s, skipTo)
    case StartTimer => if s.startTimer.Some? then StartPrepared(s) else s
    case LeaseTimer => if s.boost.Some? && s.now >= s.boost.value.leaseUntil then EndBoost(s) else s
    case HoldEmptyEvent(reconnect) => HoldEmpty(s, reconnect)
    case JoinEvent(viewer, reconnect) => Join(s, viewer, reconnect)
    case LeaveEvent(client) => Leave(s, client)
    case UpdateUserEvent(client, status, prepared) => UpdateUser(s, client, status, prepared)
    case PlayEvent => Play(s)
    case PauseEvent => Pause(s, false)
    case SkipEvent => Skip(s)
    case SeekEvent(value) => Seek(s, value)
    case PlayNowEvent(item) => PlayNow(s, item)
    case SpeedEvent(speed) => SetSpeed(s, speed)
    case StartBoostEvent(client, gesture, video) => StartBoost(s, client, gesture, video)
    case RenewBoostEvent(client, gesture) => RenewBoost(s, client, gesture)
    case StopBoostEvent(client, gesture) => StopBoost(s, client, gesture)
    case UndoSkipEvent(item, prevPosition) => UndoSkip(s, item, prevPosition)
    case UndoAddEvent => SetSource(s, None)
    case EditQueue(queue) => s.(queue := queue)
    case VoteEvent(client, item, add) => CastVote(s, client, item, add)
    case Settings(newMode, newGatePauses, newGrants) =>
      EvaluateGate(s.(mode := newMode, gatePauses := newGatePauses, grants := newGrants))
    case Promote(client, role) => s.(users := WithRole(s.users, client, role))
  }

  function Step(s: State, now: int, e: Event): State {
    Handle(Elapse(s, now), e)
  }
}
