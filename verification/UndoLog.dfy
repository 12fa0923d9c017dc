/**
 Undo: the room keeps its latest published events, an echo from a client is matched against
 them, and the recorded copy, never the echo, says what is undone.
 */
module UndoLog {
  import opened Util
  import opened Video
  import opened RoomModel
  import opened RoleLattice
  import Permissions
  import Timestamp
  import VideoQueue
  import RoomQueueTheorems

  const RECENT_EVENTS_LIMIT := 20

  datatype Kind = SeekRequest | SkipRequest | AddRequest | RemoveRequest | OtherRequest(name: string)

  /** The fields an echo is matched by. */
  datatype Fields = Fields(
    kind: Kind, request: Option<VideoId>, video: Option<Item>, prevPosition: Option<real>, queueIdx: Option<int>)

  /** A published event; `detail` is the rest of it, which matching ignores. */
  datatype Published = Published(fields: Fields, detail: string)

  /** A recorded copy. The serial is its identity: the position of the event among all published ones. */
  datatype Record = Record(serial: nat, event: Published)

  /** `published` and `applied` are the history: all events, and the serials of those undone. */
  datatype Log = Log(room: State, recent: seq<Record>, published: seq<Published>, applied: seq<nat>)

  /** What can happen; `Act` is any other handler, `Announce` any event it publishes. */
  datatype Action = Act(room: State) | Announce(event: Published) | UndoAction(echo: Fields, known: bool, role: Role)

  function Publish(log: Log, event: Published): Log {
    var recent := log.recent + [Record(|log.published|, event)];
    log.(recent := if |recent| > RECENT_EVENTS_LIMIT then recent[1..] else recent, published := log.published + [event])
  }

  /** The oldest record that matches. */
  function FindRecent(recent: seq<Record>, echo: Fields): (at: nat)
    ensures at <= |recent| && (at < |recent| ==> recent[at].event.fields == echo)
    ensures forall j :: 0 <= j < at ==> recent[j].event.fields != echo
  {
    IndexWhere(recent, (r: Record) => r.event.fields == echo)
  }

  function IndexOfSerial(recent: seq<Record>, serial: nat): (at: nat)
    ensures at <= |recent| && (at < |recent| ==> recent[at].serial == serial)
    ensures forall j :: 0 <= j < at ==> recent[j].serial != serial
  {
    IndexWhere(recent, (r: Record) => r.serial == serial)
  }

  function Evicted(room: State, at: nat): State
    requires at < |room.queue|
  {
    room.(queue := VideoQueue.RemoveAt(room.queue, at), votes := WithoutVotesOf(room.votes, room.queue[at]))
  }

  predicate SkipUndoFits(room: State) {
    room.source.None? || VideoQueue.FindIndex(room.queue, room.source.value.video) >= 0
    || |room.queue| + 1 <= VideoQueue.MAX_QUEUE_ITEMS
  }

  /** What undoing an event does to the room; absent when it is refused. */
  function Effect(room: State, f: Fields): Option<State> {
    match f.kind
    case SeekRequest =>
      if f.prevPosition.None? then Some(room)
      else if 0.0 <= f.prevPosition.value <= MAX_SEEK_SECONDS then Some(Seek(room, f.prevPosition.value))
      else None
    case SkipRequest =>
      if !SkipUndoFits(room) then None
      else if f.video.Some? && f.prevPosition.Some? then Some(UndoSkip(room, f.video.value, f.prevPosition.value))
      else if room.source.Some? && VideoQueue.FindIndex(room.queue, room.source.value.video) < 0 then
        Some(room.(queue := [room.source.value] + room.queue))
      else Some(room)
    case AddRequest =>
      if room.queue != [] && f.request.Some? then
        var at := VideoQueue.FindIndex(room.queue, f.request.value);
        if at < 0 then None else Some(Evicted(room, at))
      else Some(SetSource(room, None))
    case RemoveRequest =>
      if f.video.None? || f.queueIdx.None? then Some(room)
      else if 0 <= f.queueIdx.value <= |room.queue| && |room.queue| + 1 <= VideoQueue.MAX_QUEUE_ITEMS then
        Some(room.(queue := VideoQueue.InsertAt(room.queue, f.video.value, f.queueIdx.value)))
      else None
    case OtherRequest(_) => Some(room)
  }

  /** The event an undo publishes on the way, when it goes through an ordinary request. */
  function Nested(room: State, f: Fields): Option<Fields> {
    if f.kind.SeekRequest? && f.prevPosition.Some? then
      Some(Fields(SeekRequest, None, None, Some(RealPosition(room)), None))
    else if f.kind.AddRequest? && room.queue != [] && f.request.Some? then
      var at := VideoQueue.FindIndex(room.queue, f.request.value);
      if at < 0 then None else Some(Fields(RemoveRequest, f.request, Some(room.queue[at]), None, Some(at)))
    else None
  }

  function Forget(log: Log, serial: nat): Log {
    var at := IndexOfSerial(log.recent, serial);
    log.(recent := if at < |log.recent| then log.recent[..at] + log.recent[at + 1..] else log.recent,
         applied := log.applied + [serial])
  }

  /** The echoes the request schema lets through. */
  predicate WellFormed(echo: Fields) {
    && !echo.kind.OtherRequest? && (echo.prevPosition.Some? ==> echo.prevPosition.value >= 0.0)
    && (echo.queueIdx.Some? ==> echo.queueIdx.value >= 0)
  }

  /** The permissions an undo checks before it changes anything. */
  function Needed(room: State, f: Fields): Mask {
    match f.kind
    case SeekRequest => if f.prevPosition.Some? then Permissions.SEEK else {}
    case SkipRequest => Permissions.SKIP + Permissions.SEEK + Permissions.ADD + Permissions.PLAY_NOW
    case AddRequest =>
      if room.queue != [] && f.request.Some? then Permissions.REMOVE else Permissions.REMOVE + Permissions.SKIP
    case RemoveRequest => Permissions.ADD + Permissions.ORDER
    case OtherRequest(_) => {}
  }

  predicate MayUndo(room: State, f: Fields, role: Role) {
    Permissions.Granted(room.grants, role, Needed(room, f))
  }

  /** `known` says whether the asking client can still be named; an unnamed client's events are not published. */
  function Undo(log: Log, echo: Fields, known: bool, role: Role): Log {
    var at := FindRecent(log.recent, echo);
    if !WellFormed(echo) || at == |log.recent| then log
    else
      var record := log.recent[at];
      var effect := Effect(log.room, record.event.fields);
      if !MayUndo(log.room, record.event.fields, role) || effect.None? then log
      else
        var nested := Nested(log.room, record.event.fields);
        var done := log.(room := effect.value);
        Forget(if known && nested.Some? then Publish(done, Published(nested.value, "")) else done, record.serial)
  }

  function Step(log: Log, a: Action): Log {
    match a
    case Act(room) => log.(room := room)
    case Announce(event) => Publish(log, event)
    case UndoAction(echo, known, role) => Undo(log, echo, known, role)
  }

  function Run(log: Log, actions: seq<Action>): Log
    decreases |actions|
  {
    if actions == [] then log else Run(Step(log, actions[0]), actions[1..])
  }

  // ---------------------------------------------------------------- what every run keeps

  predicate Faithful(recent: seq<Record>, published: seq<Published>) {
    && |recent| <= RECENT_EVENTS_LIMIT
    && (forall i :: 0 <= i < |recent| ==>
          recent[i].serial < |published| && recent[i].event == published[recent[i].serial])
    && (forall i, j :: 0 <= i < j < |recent| ==> recent[i].serial < recent[j].serial)
  }

  ghost predicate SpentOnce(recent: seq<Record>, published: seq<Published>, applied: seq<nat>) {
    && Distinct(applied)
    && (forall k :: 0 <= k < |applied| ==> applied[k] < |published|)
    && (forall i :: 0 <= i < |recent| ==> recent[i].serial !in applied)
  }

  ghost predicate Inv(log: Log) {
    Faithful(log.recent, log.published) && SpentOnce(log.recent, log.published, log.applied)
  }

  lemma PushedIsFaithful(recent: seq<Record>, published: seq<Published>, event: Published)
    requires Faithful(recent, published)
    ensures var pushed := recent + [Record(|published|, event)];
            Faithful(if |pushed| > RECENT_EVENTS_LIMIT then pushed[1..] else pushed, published + [event])
  {
  }

  lemma PushedIsUnspent(recent: seq<Record>, published: seq<Published>, applied: seq<nat>, event: Published)
    requires SpentOnce(recent, published, applied)
    ensures var pushed := recent + [Record(|published|, event)];
            SpentOnce(if |pushed| > RECENT_EVENTS_LIMIT then pushed[1..] else pushed, published + [event], applied)
  {
  }

  lemma PublishKeeps(log: Log, event: Published)
    requires Inv(log)
    ensures Inv(Publish(log, event))
  {
    PushedIsFaithful(log.recent, log.published, event);
    PushedIsUnspent(log.recent, log.published, log.applied, event);
  }

  lemma SplicedIsFaithful(recent: seq<Record>, published: seq<Published>, at: nat)
    requires Faithful(recent, published) && at < |recent|
    ensures Faithful(recent[..at] + recent[at + 1..], published)
  {
  }

  lemma SplicedIsSpent(recent: seq<Record>, published: seq<Published>, applied: seq<nat>, serial: nat)
    requires Faithful(recent, published) && SpentOnce(recent, published, applied) && serial < |published|
    requires serial !in applied
    ensures var at := IndexOfSerial(recent, serial);
            SpentOnce(if at < |recent| then recent[..at] + recent[at + 1..] else recent, published, applied + [serial])
  {
    DistinctAppend(applied, serial);
  }

  lemma ForgetKeeps(log: Log, serial: nat)
    requires Inv(log) && serial < |log.published| && serial !in log.applied
    ensures Inv(Forget(log, serial))
  {
    SplicedIsSpent(log.recent, log.published, log.applied, serial);
    var at := IndexOfSerial(log.recent, serial);
    if at < |log.recent| {
      SplicedIsFaithful(log.recent, log.published, at);
    }
  }

  lemma UndoKeeps(log: Log, echo: Fields, known: bool, role: Role)
    requires Inv(log)
    ensures Inv(Undo(log, echo, known, role))
  {
    var at := FindRecent(log.recent, echo);
    if at < |log.recent| && Effect(log.room, echo).Some? {
      var done := log.(room := Effect(log.room, echo).value);
      var nested := Nested(log.room, echo);
      if known && nested.Some? {
        PublishKeeps(done, Published(nested.value, ""));
        ForgetKeeps(Publish(done, Published(nested.value, "")), log.recent[at].serial);
      } else {
        ForgetKeeps(done, log.recent[at].serial);
      }
    }
  }

  lemma {:induction false} RunKeeps(log: Log, actions: seq<Action>)
    requires Inv(log)
    ensures Inv(Run(log, actions))
    decreases |actions|
  {
    if actions != [] {
      match actions[0] {
        case Act(_) =>
        case Announce(event) => PublishKeeps(log, event);
        case UndoAction(echo, known, role) => UndoKeeps(log, echo, known, role);
      }
      RunKeeps(Step(log, actions[0]), actions[1..]);
    }
  }

  // ---------------------------------------------------------------- conservation

  function At(published: seq<Published>, serials: seq<nat>): (events: seq<Published>)
    requires forall k :: 0 <= k < |serials| ==> serials[k] < |published|
    ensures |events| == |serials| && forall k :: 0 <= k < |serials| ==> events[k] == published[serials[k]]
  {
    seq(|serials|, k requires 0 <= k < |serials| => published[serials[k]])
  }

  /** Picking by distinct positions takes nothing more often than it is there. */
  lemma {:induction false} PickedFit(published: seq<Published>, serials: seq<nat>)
    requires Distinct(serials) && forall k :: 0 <= k < |serials| ==> serials[k] < |published|
    ensures multiset(At(published, serials)) <= multiset(published)
    decreases |published|
  {
    if |serials| > 0 {
      assert serials[0] < |published|;
      var last := |published| - 1;
      var before := published[..last];
      assert published == before + [published[last]];
      if k :| 0 <= k < |serials| && serials[k] == last {
        LastPicked(published, serials, k);
        PickedFit(before, serials[..k] + serials[k + 1..]);
      } else {
        PickedFit(before, serials);
        assert At(published, serials) == At(before, serials);
      }
    }
  }

  lemma LastPicked(published: seq<Published>, serials: seq<nat>, k: nat)
    requires Distinct(serials) && (forall j :: 0 <= j < |serials| ==> serials[j] < |published|)
    requires k < |serials| && serials[k] == |published| - 1
    ensures var others := serials[..k] + serials[k + 1..];
            && Distinct(others) && (forall j :: 0 <= j < |others| ==> others[j] < |published| - 1)
            && multiset(At(published, serials))
            == multiset([published[|published| - 1]]) + multiset(At(published[..|published| - 1], others))
  {
    var others := serials[..k] + serials[k + 1..];
    assert forall j :: 0 <= j < |others| ==> others[j] == serials[if j < k then j else j + 1];
    var picked := At(published, serials);
    MultisetSplit(picked, k);
    var rest := picked[..k] + picked[k + 1..];
    assert forall j :: 0 <= j < |others| ==> rest[j] == published[others[j]];
    assert rest == At(published[..|published| - 1], others);
  }

  /**
   Over any run, no event is undone more often than it was published, the buffer holds at most
   20 records, and every record is a copy of a published event that has not been undone yet.
   */
  lemma UndoesNeverExceedPublications(room: State, actions: seq<Action>)
    ensures var log := Run(Log(room, [], [], []), actions);
            && |log.recent| <= RECENT_EVENTS_LIMIT
            && (forall k :: 0 <= k < |log.applied| ==> log.applied[k] < |log.published|)
            && multiset(At(log.published, log.applied)) <= multiset(log.published)
            && forall i :: 0 <= i < |log.recent| ==>
                 log.recent[i].serial < |log.published| && log.recent[i].serial !in log.applied
                 && log.recent[i].event == log.published[log.recent[i].serial]
  {
    RunKeeps(Log(room, [], [], []), actions);
    var log := Run(Log(room, [], [], []), actions);
    PickedFit(log.published, log.applied);
  }

  /**
   An undo changes the room only as a recorded event with the echoed fields says, spends that
   record, and happens only with every permission that event's reversal needs.
   */
  lemma UndoAppliesARecord(log: Log, echo: Fields, known: bool, role: Role)
    requires Inv(log)
    ensures var t := Undo(log, echo, known, role);
            || t == log
            || (MayUndo(log.room, echo, role)
                && exists i :: 0 <= i < |log.recent| && log.recent[i].event.fields == echo
                     && log.published[log.recent[i].serial] == log.recent[i].event
                     && Some(t.room) == Effect(log.room, log.recent[i].event.fields)
                     && t.applied == log.applied + [log.recent[i].serial]
                     && forall j :: 0 <= j < |t.recent| ==> t.recent[j].serial != log.recent[i].serial)
  {
    UndoKeeps(log, echo, known, role);
    var t := Undo(log, echo, known, role);
    var at := FindRecent(log.recent, echo);
    if t != log {
      assert t.applied == log.applied + [log.recent[at].serial];
      assert t.applied[|log.applied|] == log.recent[at].serial;
    }
  }

  /** An echo that matches nothing recorded changes nothing. */
  lemma ForgedEchoIsRefused(log: Log, echo: Fields, known: bool, role: Role)
    requires forall i :: 0 <= i < |log.recent| ==> log.recent[i].event.fields != echo
    ensures Undo(log, echo, known, role) == log
  {
  }

  /** A newly published event is recorded last; the others stay, except the oldest of a full buffer. */
  lemma PublishKeepsRecent(log: Log, event: Published)
    requires Inv(log)
    ensures var t := Publish(log, event);
            && t.room == log.room && t.published == log.published + [event] && t.applied == log.applied
            && t.recent == (if |log.recent| < 20 then log.recent else log.recent[1..]) + [Record(|log.published|,
            event)]
  {
    var all := log.recent + [Record(|log.published|, event)];
    if |log.recent| == 20 {
      assert all[1..] == log.recent[1..] + [Record(|log.published|, event)];
    }
  }

  /** Spending a record leaves every other record, in its place. */
  lemma ForgetKeepsOthers(log: Log, serial: nat)
    requires Inv(log)
    ensures forall r :: r in Forget(log, serial).recent <==> r in log.recent && r.serial != serial
    ensures Forget(log, serial).room == log.room && Forget(log, serial).published == log.published
  {
    var at := IndexOfSerial(log.recent, serial);
    if at < |log.recent| {
      SplicedMembers(log.recent, at, Forget(log, serial).recent);
      SerialsAreUnique(log, at);
    } else {
      assert forall r :: r in log.recent ==> r.serial != serial;
    }
  }

  lemma SerialsAreUnique(log: Log, at: nat)
    requires Inv(log) && at < |log.recent|
    ensures forall i :: 0 <= i < |log.recent| && i != at ==> log.recent[i].serial != log.recent[at].serial
  {
    assert forall i :: 0 <= i < at ==> log.recent[i].serial < log.recent[at].serial;
    assert forall i :: at < i < |log.recent| ==> log.recent[at].serial < log.recent[i].serial;
  }

  /** The permissions an undo takes, by the kind of event, as masks of the permission table. */
  lemma UndoPermissions(room: State, f: Fields, role: Role)
    ensures f.kind == SeekRequest && f.prevPosition.Some? ==>
              (MayUndo(room, f, role) <==> Permissions.Granted(room.grants, role, {2}))
    ensures f.kind == SkipRequest ==>
              (MayUndo(room, f, role) <==>
                && Permissions.Granted(room.grants, role, {1}) && Permissions.Granted(room.grants, role, {2})
                && Permissions.Granted(room.grants, role, {3}) && Permissions.Granted(room.grants, role, {25}))
    ensures f.kind == AddRequest ==>
              (MayUndo(room, f, role) <==>
                && Permissions.Granted(room.grants, role, {4})
                && ((room.queue != [] && f.request.Some?) || Permissions.Granted(room.grants, role, {1})))
    ensures f.kind == RemoveRequest ==>
              (MayUndo(room, f, role) <==>
                Permissions.Granted(room.grants, role, {3}) && Permissions.Granted(room.grants, role, {5}))
  {
  }

  // ---------------------------------------------------------------- undo really undoes

  /** Removing a video that is in the queue, by a client the room can name. */
  function Removed(log: Log, video: VideoId, detail: string): Log
    requires VideoQueue.FindIndex(log.room.queue, video) >= 0
  {
    var at := VideoQueue.FindIndex(log.room.queue, video);
    Publish(log.(room := Evicted(log.room, at)), Published(RemovalOf(log, video), detail))
  }

  function RemovalOf(log: Log, video: VideoId): Fields
    requires VideoQueue.FindIndex(log.room.queue, video) >= 0
  {
    var at := VideoQueue.FindIndex(log.room.queue, video);
    Fields(RemoveRequest, Some(video), Some(log.room.queue[at]), None, Some(at))
  }

  lemma JustPublishedIsFound(log: Log, event: Published)
    requires |log.recent| <= RECENT_EVENTS_LIMIT
    ensures FindRecent(Publish(log, event).recent, event.fields) < |Publish(log, event).recent|
  {
    var recent := Publish(log, event).recent;
    assert recent[|recent| - 1].event == event;
  }

  /** Undoing what was published last has the effect of its fields, whichever equal record is found. */
  lemma UndoneJustNow(log: Log, f: Fields, detail: string, known: bool, role: Role)
    requires |log.recent| <= RECENT_EVENTS_LIMIT
    ensures var t := Undo(Publish(log, Published(f, detail)), f, known, role).room;
            t == if WellFormed(f) && MayUndo(log.room, f, role) && Effect(log.room, f).Some?
                 then Effect(log.room, f).value else log.room
  {
    JustPublishedIsFound(log, Published(f, detail));
  }

  /** Removing an item and undoing it restores the exact queue; only the item's votes stay lost. */
  lemma UndoneRemovalRestoresQueue(log: Log, video: VideoId, detail: string, known: bool, role: Role)
    requires Inv(log) && VideoQueue.FindIndex(log.room.queue, video) >= 0
    requires |log.room.queue| <= VideoQueue.MAX_QUEUE_ITEMS
    requires Permissions.Granted(log.room.grants, role, Permissions.ADD + Permissions.ORDER)
    ensures var t := Undo(Removed(log, video, detail), RemovalOf(log, video), known, role);
            && t.room == log.room.(votes := t.room.votes)
            && t.room.votes == WithoutVotesOf(log.room.votes, log.room.queue[VideoQueue.FindIndex(log.room.queue,
            video)])
  {
    var at := VideoQueue.FindIndex(log.room.queue, video);
    UndoneJustNow(log.(room := Evicted(log.room, at)), RemovalOf(log, video), detail, known, role);
    VideoQueue.InsertUndoesRemove(log.room.queue, at);
  }

  /** A seek is undone exactly when the position it left can itself be sought to. */
  lemma UndoneSeekRestoresPosition(log: Log, value: real, detail: string, known: bool, role: Role)
    requires Inv(log) && 0.0 <= value <= MAX_SEEK_SECONDS && value != RealPosition(log.room)
    requires Permissions.Granted(log.room.grants, role, Permissions.SEEK)
    ensures var left := Fields(SeekRequest, None, None, Some(RealPosition(log.room)), None);
            var sought := Publish(log.(room := Seek(log.room, value)), Published(left, detail));
            RealPosition(Undo(sought, left, known, role).room) == RealPosition(log.room)
            <==> 0.0 <= RealPosition(log.room) <= MAX_SEEK_SECONDS
  {
    var left := Fields(SeekRequest, None, None, Some(RealPosition(log.room)), None);
    var r := Seek(log.room, value);
    UndoneJustNow(log.(room := r), left, detail, known, role);
    SoughtIsThere(log.room, value);
    if 0.0 <= RealPosition(log.room) <= MAX_SEEK_SECONDS {
      SoughtIsThere(r, RealPosition(log.room));
    }
  }

  lemma SoughtIsThere(s: State, value: real)
    requires 0.0 <= value <= MAX_SEEK_SECONDS
    ensures RealPosition(Seek(s, value)) == value
  {
    Timestamp.NoTimeNoProgress(s.now, 0.0, s.speed);
  }

  // ---------------------------------------------------------------- undoing a skip

  /** What an advance in loop mode takes its next item from. */
  function Requeued(s: State): seq<Item>
    requires s.source.Some?
  {
    s.queue + [s.source.value.Untrimmed()]
  }

  function SkipFields(s: State): Fields {
    Fields(SkipRequest, None, s.source, Some(RealPosition(s)), None)
  }

  /** A skip, its published event, and the undo of that event. */
  function SkippedAndUndone(log: Log, detail: string, known: bool, role: Role): State {
    var left := SkipFields(log.room);
    Undo(Publish(log.(room := Skip(log.room)), Published(left, detail)), left, known, role).room
  }

  /** The undo finds no room for what took over, or the position it left was before the beginning. */
  predicate SkipUndoRefused(s: State)
    requires s.source.Some?
  {
    || RealPosition(s) < 0.0
    || (|s.queue| == VideoQueue.MAX_QUEUE_ITEMS
        && match s.mode
           case Dj => VideoQueue.FindIndex(s.queue, s.source.value.video) < 0
           case Loop => VideoQueue.FindIndex(Requeued(s)[1..], Requeued(s)[0].video) < 0
           case _ => false)
  }

  /** The modes differ in what a skip does to the queue: nothing, a rotation, or taking its head. */
  predicate SkipUndoRestoresQueue(s: State)
    requires s.source.Some?
  {
    match s.mode
    case Dj => VideoQueue.FindIndex(s.queue, s.source.value.video) >= 0
    case Loop => s.queue != [] && Requeued(s)[1..] == s.queue
    case _ => s.queue == [] || VideoQueue.FindIndex(s.queue[1..], s.queue[0].video) < 0
  }

  /**
   Undoing a skip brings back the video and its position unless it is refused; the queue comes
   back with them exactly when: in dj mode the video was queued as well; in loop mode every
   queued item was the same as the current one; otherwise the next video was queued once.
   */
  lemma UndoneSkipRestoresIff(log: Log, detail: string, known: bool, role: Role)
    requires Inv(log) && log.room.source.Some? && |log.room.queue| <= VideoQueue.MAX_QUEUE_ITEMS
    requires Permissions.Granted(log.room.grants, role, Needed(log.room, SkipFields(log.room)))
    ensures var s, t := log.room, SkippedAndUndone(log, detail, known, role);
            if SkipUndoRefused(s) then t == Skip(s)
            else
              && t.source == s.source && t.position == RealPosition(s)
              && (t.queue == s.queue <==> SkipUndoRestoresQueue(s))
  {
    UndoneSkip(log, detail, known, role);
    PushedBackIff(log.room);
  }

  lemma PushedBackIff(s: State)
    requires s.source.Some?
    ensures PushedBack(SkippedItems(s).0, SkippedItems(s).1) == s.queue <==> SkipUndoRestoresQueue(s)
  {
    match s.mode
    case Loop =>
      assert |[Requeued(s)[0]] + Requeued(s)[1..]| == |s.queue| + 1;
      if s.queue != [] && Requeued(s)[1..] == s.queue {
        assert Requeued(s)[1..][0] == s.queue[0] == Requeued(s)[0];
      }
    case Dj =>
      assert |[s.source.value.Untrimmed()] + s.queue| == |s.queue| + 1;
    case _ =>
      if s.queue != [] {
        assert [s.queue[0]] + s.queue[1..] == s.queue;
      }
  }

  /** In loop mode the skipped item stays at the end as well: a queue of other videos grows by it. */
  lemma LoopSkipUndoDuplicates(log: Log, detail: string, known: bool, role: Role)
    requires Inv(log) && log.room.source.Some? && |log.room.queue| < VideoQueue.MAX_QUEUE_ITEMS && log.room.mode == Loop
    requires Permissions.Granted(log.room.grants, role, Needed(log.room, SkipFields(log.room)))
    requires RealPosition(log.room) >= 0.0
    requires VideoQueue.FindIndex(Requeued(log.room)[1..], Requeued(log.room)[0].video) < 0
    ensures SkippedAndUndone(log, detail, known, role).source == log.room.source
    ensures SkippedAndUndone(log, detail, known, role).queue == log.room.queue + [log.room.source.value.Untrimmed()]
  {
    UndoneSkip(log, detail, known, role);
    HeadAndTail(Requeued(log.room));
  }

  lemma HeadAndTail(items: seq<Item>)
    requires items != []
    ensures [items[0]] + items[1..] == items
  {
  }

  /** In dj mode the repeated item is queued on top, although it never came from the queue. */
  lemma DjSkipUndoDuplicates(log: Log, detail: string, known: bool, role: Role)
    requires Inv(log) && log.room.source.Some? && |log.room.queue| < VideoQueue.MAX_QUEUE_ITEMS && log.room.mode == Dj
    requires Permissions.Granted(log.room.grants, role, Needed(log.room, SkipFields(log.room)))
    requires RealPosition(log.room) >= 0.0
    requires VideoQueue.FindIndex(log.room.queue, log.room.source.value.video) < 0
    ensures SkippedAndUndone(log, detail, known, role).source == log.room.source
    ensures SkippedAndUndone(log, detail, known, role).queue == [log.room.source.value.Untrimmed()] + log.room.queue
  {
    UndoneSkip(log, detail, known, role);
  }

  /** What is on and what is queued after a skip. */
  function SkippedItems(s: State): (Option<Item>, seq<Item>)
    requires s.source.Some?
  {
    match s.mode
    case Dj => (Some(s.source.value.Untrimmed()), s.queue)
    case Loop => (Some(Requeued(s)[0]), Requeued(s)[1..])
    case _ => if s.queue == [] then (None, []) else (Some(s.queue[0]), s.queue[1..])
  }

  function PushedBack(source: Option<Item>, queue: seq<Item>): seq<Item> {
    if source.Some? && VideoQueue.FindIndex(queue, source.value.video) < 0 then [source.value] + queue else queue
  }

  lemma UndoneSkip(log: Log, detail: string, known: bool, role: Role)
    requires Inv(log) && log.room.source.Some? && |log.room.queue| <= VideoQueue.MAX_QUEUE_ITEMS
    requires Permissions.Granted(log.room.grants, role, Needed(log.room, SkipFields(log.room)))
    ensures var s, t := log.room, SkippedAndUndone(log, detail, known, role);
            if SkipUndoRefused(s) then t == Skip(s)
            else t.source == s.source && t.position == RealPosition(s)
                 && t.queue == PushedBack(SkippedItems(s).0, SkippedItems(s).1)
  {
    var s := log.room;
    SkippedQueue(s);
    UndoneJustNow(log.(room := Skip(s)), SkipFields(s), detail, known, role);
    if RealPosition(s) >= 0.0 { SkipUndoFitsIff(s); }
    if !SkipUndoRefused(s) {
      SkipUndone(Skip(s), s.source.value, RealPosition(s));
    }
  }

  lemma SkipUndoFitsIff(s: State)
    requires s.source.Some? && |s.queue| <= VideoQueue.MAX_QUEUE_ITEMS && RealPosition(s) >= 0.0
    ensures SkipUndoFits(Skip(s)) <==> !SkipUndoRefused(s)
  {
    SkippedQueue(s);
  }

  lemma SkippedQueue(s: State)
    requires s.source.Some?
    ensures Skip(s).source == SkippedItems(s).0 && Skip(s).queue == SkippedItems(s).1 && Skip(s).grants == s.grants
  {
    var r := ReleaseGate(s, false);
    RoomQueueTheorems.ReleasingKeepsQueue(s);
    SkipKeepsGrants(s);
    if s.mode == Dj {
      RoomQueueTheorems.RepeatingKeepsQueue(r);
    } else {
      var requeued := if s.mode == Loop then Requeued(r) else r.queue;
      if requeued != [] {
        RoomQueueTheorems.DequeueFromTakesHead(r, requeued);
      } else {
        LeftEmpty(r);
      }
    }
  }

  lemma SkipKeepsGrants(s: State)
    ensures Skip(s).grants == s.grants
  {
    var r := ReleaseGate(s, false);
    ReleaseKeepsGrants(s);
    if r.source.Some? {
      AdvanceKeepsGrants(r);
    }
  }

  lemma ReleaseKeepsGrants(s: State)
    ensures ReleaseGate(s, false).grants == s.grants
  {
  }

  lemma AdvanceKeepsGrants(s: State)
    ensures Advance(s).grants == s.grants
  {
    if s.source.Some? && s.mode == Dj {
      assert Repeated(s).grants == s.grants;
    } else {
      DequeueKeepsGrants(s, if s.source.Some?
        && s.mode == Loop then s.queue + [s.source.value.Untrimmed()] else s.queue);
    }
  }

  lemma DequeueKeepsGrants(s: State, queue: seq<Item>)
    ensures DequeueFrom(s, queue).grants == s.grants
  {
    if queue != [] {
      assert Taken(s, queue).grants == s.grants;
      HoldOrPlayKeepsGrants(Taken(s, queue));
    } else {
      EndBoostKeepsGrants(s.(queue := queue));
    }
  }

  lemma EndBoostKeepsGrants(s: State)
    ensures EndBoost(s).grants == s.grants
  {
  }

  lemma HoldOrPlayKeepsGrants(s: State)
    ensures HoldOrPlay(s).grants == s.grants
  {
    EndBoostKeepsGrants(s);
  }

  lemma LeftEmpty(s: State)
    requires s.source.Some?
    ensures DequeueFrom(s, []).source == None && DequeueFrom(s, []).queue == []
  {
    assert EndBoost(s.(queue := [])).queue == [];
  }

  lemma ReplacedBy(s: State, source: Option<Item>, position: real)
    ensures var t := Reposition(SetSource(s, source), position);
            t.source == source && t.queue == s.queue && t.position == position
  {
  }

  lemma SkipUndone(s: State, video: Item, prevPosition: real)
    requires SkipUndoFits(s)
    ensures var t := UndoSkip(s, video, prevPosition);
            && t.source == Some(video) && t.position == prevPosition
            && t.queue == PushedBack(s.source, s.queue)
  {
    var push := s.source.Some? && VideoQueue.FindIndex(s.queue, s.source.value.video) < 0;
    ReplacedBy(s.(queue := if push then [s.source.value] + s.queue else s.queue), Some(video), prevPosition);
  }

  // ---------------------------------------------------------------- undoing an add

  /** The room before and after differ at most by one item of the given video, queued or on. */
  ghost predicate OnlyRemoves(s: State, t: State, video: VideoId) {
    || (t.source == s.source
        && exists at ::
             0 <= at < |s.queue| && s.queue[at].video == video && t.queue == VideoQueue.RemoveAt(s.queue, at))
    || (t.queue == s.queue && t.source.None? && (s.source.Some? ==> s.source.value.video == video))
  }

  /**
   Undoing the add of a video removes that video and nothing else exactly when something is
   queued, nothing is on, or it is what is on; otherwise it clears whatever else is on.
   */
  lemma UndoneAddOnlyRemovesIff(s: State, f: Fields)
    requires f.kind == AddRequest && f.request.Some? && Effect(s, f).Some?
    ensures OnlyRemoves(s, Effect(s, f).value, f.request.value)
            <==> s.queue != [] || s.source.None? || s.source.value.video == f.request.value
  {
    var t := Effect(s, f).value;
    if s.queue != [] {
      var at := VideoQueue.FindIndex(s.queue, f.request.value);
      assert t.queue == VideoQueue.RemoveAt(s.queue, at) && t.source == s.source;
    } else {
      assert t.queue == s.queue && t.source.None?;
    }
  }

  /** Undoing the add of several videos names none of them: it clears what is on and leaves them all queued. */
  lemma UndoneBatchAddClearsSource(s: State, f: Fields)
    requires f.kind == AddRequest && f.request.None?
    ensures Effect(s, f).Some? && Effect(s, f).value.source.None? && Effect(s, f).value.queue == s.queue
  {
  }

  /** An add undone at once leaves the queue as it was. */
  lemma UndoneAddRestoresQueue(log: Log, item: Item, detail: string, known: bool, role: Role)
    requires Inv(log) && VideoQueue.FindIndex(log.room.queue, item.video) < 0
    requires Permissions.Granted(log.room.grants, role, Permissions.REMOVE)
    ensures var added := Fields(AddRequest, Some(item.video), Some(item), None, None);
            var t := Undo(Publish(log.(room := log.room.(queue := log.room.queue + [item])), Published(added, detail)),
              added,
                          known, role).room;
            t == log.room.(votes := WithoutVotesOf(log.room.votes, item))
  {
    var added := Fields(AddRequest, Some(item.video), Some(item), None, None);
    var room := log.room.(queue := log.room.queue + [item]);
    UndoneJustNow(log.(room := room), added, detail, known, role);
    AppendedIsFound(log.room.queue, item);
  }

  lemma AppendedIsFound(queue: seq<Item>, item: Item)
    requires VideoQueue.FindIndex(queue, item.video) < 0
    ensures VideoQueue.FindIndex(queue + [item], item.video) == |queue|
    ensures VideoQueue.RemoveAt(queue + [item], |queue|) == queue
  {
    var longer := queue + [item];
    assert longer[|queue|] == item;
    assert forall k :: 0 <= k < |queue| ==> longer[k] == queue[k];
    assert longer[..|queue|] == queue && longer[|queue| + 1..] == [];
  }

  // ---------------------------------------------------------------- the object

  class UndoHistory {
    var room: State
    var recentEvents: seq<Record>
    /** The identity of the next event object. */
    var nextSerial: nat
    ghost var published: seq<Published>
    ghost var applied: seq<nat>

    ghost function View(): Log
      reads this
    {
      Log(room, recentEvents, published, applied)
    }

    ghost predicate Valid()
      reads this
    {
      Inv(View()) && nextSerial == |published|
    }

    constructor (room: State)
      ensures Valid() && View() == Log(room, [], [], [])
    {
      this.room, recentEvents, nextSerial, published, applied := room, [], 0, [], [];
    }

    method PublishRoomEvent(event: Published)
      requires Valid()
      modifies this`recentEvents, this`nextSerial, this`published
      ensures Valid() && View() == Publish(old(View()), event)
    {
      PublishKeeps(View(), event);
      recentEvents := recentEvents + [Record(nextSerial, event)];
      if |recentEvents| > RECENT_EVENTS_LIMIT {
        recentEvents := recentEvents[1..];
      }
      nextSerial := nextSerial + 1;
      published := published + [event];
    }

    method RemoveFromQueue(video: VideoId, detail: string) returns (found: bool)
      requires Valid()
      modifies this
      ensures Valid() && found == (VideoQueue.FindIndex(old(room).queue, video) >= 0)
      ensures View() == if found then Removed(old(View()), video, detail) else old(View())
    {
      var at := VideoQueue.FindIndex(room.queue, video);
      if at < 0 {
        return false;
      }
      var removal := Published(Fields(RemoveRequest, Some(video), Some(room.queue[at]), None, Some(at)), detail);
      room := Evicted(room, at);
      PublishRoomEvent(removal);
      return true;
    }

    /** Splices an undone event out of the buffer, unless newer events pushed it out already. */
    method Spend(serial: nat)
      requires Valid() && serial < nextSerial && serial !in applied
      modifies this`recentEvents, this`applied
      ensures Valid() && View() == Forget(old(View()), serial)
    {
      ForgetKeeps(View(), serial);
      var at := IndexOfSerial(recentEvents, serial);
      if at < |recentEvents| {
        recentEvents := recentEvents[..at] + recentEvents[at + 1..];
      }
      applied := applied + [serial];
    }

    method UndoEvent(echo: Fields, known: bool, role: Role) returns (ok: bool)
      requires Valid()
      modifies this
      ensures Valid() && View() == Undo(old(View()), echo, known, role)
      ensures ok <==> WellFormed(echo) && MayUndo(old(room), echo, role) && Effect(old(room), echo).Some?
                        && exists i :: 0 <= i < |old(recentEvents)| && old(recentEvents)[i].event.fields == echo
    {
      var at := FindRecent(recentEvents, echo);
      if !WellFormed(echo) || at == |recentEvents| {
        return false;
      }
      var record := recentEvents[at];
      if !MayUndo(room, record.event.fields, role) {
        return false;
      }
      var effect := Effect(room, record.event.fields);
      if effect.None? {
        return false;
      }
      var nested := Nested(room, record.event.fields);
      room := effect.value;
      if known && nested.Some? {
        PublishRoomEvent(Published(nested.value, ""));
      }
      Spend(record.serial);
      return true;
    }
  }
}
