/**
 How room changes reach the clients' copy and the database: setters mark fields dirty, a
 checkpoint snapshots and clears the dirty set, and a failed checkpoint marks its whole batch
 dirty again. Changes may arrive between any two steps of a checkpoint.
 */
module SyncBatch {
  import opened Util

  datatype Field =
    | Name | Title | Description | IsTemporary | Visibility | QueueMode | CurrentSource | Queue | IsPlaying
    | PlaybackSpeed | TemporaryPlaybackSpeed | PlaybackPreparation | Grants | HasOwner | HasPassword
    | VoteCounts | VideoSegments | AutoSkipSegmentCategories | PrevQueue | RestoreQueueBehavior | EnableVoteSkip
    | BufferGateMode | DanmakuSource | VotesToSkip

  /**
   The fields whose writes mark them dirty. Whether a room is temporary is a plain field that
   never changes; the restore behaviour is a plain field that settings requests assign.
   */
  predicate HasSetter(f: Field) {
    !f.RestoreQueueBehavior? && !f.IsTemporary?
  }

  /** The fields a checkpoint writes to the database under their own value. */
  predicate Persistent(f: Field) {
    f.Title? || f.Description? || f.Visibility? || f.QueueMode? || f.AutoSkipSegmentCategories? || f.Grants?
    || f.HasOwner? || f.RestoreQueueBehavior? || f.EnableVoteSkip? || f.BufferGateMode? || f.DanmakuSource?
  }

  /** The fields whose change makes a checkpoint store a new queue snapshot. */
  predicate RewritesSnapshot(f: Field) {
    f.Queue? || f.CurrentSource? || f.IsPlaying? || f.PrevQueue?
  }

  /** A checkpoint in flight: the values it read, and whether the clients already have them. */
  datatype Batch<V> = Batch(values: map<Field, V>, published: bool)

  datatype Replica<V> = Replica(
    temporary: bool,
    values: map<Field, V>, dirty: set<Field>, batch: Option<Batch<V>>,
    clients: map<Field, V>, stored: map<Field, V>)

  /**
   `FullState` is the whole state sent to a joining client; `RowSaved` is the whole row written
   by a settings request over HTTP or a promotion.
   */
  datatype Event<V> =
    | Change(field: Field, value: V)
    | Begin
    | Published
    | PublishFailed
    | Persisted
    | PersistFailed
    | FullState
    | RowSaved

  ghost predicate Complete<V(!new)>(m: map<Field, V>) {
    forall f :: f in m
  }

  predicate Shows<V(==)>(copy: map<Field, V>, f: Field, v: V) {
    f in copy && copy[f] == v
  }

  function Picked<V>(values: map<Field, V>, fields: set<Field>): (m: map<Field, V>)
    requires forall f :: f in fields ==> f in values
    ensures m.Keys == fields
    ensures forall f :: f in fields ==> m[f] == values[f]
  {
    map f | f in fields :: values[f]
  }

  function Settings<V>(values: map<Field, V>): map<Field, V> {
    map f | f in values && Persistent(f) :: values[f]
  }

  /** The checkpoint's second phase is skipped when it has no settings to store. */
  predicate NothingToPersist<V>(temporary: bool, values: map<Field, V>) {
    temporary || forall f :: f in values ==> !Persistent(f) && !RewritesSnapshot(f)
  }

  function Failed<V>(r: Replica<V>): Replica<V>
    requires r.batch.Some?
  {
    r.(dirty := r.dirty + r.batch.value.values.Keys, batch := None)
  }

  function Step<V>(r: Replica<V>, e: Event<V>): (t: Replica<V>)
    requires forall f :: f in r.dirty ==> f in r.values
    ensures forall f :: f in r.values ==> f in t.values
  {
    match e
    case Change(f, v) => r.(values := r.values[f := v], dirty := if HasSetter(f) then r.dirty + {f} else r.dirty)
    case Begin =>
      if r.batch.Some? || r.dirty == {} then r
      else r.(batch := Some(Batch(Picked(r.values, r.dirty), false)), dirty := {})
    case Published =>
      if r.batch.None? || r.batch.value.published then r
      else r.(clients := r.clients + r.batch.value.values,
              batch := if NothingToPersist(r.temporary, r.batch.value.values) then None
                       else Some(r.batch.value.(published := true)))
    case PublishFailed =>
      if r.batch.None? || r.batch.value.published then r else Failed(r)
    case Persisted =>
      if r.batch.None? || !r.batch.value.published then r
      else r.(stored := r.stored + Settings(r.batch.value.values), batch := None)
    case PersistFailed =>
      if r.batch.None? || !r.batch.value.published then r else Failed(r)
    case FullState => r.(clients := r.values)
    case RowSaved => if r.temporary then r else r.(stored := r.stored + Settings(r.values))
  }

  // ---------------------------------------------------------------- what every run keeps

  /** A field the room tracks, with no change waiting, is or is about to be the same everywhere. */
  ghost predicate Settled<V(!new)>(r: Replica<V>, f: Field)
    requires Complete(r.values) && Complete(r.clients) && Complete(r.stored)
  {
    if r.batch.Some? && f in r.batch.value.values then
      r.batch.value.values[f] == r.values[f] && (r.batch.value.published ==> r.clients[f] == r.values[f])
    else
      r.clients[f] == r.values[f] && (Persistent(f) && !r.temporary ==> r.stored[f] == r.values[f])
  }

  ghost predicate InSync<V(!new)>(r: Replica<V>) {
    && Complete(r.values) && Complete(r.clients) && Complete(r.stored)
    && (forall f :: f in r.dirty ==> HasSetter(f))
    && (r.batch.Some? ==> forall f :: f in r.batch.value.values ==> HasSetter(f))
    && (r.batch.Some? && r.batch.value.published ==> !r.temporary)
    && (forall f :: HasSetter(f) && f !in r.dirty ==> Settled(r, f))
  }

  /** A room starts with equal copies. */
  ghost predicate Fresh<V(!new)>(r: Replica<V>) {
    Complete(r.values) && r.clients == r.values && r.stored == r.values && r.dirty == {} && r.batch.None?
  }

  lemma StepKeeps<V(!new)>(r: Replica<V>, e: Event<V>)
    requires InSync(r)
    ensures InSync(Step(r, e))
  {
    var t := Step(r, e);
    forall f | HasSetter(f) && f !in t.dirty
      ensures Complete(t.values) && Complete(t.clients) && Complete(t.stored) && Settled(t, f)
    {
      assert f in r.dirty || Settled(r, f);
    }
  }

  ghost predicate Reaches<V(!new)>(r: Replica<V>, run: seq<Event<V>>, t: Replica<V>)
    decreases |run|
  {
    if run == [] then t == r
    else (forall f :: f in r.dirty ==> f in r.values) && Reaches(Step(r, run[0]), run[1..], t)
  }

  /**
   At every point of every run, with changes and failures anywhere, a tracked field that is
   neither dirty nor in flight is the same in the room, in the clients' copy and, if it is a
   stored setting of a permanent room, in the database.
   */
  lemma {:induction false} CleanFieldsAgree<V(!new)>(r: Replica<V>, run: seq<Event<V>>, t: Replica<V>)
    requires InSync(r) && Reaches(r, run, t)
    ensures InSync(t)
    ensures forall f :: HasSetter(f) && f !in t.dirty && (t.batch.None? || f !in t.batch.value.values) ==>
      t.clients[f] == t.values[f] && (Persistent(f) && !t.temporary ==> t.stored[f] == t.values[f])
    decreases |run|
  {
    if run == [] {
      forall f | HasSetter(f) && f !in t.dirty && (t.batch.None? || f !in t.batch.value.values)
        ensures t.clients[f] == t.values[f] && (Persistent(f) && !t.temporary ==> t.stored[f] == t.values[f])
      {
        assert Settled(t, f);
      }
    } else {
      StepKeeps(r, run[0]);
      CleanFieldsAgree(Step(r, run[0]), run[1..], t);
    }
  }

  lemma FreshIsInSync<V(!new)>(r: Replica<V>)
    requires Fresh(r)
    ensures InSync(r)
  {
  }

  // ---------------------------------------------------------------- nothing is lost

  /** The checkpoint in flight, if any, ends well. */
  ghost function Landed<V(!new)>(r: Replica<V>): Replica<V>
    requires InSync(r)
  {
    StepKeeps(r, Published);
    Step(Step(r, Published), Persisted)
  }

  lemma LandedIsIdle<V(!new)>(r: Replica<V>)
    requires InSync(r)
    ensures var t := Landed(r);
            InSync(t) && t.batch.None? && t.dirty == r.dirty && t.values == r.values && t.temporary == r.temporary
            && forall f :: !HasSetter(f) ==> t.clients[f] == r.clients[f] && t.stored[f] == r.stored[f]
  {
    StepKeeps(r, Published);
    StepKeeps(Step(r, Published), Persisted);
  }

  /** The checkpoint in flight ends well, and one more checkpoint runs undisturbed. */
  ghost function Drained<V(!new)>(r: Replica<V>): Replica<V>
    requires InSync(r)
  {
    LandedIsIdle(r);
    StepKeeps(Landed(r), Begin);
    Landed(Step(Landed(r), Begin))
  }

  lemma DrainedIsQuiet<V(!new)>(r: Replica<V>)
    requires InSync(r)
    ensures var t := Drained(r);
            InSync(t) && t.batch.None? && t.dirty == {} && t.values == r.values && t.temporary == r.temporary
            && forall f :: !HasSetter(f) ==> t.clients[f] == r.clients[f] && t.stored[f] == r.stored[f]
  {
    LandedIsIdle(r);
    StepKeeps(Landed(r), Begin);
    LandedIsIdle(Step(Landed(r), Begin));
  }

  /**
   No change is lost: whatever failed before, one successful checkpoint brings every tracked
   field to the clients, and every stored setting of a permanent room to the database.
   */
  lemma NothingIsLost<V(!new)>(r: Replica<V>, run: seq<Event<V>>, t: Replica<V>)
    requires Fresh(r) && Reaches(r, run, t)
    ensures InSync(t)
    ensures forall f :: HasSetter(f) ==> Shows(Drained(t).clients, f, t.values[f])
    ensures forall f :: HasSetter(f) && Persistent(f) && !t.temporary ==> Shows(Drained(t).stored, f, t.values[f])
  {
    FreshIsInSync(r);
    CleanFieldsAgree(r, run, t);
    DrainedIsQuiet(t);
    forall f | HasSetter(f)
      ensures Settled(Drained(t), f)
    {
    }
  }

  /**
   A settings change reaches the connected clients exactly when the field has a setter, or
   they happened to hold that value already.
   */
  lemma SettingReachesClientsIff<V(!new)>(r: Replica<V>, f: Field, v: V)
    requires InSync(r)
    ensures InSync(Step(r, Change(f, v)))
    ensures Shows(Drained(Step(r, Change(f, v))).clients, f, v) <==> HasSetter(f) || Shows(r.clients, f, v)
  {
    StepKeeps(r, Change(f, v));
    var t := Step(r, Change(f, v));
    DrainedIsQuiet(t);
    assert t.values[f] == v;
    assert HasSetter(f) ==> Settled(Drained(t), f);
  }

  ghost predicate Keeps<V(!new)>(run: seq<Event<V>>, f: Field) {
    forall k :: 0 <= k < |run| ==> !(run[k].Change? && run[k].field == f)
  }

  ghost predicate Includes<V(!new)>(run: seq<Event<V>>, whole: Event<V>) {
    exists k :: 0 <= k < |run| && run[k] == whole
  }

  lemma IncludesSplit<V(!new)>(run: seq<Event<V>>, whole: Event<V>)
    requires run != []
    ensures Includes(run, whole) <==> run[0] == whole || Includes(run[1..], whole)
  {
    if Includes(run[1..], whole) {
      var k :| 0 <= k < |run[1..]| && run[1..][k] == whole;
      assert run[k + 1] == whole;
    }
    if Includes(run, whole) && run[0] != whole {
      var k :| 0 <= k < |run| && run[k] == whole;
      assert run[1..][k - 1] == whole;
    }
  }

  /** One event: an unmarked field moves to the clients only as part of the full state,
    and to the row only with all of it. */
  lemma UnmarkedStep<V(!new)>(r: Replica<V>, e: Event<V>, f: Field)
    requires InSync(r) && !HasSetter(f) && !(e.Change? && e.field == f)
    ensures InSync(Step(r, e))
    ensures Shows(Step(r, e).values, f, r.values[f]) && Step(r, e).temporary == r.temporary
    ensures Shows(Step(r, e).clients, f, if e.FullState? then r.values[f] else r.clients[f])
    ensures Shows(Step(r, e).stored, f, if e.RowSaved? && Persistent(f)
            && !r.temporary then r.values[f] else r.stored[f])
  {
    StepKeeps(r, e);
  }

  /**
   Over any run that does not change it again, the connected clients see the value of an
   unmarked field exactly if they had it or were sent the full state.
   */
  lemma {:induction false} UnmarkedReachesClientsIff<V(
    !new)>(r: Replica<V>, run: seq<Event<V>>, t: Replica<V>, f: Field)
    requires InSync(r) && Reaches(r, run, t) && !HasSetter(f) && Keeps(run, f)
    ensures InSync(t) && Shows(t.values, f, r.values[f])
    ensures Shows(t.clients, f, r.values[f]) <==> Includes(run, FullState) || Shows(r.clients, f, r.values[f])
    decreases |run|
  {
    if run != [] {
      UnmarkedStep(r, run[0], f);
      IncludesSplit(run, FullState);
      UnmarkedReachesClientsIff(Step(r, run[0]), run[1..], t, f);
    }
  }

  /** And the database has it exactly if it had it or the whole row was saved. */
  lemma {:induction false} UnmarkedReachesDatabaseIff<V(
    !new)>(r: Replica<V>, run: seq<Event<V>>, t: Replica<V>, f: Field)
    requires InSync(r) && Reaches(r, run, t) && !HasSetter(f) && Persistent(f) && !r.temporary && Keeps(run, f)
    ensures InSync(t) && Shows(t.values, f, r.values[f])
    ensures Shows(t.stored, f, r.values[f]) <==> Includes(run, RowSaved) || Shows(r.stored, f, r.values[f])
    decreases |run|
  {
    if run != [] {
      UnmarkedStep(r, run[0], f);
      IncludesSplit(run, RowSaved);
      UnmarkedReachesDatabaseIff(Step(r, run[0]), run[1..], t, f);
    }
  }

  /**
   The one setting without a setter: checkpoints alone, however many, bring a new restore
   behaviour neither to the connected clients nor to the database; the row saved with the
   settings request does bring it to the database.
   */
  lemma RestoreBehaviorNeedsMoreThanCheckpoints<V(!new)>(r: Replica<V>, v: V, run: seq<Event<V>>, t: Replica<V>)
    requires InSync(r) && !r.temporary && Reaches(Step(r, Change(RestoreQueueBehavior, v)), run, t)
    requires Keeps(run, RestoreQueueBehavior)
    ensures InSync(t)
    ensures Shows(t.clients, RestoreQueueBehavior, v) <==>
              Includes(run, FullState) || Shows(r.clients, RestoreQueueBehavior, v)
    ensures Shows(t.stored, RestoreQueueBehavior, v) <==>
              Includes(run, RowSaved) || Shows(r.stored, RestoreQueueBehavior, v)
  {
    StepKeeps(r, Change(RestoreQueueBehavior, v));
    UnmarkedReachesClientsIff(Step(r, Change(RestoreQueueBehavior, v)), run, t, RestoreQueueBehavior);
    UnmarkedReachesDatabaseIff(Step(r, Change(RestoreQueueBehavior, v)), run, t, RestoreQueueBehavior);
  }

  // ---------------------------------------------------------------- the object

  class SyncedRoom<V(!new)> {
    const isTemporary: bool
    var values: map<Field, V>
    var dirty: set<Field>
    var batch: Option<Batch<V>>
    var clients: map<Field, V>
    var stored: map<Field, V>

    ghost function View(): Replica<V>
      reads this
    {
      Replica(isTemporary, values, dirty, batch, clients, stored)
    }

    ghost predicate Valid()
      reads this
    {
      InSync(View())
    }

    constructor (isTemporary: bool, values: map<Field, V>)
      requires Complete(values)
      ensures Valid() && Fresh(View()) && View().values == values && View().temporary == isTemporary
    {
      this.isTemporary, this.values, dirty, batch, clients, stored := isTemporary, values, {}, None, values, values;
    }

    method Set(f: Field, v: V)
      requires Valid()
      modifies this
      ensures Valid() && View() == Step(old(View()), Change(f, v))
    {
      StepKeeps(View(), Change(f, v));
      values := values[f := v];
      if HasSetter(f) {
        dirty := dirty + {f};
      }
    }

    method BeginSync()
      requires Valid()
      modifies this
      ensures Valid() && View() == Step(old(View()), Begin)
    {
      StepKeeps(View(), Begin);
      if batch.None? && dirty != {} {
        batch := Some(Batch(Picked(values, dirty), false));
        dirty := {};
      }
    }

    /** The whole row at once, as a settings request over HTTP and a promotion write it. */
    method SaveRow()
      requires Valid()
      modifies this
      ensures Valid() && View() == Step(old(View()), RowSaved)
    {
      StepKeeps(View(), RowSaved);
      if !isTemporary {
        stored := stored + Settings(values);
      }
    }

    /** A joining client is sent the whole state. */
    method SendFullState()
      requires Valid()
      modifies this
      ensures Valid() && View() == Step(old(View()), FullState)
    {
      StepKeeps(View(), FullState);
      clients := values;
    }

    method FinishPublish(ok: bool)
      requires Valid()
      modifies this
      ensures Valid() && View() == Step(old(View()), if ok then Published else PublishFailed)
    {
      StepKeeps(View(), if ok then Published else PublishFailed);
      if batch.None? || batch.value.published {
        return;
      }
      var sent := batch.value.values;
      if !ok {
        dirty := dirty + sent.Keys;
        batch := None;
        return;
      }
      clients := clients + sent;
      batch := if NothingToPersist(isTemporary, sent) then None else Some(Batch(sent, true));
    }

    method FinishPersist(ok: bool)
      requires Valid()
      modifies this
      ensures Valid() && View() == Step(old(View()), if ok then Persisted else PersistFailed)
    {
      StepKeeps(View(), if ok then Persisted else PersistFailed);
      if batch.None? || !batch.value.published {
        return;
      }
      var sent := batch.value.values;
      batch := None;
      if ok {
        stored := stored + Settings(sent);
      } else {
        dirty := dirty + sent.Keys;
      }
    }
  }
}
