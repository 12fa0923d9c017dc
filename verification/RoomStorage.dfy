/** Saving a room's grants and role sets to its database row, and loading them again. */
module RoomStorage {
  import opened Util
  import opened RoleLattice
  import opened Permissions

  /** The columns of the row that this model keeps. */
  datatype Row = Row(permissions: Masks, revision: Option<int>, trusted: seq<int>, mods: seq<int>, admins: seq<int>)

  /**
   The persistent part of a room: grants, their revision, and the users holding roles 2..4.
   A set of users keeps its insertion order, so it is a sequence without duplicates.
   */
  datatype Saved = Saved(masks: Masks, revision: Option<int>, trusted: seq<int>, mods: seq<int>, admins: seq<int>)

  /** The insertion-ordered set of the ids in an array: later duplicates change nothing. */
  function SetOf(ids: seq<int>): seq<int> {
    if ids == [] then []
    else
      var before := SetOf(ids[..|ids| - 1]);
      if ids[|ids| - 1] in before then before else before + [ids[|ids| - 1]]
  }

  lemma {:induction false} SetOfDistinct(ids: seq<int>)
    requires Distinct(ids)
    ensures SetOf(ids) == ids
  {
    if ids != [] {
      var prefix := ids[..|ids| - 1];
      SetOfDistinct(prefix);
      assert ids == prefix + [ids[|ids| - 1]];
    }
  }

  // ---------------------------------------------------------------- permission additions

  /** The bits introduced at a revision; only revision 1 introduced any. */
  function Additions(revision: int): Mask {
    if revision == 1 then SET_DANMAKU_SOURCE else {}
  }

  ghost function Upgraded(m: Masks, fromRevision: int): Masks {
    if fromRevision < ROOM_PERMISSIONS_REVISION
    then WithRole(m, UNREGISTERED_USER, MaskOf(m, UNREGISTERED_USER) + SET_DANMAKU_SOURCE)
    else m
  }

  method ApplyPermissionAdditions(grants: Grants, fromRevision: int)
    modifies grants
    ensures grants.masks == Upgraded(old(grants.masks), fromRevision)
  {
    var revision := fromRevision + 1;
    while revision <= ROOM_PERMISSIONS_REVISION
      invariant fromRevision < ROOM_PERMISSIONS_REVISION ==> revision <= ROOM_PERMISSIONS_REVISION + 1
      invariant fromRevision >= ROOM_PERMISSIONS_REVISION ==> revision == fromRevision + 1
      invariant grants.masks == if fromRevision < ROOM_PERMISSIONS_REVISION < revision
                                then Upgraded(old(grants.masks), fromRevision) else old(grants.masks)
    {
      var added := Additions(revision);
      if added != {} {
        var baseline := MaskOf(grants.masks, UNREGISTERED_USER) + added;
        var _ := grants.SetRoleGrants(UNREGISTERED_USER, baseline);
      }
      revision := revision + 1;
    }
  }

  /** The upgrade adds exactly the new bit to every ordinary role and touches nothing else. */
  lemma UpgradeOnlyAdds(m: Masks, fromRevision: int, i: Role)
    requires Constructed(m)
    ensures Constructed(Upgraded(m, fromRevision))
    ensures IsRoleValid(i) ==>
              (MaskOf(Upgraded(m, fromRevision), i)
               == MaskOf(m, i) + if fromRevision < ROOM_PERMISSIONS_REVISION then SET_DANMAKU_SOURCE else {})
  {
    if fromRevision < ROOM_PERMISSIONS_REVISION {
      var mask := MaskOf(m, 0) + SET_DANMAKU_SOURCE;
      assert MIN_ROLES[28] == 0;
      assert 28 in Allowed(0) && 28 in ALL;
      assert mask * ValidationMask(0) == mask;
      WithRoleKeepsConstructed(m, 0, mask);
      GrantAt(m, 0, mask, i);
      if 0 <= i <= 4 { ChainGrows(m, 0, i); }
    }
  }

  lemma UpgradeIsIdempotent(m: Masks, fromRevision: int)
    requires Constructed(m)
    ensures Upgraded(Upgraded(m, fromRevision), fromRevision) == Upgraded(m, fromRevision)
  {
    var once := Upgraded(m, fromRevision);
    UpgradeOnlyAdds(m, fromRevision, 0);
    forall r ensures MaskOf(Upgraded(once, fromRevision), r) == MaskOf(once, r) {
      UpgradeOnlyAdds(m, fromRevision, r);
      UpgradeOnlyAdds(once, fromRevision, r);
    }
    UpgradeOnlyAdds(once, fromRevision, 0);
    SameConstructed(Upgraded(once, fromRevision), once);
  }

  lemma ConstructedKeys(m: Masks, r: Role)
    requires Constructed(m)
    ensures r in m <==> IsRoleValid(r)
  {
  }

  lemma SameConstructed(a: Masks, b: Masks)
    requires Constructed(a) && Constructed(b) && forall r :: MaskOf(a, r) == MaskOf(b, r)
    ensures a == b
  {
    forall r ensures r in a <==> r in b {
      ConstructedKeys(a, r);
      ConstructedKeys(b, r);
    }
    SameMasks(a, b);
  }

  // ---------------------------------------------------------------- rows

  ghost function StoredMasks(m: Masks): Masks {
    m - {ADMINISTRATOR, OWNER}
  }

  /** Saving clones the grants, drops the two implied roles and writes everything else as it is. */
  method RoomToDb(room: Saved) returns (row: Row)
    ensures StoredAs(room, row)
  {
    var grantsFiltered := room.masks - {ADMINISTRATOR};
    grantsFiltered := grantsFiltered - {OWNER};
    assert grantsFiltered == StoredMasks(room.masks);
    row := Row(grantsFiltered, room.revision, room.trusted, room.mods, room.admins);
  }

  ghost predicate StoredAs(room: Saved, row: Row) {
    row == Row(StoredMasks(room.masks), room.revision, room.trusted, room.mods, room.admins)
  }

  ghost predicate SavedRoom(room: Saved) {
    Constructed(room.masks) && Distinct(room.trusted) && Distinct(room.mods) && Distinct(room.admins)
  }

  /**
   Loading: the grants are rebuilt by the constructor, and a room whose revision is
   older than the current one is upgraded and stamped.
   */
  ghost function Loaded(row: Row): Saved {
    var revision := row.revision.GetOr(0);
    Saved(Upgraded(ConstructedFrom(row.permissions), revision), Some(Max(revision, ROOM_PERMISSIONS_REVISION)),
          SetOf(row.trusted), SetOf(row.mods), SetOf(row.admins))
  }

  method LoadRoom(row: Row, order: seq<Role>) returns (grants: Grants, room: Saved)
    requires forall r :: r in row.permissions ==> IsRoleValid(r)
    requires Distinct(order) && forall r :: r in order <==> r in row.permissions
    ensures room == Loaded(row) && grants.masks == room.masks && fresh(grants)
  {
    grants := new Grants(row.permissions, order);
    var revision := row.revision.GetOr(0);
    if revision < ROOM_PERMISSIONS_REVISION {
      ApplyPermissionAdditions(grants, revision);
      revision := ROOM_PERMISSIONS_REVISION;
    }
    room := Saved(grants.masks, Some(revision), SetOf(row.trusted), SetOf(row.mods), SetOf(row.admins));
  }

  lemma {:induction false} StoredClosed(m: Masks, i: Role)
    requires Constructed(m) && -1 <= i <= 3
    ensures Closed(Validated(StoredMasks(m)), Present(StoredMasks(m)), i) == if i < 0 then {} else MaskOf(m, i)
  {
    if i >= 0 {
      StoredClosed(m, i - 1);
      var g := StoredMasks(m);
      assert i in g && g[i] == m[i];
      assert MaskOf(Validated(g), i) == m[i];
      if i >= 1 { ChainGrows(m, i - 1, i); }
    }
  }

  lemma StoredMaskRebuilds(m: Masks, r: Role)
    requires Constructed(m)
    ensures MaskOf(ConstructedFrom(StoredMasks(m)), r) == MaskOf(m, r)
  {
    ConstructedFromAt(StoredMasks(m), r);
    if 0 <= r <= 3 { StoredClosed(m, r); }
  }

  /** Dropping owner and administrator, storing and rebuilding is the identity on constructed grants. */
  lemma StoredGrantsRebuild(m: Masks)
    requires Constructed(m)
    ensures ConstructedFrom(StoredMasks(m)) == m
  {
    forall r ensures MaskOf(ConstructedFrom(StoredMasks(m)), r) == MaskOf(m, r) {
      StoredMaskRebuilds(m, r);
    }
    ConstructedFromIsConstructed(StoredMasks(m));
    SameConstructed(ConstructedFrom(StoredMasks(m)), m);
  }

  /** A stamped room comes back exactly as it was saved, however much its masks were tightened. */
  lemma StampedRoomRoundTrips(room: Saved, row: Row)
    requires SavedRoom(room) && room.revision.Some? && room.revision.value >= ROOM_PERMISSIONS_REVISION
    requires StoredAs(room, row)
    ensures Loaded(row) == room
  {
    StoredGrantsRebuild(room.masks);
    SetOfDistinct(room.trusted);
    SetOfDistinct(room.mods);
    SetOfDistinct(room.admins);
  }

  /** An unstamped room gains the additions once: the load after next changes nothing more. */
  lemma UnstampedRoomIsUpgradedOnce(room: Saved, row: Row, next: Row)
    requires SavedRoom(room)
    requires StoredAs(room, row) && StoredAs(Loaded(row), next)
    ensures Loaded(row).masks == Upgraded(room.masks, room.revision.GetOr(0))
    ensures Loaded(next) == Loaded(row)
  {
    StoredGrantsRebuild(room.masks);
    SetOfDistinct(room.trusted);
    SetOfDistinct(room.mods);
    SetOfDistinct(room.admins);
    UpgradeOnlyAdds(room.masks, room.revision.GetOr(0), 0);
    StampedRoomRoundTrips(Loaded(row), next);
  }
}
