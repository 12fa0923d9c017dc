/**
 The permission lattice: grant masks per role, validated, inherited upwards and
 upgraded by revision. A mask is the set of its bit positions, so `|` is `+`,
 `&` is `*`, and the permission declared at index i of the table owns bit i.
 */
module Permissions {
  import opened Util
  import opened RoleLattice

  const OWNER: Role := -1
  const UNREGISTERED_USER: Role := 0
  const REGISTERED_USER: Role := 1
  const TRUSTED_USER: Role := 2
  const MODERATOR: Role := 3
  const ADMINISTRATOR: Role := 4

  datatype GrantsError = InvalidRole(role: Role) | PermissionDenied(name: string)

  /** The name column of the permission table; permission i owns bit i. */
  const NAMES: seq<string> := [
    "playback.play-pause",
    "playback.skip",
    "playback.seek",
    "manage-queue.add",
    "manage-queue.remove",
    "manage-queue.order",
    "manage-queue.vote",
    "chat",
    "configure-room.set-title",
    "configure-room.set-description",
    "configure-room.set-visibility",
    "configure-room.set-queue-mode",
    "configure-room.set-permissions.for-moderator",
    "configure-room.set-permissions.for-trusted-users",
    "configure-room.set-permissions.for-all-registered-users",
    "configure-room.set-permissions.for-all-unregistered-users",
    "manage-users.promote-admin",
    "manage-users.demote-admin",
    "manage-users.promote-moderator",
    "manage-users.demote-moderator",
    "manage-users.promote-trusted-user",
    "manage-users.demote-trusted-user",
    "configure-room.other",
    "playback.speed",
    "manage-users.kick",
    "manage-queue.play-now",
    "manage-queue.edit",
    "configure-room.set-notes",
    "configure-room.set-danmaku-source"
  ]

  /** The minimum-role column: roles below it may never be granted the permission. */
  const MIN_ROLES: seq<Role> := [
    0, 0, 0, 0, 1, 0, 0, 0, 1, 1,
    1, 1, 4, 3, 2, 1, 4, 4, 3, 3,
    2, 2, 1, 0, 2, 0, 0, 0, 0
  ]

  const PERMISSION_COUNT: nat := 29

  const ALL: Mask := set i: nat | i < PERMISSION_COUNT
  const PLAY_PAUSE: Mask := {0}
  const SKIP: Mask := {1}
  const SEEK: Mask := {2}
  const ADD: Mask := {3}
  const REMOVE: Mask := {4}
  const ORDER: Mask := {5}
  const PLAY_NOW: Mask := {25}
  const SPEED: Mask := {23}
  const SET_DANMAKU_SOURCE: Mask := {28}

  const ROOM_PERMISSIONS_REVISION := 1

  // ---------------------------------------------------------------- masks

  /** `perm` names permission `i` when it is a prefix of its name, or the wildcard. */
  predicate Names(perm: string, i: nat)
    requires i < PERMISSION_COUNT
  {
    perm <= NAMES[i] || perm == "*"
  }

  ghost predicate NamedBySome(perms: seq<string>, i: nat)
    requires i < PERMISSION_COUNT
  {
    exists p :: p in perms && Names(p, i)
  }

  method ParseIntoGrantMask(perms: seq<string>) returns (mask: Mask)
    ensures forall i: nat :: i in mask <==> i < PERMISSION_COUNT && NamedBySome(perms, i)
  {
    mask := {};
    for k := 0 to |perms|
      invariant forall i: nat :: i in mask <==> i < PERMISSION_COUNT && NamedBySome(perms[..k], i)
    {
      var named := NamesOf(perms[k]);
      forall i: nat | i < PERMISSION_COUNT
        ensures NamedBySome(perms[..k + 1], i) <==> NamedBySome(perms[..k], i) || i in named
      {
        assert perms[..k + 1] == perms[..k] + [perms[k]];
      }
      mask := mask + named;
    }
    assert perms[..|perms|] == perms;
  }

  /** The bits one entry contributes: the inner pass over the table. */
  method NamesOf(perm: string) returns (mask: Mask)
    ensures forall i: nat :: i in mask <==> i < PERMISSION_COUNT && Names(perm, i)
  {
    mask := {};
    for i := 0 to PERMISSION_COUNT
      invariant forall b: nat :: b in mask <==> b < i && Names(perm, b)
    {
      if Names(perm, i) {
        mask := mask + {i};
      }
    }
  }

  /** The bits whose minimum role admits `role`. */
  function Allowed(role: Role): Mask {
    set i: nat | i < PERMISSION_COUNT && role >= MIN_ROLES[i]
  }

  /** Permissions a role may hold at all; a role below every minimum may hold everything. */
  function ValidationMask(role: Role): Mask {
    if Allowed(role) == {} then ALL else Allowed(role)
  }

  predicate IsRoleValid(role: Role) {
    -1 <= role <= 4
  }

  predicate Granted(m: Masks, role: Role, check: Mask) {
    check <= MaskOf(m, role)
  }

  lemma ValidationGrows(i: Role, j: Role)
    requires 0 <= i <= j
    ensures ValidationMask(i) <= ValidationMask(j)
  {
    assert MIN_ROLES[0] == 0;
    assert 0 in Allowed(i) && 0 in Allowed(j);
  }

  lemma HighestAndOwnerMayHoldEverything()
    ensures ValidationMask(ADMINISTRATOR) == ALL && ValidationMask(OWNER) == ALL
  {
    assert forall b: nat :: b < PERMISSION_COUNT ==> 0 <= MIN_ROLES[b] <= 4;
    assert 0 in Allowed(ADMINISTRATOR);
    assert Allowed(OWNER) == {};
    assert Allowed(ADMINISTRATOR) == ALL;
  }

  /** The bits the room logic checks are the ones the names stand for. */
  lemma CheckedPlaybackNames(i: nat)
    requires i < PERMISSION_COUNT
    ensures Names("playback.play-pause", i) <==> i in PLAY_PAUSE
    ensures Names("playback.skip", i) <==> i in SKIP
    ensures Names("playback.seek", i) <==> i in SEEK
    ensures Names("playback.speed", i) <==> i in SPEED
  {
    if i !in {0, 1, 2, 23} {
      OtherFamilies(i);
      assert "playback.play-pause"[0] == 'p' && "playback.skip"[0] == 'p' && "playback.seek"[0] == 'p'
             && "playback.speed"[0] == 'p';
    } else {
      assert NAMES[0][9] == 'p' && NAMES[1][9] == 's' && NAMES[2][9] == 's' && NAMES[23][9] == 's';
      assert NAMES[1][10] == 'k' && NAMES[2][10] == 'e' && NAMES[23][10] == 'p';
      assert "playback.play-pause"[9] == 'p' && "playback.speed"[9] == 's' && "playback.speed"[10] == 'p';
      assert "playback.skip"[9] == 's' && "playback.skip"[10] == 'k' && "playback.seek"[9] == 's'
             && "playback.seek"[10] == 'e';
      assert "playback.play-pause" == NAMES[0] && "playback.speed" == NAMES[23];
      assert "playback.skip" == NAMES[1] && "playback.seek" == NAMES[2];
    }
  }

  lemma CheckedQueueNames(i: nat)
    requires i < PERMISSION_COUNT
    ensures Names("manage-queue.add", i) <==> i in ADD
    ensures Names("manage-queue.remove", i) <==> i in REMOVE
    ensures Names("manage-queue.order", i) <==> i in ORDER
    ensures Names("manage-queue.play-now", i) <==> i in PLAY_NOW
  {
    assert "manage-queue.add"[0] == 'm' && "manage-queue.remove"[0] == 'm';
    assert "manage-queue.order"[0] == 'm' && "manage-queue.play-now"[0] == 'm';
    assert "manage-queue.add"[7] == 'q' && "manage-queue.remove"[7] == 'q';
    assert "manage-queue.order"[7] == 'q' && "manage-queue.play-now"[7] == 'q';
    if i in {3, 4, 5, 6, 25, 26} {
      assert NAMES[3][13] == 'a' && NAMES[4][13] == 'r' && NAMES[5][13] == 'o' && NAMES[6][13] == 'v';
      assert NAMES[25][13] == 'p' && NAMES[26][13] == 'e';
      assert "manage-queue.add"[13] == 'a' && "manage-queue.remove"[13] == 'r';
      assert "manage-queue.order"[13] == 'o' && "manage-queue.play-now"[13] == 'p';
      assert "manage-queue.add" == NAMES[3] && "manage-queue.remove" == NAMES[4];
      assert "manage-queue.order" == NAMES[5] && "manage-queue.play-now" == NAMES[25];
    } else {
      OutsideQueueNames(i);
    }
  }

  lemma OutsideQueueNames(i: nat)
    requires i < PERMISSION_COUNT && i !in {3, 4, 5, 6, 25, 26}
    ensures NAMES[i][..1] == "p" || NAMES[i][..1] == "c" || NAMES[i][..8] == "manage-u"
  {
    if i in {16, 17, 18, 19, 20, 21, 24} {
      assert NAMES[16][7] == 'u' && NAMES[17][7] == 'u' && NAMES[18][7] == 'u' && NAMES[19][7] == 'u';
      assert NAMES[20][7] == 'u' && NAMES[21][7] == 'u' && NAMES[24][7] == 'u';
    } else if i in {0, 1, 2, 23} {
      assert NAMES[0][0] == 'p' && NAMES[1][0] == 'p' && NAMES[2][0] == 'p' && NAMES[23][0] == 'p';
    } else {
      ConfigureNames(i);
    }
  }

  lemma ConfigureNames(i: nat)
    requires i < PERMISSION_COUNT && i !in {0, 1, 2, 3, 4, 5, 6, 16, 17, 18, 19, 20, 21, 23, 24, 25, 26}
    ensures NAMES[i][..1] == "c"
  {
    assert NAMES[7][0] == 'c' && NAMES[8][0] == 'c' && NAMES[9][0] == 'c' && NAMES[10][0] == 'c' && NAMES[11][0] == 'c';
    assert NAMES[12][0] == 'c' && NAMES[13][0] == 'c' && NAMES[14][0] == 'c' && NAMES[15][0] == 'c';
    assert NAMES[22][0] == 'c' && NAMES[27][0] == 'c' && NAMES[28][0] == 'c';
  }

  lemma OtherFamilies(i: nat)
    requires i < PERMISSION_COUNT && i !in {0, 1, 2, 23}
    ensures NAMES[i][..1] == "c" || NAMES[i][..1] == "m"
  {
    if i in {3, 4, 5, 6, 16, 17, 18, 19, 20, 21, 24, 25, 26} {
      assert NAMES[3][0] == 'm' && NAMES[4][0] == 'm' && NAMES[5][0] == 'm' && NAMES[6][0] == 'm'
             && NAMES[16][0] == 'm';
      assert NAMES[17][0] == 'm' && NAMES[18][0] == 'm' && NAMES[19][0] == 'm' && NAMES[20][0] == 'm'
             && NAMES[21][0] == 'm';
      assert NAMES[24][0] == 'm' && NAMES[25][0] == 'm' && NAMES[26][0] == 'm';
    } else {
      ConfigureNames(i);
    }
  }

  /** A name stands for exactly the bits of a mask. */
  ghost predicate StandsFor(perm: string, mask: Mask) {
    forall i: nat :: i in mask <==> i < PERMISSION_COUNT && Names(perm, i)
  }

  lemma CheckedNamesStandForTheirMasks()
    ensures StandsFor("playback.play-pause", PLAY_PAUSE) && StandsFor("playback.skip", SKIP)
    ensures StandsFor("playback.seek", SEEK) && StandsFor("playback.speed", SPEED)
    ensures StandsFor("manage-queue.add", ADD) && StandsFor("manage-queue.remove", REMOVE)
    ensures StandsFor("manage-queue.order", ORDER) && StandsFor("manage-queue.play-now", PLAY_NOW)
  {
    forall i: nat | i < PERMISSION_COUNT
      ensures (Names("playback.play-pause", i) <==> i in PLAY_PAUSE) && (Names("playback.skip", i) <==> i in SKIP)
      ensures (Names("playback.seek", i) <==> i in SEEK) && (Names("playback.speed", i) <==> i in SPEED)
      ensures (Names("manage-queue.add", i) <==> i in ADD) && (Names("manage-queue.remove", i) <==> i in REMOVE)
      ensures (Names("manage-queue.order", i) <==> i in ORDER) && (Names("manage-queue.play-now", i) <==> i in PLAY_NOW)
    {
      CheckedPlaybackNames(i);
      CheckedQueueNames(i);
    }
  }

  // ---------------------------------------------------------------- specification

  ghost function WithRole(m: Masks, role: Role, mask: Mask): Masks {
    Grant(m, role, mask * ValidationMask(role))
  }

  ghost function Validated(g: Masks): Masks {
    map r | r in g :: g[r] * ValidationMask(r)
  }

  /** The roles whose mask is not zero; zero masks are skipped when all grants are replaced. */
  ghost function Present(g: Masks): set<Role> {
    set r | r in g && g[r] != {}
  }

  ghost function AllReplacedBy(g: Masks): Masks {
    ClosedForm(Validated(g), Present(g))
  }

  ghost function ConstructedFrom(g: Masks): Masks {
    WithRole(WithRole(AllReplacedBy(g), ADMINISTRATOR, ALL), OWNER, ALL)
  }

  /** Every mask stays inside what its role may hold. */
  ghost predicate WithinValidation(m: Masks) {
    forall r :: r in m ==> IsRoleValid(r) && m[r] <= ValidationMask(r)
  }

  /** What the constructor builds: a lattice whose owner and administrator hold everything. */
  ghost predicate Constructed(m: Masks) {
    Chain(m) && WithinValidation(m) && OWNER in m && m[OWNER] == ALL && m[ADMINISTRATOR] == ALL
  }

  // ---------------------------------------------------------------- lattice facts over the table

  lemma WithRoleIsValid(m: Masks, role: Role, mask: Mask)
    requires Chain(m) && WithinValidation(m) && IsRoleValid(role)
    ensures Chain(WithRole(m, role, mask)) && WithinValidation(WithRole(m, role, mask))
  {
    var r := WithRole(m, role, mask);
    GrantAt(m, role, mask * ValidationMask(role), role);
    forall k | k in r ensures IsRoleValid(k) && MaskOf(r, k) <= ValidationMask(k) {
      GrantAt(m, role, mask * ValidationMask(role), k);
      if 1 <= k == role {
        ValidationGrows(k - 1, k);
        assert m[k - 1] <= ValidationMask(k - 1);
      } else if 0 <= role < k {
        ValidationGrows(role, k);
      }
    }
    assert forall k :: k in r ==> r[k] == MaskOf(r, k);
  }

  /** Any update of a role below administrator keeps a constructed grants object constructed. */
  lemma WithRoleKeepsConstructed(m: Masks, role: Role, mask: Mask)
    requires Constructed(m) && 0 <= role <= 3
    ensures Constructed(WithRole(m, role, mask))
  {
    WithRoleIsValid(m, role, mask);
    GrantAt(m, role, mask * ValidationMask(role), OWNER);
    GrantAt(m, role, mask * ValidationMask(role), ADMINISTRATOR);
    HighestAndOwnerMayHoldEverything();
    assert WithRole(m, role, mask)[ADMINISTRATOR] == m[ADMINISTRATOR] + mask * ValidationMask(role);
  }

  /** A finite history of role updates; an invalid role throws and changes nothing. */
  ghost function AfterUpdates(m: Masks, updates: seq<(Role, Mask)>): Masks {
    if updates == [] then m
    else
      var before := AfterUpdates(m, updates[..|updates| - 1]);
      var (role, mask) := updates[|updates| - 1];
      if IsRoleValid(role) then WithRole(before, role, mask) else before
  }

  /** Over any history: masks grow with the role, stay valid, and `granted` is monotone in the role. */
  lemma {:induction false} UpdatesKeepTheLattice(m: Masks, updates: seq<(Role, Mask)>, i: Role, j: Role, check: Mask)
    requires Chain(m) && WithinValidation(m) && 0 <= i <= j <= 4
    ensures Chain(AfterUpdates(m, updates)) && WithinValidation(AfterUpdates(m, updates))
    ensures Granted(AfterUpdates(m, updates), i, check) ==> Granted(AfterUpdates(m, updates), j, check)
  {
    if updates != [] {
      UpdatesKeepTheLattice(m, updates[..|updates| - 1], i, j, check);
      var (role, mask) := updates[|updates| - 1];
      if IsRoleValid(role) {
        WithRoleIsValid(AfterUpdates(m, updates[..|updates| - 1]), role, mask);
      }
    }
    ChainGrows(AfterUpdates(m, updates), i, j);
  }

  lemma {:induction false} ClosedIsValid(g: Masks, done: set<Role>, i: Role)
    requires 0 <= i <= 4
    ensures Closed(Validated(g), done, i) <= ValidationMask(i)
  {
    if i > 0 {
      ClosedIsValid(g, done, i - 1);
      ValidationGrows(i - 1, i);
    } else {
      assert Closed(Validated(g), done, -1) == {};
    }
  }

  /** Replacing all grants yields a valid lattice as soon as one mask is not zero. */
  lemma ReplacedIsValid(g: Masks)
    requires Present(g) != {} && forall r :: r in g ==> IsRoleValid(r)
    ensures Chain(AllReplacedBy(g)) && WithinValidation(AllReplacedBy(g))
  {
    ClosedFormIsChain(Validated(g), Present(g));
    forall r | r in AllReplacedBy(g) ensures IsRoleValid(r) && MaskOf(AllReplacedBy(g), r) <= ValidationMask(r) {
      ClosedFormAt(Validated(g), Present(g), r);
      if 0 <= r <= 4 { ClosedIsValid(g, Present(g), r); }
    }
    assert forall r :: r in AllReplacedBy(g) ==> AllReplacedBy(g)[r] == MaskOf(AllReplacedBy(g), r);
  }

  ghost function WithAdministrator(g: Masks): Masks {
    WithRole(AllReplacedBy(g), ADMINISTRATOR, ALL)
  }

  lemma WithAdministratorAt(g: Masks, r: Role)
    requires forall k :: k in g ==> IsRoleValid(k)
    ensures Chain(WithAdministrator(g)) && (r in WithAdministrator(g) ==> IsRoleValid(r))
    ensures 0 <= r <= 3 ==> MaskOf(WithAdministrator(g), r) == Closed(Validated(g), Present(g), r)
    ensures r == ADMINISTRATOR ==> MaskOf(WithAdministrator(g), r) == ALL
  {
    var m0 := AllReplacedBy(g);
    HighestAndOwnerMayHoldEverything();
    assert ALL * ValidationMask(ADMINISTRATOR) == ALL;
    if Present(g) == {} {
      assert m0[ADMINISTRATOR := ALL] == map[ADMINISTRATOR := ALL];
      InheritedIsChain(m0[ADMINISTRATOR := ALL]);
      InheritedAt(m0[ADMINISTRATOR := ALL], r);
      if 0 <= r <= 4 {
        UpToFirst(ADMINISTRATOR, ALL, r);
        ClosedNothing(Validated(g), r);
      }
    } else {
      ReplacedIsValid(g);
      GrantAt(m0, ADMINISTRATOR, ALL, r);
      ClosedFormAt(Validated(g), Present(g), r);
      if r == ADMINISTRATOR {
        ValidationGrows(3, 4);
        assert MaskOf(m0, 3) <= ALL;
      }
    }
  }

  lemma ConstructedFromAt(g: Masks, r: Role)
    requires forall k :: k in g ==> IsRoleValid(k)
    ensures Chain(ConstructedFrom(g)) && (r in ConstructedFrom(g) <==> IsRoleValid(r))
    ensures 0 <= r <= 3 ==> MaskOf(ConstructedFrom(g), r) == Closed(Validated(g), Present(g), r)
    ensures r == ADMINISTRATOR || r == OWNER ==> MaskOf(ConstructedFrom(g), r) == ALL
  {
    WithAdministratorAt(g, r);
    HighestAndOwnerMayHoldEverything();
    assert ALL * ValidationMask(OWNER) == ALL;
    GrantAt(WithAdministrator(g), OWNER, ALL, r);
  }

  /** The constructor's result, whatever it was given: a constructed lattice with the closed-form masks. */
  lemma ConstructedFromIsConstructed(g: Masks)
    requires forall r :: r in g ==> IsRoleValid(r)
    ensures Constructed(ConstructedFrom(g))
    ensures forall r :: 0 <= r <= 3 ==> MaskOf(ConstructedFrom(g), r) == Closed(Validated(g), Present(g), r)
  {
    var m := ConstructedFrom(g);
    forall r
      ensures r in m <==> IsRoleValid(r)
      ensures r in m ==> MaskOf(m, r) <= ValidationMask(r)
      ensures 0 <= r <= 3 ==> MaskOf(m, r) == Closed(Validated(g), Present(g), r)
    {
      ConstructedFromAt(g, r);
      HighestAndOwnerMayHoldEverything();
      if 0 <= r <= 3 { ClosedIsValid(g, Present(g), r); }
    }
    ConstructedFromAt(g, OWNER);
    ConstructedFromAt(g, ADMINISTRATOR);
    assert forall r :: r in m ==> m[r] == MaskOf(m, r);
  }

  // ---------------------------------------------------------------- the mutable object

  /** `Grants`: the masks of all roles, updated in place. */
  class Grants {
    var masks: Masks

    /** Builds from saved grants, visited in any order; owner and administrator are forced to hold everything. */
    constructor (saved: Masks, order: seq<Role>)
      requires forall r :: r in saved ==> IsRoleValid(r)
      requires Distinct(order) && forall r :: r in order <==> r in saved
      ensures masks == ConstructedFrom(saved) && Constructed(masks)
    {
      masks := map[];
      new;
      var _ := SetAllGrants(saved, order);
      var _ := SetRoleGrants(ADMINISTRATOR, ALL);
      var _ := SetRoleGrants(OWNER, ALL);
      ConstructedFromIsConstructed(saved);
    }

    method ProcessInheritance()
      modifies this
      ensures masks == Inherited(old(masks))
    {
      var fullmask: Mask := {};
      ghost var before := masks;
      InheritedStart(before);
      for i := 0 to 5
        invariant fullmask == UpTo(before, i - 1) && masks == InheritedBelow(before, i)
      {
        InheritedNext(before, i);
        fullmask := fullmask + MaskOf(masks, i);
        masks := masks[i := fullmask];
      }
      InheritedEnd(before);
    }

    method SetRoleGrants(role: Role, permissions: Mask) returns (r: Result<(), GrantsError>)
      modifies this
      ensures r == if IsRoleValid(role) then Ok(()) else Err(InvalidRole(role))
      ensures masks == if IsRoleValid(role) then WithRole(old(masks), role, permissions) else old(masks)
    {
      if !IsRoleValid(role) {
        return Err(InvalidRole(role));
      }
      masks := masks[role := permissions * ValidationMask(role)];
      ProcessInheritance();
      return Ok(());
    }

    /**
     Replaces everything by `grants`, whose entries are visited in the order `order`.
     The outcome does not mention the order.
     */
    method SetAllGrants(grants: Masks, order: seq<Role>) returns (r: Result<(), GrantsError>)
      requires Distinct(order) && forall k :: k in order <==> k in grants
      modifies this
      ensures (forall k :: k in grants && grants[k] != {} ==> IsRoleValid(k)) ==>
                r == Ok(()) && masks == AllReplacedBy(grants)
      ensures (exists k :: k in grants && grants[k] != {} && !IsRoleValid(k)) ==> r.Err?
    {
      masks := map[];
      ghost var done: set<Role> := {};
      for n := 0 to |order|
        invariant forall k :: k in done <==> k in order[..n] && grants[k] != {}
        invariant forall k :: k in done ==> IsRoleValid(k)
        invariant masks == ClosedForm(Validated(grants), done)
      {
        var role := order[n];
        assert order[..n + 1] == order[..n] + [role];
        assert role !in order[..n];
        if grants[role] != {} {
          r := SetRoleGrants(role, grants[role]);
          if r.Err? {
            return;
          }
          GrantOneMore(Validated(grants), done, role);
          done := done + {role};
        }
      }
      assert order[..|order|] == order;
      assert done == Present(grants);
      r := Ok(());
    }

    /** Checks a permission by its name; an unknown role has an empty mask. */
    method IsGranted(role: Role, permission: string) returns (granted: bool)
      ensures forall mask :: StandsFor(permission, mask) ==> granted == Granted(masks, role, mask)
      ensures permission == "playback.play-pause" ==> granted == Granted(masks, role, PLAY_PAUSE)
      ensures permission == "playback.speed" ==> granted == Granted(masks, role, SPEED)
    {
      var check := NamesOf(permission);
      granted := check <= MaskOf(masks, role);
      forall mask | StandsFor(permission, mask)
        ensures mask == check
      {
      }
      CheckedNamesStandForTheirMasks();
    }

    method DeleteRole(role: Role)
      modifies this
      ensures masks == old(masks) - {role}
    {
      masks := masks - {role};
    }
  }
}
