/** The grants part of `applySettings`: a request's masks are applied role by role. */
module GrantSettings {
  import opened Util
  import opened RoleLattice
  import opened Permissions

  /** The four roles a settings request can change. */
  predicate Changeable(role: Role) {
    0 <= role <= 3
  }

  /** A request entry survives the filter when its role can change and its mask does change. */
  ghost predicate Applies(room: Masks, request: Masks, role: Role) {
    Changeable(role) && role in request && MaskOf(request, role) != MaskOf(room, role)
  }

  /** The room's masks after the surviving entries were set in the given order. */
  ghost function Applied(room: Masks, request: Masks, order: seq<Role>): Masks {
    if order == [] then room
    else
      var before := Applied(room, request, order[..|order| - 1]);
      var role := order[|order| - 1];
      if Applies(room, request, role) then WithRole(before, role, MaskOf(request, role)) else before
  }

  /** `order` is the insertion order of the request's masks, which `deleteRole` preserves. */
  method ApplyGrants(room: Grants, request: Grants, order: seq<Role>)
    requires room != request
    requires Distinct(order) && forall r :: r in order <==> r in request.masks
    modifies room, request
    ensures room.masks == Applied(old(room.masks), old(request.masks), order)
  {
    ghost var asked := request.masks;
    for n := 0 to |order|
      invariant room.masks == old(room.masks)
      invariant forall r :: r in request.masks <==>
                            r in asked && (r in order[..n] ==> Applies(old(room.masks), asked, r))
      invariant forall r :: r in request.masks ==> request.masks[r] == asked[r]
    {
      var role := order[n];
      assert order[..n + 1] == order[..n] + [role];
      if !Changeable(role) || request.masks[role] == MaskOf(room.masks, role) {
        request.DeleteRole(role);
      }
    }
    assert order[..|order|] == order;
    for n := 0 to |order|
      invariant room.masks == Applied(old(room.masks), asked, order[..n])
      invariant forall r :: r in request.masks <==> r in asked && Applies(old(room.masks), asked, r)
      invariant forall r :: r in request.masks ==> request.masks[r] == asked[r]
    {
      var role := order[n];
      assert order[..n + 1][..n] == order[..n];
      if role in request.masks {
        var _ := room.SetRoleGrants(role, request.masks[role]);
      }
    }
  }

  /** The bounds of one role: settled roles against the request, the others against what the room held. */
  ghost predicate Between(m: Masks, room: Masks, request: Masks, settled: bool, i: Role) {
    if settled
    then MaskOf(request, i) <= MaskOf(m, i) <= MaskOf(request, i) + MaskOf(room, i)
    else MaskOf(room, i) <= MaskOf(m, i) <= MaskOf(room, i) + MaskOf(request, i)
  }

  lemma GrantKeepsBetween(m: Masks, room: Masks, request: Masks, role: Role, settled: bool, settledBelow: bool, i: Role)
    requires Chain(m) && Chain(room) && Chain(request) && Changeable(role) && Changeable(i)
    requires Between(m, room, request, settled, i)
    requires role >= 1 ==> Between(m, room, request, settledBelow, role - 1)
    ensures Between(Grant(m, role, MaskOf(request, role)), room, request, settled || i == role, i)
  {
    GrantAt(m, role, MaskOf(request, role), i);
    if role >= 1 {
      ChainGrows(request, role - 1, role);
      ChainGrows(room, role - 1, role);
    }
    if role <= i { ChainGrows(request, role, i); }
  }

  /** The same fold without validation: all that inheritance does to the surviving entries. */
  ghost function Folded(room: Masks, request: Masks, order: seq<Role>): Masks {
    if order == [] then room
    else
      var before := Folded(room, request, order[..|order| - 1]);
      var role := order[|order| - 1];
      if Applies(room, request, role) then Grant(before, role, MaskOf(request, role)) else before
  }

  /** A constructed request asks for nothing its role may not hold, so validation changes nothing. */
  lemma RequestIsValid(request: Masks, role: Role)
    requires Constructed(request) && role in request
    ensures MaskOf(request, role) * ValidationMask(role) == MaskOf(request, role)
  {
  }

  lemma {:induction false} AppliedIsFolded(room: Masks, request: Masks, order: seq<Role>)
    requires Constructed(room) && Constructed(request)
    ensures Applied(room, request, order) == Folded(room, request, order)
    ensures Constructed(Applied(room, request, order))
  {
    if order != [] {
      var prefix, role := order[..|order| - 1], order[|order| - 1];
      AppliedIsFolded(room, request, prefix);
      if Applies(room, request, role) {
        RequestIsValid(request, role);
        WithRoleKeepsConstructed(Applied(room, request, prefix), role, MaskOf(request, role));
      }
    }
  }

  lemma {:induction false} FoldedBetween(room: Masks, request: Masks, order: seq<Role>, i: Role)
    requires Chain(room) && Chain(request) && Distinct(order) && Changeable(i)
    ensures Chain(Folded(room, request, order))
    ensures Between(Folded(room, request, order), room, request, i in order, i)
  {
    if order != [] {
      var prefix, role := order[..|order| - 1], order[|order| - 1];
      FoldedBetween(room, request, prefix, i);
      assert order == prefix + [role] && role !in prefix;
      if Applies(room, request, role) {
        if role >= 1 { FoldedBetween(room, request, prefix, role - 1); }
        GrantKeepsBetween(Folded(room, request, prefix), room, request, role, i in prefix, role - 1 in prefix, i);
        GrantAt(Folded(room, request, prefix), role, MaskOf(request, role), i);
      }
    }
  }

  ghost predicate Ascending(order: seq<Role>) {
    forall a, b :: 0 <= a < b < |order| ==> order[a] < order[b]
  }

  lemma AscendingPrefix(order: seq<Role>, prefix: seq<Role>, last: Role)
    requires Ascending(order) && order == prefix + [last]
    ensures Ascending(prefix)
    ensures forall r :: r in prefix ==> r < last
  {
    assert forall a :: 0 <= a < |prefix| ==> prefix[a] == order[a] && order[a] < order[|prefix|];
  }

  lemma AscendingIsDistinct(order: seq<Role>)
    requires Ascending(order)
    ensures Distinct(order)
  {
  }

  /** In ascending order every settled role already has exactly the mask that was asked for. */
  lemma {:induction false} AscendingIsExact(room: Masks, request: Masks, order: seq<Role>, i: Role)
    requires Chain(room) && Chain(request) && Ascending(order) && Changeable(i)
    requires forall j :: 0 <= j <= i && j !in order ==> MaskOf(room, j) == MaskOf(request, j)
    ensures MaskOf(Folded(room, request, order), i) == MaskOf(request, i)
    decreases |order|
  {
    AscendingIsDistinct(order);
    FoldedBetween(room, request, order, i);
    if i in order {
      var prefix, role := order[..|order| - 1], order[|order| - 1];
      assert order == prefix + [role];
      AscendingPrefix(order, prefix, role);
      AscendingIsDistinct(prefix);
      FoldedBetween(room, request, prefix, i);
      if role != i {
        AscendingIsExact(room, request, prefix, i);
        if Applies(room, request, role) {
          GrantAt(Folded(room, request, prefix), role, MaskOf(request, role), i);
        }
      } else {
        if i >= 1 {
          AscendingIsExact(room, request, prefix, i - 1);
          ChainGrows(request, i - 1, i);
        }
        if Applies(room, request, role) {
          GrantAt(Folded(room, request, prefix), role, MaskOf(request, role), i);
        }
      }
    }
  }

  // ---------------------------------------------------------------- what a request achieves

  /**
   In any order, a requested role ends between what was asked and what was asked or
   already held, and owner and administrator keep everything.
   */
  lemma AnyOrderStaysBetween(room: Masks, request: Masks, order: seq<Role>, i: Role)
    requires Constructed(room) && Constructed(request) && Distinct(order)
    requires forall r :: r in order <==> r in request
    ensures Constructed(Applied(room, request, order))
    ensures Changeable(i) ==>
              MaskOf(request, i) <= MaskOf(Applied(room, request, order), i) <= MaskOf(request, i) + MaskOf(room, i)
  {
    AppliedIsFolded(room, request, order);
    if Changeable(i) { FoldedBetween(room, request, order, i); }
  }

  /** With roles ascending, a request leaves roles 0..3 exactly as asked and the top two untouched. */
  lemma AscendingRequestIsExact(room: Masks, request: Masks, order: seq<Role>, i: Role)
    requires Constructed(room) && Constructed(request) && Ascending(order)
    requires forall r :: r in order <==> r in request
    ensures Changeable(i) ==> MaskOf(Applied(room, request, order), i) == MaskOf(request, i)
    ensures i == ADMINISTRATOR || i == OWNER ==> MaskOf(Applied(room, request, order), i) == MaskOf(room, i)
  {
    AppliedIsFolded(room, request, order);
    if Changeable(i) { AscendingIsExact(room, request, order, i); }
  }

  ghost predicate IsSet(room: Masks, request: Masks, order: seq<Role>, role: Role) {
    role in order && Applies(room, request, role)
  }

  /**
   What a role inherits from below besides the request: when it is set before the role under
   it, the old mask of that role, and otherwise whatever that role carried itself.
   */
  ghost function Carry(room: Masks, request: Masks, order: seq<Role>, i: Role): Mask {
    if order == [] then {}
    else
      var prefix, role := order[..|order| - 1], order[|order| - 1];
      if role != i || !Applies(room, request, i) then Carry(room, request, prefix, i)
      else if i == 0 then {}
      else if IsSet(room, request, prefix, i - 1) then Carry(room, request, prefix, i - 1)
      else MaskOf(room, i - 1)
  }

  lemma {:induction false} FoldedIsRequestAndCarry(room: Masks, request: Masks, order: seq<Role>, i: Role)
    requires Chain(room) && Chain(request) && Distinct(order) && Changeable(i)
    ensures IsSet(room, request, order, i) ==>
              MaskOf(Folded(room, request, order), i) == MaskOf(request, i) + Carry(room, request, order, i)
    ensures !IsSet(room, request, order, i) ==> Carry(room, request, order, i) == {}
    decreases |order|
  {
    if order != [] {
      var prefix, role := order[..|order| - 1], order[|order| - 1];
      assert order == prefix + [role];
      FoldedBetween(room, request, prefix, i);
      FoldedIsRequestAndCarry(room, request, prefix, i);
      if role == i && i > 0 { FoldedIsRequestAndCarry(room, request, prefix, i - 1); }
      if Applies(room, request, role) {
        if role == i {
          SetCarries(room, request, prefix, i);
        } else {
          GrantAt(Folded(room, request, prefix), role, MaskOf(request, role), i);
          if role < i { ChainGrows(request, role, i); }
        }
      }
    }
  }

  /** Setting a role on top of a prefix adds what the role under it holds by then. */
  lemma SetCarries(room: Masks, request: Masks, prefix: seq<Role>, i: Role)
    requires Chain(room) && Chain(request) && Distinct(prefix) && Changeable(i) && i !in prefix
    requires Applies(room, request, i)
    requires i > 0 && IsSet(room, request, prefix, i - 1) ==>
               MaskOf(Folded(room, request, prefix), i - 1)
                 == MaskOf(request, i - 1) + Carry(room, request, prefix, i - 1)
    ensures MaskOf(Grant(Folded(room, request, prefix), i, MaskOf(request, i)), i)
            == MaskOf(request, i) + Carry(room, request, prefix + [i], i)
  {
    assert (prefix + [i])[..|prefix|] == prefix;
    FoldedBetween(room, request, prefix, i);
    GrantAt(Folded(room, request, prefix), i, MaskOf(request, i), i);
    if i > 0 {
      ChainGrows(request, i - 1, i);
      FoldedBetween(room, request, prefix, i - 1);
    }
  }

  /**
   A requested role ends with exactly the mask asked for if and only if the request grants it
   everything it carries up from a lower role that is set later.
   */
  lemma RequestIsExactIff(room: Masks, request: Masks, order: seq<Role>, i: Role)
    requires Constructed(room) && Constructed(request) && Distinct(order) && Changeable(i)
    requires forall r :: r in order <==> r in request
    ensures MaskOf(Applied(room, request, order), i) == MaskOf(request, i)
            <==> Carry(room, request, order, i) <= MaskOf(request, i)
  {
    AppliedIsFolded(room, request, order);
    FoldedBetween(room, request, order, i);
    FoldedIsRequestAndCarry(room, request, order, i);
  }

  /**
   Exactness needs the order. Whenever unregistered users hold a bit that the request
   takes from registered users, setting registered users first leaves the bit with them.
   */
  lemma RegisteredFirstKeepsOldBits(room: Masks, request: Masks, order: seq<Role>, bit: nat)
    requires Constructed(room) && Constructed(request) && Distinct(order)
    requires |order| >= 1 && order[0] == 1
    requires bit in MaskOf(room, 0) && bit !in MaskOf(request, 1)
    ensures bit in MaskOf(Applied(room, request, order), 1)
  {
    AppliedIsFolded(room, request, order);
    assert order[..1] == [1] && order[..1][..0] == [];
    assert Folded(room, request, order[..1][..0]) == room;
    ChainGrows(room, 0, 1);
    GrantAt(room, 1, MaskOf(request, 1), 1);
    LaterRolesKeep(room, request, order, 1, bit);
  }

  lemma {:induction false} LaterRolesKeep(room: Masks, request: Masks, order: seq<Role>, n: nat, bit: nat)
    requires Chain(room) && Chain(request) && Distinct(order)
    requires 1 <= n <= |order| && order[0] == 1
    requires bit in MaskOf(Folded(room, request, order[..n]), 1)
    ensures bit in MaskOf(Folded(room, request, order), 1)
    decreases |order| - n
  {
    if n < |order| {
      assert order[..n + 1][..n] == order[..n];
      FoldedBetween(room, request, order[..n], 1);
      GrantAt(Folded(room, request, order[..n]), order[n], MaskOf(request, order[n]), 1);
      LaterRolesKeep(room, request, order, n + 1, bit);
    } else {
      assert order[..n] == order;
    }
  }
}
