/**
 The algebra behind grant inheritance, independent of the permission table: masks are
 sets of bits, ordinary roles are 0..4, and every role holds what the roles below it hold.
 */
module RoleLattice {
  type Role = int
  type Mask = set<nat>
  type Masks = map<Role, Mask>

  /** The ordinary roles, from unregistered users up to administrators. */
  const ORDINARY: set<Role> := set r: Role | 0 <= r <= 4

  function MaskOf(m: Masks, role: Role): Mask {
    if role in m then m[role] else {}
  }

  /** Everything the ordinary roles up to `role` hold. */
  ghost function UpTo(m: Masks, role: int): Mask
    decreases if role < 0 then 0 else role + 1
  {
    if role < 0 then {} else UpTo(m, role - 1) + MaskOf(m, role)
  }

  /** The masks after an inheritance pass. */
  ghost function Inherited(m: Masks): Masks {
    map r: Role | r in m.Keys + ORDINARY :: if 0 <= r <= 4 then UpTo(m, r) else m[r]
  }

  /** The masks when the pass has reached the first n roles. */
  ghost function InheritedBelow(m: Masks, n: nat): Masks {
    map r: Role | r in m.Keys + (set k | k in ORDINARY && k < n) :: if 0 <= r < n then UpTo(m, r) else m[r]
  }

  lemma InheritedStart(m: Masks)
    ensures InheritedBelow(m, 0) == m
  {
  }

  lemma InheritedNext(m: Masks, n: nat)
    requires n <= 4
    ensures MaskOf(InheritedBelow(m, n), n) == MaskOf(m, n)
    ensures InheritedBelow(m, n)[n := UpTo(m, n)] == InheritedBelow(m, n + 1)
  {
    var a, b := InheritedBelow(m, n)[n := UpTo(m, n)], InheritedBelow(m, n + 1);
    assert forall r :: r in a <==> r in b;
    assert forall r :: r in a ==> a[r] == b[r];
  }

  lemma InheritedEnd(m: Masks)
    ensures InheritedBelow(m, 5) == Inherited(m)
  {
    var a, b := InheritedBelow(m, 5), Inherited(m);
    assert forall r :: r in a <==> r in b;
  }

  ghost function Grant(m: Masks, role: Role, mask: Mask): Masks {
    Inherited(m[role := mask])
  }

  /** Every ordinary role has a mask, and masks grow with the role. */
  ghost predicate Chain(m: Masks) {
    && (forall i :: 0 <= i <= 4 ==> i in m)
    && (forall i :: 1 <= i <= 4 ==> MaskOf(m, i - 1) <= MaskOf(m, i))
  }

  lemma InheritedAt(m: Masks, r: Role)
    ensures 0 <= r <= 4 ==> r in Inherited(m) && MaskOf(Inherited(m), r) == UpTo(m, r)
    ensures !(0 <= r <= 4) ==> MaskOf(Inherited(m), r) == MaskOf(m, r)
    ensures Inherited(m).Keys == m.Keys + ORDINARY
  {
  }

  lemma InheritedIsChain(m: Masks)
    ensures Chain(Inherited(m))
  {
    forall i | 1 <= i <= 4 ensures MaskOf(Inherited(m), i - 1) <= MaskOf(Inherited(m), i) {
      InheritedAt(m, i - 1);
      InheritedAt(m, i);
    }
  }

  lemma {:induction false} ChainUpTo(m: Masks, i: Role)
    requires Chain(m) && 0 <= i <= 4
    ensures UpTo(m, i) == MaskOf(m, i)
  {
    if i > 0 {
      ChainUpTo(m, i - 1);
    } else {
      assert UpTo(m, -1) == {};
    }
  }

  lemma {:induction false} ChainGrows(m: Masks, i: Role, j: Role)
    requires Chain(m) && 0 <= i <= j <= 4
    ensures MaskOf(m, i) <= MaskOf(m, j)
    decreases j - i
  {
    if i < j {
      ChainGrows(m, i, j - 1);
      assert MaskOf(m, j - 1) <= MaskOf(m, j);
    }
  }

  lemma {:induction false} UpToUpdated(m: Masks, role: Role, mask: Mask, i: Role)
    requires Chain(m) && 0 <= i <= 4
    ensures (i < role || role < 0) ==> UpTo(m[role := mask], i) == MaskOf(m, i)
    ensures i == role ==> UpTo(m[role := mask], i) == mask + (if i == 0 then {} else MaskOf(m, i - 1))
    ensures 0 <= role < i ==> UpTo(m[role := mask], i) == MaskOf(m, i) + mask
  {
    if i > 0 {
      UpToUpdated(m, role, mask, i - 1);
      assert MaskOf(m, i - 1) <= MaskOf(m, i);
    } else {
      assert UpTo(m[role := mask], -1) == {};
    }
  }

  /** Granting one ordinary role moves nothing below it and adds its bits to everything above. */
  lemma GrantAt(m: Masks, role: Role, mask: Mask, i: Role)
    requires Chain(m)
    ensures Chain(Grant(m, role, mask))
    ensures Grant(m, role, mask).Keys == m.Keys + {role}
    ensures 0 <= i <= 4 && (i < role || role < 0) ==> MaskOf(Grant(m, role, mask), i) == MaskOf(m, i)
    ensures 0 <= i == role <= 4 ==>
              MaskOf(Grant(m, role, mask), i) == mask + (if i == 0 then {} else MaskOf(m, i - 1))
    ensures 0 <= role < i <= 4 ==> MaskOf(Grant(m, role, mask), i) == MaskOf(m, i) + mask
    ensures !(0 <= i <= 4) ==> MaskOf(Grant(m, role, mask), i) == if i == role then mask else MaskOf(m, i)
  {
    InheritedIsChain(m[role := mask]);
    InheritedAt(m[role := mask], i);
    if 0 <= i <= 4 {
      UpToUpdated(m, role, mask, i);
    }
  }

  // ---------------------------------------------------------------- closed form

  /** What role `i` holds once the roles `done` of `g` were granted, in whatever order. */
  ghost function Closed(g: Masks, done: set<Role>, i: int): Mask
    decreases if i < 0 then 0 else i + 1
  {
    if i < 0 then {}
    else Closed(g, done, i - 1) + if i in done then MaskOf(g, i) else {}
  }

  ghost function ClosedForm(g: Masks, done: set<Role>): Masks {
    if done == {} then map[]
    else map r: Role | r in done + ORDINARY ::
           if 0 <= r <= 4 then Closed(g, done, r) else MaskOf(g, r)
  }

  lemma ClosedFormAt(g: Masks, done: set<Role>, r: Role)
    requires done != {}
    ensures ClosedForm(g, done).Keys == done + ORDINARY
    ensures 0 <= r <= 4 ==> MaskOf(ClosedForm(g, done), r) == Closed(g, done, r)
    ensures !(0 <= r <= 4) ==> MaskOf(ClosedForm(g, done), r) == if r in done then MaskOf(g, r) else {}
  {
  }

  lemma ClosedFormIsChain(g: Masks, done: set<Role>)
    requires done != {}
    ensures Chain(ClosedForm(g, done))
  {
    forall i | 0 <= i <= 4
      ensures i in ClosedForm(g, done)
      ensures i >= 1 ==> MaskOf(ClosedForm(g, done), i - 1) <= MaskOf(ClosedForm(g, done), i)
    {
      ClosedFormAt(g, done, i);
      ClosedFormAt(g, done, i - 1);
    }
  }

  lemma {:induction false} ClosedOneMore(g: Masks, done: set<Role>, role: Role, i: int)
    requires role !in done && -1 <= i <= 4
    ensures Closed(g, done + {role}, i) == Closed(g, done, i) + if 0 <= role <= i then MaskOf(g, role) else {}
  {
    if i >= 0 {
      ClosedOneMore(g, done, role, i - 1);
    }
  }

  lemma {:induction false} ClosedNothing(g: Masks, i: int)
    requires -1 <= i <= 4
    ensures Closed(g, {}, i) == {}
  {
    if i >= 0 { ClosedNothing(g, i - 1); }
  }

  lemma {:induction false} UpToFirst(role: Role, mask: Mask, i: int)
    requires -1 <= i <= 4
    ensures UpTo(map[role := mask], i) == if 0 <= role <= i then mask else {}
  {
    if i >= 0 { UpToFirst(role, mask, i - 1); }
  }

  lemma OwnMaskOnTop(g: Masks, done: set<Role>, r: Role)
    requires r !in done && done != {} && 0 <= r <= 4
    ensures Closed(g, done, r) == if r == 0 then {} else MaskOf(ClosedForm(g, done), r - 1)
  {
    if r > 0 {
      ClosedFormAt(g, done, r - 1);
    } else {
      assert Closed(g, done, -1) == {};
    }
  }

  lemma GrantOneMoreAt(g: Masks, done: set<Role>, role: Role, r: Role)
    requires role !in done
    ensures MaskOf(Grant(ClosedForm(g, done), role, MaskOf(g, role)), r) == MaskOf(ClosedForm(g, done + {role}), r)
  {
    ClosedFormAt(g, done + {role}, r);
    if done == {} {
      InheritedAt(map[role := MaskOf(g, role)], r);
      assert ClosedForm(g, done)[role := MaskOf(g, role)] == map[role := MaskOf(g, role)];
      if 0 <= r <= 4 {
        UpToFirst(role, MaskOf(g, role), r);
        ClosedNothing(g, r);
        ClosedOneMore(g, {}, role, r);
      }
    } else {
      ClosedFormIsChain(g, done);
      ClosedFormAt(g, done, r);
      GrantAt(ClosedForm(g, done), role, MaskOf(g, role), r);
      if 0 <= r <= 4 {
        ClosedOneMore(g, done, role, r);
        if r == role { OwnMaskOnTop(g, done, r); }
      }
    }
  }

  lemma KeysOneMore(done: set<Role>, role: Role, ordinary: set<Role>)
    ensures (done + ordinary) + {role} + ordinary == (done + {role}) + ordinary
    ensures {role} + ordinary == ({} + {role}) + ordinary
  {
  }

  lemma GrantOneMoreKeys(g: Masks, done: set<Role>, role: Role)
    ensures Grant(ClosedForm(g, done), role, MaskOf(g, role)).Keys == ClosedForm(g, done + {role}).Keys
  {
    var before := ClosedForm(g, done)[role := MaskOf(g, role)];
    InheritedAt(before, 0);
    ClosedFormAt(g, done + {role}, 0);
    KeysOneMore(done, role, ORDINARY);
    if done == {} {
      assert before.Keys == {role};
    } else {
      ClosedFormAt(g, done, 0);
      assert before.Keys == ClosedForm(g, done).Keys + {role};
    }
  }

  lemma SameMasks(a: Masks, b: Masks)
    requires a.Keys == b.Keys && forall r :: MaskOf(a, r) == MaskOf(b, r)
    ensures a == b
  {
    forall r | r in a ensures a[r] == b[r] {
      assert MaskOf(a, r) == MaskOf(b, r);
    }
  }

  /**
   One more granted role brings the masks to the closed form of the larger set; as the
   closed form only depends on the set, the order of the roles cannot matter.
   */
  lemma GrantOneMore(g: Masks, done: set<Role>, role: Role)
    requires role !in done
    ensures Grant(ClosedForm(g, done), role, MaskOf(g, role)) == ClosedForm(g, done + {role})
  {
    GrantOneMoreKeys(g, done, role);
    forall r ensures MaskOf(Grant(ClosedForm(g, done), role, MaskOf(g, role)), r)
      == MaskOf(ClosedForm(g, done + {role}), r) {
      GrantOneMoreAt(g, done, role, r);
    }
    SameMasks(Grant(ClosedForm(g, done), role, MaskOf(g, role)), ClosedForm(g, done + {role}));
  }
}
