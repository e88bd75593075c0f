/** The attribute-enablement store: one enabled flag per catalog attribute,
    the read-only queries over it, and the single mutator
    `UpdateEnabledState`, which cascades trick-type toggles to the whole
    family, never leaves both trick types disabled, and refuses to disable
    the last enabled base, side or spin of a family. */
module Context {
  import opened Tricks
  import opened Catalog

  /** The enabled flag of each attribute; an attribute missing from the map
      reads as enabled. */
  type EnabledState = map<TrickAttribute, bool>

  // ---------------------------------------------------------------------
  // Read side
  // ---------------------------------------------------------------------

  /** Whether trick type `t` is enabled; a missing entry counts as enabled. */
  function IsTrickTypeEnabled(m: EnabledState, t: TrickType): (r: bool)
    ensures TypeAttribute(t) !in m ==> r
    ensures TypeAttribute(t) in m ==> (r <==> m[TypeAttribute(t)])
  {
    if TypeAttribute(t) in m then m[TypeAttribute(t)] else true
  }

  /** The trick types whose entry is present and true. */
  function EnabledTrickTypes(m: EnabledState): set<TrickType> {
    set t: TrickType | TypeAttribute(t) in m && m[TypeAttribute(t)]
  }

  function EnabledTrickBases(m: EnabledState): set<TrickBase> {
    set b: TrickBase | BaseAttribute(b) in m && m[BaseAttribute(b)]
  }

  function EnabledTrickSides(m: EnabledState): set<Side> {
    set s: Side | SideAttribute(s) in m && m[SideAttribute(s)]
  }

  function EnabledTrickSpins(m: EnabledState): set<Spin> {
    set s: Spin | SpinAttribute(s) in m && m[SpinAttribute(s)]
  }

  /** The enabled attributes of one category. */
  function EnabledTrickAttributes(m: EnabledState, withType: TrickAttributeType): set<TrickAttribute> {
    set a | a in m && a.Category() == withType && m[a]
  }

  function EnabledSoulPlateTrickSpins(m: EnabledState): set<Spin> {
    set s | s in EnabledTrickSpins(m) && s.IsSoulPlateTrick()
  }

  function EnabledSoulPlateSides(m: EnabledState): set<Side> {
    set s | s in EnabledTrickSides(m) && s.IsSoulPlateTrick()
  }

  function EnabledSoulPlateBases(m: EnabledState): set<TrickBase> {
    set b | b in EnabledTrickBases(m) && b.IsSoulPlateTrick()
  }

  function EnabledHBlockTrickSpins(m: EnabledState): set<Spin> {
    set s | s in EnabledTrickSpins(m) && !s.IsSoulPlateTrick()
  }

  function EnabledHBlockSides(m: EnabledState): set<Side> {
    set s | s in EnabledTrickSides(m) && !s.IsSoulPlateTrick()
  }

  function EnabledHBlockBases(m: EnabledState): set<TrickBase> {
    set b | b in EnabledTrickBases(m) && !b.IsSoulPlateTrick()
  }

  /** The enabled spins of trick type `t`'s family: the soul-plate filter for
      soul plate, the H-block filter for H-block. */
  function EnabledTrickSpinsWithTrickType(m: EnabledState, t: TrickType): (r: set<Spin>)
    ensures forall s :: s in r <==> SpinAttribute(s) in m && m[SpinAttribute(s)] && (s.IsSoulPlateTrick() <==> t == SoulPlate)
  {
    if t == SoulPlate then EnabledSoulPlateTrickSpins(m) else EnabledHBlockTrickSpins(m)
  }

  function EnabledTrickSidesWithTrickType(m: EnabledState, t: TrickType): (r: set<Side>)
    ensures forall s :: s in r <==> SideAttribute(s) in m && m[SideAttribute(s)] && (s.IsSoulPlateTrick() <==> t == SoulPlate)
  {
    if t == SoulPlate then EnabledSoulPlateSides(m) else EnabledHBlockSides(m)
  }

  function EnabledTrickBasesWithTrickType(m: EnabledState, t: TrickType): (r: set<TrickBase>)
    ensures forall b :: b in r <==> BaseAttribute(b) in m && m[BaseAttribute(b)] && (b.IsSoulPlateTrick() <==> t == SoulPlate)
  {
    if t == SoulPlate then EnabledSoulPlateBases(m) else EnabledHBlockBases(m)
  }

  /** The enabled attributes sharing `a`'s category and family, `a` included when enabled. */
  function EnabledAttributesWithMatchingType(m: EnabledState, a: TrickAttribute): set<TrickAttribute> {
    set x | x in EnabledTrickAttributes(m, a.Category()) && x.IsSoulPlateAttribute() == a.IsSoulPlateAttribute()
  }

  /** A trick type may always be toggled; a base, side or spin may be disabled
      only while more than one attribute of its category and family is enabled. */
  function CanDisableTrickAttribute(m: EnabledState, a: TrickAttribute): bool {
    if a.Category() == TrickTypeCategory then true
    else |EnabledAttributesWithMatchingType(m, a)| > 1
  }

  /** `x` is an enabled attribute of `a`'s category and family. */
  predicate EnabledPeer(m: EnabledState, a: TrickAttribute, x: TrickAttribute) {
    x in m && m[x] && x.Category() == a.Category() && x.IsSoulPlateAttribute() == a.IsSoulPlateAttribute()
  }

  // ---------------------------------------------------------------------
  // Write side, as functions of the old state
  // ---------------------------------------------------------------------

  /** Every entry of `t`'s family (its type flag included) set to `b`. */
  function WithFamily(m: EnabledState, t: TrickType, b: bool): EnabledState {
    map k | k in m :: if k.InFamily(t) then b else m[k]
  }

  /** The state after `updateEnabledState(a, b)`. */
  function Updated(m: EnabledState, a: TrickAttribute, b: bool): EnabledState {
    match a
    case TypeAttribute(t) =>
      var cascaded := WithFamily(m, t, b);
      if !IsTrickTypeEnabled(cascaded, t.Other()) && !b then WithFamily(cascaded, t.Other(), true) else cascaded
    case _ =>
      if !CanDisableTrickAttribute(m, a) && !b then m else m[a := b]
  }

  // ---------------------------------------------------------------------
  // The store invariant
  // ---------------------------------------------------------------------

  /** Trick type `t` has an enabled base, side and spin. */
  predicate HasEnabledFamily(m: EnabledState, t: TrickType) {
    EnabledTrickBasesWithTrickType(m, t) != {}
    && EnabledTrickSidesWithTrickType(m, t) != {}
    && EnabledTrickSpinsWithTrickType(m, t) != {}
  }

  /** Every catalog attribute has an entry, some trick type is enabled, and
      every enabled trick type has an enabled base, side and spin. */
  ghost predicate Invariant(m: EnabledState) {
    (forall a: TrickAttribute :: a in m)
    && EnabledTrickTypes(m) != {}
    && forall t :: t in EnabledTrickTypes(m) ==> HasEnabledFamily(m, t)
  }

  /** An enabled attribute of category `c` in `t`'s family. */
  predicate HasEnabledMember(m: EnabledState, c: TrickAttributeType, t: TrickType) {
    exists x :: x in m && m[x] && x.Category() == c && x.InFamily(t)
  }

  // ---------------------------------------------------------------------
  // Lemmas about the read side
  // ---------------------------------------------------------------------

  /** With every attribute present, the enabled trick types are exactly those `IsTrickTypeEnabled` reports. */
  lemma EnabledTrickTypesAgree(m: EnabledState, t: TrickType)
    requires forall a: TrickAttribute :: a in m
    ensures t in EnabledTrickTypes(m) <==> IsTrickTypeEnabled(m, t)
  {
    assert TypeAttribute(t) in m;
  }

  /** The soul-plate and H-block filters split each enabled set in two. */
  lemma FamilyFiltersPartition(m: EnabledState)
    ensures EnabledSoulPlateBases(m) + EnabledHBlockBases(m) == EnabledTrickBases(m)
    ensures EnabledSoulPlateBases(m) !! EnabledHBlockBases(m)
    ensures EnabledSoulPlateSides(m) + EnabledHBlockSides(m) == EnabledTrickSides(m)
    ensures EnabledSoulPlateSides(m) !! EnabledHBlockSides(m)
    ensures EnabledSoulPlateTrickSpins(m) + EnabledHBlockTrickSpins(m) == EnabledTrickSpins(m)
    ensures EnabledSoulPlateTrickSpins(m) !! EnabledHBlockTrickSpins(m)
  {
  }

  /** A set has more than one element iff it holds two different ones. */
  lemma MoreThanOne(s: set<TrickAttribute>)
    ensures |s| > 1 <==> exists x, y :: x in s && y in s && x != y
  {
    if |s| > 1 {
      var x :| x in s;
      var rest := s - {x};
      assert |rest| == |s| - 1;
      var y :| y in rest;
      assert x in s && y in s && x != y;
    }
    if exists x, y :: x in s && y in s && x != y {
      var x, y :| x in s && y in s && x != y;
      var rest := s - {x};
      assert y in rest;
      assert |rest| == |s| - 1;
    }
  }

  /** `CanDisableTrickAttribute` holds for every trick type, and for any other
      attribute exactly when two different attributes of its category and
      family are enabled. */
  lemma CanDisableIff(m: EnabledState, a: TrickAttribute)
    ensures CanDisableTrickAttribute(m, a)
        <==> a.TypeAttribute? || exists x, y :: EnabledPeer(m, a, x) && EnabledPeer(m, a, y) && x != y
  {
    var s := EnabledAttributesWithMatchingType(m, a);
    MoreThanOne(s);
    assert forall x :: x in s <==> EnabledPeer(m, a, x);
  }

  /** Disabling is allowed only while some other member of the group stays enabled. */
  lemma CanDisableLeavesPeer(m: EnabledState, a: TrickAttribute)
    requires !a.TypeAttribute? && CanDisableTrickAttribute(m, a)
    ensures exists x :: EnabledPeer(m, a, x) && x != a
  {
    CanDisableIff(m, a);
    var x, y :| EnabledPeer(m, a, x) && EnabledPeer(m, a, y) && x != y;
    if x == a {
      assert EnabledPeer(m, a, y) && y != a;
    } else {
      assert EnabledPeer(m, a, x) && x != a;
    }
  }

  /** The family sets are non-empty exactly when an enabled attribute of the
      category and family exists. */
  lemma FamilyMembers(m: EnabledState, t: TrickType)
    ensures HasEnabledFamily(m, t) <==>
              (HasEnabledMember(m, TrickBaseCategory, t)
               && HasEnabledMember(m, SideCategory, t)
               && HasEnabledMember(m, SpinCategory, t))
  {
    if HasEnabledFamily(m, t) {
      var b :| b in EnabledTrickBasesWithTrickType(m, t);
      assert BaseAttribute(b).Category() == TrickBaseCategory && BaseAttribute(b).InFamily(t);
      var s :| s in EnabledTrickSidesWithTrickType(m, t);
      assert SideAttribute(s).Category() == SideCategory && SideAttribute(s).InFamily(t);
      var p :| p in EnabledTrickSpinsWithTrickType(m, t);
      assert SpinAttribute(p).Category() == SpinCategory && SpinAttribute(p).InFamily(t);
    }
    if HasEnabledMember(m, TrickBaseCategory, t) && HasEnabledMember(m, SideCategory, t)
       && HasEnabledMember(m, SpinCategory, t) {
      var xb :| xb in m && m[xb] && xb.Category() == TrickBaseCategory && xb.InFamily(t);
      assert xb.trickBase in EnabledTrickBasesWithTrickType(m, t);
      var xs :| xs in m && m[xs] && xs.Category() == SideCategory && xs.InFamily(t);
      assert xs.side in EnabledTrickSidesWithTrickType(m, t);
      var xp :| xp in m && m[xp] && xp.Category() == SpinCategory && xp.InFamily(t);
      assert xp.spin in EnabledTrickSpinsWithTrickType(m, t);
    }
  }

  /** A family all of whose entries are present and true has an enabled base, side and spin. */
  lemma FullFamily(m: EnabledState, t: TrickType)
    requires forall a: TrickAttribute :: a in m
    requires forall a: TrickAttribute :: a.InFamily(t) ==> m[a]
    ensures HasEnabledFamily(m, t)
  {
    assert BaseAttribute(FamilyBase(t)).InFamily(t);
    assert FamilyBase(t) in EnabledTrickBasesWithTrickType(m, t);
    assert SideAttribute(FamilySide(t)).InFamily(t);
    assert FamilySide(t) in EnabledTrickSidesWithTrickType(m, t);
    assert SpinAttribute(FamilySpin(t)).InFamily(t);
    assert FamilySpin(t) in EnabledTrickSpinsWithTrickType(m, t);
  }

  /** A family whose entries did not change keeps its enabled base, side and spin. */
  lemma FamilyUnchanged(m: EnabledState, m': EnabledState, t: TrickType)
    requires m'.Keys == m.Keys
    requires forall a :: a in m && a.InFamily(t) ==> m'[a] == m[a]
    requires HasEnabledFamily(m, t)
    ensures HasEnabledFamily(m', t)
  {
    var b :| b in EnabledTrickBasesWithTrickType(m, t);
    assert BaseAttribute(b).InFamily(t);
    assert b in EnabledTrickBasesWithTrickType(m', t);
    var s :| s in EnabledTrickSidesWithTrickType(m, t);
    assert SideAttribute(s).InFamily(t);
    assert s in EnabledTrickSidesWithTrickType(m', t);
    var p :| p in EnabledTrickSpinsWithTrickType(m, t);
    assert SpinAttribute(p).InFamily(t);
    assert p in EnabledTrickSpinsWithTrickType(m', t);
  }

  // ---------------------------------------------------------------------
  // Lemmas about the write side
  // ---------------------------------------------------------------------

  /** Toggling trick type `t` to `b` sets every entry of `t`'s family to `b`;
      the other family keeps its entries, except that disabling `t` while the
      other type is disabled enables the whole other family. No key is added
      or removed. */
  lemma TypeUpdateCascade(m: EnabledState, t: TrickType, b: bool)
    ensures Updated(m, TypeAttribute(t), b).Keys == m.Keys
    ensures forall k :: k in m ==>
              Updated(m, TypeAttribute(t), b)[k]
              == (if k.InFamily(t) then b
                  else if !b && !IsTrickTypeEnabled(m, t.Other()) then true
                  else m[k])
  {
    var cascaded := WithFamily(m, t, b);
    assert !TypeAttribute(t.Other()).InFamily(t);
    assert IsTrickTypeEnabled(cascaded, t.Other()) == IsTrickTypeEnabled(m, t.Other());
    forall k | k in m
      ensures k.InFamily(t.Other()) <==> !k.InFamily(t)
    {
    }
  }

  /** A base, side or spin toggle changes at most that attribute's entry:
      to `b` when enabling or when disabling is allowed, and not at all otherwise. */
  lemma AttributeUpdateLocal(m: EnabledState, a: TrickAttribute, b: bool)
    requires !a.TypeAttribute?
    ensures forall k :: k in m && k != a ==> k in Updated(m, a, b) && Updated(m, a, b)[k] == m[k]
    ensures a in Updated(m, a, b) <==> a in m || b || CanDisableTrickAttribute(m, a)
    ensures (b || CanDisableTrickAttribute(m, a)) ==> Updated(m, a, b)[a] == b
    ensures !b && !CanDisableTrickAttribute(m, a) ==> Updated(m, a, b) == m
  {
  }

  /** The last enabled base, side or spin of its family cannot be disabled:
      the request leaves the state unchanged. */
  lemma LastOneStanding(m: EnabledState, a: TrickAttribute)
    requires !a.TypeAttribute? && a in m && m[a]
    requires forall x :: EnabledPeer(m, a, x) ==> x == a
    ensures !CanDisableTrickAttribute(m, a)
    ensures Updated(m, a, false) == m
  {
    CanDisableIff(m, a);
  }

  /** Whatever the state, a trick-type toggle leaves some trick type enabled,
      and any other toggle keeps a trick type enabled if one was. */
  lemma NeverBothTypesDisabled(m: EnabledState, a: TrickAttribute, b: bool)
    requires a.TypeAttribute? || IsTrickTypeEnabled(m, SoulPlate) || IsTrickTypeEnabled(m, HBlock)
    ensures IsTrickTypeEnabled(Updated(m, a, b), SoulPlate) || IsTrickTypeEnabled(Updated(m, a, b), HBlock)
  {
    var m' := Updated(m, a, b);
    match a
    case TypeAttribute(t) =>
      TypeUpdateCascade(m, t, b);
      assert TypeAttribute(t).InFamily(t) && TypeAttribute(t.Other()).InFamily(t.Other());
      assert t == SoulPlate || t == HBlock;
      if b {
        assert IsTrickTypeEnabled(m', t);
      } else if IsTrickTypeEnabled(m, t.Other()) {
        assert !TypeAttribute(t.Other()).InFamily(t);
        assert IsTrickTypeEnabled(m', t.Other());
      } else {
        assert IsTrickTypeEnabled(m', t.Other());
      }
    case _ =>
      AttributeUpdateLocal(m, a, b);
      assert TypeAttribute(SoulPlate) != a && TypeAttribute(HBlock) != a;
  }

  /** From the all-enabled state, disabling trick type `t` leaves only the
      other type enabled; disabling the other type next re-enables `t`. */
  lemma DisableBothTypesInTurn(m: EnabledState, t: TrickType)
    requires forall a: TrickAttribute :: a in m && m[a]
    ensures !IsTrickTypeEnabled(Updated(m, TypeAttribute(t), false), t)
    ensures EnabledTrickTypes(Updated(m, TypeAttribute(t), false)) == {t.Other()}
    ensures IsTrickTypeEnabled(Updated(Updated(m, TypeAttribute(t), false), TypeAttribute(t.Other()), false), t)
    ensures !IsTrickTypeEnabled(Updated(Updated(m, TypeAttribute(t), false), TypeAttribute(t.Other()), false), t.Other())
  {
    var o := t.Other();
    var m1 := Updated(m, TypeAttribute(t), false);
    TypeUpdateCascade(m, t, false);
    assert TypeAttribute(t).InFamily(t) && !TypeAttribute(o).InFamily(t);
    assert TypeAttribute(o) in m && m[TypeAttribute(o)];
    assert m1[TypeAttribute(t)] == false && m1[TypeAttribute(o)];
    forall u ensures u in EnabledTrickTypes(m1) <==> u == o {
      assert u == t || u == o;
    }
    var m2 := Updated(m1, TypeAttribute(o), false);
    TypeUpdateCascade(m1, o, false);
    assert TypeAttribute(o).InFamily(o) && !TypeAttribute(t).InFamily(o);
    assert o.Other() == t;
    assert m2[TypeAttribute(o)] == false && m2[TypeAttribute(t)];
  }

  /** With every entry present and true, the store invariant holds. */
  lemma AllEnabledInvariant(m: EnabledState)
    requires forall a: TrickAttribute :: a in m && m[a]
    ensures Invariant(m)
  {
    assert SoulPlate in EnabledTrickTypes(m);
    forall t | t in EnabledTrickTypes(m) ensures HasEnabledFamily(m, t) {
      FullFamily(m, t);
    }
  }

  /** Every update keeps the store invariant. */
  lemma UpdatePreservesInvariant(m: EnabledState, a: TrickAttribute, b: bool)
    requires Invariant(m)
    ensures Invariant(Updated(m, a, b))
  {
    match a
    case TypeAttribute(t) => TypeUpdatePreservesInvariant(m, t, b);
    case _ => AttributeUpdatePreservesInvariant(m, a, b);
  }

  lemma TypeUpdatePreservesInvariant(m: EnabledState, t: TrickType, b: bool)
    requires Invariant(m)
    ensures Invariant(Updated(m, TypeAttribute(t), b))
  {
    var m' := Updated(m, TypeAttribute(t), b);
    var o := t.Other();
    TypeUpdateCascade(m, t, b);
    assert forall a: TrickAttribute :: a in m';
    assert TypeAttribute(t).InFamily(t) && !TypeAttribute(o).InFamily(t);
    forall k: TrickAttribute ensures k.InFamily(o) <==> !k.InFamily(t) { }
    if b {
      FullFamily(m', t);
      assert t in EnabledTrickTypes(m');
      forall u | u in EnabledTrickTypes(m') ensures HasEnabledFamily(m', u) {
        if u == o {
          assert u in EnabledTrickTypes(m);
          FamilyUnchanged(m, m', o);
        }
      }
    } else if IsTrickTypeEnabled(m, o) {
      assert o in EnabledTrickTypes(m) && o in EnabledTrickTypes(m');
      FamilyUnchanged(m, m', o);
      forall u | u in EnabledTrickTypes(m') ensures HasEnabledFamily(m', u) {
        assert u == o;
      }
    } else {
      FullFamily(m', o);
      assert o in EnabledTrickTypes(m');
      forall u | u in EnabledTrickTypes(m') ensures HasEnabledFamily(m', u) {
        assert u == o;
      }
    }
  }

  lemma AttributeUpdatePreservesInvariant(m: EnabledState, a: TrickAttribute, b: bool)
    requires Invariant(m) && !a.TypeAttribute?
    ensures Invariant(Updated(m, a, b))
  {
    var m' := Updated(m, a, b);
    AttributeUpdateLocal(m, a, b);
    if m' != m {
      assert b || CanDisableTrickAttribute(m, a);
      assert m'.Keys == m.Keys;
      assert forall t :: TypeAttribute(t) != a;
      assert EnabledTrickTypes(m') == EnabledTrickTypes(m);
      forall t | t in EnabledTrickTypes(m') ensures HasEnabledFamily(m', t) {
        FamilyMembers(m, t);
        forall c | c in {TrickBaseCategory, SideCategory, SpinCategory}
          ensures HasEnabledMember(m', c, t)
        {
          var y :| y in m && m[y] && y.Category() == c && y.InFamily(t);
          if y != a {
            assert y in m' && m'[y];
          } else if b {
            assert m'[a];
          } else {
            CanDisableLeavesPeer(m, a);
            var x :| EnabledPeer(m, a, x) && x != a;
            assert x in m' && m'[x] && x.Category() == c && x.InFamily(t);
          }
        }
        FamilyMembers(m', t);
      }
    }
  }

  // ---------------------------------------------------------------------
  // The store object
  // ---------------------------------------------------------------------

  /** A map holding every attribute of `attrs`, each enabled. */
  method AllEnabled(attrs: seq<TrickAttribute>) returns (m: EnabledState)
    ensures forall a :: a in m <==> a in attrs
    ensures forall a :: a in m ==> m[a]
  {
    m := map[];
    var i := 0;
    while i < |attrs|
      invariant 0 <= i <= |attrs|
      invariant forall a :: a in m <==> a in attrs[..i]
      invariant forall a :: a in m ==> m[a]
    {
      assert attrs[..i + 1] == attrs[..i] + [attrs[i]];
      m := m[attrs[i] := true];
      i := i + 1;
    }
    assert attrs[..i] == attrs;
  }

  /** `into` with every entry of `from` copied over it. */
  method MergeInto(into: EnabledState, from: EnabledState) returns (r: EnabledState)
    ensures r == into + from
  {
    r := into;
    var pending := from.Keys;
    while pending != {}
      invariant pending <= from.Keys
      invariant forall k :: k in r <==> k in into || (k in from && k !in pending)
      invariant forall k :: k in r ==> r[k] == if k in from && k !in pending then from[k] else into[k]
      decreases pending
    {
      var k :| k in pending;
      r := r[k := from[k]];
      pending := pending - {k};
    }
  }

  /** A map holding every attribute of category `c`, each enabled. */
  method AllEnabledOfCategory(c: TrickAttributeType) returns (m: EnabledState)
    ensures forall a :: a in m <==> a.Category() == c
    ensures forall a :: a in m ==> m[a]
  {
    m := AllEnabled(CategoryAttributes(c));
    forall a ensures a in CategoryAttributes(c) <==> a.Category() == c {
      CategoryListMembership(a, c);
    }
  }

  /** The union of one all-enabled map per category covers every attribute, enabled. */
  lemma CatalogEnabled(types: EnabledState, bases: EnabledState, sides: EnabledState, spins: EnabledState)
    requires forall a :: a in types <==> a.Category() == TrickTypeCategory
    requires forall a :: a in bases <==> a.Category() == TrickBaseCategory
    requires forall a :: a in sides <==> a.Category() == SideCategory
    requires forall a :: a in spins <==> a.Category() == SpinCategory
    requires forall a :: (a in types ==> types[a]) && (a in bases ==> bases[a])
    requires forall a :: (a in sides ==> sides[a]) && (a in spins ==> spins[a])
    ensures forall a: TrickAttribute :: a in map[] + types + bases + sides + spins && (map[] + types + bases + sides + spins)[a]
  {
    forall a: TrickAttribute ensures a in map[] + types + bases + sides + spins && (map[] + types + bases + sides + spins)[a] {
      match a.Category()
      case TrickTypeCategory => assert a in types;
      case TrickBaseCategory => assert a in bases;
      case SideCategory => assert a in sides;
      case SpinCategory => assert a in spins;
    }
  }

  class TrickContext {
    /** The enabled flag of every catalog attribute. */
    var enabledState: EnabledState

    ghost predicate Valid()
      reads this
    {
      Invariant(enabledState)
    }

    /** Every catalog attribute, enabled. */
    constructor ()
      ensures forall a: TrickAttribute :: a in enabledState && enabledState[a]
      ensures Valid()
    {
      var types := AllEnabledOfCategory(TrickTypeCategory);
      var bases := AllEnabledOfCategory(TrickBaseCategory);
      var sides := AllEnabledOfCategory(SideCategory);
      var spins := AllEnabledOfCategory(SpinCategory);
      var merged := map[];
      merged := MergeInto(merged, types);
      merged := MergeInto(merged, bases);
      merged := MergeInto(merged, sides);
      merged := MergeInto(merged, spins);
      CatalogEnabled(types, bases, sides, spins);
      AllEnabledInvariant(merged);
      enabledState := merged;
    }

    /** Sets every entry of `trickType`'s family to `isEnabled`, visiting the
        entries of a snapshot of the map one by one. */
    method UpdateEnabledStateForAllTrickAttributesForTrickType(trickType: TrickType, isEnabled: bool)
      modifies this
      ensures enabledState == WithFamily(old(enabledState), trickType, isEnabled)
    {
      var isSoulPlateTrickType := trickType == SoulPlate;
      var snapshot := enabledState;
      var pending := snapshot.Keys;
      while pending != {}
        invariant pending <= snapshot.Keys
        invariant enabledState.Keys == snapshot.Keys
        invariant forall k :: k in snapshot ==>
                    enabledState[k] == (if k in pending then snapshot[k] else WithFamily(snapshot, trickType, isEnabled)[k])
        decreases pending
      {
        var k :| k in pending;
        var isAttributeEnabled := snapshot[k];
        match k {
          case TypeAttribute(kind) =>
            match kind {
              case SoulPlate =>
                enabledState := enabledState[TypeAttribute(SoulPlate) :=
                  if isSoulPlateTrickType then isEnabled else isAttributeEnabled];
              case HBlock =>
                enabledState := enabledState[TypeAttribute(HBlock) :=
                  if isSoulPlateTrickType then isAttributeEnabled else isEnabled];
            }
          case _ =>
            var isSoulPlateTypesEnabled := if isSoulPlateTrickType then isEnabled else isAttributeEnabled;
            var isHBlockTypesEnabled := if !isSoulPlateTrickType then isEnabled else isAttributeEnabled;
            enabledState := enabledState[k :=
              if k.IsSoulPlateAttribute() then isSoulPlateTypesEnabled else isHBlockTypesEnabled];
        }
        pending := pending - {k};
      }
    }

    /** The single mutator: toggles attribute `a` to `isEnabled` under the store's rules. */
    method UpdateEnabledState(a: TrickAttribute, isEnabled: bool)
      modifies this
      ensures enabledState == Updated(old(enabledState), a, isEnabled)
      ensures old(Valid()) ==> Valid()
    {
      match a {
        case TypeAttribute(t) =>
          UpdateEnabledStateForAllTrickAttributesForTrickType(t, isEnabled);
          var otherTrickType := if t == SoulPlate then HBlock else SoulPlate;
          if !IsTrickTypeEnabled(enabledState, otherTrickType) && !isEnabled {
            UpdateEnabledStateForAllTrickAttributesForTrickType(otherTrickType, true);
          }
        case _ =>
          if !(!CanDisableTrickAttribute(enabledState, a) && !isEnabled) {
            enabledState := enabledState[a := isEnabled];
          }
      }
      if old(Valid()) {
        UpdatePreservesInvariant(old(enabledState), a, isEnabled);
      }
    }
  }
}
