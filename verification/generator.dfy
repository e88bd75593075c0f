/** The trick generator: draws a trick type among the enabled ones, then a
    spin, side and base among the enabled ones of that type's family. The
    random draws are nondeterministic choices. */
module Generator {
  import opened Tricks
  import opened Context

  datatype Option<T> = None | Some(value: T)

  /** Some element of `s`, or `None` when `s` is empty. */
  method RandomElement<T>(s: set<T>) returns (r: Option<T>)
    ensures r.None? <==> s == {}
    ensures r.Some? ==> r.value in s
  {
    if s == {} {
      r := None;
    } else {
      var x :| x in s;
      r := Some(x);
    }
  }

  /** Draws a trick from the enabled attributes of `context`. `picked` is the
      trick type drawn first (absent when none is enabled). The result is
      absent when no trick type is enabled or the drawn type's family lacks an
      enabled spin, side or base; its `trickType` is always soul plate, even
      when H-block was drawn. */
  method MakeRandomTrick(context: TrickContext) returns (trick: Option<Trick>, ghost picked: Option<TrickType>)
    ensures picked.None? <==> EnabledTrickTypes(context.enabledState) == {}
    ensures picked.Some? ==> picked.value in EnabledTrickTypes(context.enabledState)
    ensures trick.None? <==> picked.None? || !HasEnabledFamily(context.enabledState, picked.value)
    ensures trick.Some? ==> trick.value.trickType == SoulPlate
    ensures trick.Some? ==> trick.value.spin in EnabledTrickSpinsWithTrickType(context.enabledState, picked.value)
    ensures trick.Some? ==> trick.value.side in EnabledTrickSidesWithTrickType(context.enabledState, picked.value)
    ensures trick.Some? ==> trick.value.trickBase in EnabledTrickBasesWithTrickType(context.enabledState, picked.value)
    ensures trick.Some? ==> (trick.value.trickBase.IsSoulPlateTrick() <==> picked.value == SoulPlate)
    ensures trick.Some? ==> (trick.value.side.IsSoulPlateTrick() <==> picked.value == SoulPlate)
    ensures trick.Some? ==> (trick.value.spin.IsSoulPlateTrick() <==> picked.value == SoulPlate)
    ensures Invariant(context.enabledState) ==> trick.Some?
  {
    var trickType := RandomElement(EnabledTrickTypes(context.enabledState));
    picked := trickType;
    if trickType.None? {
      return None, picked;
    }
    var spin := RandomElement(EnabledTrickSpinsWithTrickType(context.enabledState, trickType.value));
    var side := RandomElement(EnabledTrickSidesWithTrickType(context.enabledState, trickType.value));
    var base := RandomElement(EnabledTrickBasesWithTrickType(context.enabledState, trickType.value));
    if spin.None? || side.None? || base.None? {
      return None, picked;
    }
    trick := Some(Trick(SoulPlate, base.value, side.value, spin.value));
  }
}
