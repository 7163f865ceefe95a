/** RimWorld/CompTargetable.cs: a use-effect component that acts on a chosen or computed
    set of targets. The subclass hooks (whether the player chooses, the targeting
    parameters' CanTarget, GetTargets, the parent's CompTargetEffects) are parameters;
    the effects themselves are recorded, in call order, rather than performed. */
module Targetable {
  import opened Common

  datatype RotStage = Fresh | Rotting | Dessicated

  /** A Thing as the validator inspects it: a pawn with its psychic sensitivity, a corpse
      with its inner pawn's flesh flag and its rot stage, or anything else. */
  datatype Thing =
    | PawnThing(id: nat, psychicSensitivity: real)
    | CorpseThing(id: nat, innerPawnIsFlesh: bool, rotStage: RotStage)
    | OtherThing(id: nat)

  datatype TargetableProps = TargetableProps(psychicSensitiveTargetsOnly: bool, fleshCorpsesOnly: bool,
                                             nonDessicatedCorpsesOnly: bool)

  /** BaseTargetValidator: each flag rules out one kind of thing and nothing else. */
  predicate BaseTargetValidator(props: TargetableProps, t: Thing)
    ensures !props.psychicSensitiveTargetsOnly && !props.fleshCorpsesOnly && !props.nonDessicatedCorpsesOnly ==> BaseTargetValidator(props, t)
    ensures t.PawnThing? && t.psychicSensitivity > 0.0 ==> BaseTargetValidator(props, t)
    ensures t.CorpseThing? && t.innerPawnIsFlesh && t.rotStage != Dessicated ==> BaseTargetValidator(props, t)
  {
    !(props.psychicSensitiveTargetsOnly && t.PawnThing? && t.psychicSensitivity <= 0.0)
    && !(props.fleshCorpsesOnly && t.CorpseThing? && !t.innerPawnIsFlesh)
    && !(props.nonDessicatedCorpsesOnly && t.CorpseThing? && t.rotStage == Dessicated)
  }

  /** A thing is rejected exactly when one of the set flags names it; with no flag set
      everything is accepted, and an ordinary thing always is. */
  lemma BaseTargetValidatorCases(props: TargetableProps, t: Thing)
    ensures !BaseTargetValidator(props, t) <==>
      (props.psychicSensitiveTargetsOnly && t.PawnThing? && t.psychicSensitivity <= 0.0)
      || (props.fleshCorpsesOnly && t.CorpseThing? && !t.innerPawnIsFlesh)
      || (props.nonDessicatedCorpsesOnly && t.CorpseThing? && t.rotStage == Dessicated)
    ensures t.OtherThing? ==> BaseTargetValidator(props, t)
    ensures props == TargetableProps(false, false, false) ==> BaseTargetValidator(props, t)
  {
  }

  /** What DoEffect triggers: the base use effect, then one DoEffectOn per (thing, effect). */
  datatype EffectCall = BaseDoEffect(usedBy: nat) | DoEffectOn(effect: nat, usedBy: nat, target: Thing)

  /** The calls made for targets `things`, every effect on each thing, things outermost. */
  function EffectCalls(usedBy: nat, things: seq<Thing>, effects: seq<nat>): seq<EffectCall>
    decreases |things|
  {
    if |things| == 0 then []
    else OnOneThing(usedBy, things[0], effects) + EffectCalls(usedBy, things[1..], effects)
  }

  function OnOneThing(usedBy: nat, t: Thing, effects: seq<nat>): (r: seq<EffectCall>)
    ensures |r| == |effects|
    decreases |effects|
  {
    if |effects| == 0 then [] else [DoEffectOn(effects[0], usedBy, t)] + OnOneThing(usedBy, t, effects[1..])
  }

  /** On one thing, the k-th call is the k-th effect. */
  lemma {:induction false} OnOneThingCalls(usedBy: nat, t: Thing, effects: seq<nat>)
    ensures forall k :: 0 <= k < |effects| ==> OnOneThing(usedBy, t, effects)[k] == DoEffectOn(effects[k], usedBy, t)
    decreases |effects|
  {
    if |effects| > 0 {
      OnOneThingCalls(usedBy, t, effects[1..]);
      var r := OnOneThing(usedBy, t, effects);
      forall k | 0 <= k < |effects| ensures r[k] == DoEffectOn(effects[k], usedBy, t) {
        if k > 0 {
          assert r[k] == OnOneThing(usedBy, t, effects[1..])[k - 1];
        }
      }
    }
  }

  lemma {:induction false} EffectCallsAppend(usedBy: nat, things: seq<Thing>, t: Thing, effects: seq<nat>)
    ensures EffectCalls(usedBy, things + [t], effects) == EffectCalls(usedBy, things, effects) + OnOneThing(usedBy, t, effects)
    decreases |things|
  {
    if |things| == 0 {
      assert things + [t] == [t];
      assert [t][1..] == [];
    } else {
      assert (things + [t])[0] == things[0];
      assert (things + [t])[1..] == things[1..] + [t];
      EffectCallsAppend(usedBy, things[1..], t, effects);
    }
  }

  /** Every effect reaches every target, and nothing else is called: one call per
      (thing, effect) pair. */
  lemma {:induction false} EffectCallsCover(usedBy: nat, things: seq<Thing>, effects: seq<nat>)
    ensures |EffectCalls(usedBy, things, effects)| == |things| * |effects|
    ensures forall c :: c in EffectCalls(usedBy, things, effects) ==>
      c.DoEffectOn? && c.usedBy == usedBy && c.target in things && c.effect in effects
    ensures forall t, e :: t in things && e in effects ==> DoEffectOn(e, usedBy, t) in EffectCalls(usedBy, things, effects)
    decreases |things|
  {
    if |things| > 0 {
      var rest := EffectCalls(usedBy, things[1..], effects);
      var head := OnOneThing(usedBy, things[0], effects);
      EffectCallsCover(usedBy, things[1..], effects);
      OnOneThingCalls(usedBy, things[0], effects);
      assert EffectCalls(usedBy, things, effects) == head + rest;
      assert |things| * |effects| == |effects| + (|things| - 1) * |effects|;
      forall c | c in head ensures c.DoEffectOn? && c.usedBy == usedBy && c.target == things[0] && c.effect in effects {
        var k :| 0 <= k < |head| && head[k] == c;
      }
      forall t, e | t in things && e in effects
        ensures DoEffectOn(e, usedBy, t) in EffectCalls(usedBy, things, effects)
      {
        if t == things[0] {
          var k :| 0 <= k < |effects| && effects[k] == e;
          assert head[k] == DoEffectOn(e, usedBy, t);
        } else {
          assert t in things[1..];
        }
      }
    }
  }

  class CompTargetable {
    const props: TargetableProps
    /** The subclass's PlayerChoosesTarget. */
    const playerChoosesTarget: bool
    var target: Option<Thing>
    /** The effect calls DoEffect has made so far (the world is not modelled). */
    var calls: seq<EffectCall>

    constructor(props: TargetableProps, playerChoosesTarget: bool)
      ensures this.props == props && this.playerChoosesTarget == playerChoosesTarget
      ensures target.None? && calls == []
    {
      this.props := props;
      this.playerChoosesTarget := playerChoosesTarget;
      target := None;
      calls := [];
    }

    /** With a player choice, targeting begins (its callback is TargetChosen) and the use
        option is taken; otherwise the target is cleared and it is not. */
    method SelectedUseOption() returns (r: bool)
      modifies this
      ensures r == playerChoosesTarget
      ensures target == if playerChoosesTarget then old(target) else None
      ensures calls == old(calls)
    {
      if playerChoosesTarget {
        return true;
      }
      target := None;
      return false;
    }

    /** The targeter's callback: the clicked thing becomes the target (starting the use job
        is left out). */
    method TargetChosen(t: Option<Thing>)
      modifies this
      ensures target == t && calls == old(calls)
    {
      target := t;
    }

    /** DoEffect: does nothing when a player-chosen target is missing or a set target can no
        longer be targeted; otherwise the base effect, every effect on every target, and
        the target is cleared. */
    method DoEffect(usedBy: nat, canTarget: Thing -> bool, getTargets: Option<Thing> -> seq<Thing>, effects: seq<nat>)
      modifies this
      ensures var skip := (playerChoosesTarget && old(target).None?)
                          || (old(target).Some? && !canTarget(old(target).value));
        if skip then target == old(target) && calls == old(calls)
        else (target.None?
              && calls == old(calls) + [BaseDoEffect(usedBy)] + EffectCalls(usedBy, getTargets(old(target)), effects))
    {
      if playerChoosesTarget && target.None? {
        return;
      }
      if target.Some? && !canTarget(target.value) {
        return;
      }
      calls := calls + [BaseDoEffect(usedBy)];
      var start := calls;
      var things := getTargets(target);
      for i := 0 to |things|
        invariant calls == start + EffectCalls(usedBy, things[..i], effects)
        invariant target == old(target)
      {
        ghost var prefix := EffectCalls(usedBy, things[..i], effects);
        ApplyEffectsOn(usedBy, things[i], effects);
        assert things[..i + 1] == things[..i] + [things[i]];
        EffectCallsAppend(usedBy, things[..i], things[i], effects);
        assert calls == start + (prefix + OnOneThing(usedBy, things[i], effects));
      }
      assert things[..|things|] == things;
      target := None;
    }
  
    /** The inner loop: every effect of the parent, in order, on one thing. */
    method ApplyEffectsOn(usedBy: nat, t: Thing, effects: seq<nat>)
      modifies this
      ensures calls == old(calls) + OnOneThing(usedBy, t, effects)
      ensures target == old(target)
    {
      OnOneThingCalls(usedBy, t, effects);
      for k := 0 to |effects|
        invariant calls == old(calls) + OnOneThing(usedBy, t, effects)[..k]
        invariant target == old(target)
      {
        assert OnOneThing(usedBy, t, effects)[..k + 1] == OnOneThing(usedBy, t, effects)[..k] + [DoEffectOn(effects[k], usedBy, t)];
        calls := calls + [DoEffectOn(effects[k], usedBy, t)];
      }
      assert OnOneThing(usedBy, t, effects)[..|effects|] == OnOneThing(usedBy, t, effects);
    }
  }
}
