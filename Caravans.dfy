/** RimWorld.Planet/CaravanUtility.cs: who owns a caravan, who is a member of one, whether
    the player has any caravan, where a caravan should go, and whom a caravan captures.
    Factions are identities, `None` being null; world queries are parameters. */
module Caravans {
  import opened Common

  datatype Caravan = Caravan(id: nat, isPlayerControlled: bool)

  /** A pawn's ParentHolder: a caravan, some other holder, or none. */
  datatype Holder = CaravanHolder(caravan: Caravan) | OtherHolder(id: nat) | NoHolder

  /** The facts about a pawn these helpers read. `nonHumanlikeOrWildMan` is
      Pawn.NonHumanlikeOrWildMan(), which is not part of this model. */
  datatype CaravanPawn = CaravanPawn(
    humanlike: bool,
    nonHumanlikeOrWildMan: bool,
    dead: bool,
    isPrisoner: bool,
    faction: Option<nat>,
    hostFaction: Option<nat>,
    parentHolder: Holder)

  const NullFactionWarning := "Called IsOwner with null faction."

  /** IsOwner's condition once the faction is known. */
  predicate OwnsCaravanOf(pawn: CaravanPawn, faction: nat)
  {
    !pawn.nonHumanlikeOrWildMan && pawn.faction == Some(faction) && pawn.hostFaction.None?
  }

  /** IsOwner: false with a warning for a null faction; otherwise a humanlike, non-wild
      pawn of that very faction that no other faction hosts. */
  method IsOwner(pawn: CaravanPawn, caravanFaction: Option<nat>, logger: Logger) returns (r: bool)
    modifies logger
    ensures caravanFaction.None? ==> !r && logger.log == old(logger.log).Warn(NullFactionWarning)
    ensures caravanFaction.Some? ==> (r <==> OwnsCaravanOf(pawn, caravanFaction.value)) && logger.log == old(logger.log)
  {
    if caravanFaction.None? {
      logger.log := logger.log.Warn(NullFactionWarning);
      return false;
    }
    r := !pawn.nonHumanlikeOrWildMan && pawn.faction == caravanFaction && pawn.hostFaction.None?;
  }

  /** GetCaravan: the parent holder when it is a caravan. */
  function GetCaravan(pawn: CaravanPawn): (r: Option<Caravan>)
    ensures r.Some? <==> pawn.parentHolder.CaravanHolder?
    ensures r.Some? ==> r.value == pawn.parentHolder.caravan
  {
    if pawn.parentHolder.CaravanHolder? then Some(pawn.parentHolder.caravan) else None
  }

  predicate IsCaravanMember(pawn: CaravanPawn)
    ensures IsCaravanMember(pawn) <==> pawn.parentHolder.CaravanHolder?
  {
    GetCaravan(pawn).Some?
  }

  predicate IsPlayerControlledCaravanMember(pawn: CaravanPawn)
    ensures IsPlayerControlledCaravanMember(pawn) <==> pawn.parentHolder.CaravanHolder? && pawn.parentHolder.caravan.isPlayerControlled
  {
    var c := GetCaravan(pawn);
    c.Some? && c.value.isPlayerControlled
  }

  /** A player-controlled member is a member; a member is player-controlled exactly when its
      caravan is; a pawn held by anything but a caravan is no member at all. */
  lemma MembershipFacts(pawn: CaravanPawn)
    ensures IsPlayerControlledCaravanMember(pawn) ==> IsCaravanMember(pawn)
    ensures IsCaravanMember(pawn) ==>
      (IsPlayerControlledCaravanMember(pawn) <==> pawn.parentHolder.caravan.isPlayerControlled)
    ensures !pawn.parentHolder.CaravanHolder? ==> !IsCaravanMember(pawn) && !IsPlayerControlledCaravanMember(pawn)
  {
  }

  /** The tiles a caravan may head for: passable and reachable. */
  predicate GoodDest(t: int, impassable: int -> bool, canReach: int -> bool)
  {
    !impassable(t) && canReach(t)
  }

  /** BestGotoDestNear: the tile itself when passable and reachable; otherwise the tile
      GenWorldClosest.TryFindClosestTile (not part of this model; `closestTile`) finds
      within 50 tiles, or -1 when it finds none. The search only answers tiles meeting its
      predicate, so an answer that does not is read as none. */
  function BestGotoDestNear(tile: int, impassable: int -> bool, canReach: int -> bool, closestTile: int -> Option<int>): (r: int)
    ensures GoodDest(tile, impassable, canReach) ==> r == tile
    ensures r != -1 ==> GoodDest(r, impassable, canReach)
    ensures !GoodDest(tile, impassable, canReach) && r != -1 ==> Some(r) == closestTile(tile)
  {
    if GoodDest(tile, impassable, canReach) then tile
    else
      var found := closestTile(tile);
      if found.Some? && GoodDest(found.value, impassable, canReach) then found.value else -1
  }

  /** A destination BestGotoDestNear picks is its own best destination, and the tile asked
      for is the answer exactly when it is passable and reachable (for a tile other than -1). */
  lemma BestGotoDestNearStable(tile: int, impassable: int -> bool, canReach: int -> bool, closestTile: int -> Option<int>)
    ensures var r := BestGotoDestNear(tile, impassable, canReach, closestTile);
      r != -1 ==> BestGotoDestNear(r, impassable, canReach, closestTile) == r
    ensures tile != -1 ==>
      (BestGotoDestNear(tile, impassable, canReach, closestTile) == tile <==> GoodDest(tile, impassable, canReach))
  {
  }

  /** PlayerHasAnyCaravan: the index loop over the world's caravans, returning at the first
      player-controlled one. */
  method PlayerHasAnyCaravan(caravans: seq<Caravan>) returns (r: bool)
    ensures r <==> exists i :: 0 <= i < |caravans| && caravans[i].isPlayerControlled
  {
    for i := 0 to |caravans|
      invariant forall j :: 0 <= j < i ==> !caravans[j].isPlayerControlled
    {
      if caravans[i].isPlayerControlled {
        return true;
      }
    }
    return false;
  }

  predicate ShouldAutoCapture(p: CaravanPawn, caravanFaction: Option<nat>)
    ensures ShouldAutoCapture(p, caravanFaction) ==> p.humanlike && !p.dead
    ensures ShouldAutoCapture(p, caravanFaction) ==> p.faction != caravanFaction
    ensures ShouldAutoCapture(p, caravanFaction) && p.isPrisoner ==> p.hostFaction != caravanFaction
  {
    p.humanlike && !p.dead && p.faction != caravanFaction
    && (!p.isPrisoner || p.hostFaction != caravanFaction)
  }

  /** A caravan never captures one of its own owners, nor the dead, nor animals, nor a
      prisoner it already hosts; any other living humanlike of another faction it does,
      a prisoner hosted by another faction included. */
  lemma ShouldAutoCaptureFacts(p: CaravanPawn, f: nat)
    ensures OwnsCaravanOf(p, f) ==> !ShouldAutoCapture(p, Some(f))
    ensures p.faction == Some(f) ==> !ShouldAutoCapture(p, Some(f))
    ensures p.dead || !p.humanlike ==> !ShouldAutoCapture(p, Some(f))
    ensures p.isPrisoner && p.hostFaction == Some(f) ==> !ShouldAutoCapture(p, Some(f))
    ensures p.humanlike && !p.dead && p.faction != Some(f) && !p.isPrisoner ==> ShouldAutoCapture(p, Some(f))
    ensures p.humanlike && !p.dead && p.faction != Some(f) && p.isPrisoner && p.hostFaction != Some(f) ==> ShouldAutoCapture(p, Some(f))
    ensures ShouldAutoCapture(p, Some(f)) <==>
      p.humanlike && !p.dead && p.faction != Some(f) && !(p.isPrisoner && p.hostFaction == Some(f))
  {
  }
}
