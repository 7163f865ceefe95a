/** RimWorld/Bill_Medical.cs: a surgery bill on a pawn. It remembers its body part both as a
    reference and as an index into the body's part list (the index is what is saved), it
    completes only while its part is still operable, and at the start of the operation it
    uses up one medicine unit from the ingredients placed for the job. The recipe worker's
    calls are recorded rather than performed. */
module MedicalBills {
  import opened Common

  datatype BodyPartRecord = BodyPartRecord(id: nat)

  /** The bill giver as the bill sees it: its pawn's identity, whether it is dead and of
      flesh, and its body's parts in BodyDef order. */
  datatype GiverPawn = GiverPawn(id: nat, dead: bool, isFlesh: bool, bodyParts: seq<BodyPartRecord>)

  datatype BillGiver = PawnGiver(pawn: GiverPawn) | CorpseGiver(innerPawn: GiverPawn) | OtherGiver(id: nat)

  datatype BillStack = BillStack(billGiver: BillGiver)

  datatype Recipe = Recipe(targetsBodyPart: bool, anesthetize: bool)

  datatype ThingDef = ThingDef(defName: string)

  datatype PlacedThing = PlacedThing(thingId: nat, def: ThingDef, isMedicine: bool)

  /** An entry of the job's placedThings: a thing and how many of it are placed. */
  datatype ThingStackPart = ThingStackPart(thing: PlacedThing, count: int)

  /** The recipe worker's and the records' calls. */
  datatype BillEvent =
    | ApplyOnPawn(pawn: nat, part: Option<BodyPartRecord>, doer: nat)
    | OperationsReceived(pawn: nat)
    | OperationsPerformed(doer: nat)
    | ConsumeIngredient(thing: nat)
    | DeletedFromStack

  const NoBillStackError := "Can only set Bill_Medical.Part after the bill has been added to a pawn's bill stack."
  const NonPawnError := "Medical bill on non-pawn."

  /** The GiverPawn property: the pawn, or a corpse's inner pawn; it throws otherwise. */
  function GiverOf(stack: BillStack): (r: Result<GiverPawn>)
    ensures r.Exception? <==> stack.billGiver.OtherGiver?
    ensures r.Exception? ==> r.message == NonPawnError
  {
    match stack.billGiver
    case PawnGiver(p) => Ok(p)
    case CorpseGiver(p) => Ok(p)
    case OtherGiver(_) => Exception(NonPawnError)
  }

  /** BodyDef.GetPartAtIndex and GetIndexOfPart (BodyDef is not part of this model): a
      lookup in the part list, null and -1 standing for "not there". */
  function PartAtIndex(parts: seq<BodyPartRecord>, index: int): (r: Option<BodyPartRecord>)
    ensures r.Some? <==> 0 <= index < |parts|
    ensures r.Some? ==> r.value == parts[index]
  {
    if 0 <= index < |parts| then Some(parts[index]) else None
  }

  function IndexOfPart(parts: seq<BodyPartRecord>, part: BodyPartRecord): (r: int)
    ensures -1 <= r < |parts|
    ensures r >= 0 ==> parts[r] == part && forall j :: 0 <= j < r ==> parts[j] != part
    ensures r == -1 <==> part !in parts
    decreases |parts|
  {
    if |parts| == 0 then -1
    else if parts[0] == part then 0
    else var i := IndexOfPart(parts[1..], part); if i == -1 then -1 else i + 1
  }

  /** Saving the index and resolving it again yields the part, for every part of the body. */
  lemma PartIndexRoundTrip(parts: seq<BodyPartRecord>, part: BodyPartRecord)
    requires part in parts
    ensures PartAtIndex(parts, IndexOfPart(parts, part)) == Some(part)
  {
  }

  /** The first medicine entry of placedThings. */
  function FirstMedicine(placed: seq<ThingStackPart>): (r: int)
    ensures -1 <= r < |placed|
    ensures r >= 0 ==> placed[r].thing.isMedicine && forall j :: 0 <= j < r ==> !placed[j].thing.isMedicine
    ensures r == -1 <==> forall j :: 0 <= j < |placed| ==> !placed[j].thing.isMedicine
    decreases |placed|
  {
    if |placed| == 0 then -1
    else if placed[0].thing.isMedicine then 0
    else var i := FirstMedicine(placed[1..]); if i == -1 then -1 else i + 1
  }

  /** placedThings after one unit of entry i is used: its count goes down by one, and the
      entry is removed when that empties it or the thing is destroyed. */
  function ConsumeOne(placed: seq<ThingStackPart>, i: nat, destroyed: bool): (r: seq<ThingStackPart>)
    requires i < |placed|
  {
    var e := placed[i].(count := placed[i].count - 1);
    if destroyed || e.count <= 0 then placed[..i] + placed[i + 1..]
    else placed[..i] + [e] + placed[i + 1..]
  }

  /** Using one unit touches entry i only: the entries before and after it stay as they
      were, and entry i either loses exactly one from its count or disappears. */
  lemma ConsumeOneTouchesOneEntry(placed: seq<ThingStackPart>, i: nat, destroyed: bool)
    requires i < |placed|
    ensures var r := ConsumeOne(placed, i, destroyed);
      r[..i] == placed[..i]
      && (if destroyed || placed[i].count <= 1
          then r == placed[..i] + placed[i + 1..] && |r| == |placed| - 1
          else |r| == |placed| && r[i].thing == placed[i].thing && r[i].count == placed[i].count - 1
               && r[i + 1..] == placed[i + 1..])
  {
    var r := ConsumeOne(placed, i, destroyed);
    if !(destroyed || placed[i].count <= 1) {
      assert r == placed[..i] + ([placed[i].(count := placed[i].count - 1)] + placed[i + 1..]);
    }
  }

  /** The job whose placedThings the operation draws from. */
  class Job {
    var placedThings: seq<ThingStackPart>

    constructor(placedThings: seq<ThingStackPart>)
      ensures this.placedThings == placedThings
    {
      this.placedThings := placedThings;
    }
  }

  class BillMedical {
    const recipe: Recipe
    var billStack: Option<BillStack>
    var suspended: bool
    var part: Option<BodyPartRecord>
    var partIndex: int
    var consumedInitialMedicineDef: Option<ThingDef>
    var events: seq<BillEvent>

    constructor(recipe: Recipe)
      ensures this.recipe == recipe && billStack.None? && !suspended
      ensures part.None? && partIndex == -1 && consumedInitialMedicineDef.None? && events == []
    {
      this.recipe := recipe;
      billStack := None;
      suspended := false;
      part := None;
      partIndex := -1;
      consumedInitialMedicineDef := None;
      events := [];
    }

    /** The bill is on a stack whose giver is a pawn or a corpse. */
    predicate OnPawn()
      reads this
    {
      billStack.Some? && GiverOf(billStack.value).Ok?
    }

    function Giver(): GiverPawn
      reads this
      requires OnPawn()
    {
      GiverOf(billStack.value).value
    }

    /** The Part getter: resolves the saved index into the cache only when nothing is
        cached and the index is set; a bill on a non-pawn then throws. A null stack is
        dereferenced only on that same path and is reported like the non-pawn case. */
    method Part() returns (r: Result<Option<BodyPartRecord>>)
      modifies this
      ensures old(part).Some? || old(partIndex) < 0 ==> r == Ok(old(part)) && part == old(part)
      ensures old(part).None? && old(partIndex) >= 0 && !old(OnPawn()) ==> r.Exception? && part == old(part)
      ensures old(part).None? && old(partIndex) >= 0 && old(OnPawn()) ==>
        part == PartAtIndex(old(Giver()).bodyParts, old(partIndex)) && r == Ok(part)
      ensures billStack == old(billStack) && suspended == old(suspended) && partIndex == old(partIndex)
      ensures ShouldDoNow() == old(ShouldDoNow())
      ensures consumedInitialMedicineDef == old(consumedInitialMedicineDef) && events == old(events)
    {
      if part.None? && partIndex >= 0 {
        if !OnPawn() {
          return Exception(NonPawnError);
        }
        part := PartAtIndex(Giver().bodyParts, partIndex);
      }
      return Ok(part);
    }

    /** The Part setter: without a bill stack it logs an error and changes nothing;
        otherwise it stores the part's index (-1 for null) and caches the part. Looking a
        non-null part up on a non-pawn throws before anything is stored. */
    method SetPart(value: Option<BodyPartRecord>, logger: Logger) returns (r: Result<()>)
      modifies this, logger
      ensures billStack == old(billStack) && suspended == old(suspended)
      ensures ShouldDoNow() == old(ShouldDoNow())
      ensures consumedInitialMedicineDef == old(consumedInitialMedicineDef) && events == old(events)
      ensures old(billStack).None? ==>
        r.Ok? && logger.log == old(logger.log).Error(NoBillStackError)
        && part == old(part) && partIndex == old(partIndex)
      ensures old(billStack).Some? ==> logger.log == old(logger.log)
      ensures old(billStack).Some? && value.Some? && !old(OnPawn()) ==>
        r.Exception? && part == old(part) && partIndex == old(partIndex)
      ensures old(billStack).Some? && value.None? ==> r.Ok? && part.None? && partIndex == -1
      ensures old(billStack).Some? && value.Some? && old(OnPawn()) ==>
        r.Ok? && part == value && partIndex == IndexOfPart(old(Giver()).bodyParts, value.value)
    {
      if billStack.None? {
        logger.log := logger.log.Error(NoBillStackError);
        return Ok(());
      }
      if value.Some? {
        if !OnPawn() {
          return Exception(NonPawnError);
        }
        partIndex := IndexOfPart(Giver().bodyParts, value.value);
      } else {
        partIndex := -1;
      }
      part := value;
      return Ok(());
    }

    /** CompletableEver: always, unless the recipe targets a body part; then only while the
        cached part is among the parts the worker can still apply on. */
    function CompletableEver(partsToApplyOn: GiverPawn -> seq<BodyPartRecord>): (r: Result<bool>)
      reads this
      ensures !recipe.targetsBodyPart ==> r == Ok(true)
      ensures recipe.targetsBodyPart && OnPawn() ==>
        r.Ok? && (r.value <==> part.Some? && part.value in partsToApplyOn(Giver()))
      ensures recipe.targetsBodyPart && !OnPawn() ==> r.Exception?
    {
      if !recipe.targetsBodyPart then Ok(true)
      else if !OnPawn() then Exception(NonPawnError)
      else Ok(part.Some? && part.value in partsToApplyOn(Giver()))
    }

    function ShouldDoNow(): (r: bool)
      reads this
      ensures r <==> !suspended
    {
      !suspended
    }

    /** Notify_IterationCompleted: when the bill can still complete, the worker applies the
        recipe on the giver's part and, for a flesh giver, both pawns' operation records go
        up; in every case the bill is deleted from its stack. */
    method NotifyIterationCompleted(doer: nat, partsToApplyOn: GiverPawn -> seq<BodyPartRecord>)
      requires OnPawn()
      modifies this
      ensures billStack == old(billStack) && suspended == old(suspended) && partIndex == old(partIndex)
      ensures ShouldDoNow() == old(ShouldDoNow())
      ensures consumedInitialMedicineDef == old(consumedInitialMedicineDef)
      ensures old(part).Some? || old(partIndex) < 0 ==> part == old(part)
      ensures old(part).None? && old(partIndex) >= 0 && old(CompletableEver(partsToApplyOn)) == Ok(true) ==>
        part == PartAtIndex(old(Giver()).bodyParts, old(partIndex))
      ensures old(CompletableEver(partsToApplyOn)) == Ok(false) ==> part == old(part)
      ensures events == old(events) + OperationEvents(old(CompletableEver(partsToApplyOn)) == Ok(true), old(Giver()), part, doer)
                        + [DeletedFromStack]
    {
      var completable := CompletableEver(partsToApplyOn);
      if completable == Ok(true) {
        var giver := Giver();
        var p := Part();
        events := events + [ApplyOnPawn(giver.id, p.value, doer)];
        if giver.isFlesh {
          events := events + [OperationsReceived(giver.id), OperationsPerformed(doer)];
        }
      }
      events := events + [DeletedFromStack];
    }

    /** Notify_DoBillStarted: the consumed medicine is reset, and when the giver is alive,
        the recipe anesthetizes and anesthesia takes, one unit of the first medicine entry is
        used up, its def recorded, and the entry dropped once empty or destroyed. */
    method NotifyDoBillStarted(job: Job, anesthetized: bool, destroyedAfterSplit: PlacedThing -> bool)
      requires OnPawn()
      modifies this, job
      ensures billStack == old(billStack) && suspended == old(suspended)
      ensures ShouldDoNow() == old(ShouldDoNow())
      ensures part == old(part) && partIndex == old(partIndex)
      ensures var i := FirstMedicine(old(job.placedThings));
        if !Giver().dead && recipe.anesthetize && anesthetized && i >= 0 then
          consumedInitialMedicineDef == Some(old(job.placedThings)[i].thing.def)
          && job.placedThings == ConsumeOne(old(job.placedThings), i, destroyedAfterSplit(old(job.placedThings)[i].thing))
          && events == old(events) + [ConsumeIngredient(old(job.placedThings)[i].thing.thingId)]
        else
          consumedInitialMedicineDef.None? && job.placedThings == old(job.placedThings) && events == old(events)
    {
      consumedInitialMedicineDef := None;
      if !Giver().dead && recipe.anesthetize && anesthetized {
        var i := 0;
        while i < |job.placedThings|
          invariant 0 <= i <= |job.placedThings|
          invariant job.placedThings == old(job.placedThings)
          invariant forall j :: 0 <= j < i ==> !job.placedThings[j].thing.isMedicine
          invariant consumedInitialMedicineDef.None? && events == old(events)
          invariant billStack == old(billStack) && part == old(part) && partIndex == old(partIndex)
        {
          if job.placedThings[i].thing.isMedicine {
            var entry := job.placedThings[i];
            events := events + [ConsumeIngredient(entry.thing.thingId)];
            job.placedThings := job.placedThings[i := entry.(count := entry.count - 1)];
            consumedInitialMedicineDef := Some(entry.thing.def);
            if destroyedAfterSplit(entry.thing) || job.placedThings[i].count <= 0 {
              job.placedThings := job.placedThings[..i] + job.placedThings[i + 1..];
            }
            ConsumeOneAt(old(job.placedThings), i, destroyedAfterSplit(entry.thing));
            return;
          }
          i := i + 1;
        }
      }
    }
  }

  /** The events of a completed iteration, before the deletion. */
  function OperationEvents(completable: bool, giver: GiverPawn, part: Option<BodyPartRecord>, doer: nat): (r: seq<BillEvent>)
    ensures !completable ==> r == []
    ensures completable ==> |r| >= 1 && r[0] == ApplyOnPawn(giver.id, part, doer)
    ensures completable && giver.isFlesh ==> r[1..] == [OperationsReceived(giver.id), OperationsPerformed(doer)]
    ensures completable && !giver.isFlesh ==> |r| == 1
  {
    if !completable then []
    else [ApplyOnPawn(giver.id, part, doer)]
         + (if giver.isFlesh then [OperationsReceived(giver.id), OperationsPerformed(doer)] else [])
  }

  /** The in-place steps of the loop body are ConsumeOne. */
  lemma ConsumeOneAt(placed: seq<ThingStackPart>, i: nat, destroyed: bool)
    requires i < |placed|
    ensures var e := placed[i].(count := placed[i].count - 1);
      var s := placed[i := e];
      ConsumeOne(placed, i, destroyed) == if destroyed || s[i].count <= 0 then s[..i] + s[i + 1..] else s
  {
    var e := placed[i].(count := placed[i].count - 1);
    var s := placed[i := e];
    assert s[..i] == placed[..i];
    assert s[i + 1..] == placed[i + 1..];
    assert s == placed[..i] + [e] + placed[i + 1..];
  }
}
