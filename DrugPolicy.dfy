/** RimWorld/Pawn_DrugPolicyTracker.cs: a pawn's assigned drug policy (installed from the
    database default on first read), the records of drugs taken, and the predicates that
    decide whether a scheduled dose is allowed.

    Float rounding is an input: `roundToInt` stands for Mathf.RoundToInt of the daily
    frequency and `timesPerDay` for Mathf.RoundToInt(1 / daysFrequency). `daysOf` maps a
    tick to its day (DrugTakeRecord.LastTakenDays). */
module DrugPolicy {
  import opened Common

  /** The ThingDef facts the tracker asks about. `canCauseOverdose` is
      `GetCompProperties<CompProperties_Drug>() != null && CanCauseOverdose`. */
  datatype DrugDef = DrugDef(defName: string, isIngestible: bool, isDrug: bool, isNonMedicalDrug: bool, canCauseOverdose: bool)

  datatype DrugPolicyEntry = DrugPolicyEntry(allowScheduled: bool, onlyIfMoodBelow: real, onlyIfJoyBelow: real, daysFrequency: real)

  /** A drug policy: its id and its entry for each drug (`policy[drug]`). */
  datatype Policy = Policy(uniqueId: int, entry: DrugDef -> DrugPolicyEntry)

  /** DrugTakeRecord, the per-drug intake record. */
  datatype DrugTakeRecord = DrugTakeRecord(drug: DrugDef, lastTakenTicks: int, timesTakenThisDay: int)

  datatype TimeAssignment = Anything | Work | Joy | Sleep

  /** What the tracker reads of its pawn; `mood` and `joy` are the need levels (None for a
      missing need). */
  datatype DrugPawn = DrugPawn(isCaravanMember: bool, timetable: seq<TimeAssignment>, teetotaler: bool,
                               mood: Option<real>, joy: Option<real>)

  const HoursPerDayInCaravan := 16
  const NoOverdoseTicks := -999999

  /** Hours among the first `n` of the timetable not assigned to sleep. */
  function AwakeHours(times: seq<TimeAssignment>, n: nat): nat
    requires n <= |times|
  {
    if n == 0 then 0 else AwakeHours(times, n - 1) + (if times[n - 1] != Sleep then 1 else 0)
  }

  lemma {:induction false} AwakeHoursBounds(times: seq<TimeAssignment>, n: nat)
    requires n <= |times|
    ensures AwakeHours(times, n) <= n
    ensures AwakeHours(times, n) == n <==> forall i :: 0 <= i < n ==> times[i] != Sleep
    ensures AwakeHours(times, n) == 0 <==> forall i :: 0 <= i < n ==> times[i] == Sleep
  {
    if n > 0 {
      AwakeHoursBounds(times, n - 1);
    }
  }

  /** HoursPerDayNotSleeping: 16 in a caravan, else the awake hours of the day, in 0..24. */
  method HoursPerDayNotSleeping(pawn: DrugPawn) returns (r: int)
    requires !pawn.isCaravanMember ==> |pawn.timetable| >= 24
    ensures pawn.isCaravanMember ==> r == HoursPerDayInCaravan
    ensures !pawn.isCaravanMember ==> r == AwakeHours(pawn.timetable, 24)
    ensures 0 <= r <= 24
  {
    if pawn.isCaravanMember {
      return HoursPerDayInCaravan;
    }
    r := 0;
    for i := 0 to 24
      invariant r == AwakeHours(pawn.timetable, i)
    {
      if pawn.timetable[i] != Sleep {
        r := r + 1;
      }
    }
    AwakeHoursBounds(pawn.timetable, 24);
  }

  /** The index of the first record for `drug` (List.Find). */
  function FindRecord(records: seq<DrugTakeRecord>, drug: DrugDef): (r: Option<nat>)
    ensures r.None? <==> forall i :: 0 <= i < |records| ==> records[i].drug != drug
    ensures r.Some? ==> (r.value < |records| && records[r.value].drug == drug
                         && forall i :: 0 <= i < r.value ==> records[i].drug != drug)
  {
    if |records| == 0 then None
    else if records[0].drug == drug then Some(0)
    else
      var t := FindRecord(records[1..], drug);
      if t.None? then None else Some(t.value + 1)
  }

  /** At most one record per drug: the invariant Notify_DrugIngested keeps. */
  predicate OneRecordPerDrug(records: seq<DrugTakeRecord>)
  {
    forall i, j :: 0 <= i < j < |records| ==> records[i].drug != records[j].drug
  }

  /** Notify_DrugIngested on the records. */
  function Ingested(records: seq<DrugTakeRecord>, drug: DrugDef, now: int): seq<DrugTakeRecord>
  {
    match FindRecord(records, drug)
    case Some(i) => records[i := records[i].(lastTakenTicks := now, timesTakenThisDay := records[i].timesTakenThisDay + 1)]
    case None => records + [DrugTakeRecord(drug, now, 1)]
  }

  /** After an intake the drug has exactly one record (if it had at most one), stamped
      now, with one intake more today than before (a new record starts at zero); every
      other record is unchanged. */
  lemma IngestedRecord(records: seq<DrugTakeRecord>, drug: DrugDef, now: int)
    requires OneRecordPerDrug(records)
    ensures OneRecordPerDrug(Ingested(records, drug, now))
    ensures FindRecord(Ingested(records, drug, now), drug).Some?
    ensures Ingested(records, drug, now)[FindRecord(Ingested(records, drug, now), drug).value].lastTakenTicks == now
    ensures Ingested(records, drug, now)[FindRecord(Ingested(records, drug, now), drug).value].timesTakenThisDay ==
      (match FindRecord(records, drug) case Some(i) => records[i].timesTakenThisDay + 1 case None => 1)
    ensures forall i :: 0 <= i < |records| && records[i].drug != drug ==> Ingested(records, drug, now)[i] == records[i]
    ensures |Ingested(records, drug, now)| == |records| + (if FindRecord(records, drug).None? then 1 else 0)
  {
    var f := FindRecord(records, drug);
    if f.Some? {
      IngestedExisting(records, drug, now, f.value);
    } else {
      IngestedNew(records, drug, now);
    }
  }

  lemma IngestedExisting(records: seq<DrugTakeRecord>, drug: DrugDef, now: int, i: nat)
    requires OneRecordPerDrug(records) && FindRecord(records, drug) == Some(i)
    ensures OneRecordPerDrug(Ingested(records, drug, now))
    ensures FindRecord(Ingested(records, drug, now), drug) == Some(i)
    ensures Ingested(records, drug, now)[i].lastTakenTicks == now
    ensures Ingested(records, drug, now)[i].timesTakenThisDay == records[i].timesTakenThisDay + 1
    ensures forall k :: 0 <= k < |records| && records[k].drug != drug ==> Ingested(records, drug, now)[k] == records[k]
    ensures |Ingested(records, drug, now)| == |records|
  {
    var r := records[i := records[i].(lastTakenTicks := now, timesTakenThisDay := records[i].timesTakenThisDay + 1)];
    assert Ingested(records, drug, now) == r;
    assert forall k :: 0 <= k < |r| ==> r[k].drug == records[k].drug;
  }

  lemma IngestedNew(records: seq<DrugTakeRecord>, drug: DrugDef, now: int)
    requires OneRecordPerDrug(records) && FindRecord(records, drug).None?
    ensures OneRecordPerDrug(Ingested(records, drug, now))
    ensures FindRecord(Ingested(records, drug, now), drug) == Some(|records|)
    ensures Ingested(records, drug, now)[|records|] == DrugTakeRecord(drug, now, 1)
    ensures forall k :: 0 <= k < |records| ==> Ingested(records, drug, now)[k] == records[k]
    ensures |Ingested(records, drug, now)| == |records| + 1
  {
    var r := records + [DrugTakeRecord(drug, now, 1)];
    assert Ingested(records, drug, now) == r;
    assert r[|records|].drug == drug;
    assert forall k :: 0 <= k < |records| ==> r[k] == records[k];
  }

  /** HasEverTaken for a drug: some record exists. */
  predicate EverTaken(records: seq<DrugTakeRecord>, drug: DrugDef)
  {
    exists i :: 0 <= i < |records| && records[i].drug == drug
  }

  /** The policy the getter answers with: the cached one, else the database default. */
  function EffectivePolicy(cur: Option<Policy>, defaultPolicy: Policy): Policy
  {
    if cur.Some? then cur.value else defaultPolicy
  }

  /** AllowedToTakeScheduledEver, under a given policy. */
  predicate ScheduledEver(d: DrugDef, policy: Policy, teetotaler: bool)
  {
    d.isIngestible && d.isDrug
    && policy.entry(d).allowScheduled && (!d.isNonMedicalDrug || !teetotaler)
  }

  /** The mood/joy gate: a threshold below 1 refuses once the need is at or above it. */
  predicate NeedBlocks(threshold: real, level: Option<real>)
  {
    threshold < 1.0 && level.Some? && level.value >= threshold
  }

  /** The spacing rule for a drug already taken. */
  predicate TooSoon(e: DrugPolicyEntry, rec: DrugTakeRecord, daysPassed: int,
                    roundToInt: real -> int, timesPerDay: real -> int, daysOf: int -> int)
  {
    if e.daysFrequency < 1.0 then rec.timesTakenThisDay >= timesPerDay(e.daysFrequency)
    else Abs(daysPassed - daysOf(rec.lastTakenTicks)) < roundToInt(e.daysFrequency)
  }

  function Abs(x: int): nat
  {
    if x < 0 then -x else x
  }

  /** AllowedToTakeScheduledNow, under a given policy. */
  predicate ScheduledNow(d: DrugDef, policy: Policy, pawn: DrugPawn, records: seq<DrugTakeRecord>, daysPassed: int,
                         roundToInt: real -> int, timesPerDay: real -> int, daysOf: int -> int)
  {
    var e := policy.entry(d);
    var found := FindRecord(records, d);
    d.isIngestible && d.isDrug
    && ScheduledEver(d, policy, pawn.teetotaler)
    && !NeedBlocks(e.onlyIfMoodBelow, pawn.mood)
    && !NeedBlocks(e.onlyIfJoyBelow, pawn.joy)
    && (found.None? || !TooSoon(e, records[found.value], daysPassed, roundToInt, timesPerDay, daysOf))
  }

  /** Allowed now implies allowed ever; a drug taken fewer days ago than its rounded
      frequency (for a frequency of at least a day) is refused; a drug never taken is
      limited by the policy and the needs only. */
  lemma ScheduledNowFacts(d: DrugDef, policy: Policy, pawn: DrugPawn, records: seq<DrugTakeRecord>, daysPassed: int,
                          roundToInt: real -> int, timesPerDay: real -> int, daysOf: int -> int)
    ensures ScheduledNow(d, policy, pawn, records, daysPassed, roundToInt, timesPerDay, daysOf) ==> ScheduledEver(d, policy, pawn.teetotaler)
    ensures policy.entry(d).daysFrequency >= 1.0 && FindRecord(records, d).Some?
            && Abs(daysPassed - daysOf(records[FindRecord(records, d).value].lastTakenTicks)) < roundToInt(policy.entry(d).daysFrequency)
            ==> !ScheduledNow(d, policy, pawn, records, daysPassed, roundToInt, timesPerDay, daysOf)
    ensures !EverTaken(records, d) ==>
      (ScheduledNow(d, policy, pawn, records, daysPassed, roundToInt, timesPerDay, daysOf) <==>
         ScheduledEver(d, policy, pawn.teetotaler)
         && !NeedBlocks(policy.entry(d).onlyIfMoodBelow, pawn.mood) && !NeedBlocks(policy.entry(d).onlyIfJoyBelow, pawn.joy))
  {
  }

  /** The largest `lastTakenTicks` over records of overdose-capable drugs, floored at
      NoOverdoseTicks. */
  method LastTicksWhenTakenDrugWhichCanCauseOverdose(records: seq<DrugTakeRecord>) returns (r: int)
    ensures r >= NoOverdoseTicks
    ensures forall i :: 0 <= i < |records| && records[i].drug.canCauseOverdose ==> records[i].lastTakenTicks <= r
    ensures r == NoOverdoseTicks || exists i :: 0 <= i < |records| && records[i].drug.canCauseOverdose && records[i].lastTakenTicks == r
    ensures (forall i :: 0 <= i < |records| ==> !records[i].drug.canCauseOverdose) ==> r == NoOverdoseTicks
  {
    r := NoOverdoseTicks;
    for i := 0 to |records|
      invariant r >= NoOverdoseTicks
      invariant forall k :: 0 <= k < i && records[k].drug.canCauseOverdose ==> records[k].lastTakenTicks <= r
      invariant r == NoOverdoseTicks || exists k :: 0 <= k < i && records[k].drug.canCauseOverdose && records[k].lastTakenTicks == r
      invariant (forall k :: 0 <= k < i ==> !records[k].drug.canCauseOverdose) ==> r == NoOverdoseTicks
    {
      if records[i].drug.canCauseOverdose {
        r := if r >= records[i].lastTakenTicks then r else records[i].lastTakenTicks;
      }
    }
  }

  class DrugPolicyTracker {
    var curPolicy: Option<Policy>
    var drugTakeRecords: seq<DrugTakeRecord>

    constructor()
      ensures curPolicy.None? && drugTakeRecords == []
    {
      curPolicy := None;
      drugTakeRecords := [];
    }

    /** The CurrentPolicy getter: installs the database default on first read and answers
        the same policy from then on. */
    method CurrentPolicy(defaultPolicy: Policy) returns (p: Policy)
      modifies this
      ensures p == EffectivePolicy(old(curPolicy), defaultPolicy)
      ensures curPolicy == Some(p) && drugTakeRecords == old(drugTakeRecords)
    {
      if curPolicy.None? {
        curPolicy := Some(defaultPolicy);
      }
      p := curPolicy.value;
    }

    /** The CurrentPolicy setter; assigning null (`None`) makes the next read fall back to
        the database default again. The source's early return for the policy already held
        leaves the same state as the assignment. */
    method SetCurrentPolicy(p: Option<Policy>)
      modifies this
      ensures curPolicy == p && drugTakeRecords == old(drugTakeRecords)
    {
      curPolicy := p;
    }

    /** HasEverTaken: a warning and false for a non-drug, else whether a record exists. */
    method HasEverTaken(drug: DrugDef, logger: Logger) returns (r: bool)
      modifies logger
      ensures r <==> drug.isDrug && EverTaken(drugTakeRecords, drug)
      ensures logger.log == if drug.isDrug then old(logger.log) else old(logger.log).Warn(drug.defName + " is not a drug.")
    {
      if !drug.isDrug {
        logger.log := logger.log.Warn(drug.defName + " is not a drug.");
        return false;
      }
      r := FindRecord(drugTakeRecords, drug).Some?;
    }

    /** AllowedToTakeScheduledEver: an error and false for a non-ingestible or a non-drug;
        otherwise the policy entry decides (reading the policy may install the default). */
    method AllowedToTakeScheduledEver(d: DrugDef, pawn: DrugPawn, defaultPolicy: Policy, logger: Logger) returns (r: bool)
      modifies this, logger
      ensures r == ScheduledEver(d, EffectivePolicy(old(curPolicy), defaultPolicy), pawn.teetotaler)
      ensures curPolicy == (if d.isIngestible && d.isDrug then Some(EffectivePolicy(old(curPolicy), defaultPolicy)) else old(curPolicy))
      ensures drugTakeRecords == old(drugTakeRecords)
      ensures logger.log ==
        if !d.isIngestible then old(logger.log).Error(d.defName + " is not ingestible.")
        else if !d.isDrug then old(logger.log).Error("AllowedToTakeScheduledEver on non-drug " + d.defName)
        else old(logger.log)
    {
      if !d.isIngestible {
        logger.log := logger.log.Error(d.defName + " is not ingestible.");
        return false;
      }
      if !d.isDrug {
        logger.log := logger.log.Error("AllowedToTakeScheduledEver on non-drug " + d.defName);
        return false;
      }
      var policy := CurrentPolicy(defaultPolicy);
      var e := policy.entry(d);
      r := e.allowScheduled && (!d.isNonMedicalDrug || !pawn.teetotaler);
    }

    /** AllowedToTakeScheduledNow. */
    method AllowedToTakeScheduledNow(d: DrugDef, pawn: DrugPawn, defaultPolicy: Policy, daysPassed: int,
                                     roundToInt: real -> int, timesPerDay: real -> int, daysOf: int -> int, logger: Logger)
      returns (r: bool)
      modifies this, logger
      ensures r == ScheduledNow(d, EffectivePolicy(old(curPolicy), defaultPolicy), pawn, drugTakeRecords, daysPassed, roundToInt, timesPerDay, daysOf)
      ensures curPolicy == (if d.isIngestible && d.isDrug then Some(EffectivePolicy(old(curPolicy), defaultPolicy)) else old(curPolicy))
      ensures drugTakeRecords == old(drugTakeRecords)
      ensures logger.log ==
        if !d.isIngestible then old(logger.log).Error(d.defName + " is not ingestible.")
        else if !d.isDrug then old(logger.log).Error("AllowedToTakeScheduledEver on non-drug " + d.defName)
        else old(logger.log)
    {
      if !d.isIngestible {
        logger.log := logger.log.Error(d.defName + " is not ingestible.");
        return false;
      }
      if !d.isDrug {
        logger.log := logger.log.Error("AllowedToTakeScheduledEver on non-drug " + d.defName);
        return false;
      }
      var ever := AllowedToTakeScheduledEver(d, pawn, defaultPolicy, logger);
      if !ever {
        return false;
      }
      var policy := CurrentPolicy(defaultPolicy);
      var e := policy.entry(d);
      if e.onlyIfMoodBelow < 1.0 && pawn.mood.Some? && pawn.mood.value >= e.onlyIfMoodBelow {
        return false;
      }
      if e.onlyIfJoyBelow < 1.0 && pawn.joy.Some? && pawn.joy.value >= e.onlyIfJoyBelow {
        return false;
      }
      var found := FindRecord(drugTakeRecords, d);
      if found.Some? {
        var rec := drugTakeRecords[found.value];
        if e.daysFrequency < 1.0 {
          var num := timesPerDay(e.daysFrequency);
          if rec.timesTakenThisDay >= num {
            return false;
          }
        } else {
          var num2 := Abs(daysPassed - daysOf(rec.lastTakenTicks));
          var num3 := roundToInt(e.daysFrequency);
          if num2 < num3 {
            return false;
          }
        }
      }
      r := true;
    }

    /** Notify_DrugIngested: find or add the drug's record, stamp it and count the intake. */
    method NotifyDrugIngested(drug: DrugDef, now: int)
      modifies this
      ensures drugTakeRecords == Ingested(old(drugTakeRecords), drug, now)
      ensures curPolicy == old(curPolicy)
    {
      var i := 0;
      while i < |drugTakeRecords| && drugTakeRecords[i].drug != drug
        invariant 0 <= i <= |drugTakeRecords|
        invariant forall k :: 0 <= k < i ==> drugTakeRecords[k].drug != drug
      {
        i := i + 1;
      }
      if i == |drugTakeRecords| {
        drugTakeRecords := drugTakeRecords + [DrugTakeRecord(drug, 0, 0)];
      }
      var rec := drugTakeRecords[i];
      drugTakeRecords := drugTakeRecords[i := rec.(lastTakenTicks := now, timesTakenThisDay := rec.timesTakenThisDay + 1)];
    }
  }
}
