/** RimWorld/OutfitDatabase.cs: the list of outfits, unique-id allocation for new
    outfits, the default outfit, the guarded delete, and the four starting outfits.

    Outfits are values identified by `uniqueId` (the ids are kept pairwise distinct, so
    the source's reference comparisons are comparisons of ids). A pawn's outfit tracker
    is an object whose `currentOutfit` the delete rewrites. */
module Outfits {
  import opened Common

  /** The apparel part of a ThingDef (null `apparel` is `None`). */
  datatype ApparelProperties = ApparelProperties(defaultOutfitTags: Option<seq<string>>, bodyPartGroups: seq<string>)

  datatype ThingDef = ThingDef(defName: string, apparel: Option<ApparelProperties>)

  /** A ThingFilter restricted to what the outfits use: the allowed defs and the
      AllowDeadmansApparel special filter. */
  datatype ApparelFilter = ApparelFilter(allowed: set<ThingDef>, allowDeadmansApparel: bool)

  datatype Outfit = Outfit(uniqueId: int, name: string, filter: ApparelFilter)

  datatype Acceptance = Accepted | Rejected(blocker: nat)

  const LegsGroup := "Legs"
  const TorsoGroup := "Torso"

  predicate IsApparel(d: ThingDef)
  {
    d.apparel.Some?
  }

  predicate HasOutfitTag(d: ThingDef, tag: string)
  {
    d.apparel.Some? && d.apparel.value.defaultOutfitTags.Some? && tag in d.apparel.value.defaultOutfitTags.value
  }

  predicate CoversNeitherLegsNorTorso(d: ThingDef)
  {
    d.apparel.Some? && LegsGroup !in d.apparel.value.bodyPartGroups && TorsoGroup !in d.apparel.value.bodyPartGroups
  }

  /** SetAllow(ThingCategoryDefOf.Apparel, true) on an empty filter. */
  function AllApparel(defs: seq<ThingDef>): ApparelFilter
  {
    ApparelFilter(set d | d in defs && IsApparel(d), true)
  }

  function Digit(n: nat): char
    requires n < 10
  {
    "0123456789"[n]
  }

  function NatToString(n: nat): string
    decreases n
  {
    if n < 10 then [Digit(n)] else NatToString(n / 10) + [Digit(n % 10)]
  }

  function IntToString(i: int): string
  {
    if i < 0 then "-" + NatToString(-i) else NatToString(i)
  }

  function MaxId(outfits: seq<Outfit>): (r: int)
    requires |outfits| > 0
    ensures forall o :: o in outfits ==> o.uniqueId <= r
    ensures exists o :: o in outfits && o.uniqueId == r
  {
    if |outfits| == 1 then outfits[0].uniqueId
    else
      var m := MaxId(outfits[1..]);
      assert forall o :: o in outfits[1..] ==> o in outfits;
      if outfits[0].uniqueId >= m then outfits[0].uniqueId else m
  }

  /** Outfits numbered 1, 2, ... in order get the next number. */
  lemma NextIdOfNumbered(outfits: seq<Outfit>)
    requires forall i :: 0 <= i < |outfits| ==> outfits[i].uniqueId == i + 1
    ensures NextId(outfits) == |outfits| + 1
  {
    if |outfits| > 0 {
      var r := NextId(outfits);
      var o :| o in outfits && o.uniqueId == r - 1;
      var i :| 0 <= i < |outfits| && outfits[i] == o;
      assert outfits[|outfits| - 1] in outfits;
    }
  }

  /** The id MakeNewOutfit assigns: 1 for an empty list, else one more than the largest. */
  function NextId(outfits: seq<Outfit>): (r: int)
    ensures |outfits| == 0 ==> r == 1
    ensures forall o :: o in outfits ==> o.uniqueId < r
    ensures |outfits| > 0 ==> exists o :: o in outfits && o.uniqueId == r - 1
  {
    if |outfits| == 0 then 1 else MaxId(outfits) + 1
  }

  function NewOutfit(id: int, defs: seq<ThingDef>, translate: string -> string): Outfit
  {
    Outfit(id, translate("Outfit") + " " + IntToString(id), AllApparel(defs))
  }

  predicate DistinctIds(outfits: seq<Outfit>)
  {
    forall i, j :: 0 <= i < j < |outfits| ==> outfits[i].uniqueId != outfits[j].uniqueId
  }

  /** List.Remove: drops the first outfit with the given id, if any. */
  function Without(outfits: seq<Outfit>, id: int): seq<Outfit>
  {
    if |outfits| == 0 then []
    else if outfits[0].uniqueId == id then outfits[1..]
    else [outfits[0]] + Without(outfits[1..], id)
  }

  lemma DistinctTail(outfits: seq<Outfit>)
    requires DistinctIds(outfits) && |outfits| > 0
    ensures DistinctIds(outfits[1..])
    ensures forall o :: o in outfits[1..] ==> o.uniqueId != outfits[0].uniqueId
  {
    var t := outfits[1..];
    forall i, j | 0 <= i < j < |t| ensures t[i].uniqueId != t[j].uniqueId {
      assert t[i] == outfits[i + 1] && t[j] == outfits[j + 1];
    }
    forall o | o in t ensures o.uniqueId != outfits[0].uniqueId {
      var k :| 0 <= k < |t| && t[k] == o;
      assert outfits[k + 1] == o;
    }
  }

  /** Removal keeps exactly the outfits with another id. */
  lemma {:induction false} WithoutMembers(outfits: seq<Outfit>, id: int)
    requires DistinctIds(outfits)
    ensures forall o :: o in Without(outfits, id) <==> o in outfits && o.uniqueId != id
  {
    if |outfits| > 0 {
      DistinctTail(outfits);
      WithoutMembers(outfits[1..], id);
      assert outfits == [outfits[0]] + outfits[1..];
    }
  }

  /** Removal keeps the ids distinct. */
  lemma {:induction false} WithoutDistinct(outfits: seq<Outfit>, id: int)
    requires DistinctIds(outfits)
    ensures DistinctIds(Without(outfits, id))
  {
    if |outfits| > 0 && outfits[0].uniqueId != id {
      var t := outfits[1..];
      DistinctTail(outfits);
      WithoutDistinct(t, id);
      var w := Without(t, id);
      WithoutMembers(t, id);
      var r := [outfits[0]] + w;
      assert Without(outfits, id) == r;
      forall i, j | 0 <= i < j < |r| ensures r[i].uniqueId != r[j].uniqueId {
        if i > 0 {
          assert r[i] == w[i - 1] && r[j] == w[j - 1];
        } else {
          assert r[j] == w[j - 1] && r[j] in w;
        }
      }
    } else if |outfits| > 0 {
      DistinctTail(outfits);
    }
  }

  /** Removal shortens the list by one exactly when the id was there. */
  lemma {:induction false} WithoutLength(outfits: seq<Outfit>, id: int)
    ensures |Without(outfits, id)| == |outfits| - (if exists o :: o in outfits && o.uniqueId == id then 1 else 0)
  {
    if |outfits| > 0 {
      var t := outfits[1..];
      WithoutLength(t, id);
      assert outfits == [outfits[0]] + t;
      if outfits[0].uniqueId != id {
        assert (exists o :: o in outfits && o.uniqueId == id) == (exists o :: o in t && o.uniqueId == id);
      } else {
        assert outfits[0] in outfits;
      }
    }
  }

  /** With distinct ids, removal drops exactly the outfit with that id, keeps the order of
      the others and keeps the ids distinct. */
  lemma WithoutRemovesId(outfits: seq<Outfit>, id: int)
    requires DistinctIds(outfits)
    ensures DistinctIds(Without(outfits, id))
    ensures forall o :: o in Without(outfits, id) <==> o in outfits && o.uniqueId != id
    ensures |Without(outfits, id)| == |outfits| - (if exists o :: o in outfits && o.uniqueId == id then 1 else 0)
  {
    WithoutMembers(outfits, id);
    WithoutDistinct(outfits, id);
    WithoutLength(outfits, id);
  }

  /** The four starting outfits, in order. */
  function StartingOutfits(defs: seq<ThingDef>, translate: string -> string): seq<Outfit>
  {
    [Outfit(1, translate("OutfitAnything"), AllApparel(defs)),
     Outfit(2, translate("OutfitWorker"), ApparelFilter(set d | d in defs && HasOutfitTag(d, "Worker"), false)),
     Outfit(3, translate("OutfitSoldier"), ApparelFilter(set d | d in defs && HasOutfitTag(d, "Soldier"), false)),
     Outfit(4, translate("OutfitNudist"), ApparelFilter(set d | d in defs && CoversNeitherLegsNorTorso(d), false))]
  }

  /** Construction yields four outfits with ids 1 to 4 (distinct), labelled Anything,
      Worker, Soldier and Nudist; Worker and Soldier allow only apparel carrying their
      tag, Nudist only apparel covering neither legs nor torso, and the three forbid
      dead men's apparel. */
  lemma StartingOutfitsFacts(defs: seq<ThingDef>, translate: string -> string)
    ensures var s := StartingOutfits(defs, translate);
      |s| == 4 && DistinctIds(s)
      && (forall k :: 0 <= k < 4 ==> s[k].uniqueId == k + 1)
      && s[0].name == translate("OutfitAnything") && s[1].name == translate("OutfitWorker")
      && s[2].name == translate("OutfitSoldier") && s[3].name == translate("OutfitNudist")
      && (forall d :: d in s[1].filter.allowed <==> d in defs && IsApparel(d) && HasOutfitTag(d, "Worker"))
      && (forall d :: d in s[2].filter.allowed <==> d in defs && IsApparel(d) && HasOutfitTag(d, "Soldier"))
      && (forall d :: d in s[3].filter.allowed <==> d in defs && IsApparel(d) && LegsGroup !in d.apparel.value.bodyPartGroups && TorsoGroup !in d.apparel.value.bodyPartGroups)
      && (forall d :: d in s[0].filter.allowed <==> d in defs && IsApparel(d))
      && !s[1].filter.allowDeadmansApparel && !s[2].filter.allowDeadmansApparel && !s[3].filter.allowDeadmansApparel
  {
  }

  /** The loop of GenerateStartingOutfits allowing every def the condition accepts. */
  method AllowTagged(defs: seq<ThingDef>, tag: string) returns (f: ApparelFilter)
    ensures f == ApparelFilter(set d | d in defs && HasOutfitTag(d, tag), false)
    ensures forall d :: d in f.allowed <==> d in defs && HasOutfitTag(d, tag)
  {
    f := ApparelFilter({}, false);
    for i := 0 to |defs|
      invariant !f.allowDeadmansApparel
      invariant forall d :: d in f.allowed <==> d in defs[..i] && HasOutfitTag(d, tag)
    {
      assert defs[..i + 1] == defs[..i] + [defs[i]];
      if HasOutfitTag(defs[i], tag) {
        f := f.(allowed := f.allowed + {defs[i]});
      }
    }
    assert defs[..|defs|] == defs;
  }

  method AllowNudist(defs: seq<ThingDef>) returns (f: ApparelFilter)
    ensures f == ApparelFilter(set d | d in defs && CoversNeitherLegsNorTorso(d), false)
    ensures forall d :: d in f.allowed <==> d in defs && CoversNeitherLegsNorTorso(d)
  {
    f := ApparelFilter({}, false);
    for i := 0 to |defs|
      invariant !f.allowDeadmansApparel
      invariant forall d :: d in f.allowed <==> d in defs[..i] && CoversNeitherLegsNorTorso(d)
    {
      assert defs[..i + 1] == defs[..i] + [defs[i]];
      if CoversNeitherLegsNorTorso(defs[i]) {
        f := f.(allowed := f.allowed + {defs[i]});
      }
    }
    assert defs[..|defs|] == defs;
  }

  /** Pawn_OutfitTracker: the outfit a pawn currently follows. */
  class OutfitTracker {
    var currentOutfit: Option<int>

    constructor(current: Option<int>)
      ensures currentOutfit == current
    {
      currentOutfit := current;
    }
  }

  /** The trackers of a pawn list (pawns whose `outfits` is null are `None`). */
  function Trackers(pawns: seq<Option<OutfitTracker>>): set<OutfitTracker>
  {
    set i | 0 <= i < |pawns| && pawns[i].Some? :: pawns[i].value
  }

  predicate Uses(p: Option<OutfitTracker>, id: int)
    reads if p.Some? then {p.value} else {}
  {
    p.Some? && p.value.currentOutfit == Some(id)
  }

  class OutfitDatabase {
    var outfits: seq<Outfit>

    predicate Valid()
      reads this
    {
      DistinctIds(outfits)
    }

    constructor(defs: seq<ThingDef>, translate: string -> string)
      ensures outfits == StartingOutfits(defs, translate)
      ensures Valid()
    {
      outfits := [];
      new;
      GenerateStartingOutfits(defs, translate);
    }

    method GenerateStartingOutfits(defs: seq<ThingDef>, translate: string -> string)
      requires outfits == []
      modifies this
      ensures outfits == StartingOutfits(defs, translate)
    {
      var all := AllApparel(defs);
      MakeLabelledOutfit(defs, translate, translate("OutfitAnything"));
      ghost var anything := Outfit(1, translate("OutfitAnything"), all);
      assert outfits == [anything];
      MakeLabelledOutfit(defs, translate, translate("OutfitWorker"));
      var workers := AllowTagged(defs, "Worker");
      SetLastFilter(workers);
      ghost var worker := Outfit(2, translate("OutfitWorker"), workers);
      assert outfits == [anything, worker];
      MakeLabelledOutfit(defs, translate, translate("OutfitSoldier"));
      var soldiers := AllowTagged(defs, "Soldier");
      SetLastFilter(soldiers);
      ghost var soldier := Outfit(3, translate("OutfitSoldier"), soldiers);
      assert outfits == [anything, worker, soldier];
      MakeLabelledOutfit(defs, translate, translate("OutfitNudist"));
      var nudists := AllowNudist(defs);
      SetLastFilter(nudists);
      assert outfits == [anything, worker, soldier, Outfit(4, translate("OutfitNudist"), nudists)];
    }

    /** MakeNewOutfit followed by setting the new outfit's label, on outfits numbered 1, 2, ... */
    method MakeLabelledOutfit(defs: seq<ThingDef>, translate: string -> string, title: string)
      requires forall i :: 0 <= i < |outfits| ==> outfits[i].uniqueId == i + 1
      modifies this
      ensures outfits == old(outfits) + [Outfit(|old(outfits)| + 1, title, AllApparel(defs))]
    {
      NextIdOfNumbered(outfits);
      var o := MakeNewOutfit(defs, translate);
      outfits := outfits[|outfits| - 1 := o.(name := title)];
    }

    /** Replacing the filter of the outfit made last. */
    method SetLastFilter(filter: ApparelFilter)
      requires |outfits| > 0
      modifies this
      ensures outfits == old(outfits)[|old(outfits)| - 1 := old(outfits)[|old(outfits)| - 1].(filter := filter)]
    {
      outfits := outfits[|outfits| - 1 := outfits[|outfits| - 1].(filter := filter)];
    }

    /** MakeNewOutfit: a fresh id above every existing one, appended at the end. */
    method MakeNewOutfit(defs: seq<ThingDef>, translate: string -> string) returns (o: Outfit)
      modifies this
      ensures o == NewOutfit(NextId(old(outfits)), defs, translate)
      ensures outfits == old(outfits) + [o]
      ensures old(Valid()) ==> Valid()
    {
      var id := if |outfits| > 0 then MaxId(outfits) + 1 else 1;
      o := NewOutfit(id, defs, translate);
      outfits := outfits + [o];
    }

    /** DefaultOutfit: the first outfit, creating one first when there is none. */
    method DefaultOutfit(defs: seq<ThingDef>, translate: string -> string) returns (o: Outfit)
      modifies this
      ensures old(|outfits|) > 0 ==> outfits == old(outfits)
      ensures old(|outfits|) == 0 ==> outfits == [NewOutfit(1, defs, translate)]
      ensures |outfits| > 0 && o == outfits[0]
      ensures old(Valid()) ==> Valid()
    {
      if |outfits| == 0 {
        var _ := MakeNewOutfit(defs, translate);
      }
      o := outfits[0];
    }

    /** TryDelete: refused, changing nothing, while a living pawn follows the outfit;
        otherwise every pawn following it is reset and the outfit is removed. */
    method TryDelete(id: int, alive: seq<Option<OutfitTracker>>, all: seq<Option<OutfitTracker>>) returns (r: Acceptance)
      modifies this, Trackers(all)
      ensures r.Rejected? <==> exists k :: 0 <= k < |alive| && old(Uses(alive[k], id))
      ensures r.Rejected? ==>
        r.blocker < |alive| && old(Uses(alive[r.blocker], id))
        && (forall k :: 0 <= k < r.blocker ==> !old(Uses(alive[k], id)))
        && outfits == old(outfits)
        && forall t :: t in Trackers(all) ==> t.currentOutfit == old(t.currentOutfit)
      ensures r.Accepted? ==>
        outfits == Without(old(outfits), id)
        && forall t :: t in Trackers(all) ==>
             t.currentOutfit == (if old(t.currentOutfit) == Some(id) then None else old(t.currentOutfit))
      ensures old(Valid()) ==> Valid()
    {
      for k := 0 to |alive|
        invariant forall j :: 0 <= j < k ==> !Uses(alive[j], id)
      {
        if alive[k].Some? && alive[k].value.currentOutfit == Some(id) {
          return Rejected(k);
        }
      }
      for k := 0 to |all|
        invariant outfits == old(outfits)
        invariant forall j :: 0 <= j < |alive| ==> !old(Uses(alive[j], id))
        invariant forall t :: t in Trackers(all) ==>
          t.currentOutfit == (if old(t.currentOutfit) == Some(id) && t in Trackers(all[..k]) then None else old(t.currentOutfit))
      {
        if all[k].Some? && all[k].value.currentOutfit == Some(id) {
          all[k].value.currentOutfit := None;
        }
      }
      outfits := Without(outfits, id);
      if old(Valid()) {
        WithoutRemovesId(old(outfits), id);
      }
      r := Accepted;
    }
  }
}
