/** Verse/PatchOperationFindMod.cs: a patch operation that looks for any of a list of
    mods and applies its `match` operation when one is loaded, its `nomatch` operation
    otherwise. The mod lister and the nested operations' Apply are parameters: `loaded`
    says whether ModLister.GetModWithIdentifier finds a mod, and `apply` is what applying
    a nested operation to the document does (its result and the document it leaves). */
module PatchFindMod {
  import opened Common

  /** A nested PatchOperation, by identity. */
  datatype PatchOperationRef = PatchOperationRef(id: nat)

  /** Some identifier in `mods` names a loaded mod. */
  predicate AnyModLoaded(mods: seq<string>, loaded: string -> bool)
    ensures |mods| == 0 ==> !AnyModLoaded(mods, loaded)
    ensures |mods| > 0 ==> (AnyModLoaded(mods, loaded) <==> loaded(mods[0]) || AnyModLoaded(mods[1..], loaded))
  {
    exists i :: 0 <= i < |mods| && loaded(mods[i])
  }

  /** What ApplyWorker does once it knows whether a mod was found: at most one nested
      operation is applied, and the document is untouched when none is. */
  function Dispatch<Xml>(found: bool, matchOp: Option<PatchOperationRef>, nomatchOp: Option<PatchOperationRef>,
                         xml: Xml, apply: (PatchOperationRef, Xml) -> (bool, Xml)): (r: (bool, Xml))
    ensures found && matchOp.Some? ==> r == apply(matchOp.value, xml)
    ensures found && matchOp.None? ==> r == (false, xml)
    ensures !found && nomatchOp.Some? ==> r == apply(nomatchOp.value, xml)
    ensures !found && nomatchOp.None? ==> r == (false, xml)
  {
    if found then
      if matchOp.Some? then apply(matchOp.value, xml) else (false, xml)
    else if nomatchOp.Some? then apply(nomatchOp.value, xml)
    else (false, xml)
  }

  /** The nested operation the dispatch applies, if any: `match` is never applied when
      no mod is found, and `nomatch` never when one is. */
  function Applied(found: bool, matchOp: Option<PatchOperationRef>, nomatchOp: Option<PatchOperationRef>): (r: Option<PatchOperationRef>)
    ensures found ==> r == matchOp
    ensures !found ==> r == nomatchOp
  {
    if found then matchOp else nomatchOp
  }

  /** The dispatch's effect is applying `Applied`, or nothing. */
  lemma DispatchAppliesAtMostOne<Xml>(found: bool, matchOp: Option<PatchOperationRef>, nomatchOp: Option<PatchOperationRef>,
                                      xml: Xml, apply: (PatchOperationRef, Xml) -> (bool, Xml))
    ensures var op := Applied(found, matchOp, nomatchOp);
      Dispatch(found, matchOp, nomatchOp, xml, apply) == if op.Some? then apply(op.value, xml) else (false, xml)
  {
  }

  class PatchOperationFindMod {
    var mods: seq<string>
    var matchOp: Option<PatchOperationRef>
    var nomatchOp: Option<PatchOperationRef>

    constructor(mods: seq<string>, matchOp: Option<PatchOperationRef>, nomatchOp: Option<PatchOperationRef>)
      ensures this.mods == mods && this.matchOp == matchOp && this.nomatchOp == nomatchOp
    {
      this.mods := mods;
      this.matchOp := matchOp;
      this.nomatchOp := nomatchOp;
    }

    /** The search loop: it stops at the first loaded mod, whose index it reports; when none
        is loaded it has looked at every identifier. */
    method FindFirstLoaded(loaded: string -> bool) returns (found: bool, index: int)
      ensures found <==> AnyModLoaded(mods, loaded)
      ensures found ==> (0 <= index < |mods| && loaded(mods[index])
                         && forall j :: 0 <= j < index ==> !loaded(mods[j]))
      ensures !found ==> index == |mods|
    {
      found := false;
      index := 0;
      while index < |mods|
        invariant 0 <= index <= |mods|
        invariant forall j :: 0 <= j < index ==> !loaded(mods[j])
      {
        if loaded(mods[index]) {
          found := true;
          return;
        }
        index := index + 1;
      }
    }

    method ApplyWorker<Xml>(xml: Xml, loaded: string -> bool, apply: (PatchOperationRef, Xml) -> (bool, Xml))
      returns (result: bool, xmlAfter: Xml)
      ensures (result, xmlAfter) == Dispatch(AnyModLoaded(mods, loaded), matchOp, nomatchOp, xml, apply)
      ensures |mods| == 0 ==> (result, xmlAfter) == Dispatch(false, matchOp, nomatchOp, xml, apply)
    {
      var found, _ := FindFirstLoaded(loaded);
      if found {
        if matchOp.Some? {
          result, xmlAfter := apply(matchOp.value, xml).0, apply(matchOp.value, xml).1;
          return;
        }
      } else if nomatchOp.Some? {
        result, xmlAfter := apply(nomatchOp.value, xml).0, apply(nomatchOp.value, xml).1;
        return;
      }
      result, xmlAfter := false, xml;
    }
  }
}
