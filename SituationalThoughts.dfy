/** The situational-thought cache of one pawn (RimWorld/SituationalThoughtHandler.cs).
    Mood thoughts are cached in a list; social thoughts are cached per other pawn in two
    dictionaries, one for thoughts the pawn has about that pawn and one for social thoughts
    that affect the pawn's own mood. Entries are recalculated at most every 100 ticks and
    dropped 300 ticks after their last query.

    Thought workers (ThoughtUtility.CanGetThought, CurrentState, CurrentSocialState,
    PotentialPawnCandidates) and the def database are oracles in `ThoughtWorld`. Thoughts
    are values: a thought's `active` flag is what its last RecalculateState found. */
module SituationalThoughts {
  import opened Common

  type PawnId = nat
  type ThoughtDef = string

  /** A (def, other pawn) pair of the mood-affecting dictionary's wanted set. */
  type Pair = (ThoughtDef, int)

  /** A situational thought; `other` is the other pawn of a social thought. */
  datatype Thought = Thought(def: ThoughtDef, other: Option<PawnId>, active: bool)

  datatype ThoughtWorld = ThoughtWorld(
    now: int,                                    // Find.TickManager.TicksGame
    nonSocialDefs: seq<ThoughtDef>,              // ThoughtUtility.situationalNonSocialThoughtDefs
    socialDefs: seq<ThoughtDef>,                 // ThoughtUtility.situationalSocialThoughtDefs
    affectsMood: ThoughtDef -> bool,             // def.socialThoughtAffectingMood
    canGet: ThoughtDef -> bool,                  // ThoughtUtility.CanGetThought(pawn, def)
    moodState: ThoughtDef -> bool,               // def.Worker.CurrentState(pawn).Active
    socialState: (ThoughtDef, PawnId) -> bool,   // def.Worker.CurrentSocialState(pawn, other).Active
    candidates: ThoughtDef -> seq<PawnId>,       // def.Worker.PotentialPawnCandidates(pawn)
    discarded: PawnId -> bool)                   // otherPawn.Discarded

  const ExpireAfterTicks := 300
  const RecalculateStateEveryTicks := 100
  const NeverTick := -99999

  /** The cache entry for one other pawn. */
  datatype CachedSocialThoughts = CachedSocialThoughts(
    thoughts: seq<Thought>,
    activeThoughts: seq<Thought>,
    lastRecalculationTick: int,
    lastQueryTick: int)
  {
    predicate Expired(now: int)
      ensures now <= lastQueryTick ==> !Expired(now)
      ensures now >= lastQueryTick + ExpireAfterTicks ==> Expired(now)
    {
      now - lastQueryTick >= ExpireAfterTicks
    }

    predicate ShouldRecalculateState(now: int)
      ensures now <= lastRecalculationTick ==> !ShouldRecalculateState(now)
      ensures now >= lastRecalculationTick + RecalculateStateEveryTicks ==> ShouldRecalculateState(now)
    {
      now - lastRecalculationTick >= RecalculateStateEveryTicks
    }
  }

  const NewCache := CachedSocialThoughts([], [], NeverTick, NeverTick)

  /** An entry is expired exactly 300 ticks after its last query and due for recalculation
      exactly 100 ticks after its last recalculation; a new entry is both from tick -99699 on. */
  lemma CacheTimers(c: CachedSocialThoughts, now: int)
    ensures c.Expired(now) <==> now >= c.lastQueryTick + 300
    ensures c.ShouldRecalculateState(now) <==> now >= c.lastRecalculationTick + 100
    ensures now >= NeverTick + 300 ==> NewCache.Expired(now) && NewCache.ShouldRecalculateState(now)
  {
  }

  // ---------------------------------------------------------------------------
  // Thoughts and lists of thoughts
  // ---------------------------------------------------------------------------

  /** RecalculateState: the thought's worker decides whether it is active now. */
  function Recalculated(w: ThoughtWorld, t: Thought): (r: Thought)
    ensures r.def == t.def && r.other == t.other
  {
    t.(active := if t.other.Some? then w.socialState(t.def, t.other.value) else w.moodState(t.def))
  }

  function RecalculatedAll(w: ThoughtWorld, ts: seq<Thought>): (r: seq<Thought>)
    ensures |r| == |ts| && forall i :: 0 <= i < |ts| ==> r[i] == Recalculated(w, ts[i])
    ensures Defs(r) == Defs(ts)
  {
    var r := seq(|ts|, i requires 0 <= i < |ts| => Recalculated(w, ts[i]));
    assert forall d :: d in Defs(r) ==> d in Defs(ts) by {
      forall d | d in Defs(r) ensures d in Defs(ts) {
        var t :| t in r && t.def == d;
        var i :| 0 <= i < |r| && r[i] == t;
        assert ts[i].def == d;
      }
    }
    assert forall d :: d in Defs(ts) ==> d in Defs(r) by {
      forall d | d in Defs(ts) ensures d in Defs(r) {
        var t :| t in ts && t.def == d;
        var i :| 0 <= i < |ts| && ts[i] == t;
        assert r[i].def == d;
      }
    }
    r
  }

  function Defs(ts: seq<Thought>): set<ThoughtDef>
  {
    set t | t in ts :: t.def
  }

  /** The active members of `ts`, in order. */
  function ActiveOf(ts: seq<Thought>): (r: seq<Thought>)
    ensures |r| <= |ts|
    decreases |ts|
  {
    if |ts| == 0 then []
    else (if ts[0].active then [ts[0]] else []) + ActiveOf(ts[1..])
  }

  /** The active list holds exactly the active thoughts. */
  lemma {:induction false} ActiveOfMembers(ts: seq<Thought>)
    ensures forall t :: t in ActiveOf(ts) <==> t in ts && t.active
    decreases |ts|
  {
    if |ts| > 0 {
      ActiveOfMembers(ts[1..]);
      assert forall t :: t in ts <==> t == ts[0] || t in ts[1..];
    }
  }

  lemma {:induction false} ActiveOfAppend(a: seq<Thought>, b: seq<Thought>)
    ensures ActiveOf(a + b) == ActiveOf(a) + ActiveOf(b)
    decreases |a|
  {
    if |a| > 0 {
      assert (a + b)[1..] == a[1..] + b;
      ActiveOfAppend(a[1..], b);
    } else {
      assert a + b == b;
    }
  }

  predicate DistinctDefs(ts: seq<Thought>)
  {
    forall i, j :: 0 <= i < j < |ts| ==> ts[i].def != ts[j].def
  }

  /** TryCreateThought: a mood thought for `def` when the pawn can get it and it is active. */
  function TryCreateThought(w: ThoughtWorld, def: ThoughtDef): (r: Option<Thought>)
    ensures r.Some? <==> w.canGet(def) && w.moodState(def)
    ensures r.Some? ==> r.value == Thought(def, None, true)
  {
    if !w.canGet(def) then None
    else if !w.moodState(def) then None
    else Some(Recalculated(w, Thought(def, None, false)))
  }

  /** TryCreateSocialThought: a social thought about `other` when the pawn can get it and
      it is active about `other`. */
  function TryCreateSocialThought(w: ThoughtWorld, def: ThoughtDef, other: PawnId): (r: Option<Thought>)
    ensures r.Some? <==> w.canGet(def) && w.socialState(def, other)
    ensures r.Some? ==> r.value == Thought(def, Some(other), true)
  {
    if !w.canGet(def) then None
    else if !w.socialState(def, other) then None
    else Some(Recalculated(w, Thought(def, Some(other), false)))
  }

  /** The thoughts created for the defs of `defs` not in `existing` (the defs cached before
      the loop); the set is not extended while the loop runs. */
  function NewThoughts(w: ThoughtWorld, defs: seq<ThoughtDef>, existing: set<ThoughtDef>, other: Option<PawnId>): seq<Thought>
    decreases |defs|
  {
    if |defs| == 0 then []
    else Created(w, defs[0], existing, other) + NewThoughts(w, defs[1..], existing, other)
  }

  /** Every created thought is new, about `other` and active. */
  lemma {:induction false} NewThoughtsMembers(w: ThoughtWorld, defs: seq<ThoughtDef>, existing: set<ThoughtDef>, other: Option<PawnId>)
    ensures forall t :: t in NewThoughts(w, defs, existing, other) ==> t.def !in existing && t.other == other && t.active
    decreases |defs|
  {
    if |defs| > 0 {
      NewThoughtsMembers(w, defs[1..], existing, other);
    }
  }

  /** The thought (if any) one iteration of the creation loop adds for `d`. */
  function Created(w: ThoughtWorld, d: ThoughtDef, existing: set<ThoughtDef>, other: Option<PawnId>): (r: seq<Thought>)
    ensures |r| <= 1 && forall t :: t in r ==> t.def == d && t.def !in existing && t.other == other && t.active
  {
    var created := if d in existing then None
                   else if other.Some? then TryCreateSocialThought(w, d, other.value)
                   else TryCreateThought(w, d);
    if created.Some? then [created.value] else []
  }

  predicate Creatable(w: ThoughtWorld, def: ThoughtDef, other: Option<PawnId>)
  {
    w.canGet(def) && (if other.Some? then w.socialState(def, other.value) else w.moodState(def))
  }

  lemma {:induction false} NewThoughtsComplete(w: ThoughtWorld, defs: seq<ThoughtDef>, existing: set<ThoughtDef>, other: Option<PawnId>, d: ThoughtDef)
    requires d in defs && d !in existing && Creatable(w, d, other)
    ensures d in Defs(NewThoughts(w, defs, existing, other))
    decreases |defs|
  {
    var r := NewThoughts(w, defs, existing, other);
    if defs[0] == d {
      assert r[0].def == d;
    } else {
      NewThoughtsComplete(w, defs[1..], existing, other, d);
      var rest := NewThoughts(w, defs[1..], existing, other);
      var t :| t in rest && t.def == d;
      assert t in r;
    }
  }

  /** Over a duplicate-free def list every created thought has its own def. */
  lemma {:induction false} NewThoughtsDistinct(w: ThoughtWorld, defs: seq<ThoughtDef>, existing: set<ThoughtDef>, other: Option<PawnId>)
    requires forall i, j :: 0 <= i < j < |defs| ==> defs[i] != defs[j]
    ensures DistinctDefs(NewThoughts(w, defs, existing, other))
    decreases |defs|
  {
    if |defs| > 0 {
      NewThoughtsDistinct(w, defs[1..], existing, other);
      NewThoughtsFromDefs(w, defs[1..], existing, other);
      assert defs[0] !in defs[1..];
    }
  }

  lemma {:induction false} NewThoughtsFromDefs(w: ThoughtWorld, defs: seq<ThoughtDef>, existing: set<ThoughtDef>, other: Option<PawnId>)
    ensures forall t :: t in NewThoughts(w, defs, existing, other) ==> t.def in defs
    decreases |defs|
  {
    if |defs| > 0 {
      NewThoughtsFromDefs(w, defs[1..], existing, other);
      assert forall d :: d in defs[1..] ==> d in defs;
    }
  }

  // ---------------------------------------------------------------------------
  // Recalculation of the mood cache and of one social entry
  // ---------------------------------------------------------------------------

  /** The mood list after CheckRecalculateMoodThoughts: the cached thoughts recalculated,
      then the thoughts newly created for uncached non-social defs. */
  function RecalcMoodList(w: ThoughtWorld, ts: seq<Thought>): seq<Thought>
  {
    RecalculatedAll(w, ts) + NewThoughts(w, w.nonSocialDefs, Defs(ts), None)
  }

  /** A mood thought is only created for an uncached def, so the defs stay distinct when
      the cache and the def list are; and every creatable non-social def is cached after. */
  lemma RecalcMoodListDefs(w: ThoughtWorld, ts: seq<Thought>)
    requires DistinctDefs(ts)
    requires forall i, j :: 0 <= i < j < |w.nonSocialDefs| ==> w.nonSocialDefs[i] != w.nonSocialDefs[j]
    ensures DistinctDefs(RecalcMoodList(w, ts))
    ensures forall d :: d in w.nonSocialDefs && Creatable(w, d, None) ==> d in Defs(RecalcMoodList(w, ts))
  {
    var a := RecalculatedAll(w, ts);
    var b := NewThoughts(w, w.nonSocialDefs, Defs(ts), None);
    NewThoughtsDistinct(w, w.nonSocialDefs, Defs(ts), None);
    NewThoughtsMembers(w, w.nonSocialDefs, Defs(ts), None);
    var r := a + b;
    forall i, j | 0 <= i < j < |r| ensures r[i].def != r[j].def {
      if j >= |a| && i < |a| {
        assert r[i].def == ts[i].def;
        assert ts[i] in ts;
        assert r[j] == b[j - |a|];
      }
    }
    forall d | d in w.nonSocialDefs && Creatable(w, d, None) ensures d in Defs(r) {
      if d in Defs(ts) {
        assert d in Defs(a);
        var t :| t in a && t.def == d;
        assert t in r;
      } else {
        NewThoughtsComplete(w, w.nonSocialDefs, Defs(ts), None, d);
        var t :| t in b && t.def == d;
        assert t in r;
      }
    }
  }

  /** An entry of the thoughts about `other` after CheckRecalculateSocialThoughts decided
      to recalculate it. */
  function RecalcSocialEntry(w: ThoughtWorld, c: CachedSocialThoughts, other: PawnId): (r: CachedSocialThoughts)
    ensures r.lastRecalculationTick == w.now && r.lastQueryTick == c.lastQueryTick
    ensures r.activeThoughts == ActiveOf(r.thoughts)
    ensures EntryValid(c, other) ==> EntryValid(r, other)
  {
    var a := RecalculatedAll(w, c.thoughts);
    var ts := a + NewThoughts(w, w.socialDefs, Defs(c.thoughts), Some(other));
    RecalculatedAllAbout(w, c.thoughts, Some(other));
    NewThoughtsMembers(w, w.socialDefs, Defs(c.thoughts), Some(other));
    c.(thoughts := ts, activeThoughts := ActiveOf(ts), lastRecalculationTick := w.now)
  }

  // ---------------------------------------------------------------------------
  // The pairs the affecting-mood dictionary should hold
  // ---------------------------------------------------------------------------

  /** The (def, candidate) pairs of the mood-affecting social defs, leaving out the pawn
      itself. */
  function PairsOf(w: ThoughtWorld, self: PawnId, defs: seq<ThoughtDef>): (r: set<Pair>)
    ensures forall d, c :: (d, c) in r <==> d in defs && w.affectsMood(d) && c in w.candidates(d) && c != self
    decreases |defs|
  {
    if |defs| == 0 then {}
    else
      var here := if w.affectsMood(defs[0]) then set c | c in w.candidates(defs[0]) && c != self :: (defs[0], c) else {};
      assert forall d :: d in defs <==> d == defs[0] || d in defs[1..];
      here + PairsOf(w, self, defs[1..])
  }

  function ToAdd(w: ThoughtWorld, self: PawnId): set<Pair>
  {
    PairsOf(w, self, w.socialDefs)
  }

  /** The pawn never has a mood-affecting social thought about itself. */
  lemma ToAddExcludesSelf(w: ThoughtWorld, self: PawnId, d: ThoughtDef)
    ensures (d, self) !in ToAdd(w, self)
  {
  }

  /** The thoughts of an entry for `k` whose pair is still wanted, in order. */
  function KeepPairs(ts: seq<Thought>, k: PawnId, toAdd: set<Pair>): seq<Thought>
    decreases |ts|
  {
    if |ts| == 0 then []
    else (if (ts[0].def, k) in toAdd then [ts[0]] else []) + KeepPairs(ts[1..], k, toAdd)
  }

  /** The kept thoughts are exactly the thoughts whose pair is wanted. */
  lemma {:induction false} KeepPairsMembers(ts: seq<Thought>, k: PawnId, toAdd: set<Pair>)
    ensures forall t :: t in KeepPairs(ts, k, toAdd) <==> t in ts && (t.def, k) in toAdd
    decreases |ts|
  {
    if |ts| > 0 {
      KeepPairsMembers(ts[1..], k, toAdd);
      assert forall t :: t in ts <==> t == ts[0] || t in ts[1..];
    }
  }

  /** The entry after phase four: its thoughts recalculated, the active ones projected and
      the recalculation tick stamped (when it has thoughts). */
  function Refreshed(w: ThoughtWorld, c: CachedSocialThoughts): (r: CachedSocialThoughts)
    ensures r.activeThoughts == ActiveOf(r.thoughts) && r.lastQueryTick == c.lastQueryTick
    ensures |c.thoughts| > 0 ==> r.lastRecalculationTick == w.now
  {
    var ts := RecalculatedAll(w, c.thoughts);
    c.(thoughts := ts, activeThoughts := ActiveOf(ts),
       lastRecalculationTick := if |ts| > 0 then w.now else c.lastRecalculationTick)
  }

  // ---------------------------------------------------------------------------
  // Phases of RecalculateSocialThoughtsAffectingMood, as relations on the dictionary
  // ---------------------------------------------------------------------------

  type SocialCache = map<PawnId, CachedSocialThoughts>

  /** Phase two: every entry keeps, in order, the thoughts whose pair is wanted. */
  function Pruned(m: SocialCache, toAdd: set<Pair>): SocialCache
  {
    map k | k in m :: m[k].(thoughts := KeepPairs(m[k].thoughts, k, toAdd))
  }

  function BaseOf(m: SocialCache, k: PawnId): CachedSocialThoughts
  {
    if k in m then m[k] else NewCache
  }

  /** A wanted pair phase three creates a thought for: creatable, and its def not cached
      for that pawn yet. */
  predicate NeedsCreate(w: ThoughtWorld, m0: SocialCache, d: ThoughtDef, k: PawnId)
  {
    Creatable(w, d, Some(k)) && d !in Defs(BaseOf(m0, k).thoughts)
  }

  /** Phase three, one entry: `e` is `b` with new thoughts at its end, each active, about
      `k`, for a pair of `done` that is creatable and whose def `b` does not hold. */
  ghost predicate EntryAdded(w: ThoughtWorld, done: set<Pair>, b: CachedSocialThoughts, k: PawnId, e: CachedSocialThoughts)
  {
    |b.thoughts| <= |e.thoughts| && e.thoughts[..|b.thoughts|] == b.thoughts
    && e == b.(thoughts := e.thoughts)
    && forall t :: t in e.thoughts[|b.thoughts|..] ==>
         t == Thought(t.def, Some(k), true) && (t.def, k) in done
         && Creatable(w, t.def, Some(k)) && t.def !in Defs(b.thoughts)
  }

  /** Phase three, over the pairs `done` (in whatever order the set yields them): every
      entry is extended as `EntryAdded` says (a pawn without an entry starts from an empty
      one), and every pair of `done` that needs a thought has one. */
  ghost predicate Added(w: ThoughtWorld, done: set<Pair>, m0: SocialCache, m: SocialCache)
  {
    (forall k :: k in m0 ==> k in m)
    && (forall k :: k in m ==> EntryAdded(w, done, BaseOf(m0, k), k, m[k]))
    && (forall d, k :: (d, k) in done && NeedsCreate(w, m0, d, k) ==> k in m && d in Defs(m[k].thoughts))
  }

  /** RemoveAll of the entries left without thoughts. */
  function NonEmpty(m: SocialCache): SocialCache
  {
    map k | k in m && |m[k].thoughts| > 0 :: m[k]
  }

  /** Phase four: every entry refreshed. */
  function RefreshedAll(w: ThoughtWorld, m: SocialCache): SocialCache
  {
    map k | k in m :: Refreshed(w, m[k])
  }

  function Lookup(m: SocialCache, k: PawnId): Option<CachedSocialThoughts>
  {
    if k in m then Some(m[k]) else None
  }

  /** The thoughts an entry keeps through phase two: its thoughts whose pair is wanted
      (none for a pawn without an entry). */
  function KeptOf(o: Option<CachedSocialThoughts>, k: PawnId, toAdd: set<Pair>): seq<Thought>
  {
    if o.Some? then KeepPairs(o.value.thoughts, k, toAdd) else []
  }

  /** An entry after RecalculateSocialThoughtsAffectingMood, given the entry `o` it had
      before: non-empty, its active list the active members of its thoughts, stamped now,
      its query tick kept (or never, for a new entry); every thought about `k`, wanted and
      recalculated now; in front, the entry's still wanted thoughts recalculated, in their
      order; after them only created thoughts, active, creatable and of a def not kept. */
  ghost predicate EntryRecalculated(w: ThoughtWorld, toAdd: set<Pair>, o: Option<CachedSocialThoughts>, k: PawnId, e: CachedSocialThoughts)
  {
    var kept := KeptOf(o, k, toAdd);
    |e.thoughts| > 0 && e.activeThoughts == ActiveOf(e.thoughts) && e.lastRecalculationTick == w.now
    && (forall t :: t in e.thoughts ==> (t.def, k) in toAdd && t.other == Some(k) && t == Recalculated(w, t))
    && e.lastQueryTick == (if o.Some? then o.value.lastQueryTick else NeverTick)
    && |kept| <= |e.thoughts| && e.thoughts[..|kept|] == RecalculatedAll(w, kept)
    && (forall t :: t in e.thoughts[|kept|..] ==>
          t == Thought(t.def, Some(k), true) && Creatable(w, t.def, Some(k)) && t.def !in Defs(kept))
  }

  /** Whether RecalculateSocialThoughtsAffectingMood leaves an entry for `k`: it had one
      that keeps a wanted thought, or some wanted pair about `k` is creatable. */
  ghost predicate KeepsEntry(w: ThoughtWorld, self: PawnId, m0: SocialCache, k: PawnId)
  {
    (k in m0 && |KeepPairs(m0[k].thoughts, k, ToAdd(w, self))| > 0)
    || exists d :: (d, k) in ToAdd(w, self) && Creatable(w, d, Some(k))
  }

  /** What RecalculateSocialThoughtsAffectingMood leaves: an entry exactly for the pawns
      `KeepsEntry` names, each as `EntryRecalculated` says, and every wanted, creatable
      pair present. */
  ghost predicate AffectingRecalculated(w: ThoughtWorld, self: PawnId, m0: SocialCache, m: SocialCache)
  {
    (forall k :: k in m <==> KeepsEntry(w, self, m0, k))
    && (forall k :: k in m ==> EntryRecalculated(w, ToAdd(w, self), Lookup(m0, k), k, m[k]))
    && (forall d, k :: (d, k) in ToAdd(w, self) && Creatable(w, d, Some(k)) ==> k in m && d in Defs(m[k].thoughts))
  }

  /** A recalculated mood-affecting dictionary satisfies the handler's invariant. */
  lemma AffectingValid(w: ThoughtWorld, self: PawnId, m0: SocialCache, m: SocialCache)
    requires AffectingRecalculated(w, self, m0, m)
    ensures forall k :: k in m ==> EntryValid(m[k], k) && |m[k].thoughts| > 0
  {
    forall k | k in m ensures EntryValid(m[k], k) && |m[k].thoughts| > 0 {
      assert EntryRecalculated(w, ToAdd(w, self), Lookup(m0, k), k, m[k]);
    }
  }

  /** The entry phase three starts from for `k`. */
  function PrunedEntry(o: Option<CachedSocialThoughts>, k: PawnId, toAdd: set<Pair>): CachedSocialThoughts
  {
    if o.Some? then o.value.(thoughts := KeepPairs(o.value.thoughts, k, toAdd)) else NewCache
  }

  lemma PrunedBase(m0: SocialCache, toAdd: set<Pair>, k: PawnId)
    ensures BaseOf(Pruned(m0, toAdd), k) == PrunedEntry(Lookup(m0, k), k, toAdd)
  {
  }

  lemma EntryAddedKeepsDefs(w: ThoughtWorld, done: set<Pair>, b: CachedSocialThoughts, k: PawnId, e: CachedSocialThoughts)
    requires EntryAdded(w, done, b, k, e)
    ensures Defs(b.thoughts) <= Defs(e.thoughts)
  {
    forall d | d in Defs(b.thoughts) ensures d in Defs(e.thoughts) {
      var t :| t in b.thoughts && t.def == d;
      var i :| 0 <= i < |b.thoughts| && b.thoughts[i] == t;
      assert e.thoughts[i] == t;
    }
  }

  /** One entry through phases two to four. */
  lemma EntryPhases(w: ThoughtWorld, toAdd: set<Pair>, o: Option<CachedSocialThoughts>, k: PawnId, e2: CachedSocialThoughts)
    requires o.Some? ==> forall t :: t in o.value.thoughts ==> t.other == Some(k)
    requires EntryAdded(w, toAdd, PrunedEntry(o, k, toAdd), k, e2)
    requires |e2.thoughts| > 0
    ensures EntryRecalculated(w, toAdd, o, k, Refreshed(w, e2))
  {
    var b := PrunedEntry(o, k, toAdd);
    assert b.thoughts == KeptOf(o, k, toAdd);
    EntryPhasesWanted(w, toAdd, o, k, e2);
    EntryPhasesCreated(w, toAdd, b, k, e2);
    assert RecalculatedAll(w, b.thoughts) == Refreshed(w, e2).thoughts[..|b.thoughts|];
  }

  /** The kept thoughts of an entry whose thoughts are all about `k` are wanted and about `k`. */
  lemma KeptAbout(o: Option<CachedSocialThoughts>, k: PawnId, toAdd: set<Pair>)
    requires o.Some? ==> forall t :: t in o.value.thoughts ==> t.other == Some(k)
    ensures forall t :: t in KeptOf(o, k, toAdd) ==> (t.def, k) in toAdd && t.other == Some(k)
  {
    if o.Some? {
      KeepPairsMembers(o.value.thoughts, k, toAdd);
    }
  }

  /** After phase four every thought of the entry is wanted, about `k` and recalculated. */
  lemma EntryPhasesWanted(w: ThoughtWorld, toAdd: set<Pair>, o: Option<CachedSocialThoughts>, k: PawnId, e2: CachedSocialThoughts)
    requires o.Some? ==> forall t :: t in o.value.thoughts ==> t.other == Some(k)
    requires EntryAdded(w, toAdd, PrunedEntry(o, k, toAdd), k, e2)
    ensures var e := Refreshed(w, e2);
      forall t :: t in e.thoughts ==> (t.def, k) in toAdd && t.other == Some(k) && t == Recalculated(w, t)
  {
    var kept := PrunedEntry(o, k, toAdd).thoughts;
    assert kept == KeptOf(o, k, toAdd);
    var ts := RecalculatedAll(w, e2.thoughts);
    assert Refreshed(w, e2).thoughts == ts;
    KeptAbout(o, k, toAdd);
    forall i | 0 <= i < |ts| ensures (ts[i].def, k) in toAdd && ts[i].other == Some(k) && ts[i] == Recalculated(w, ts[i]) {
      var u := e2.thoughts[i];
      if i < |kept| {
        assert u == kept[i];
        assert u in kept;
      } else {
        assert u == e2.thoughts[|kept|..][i - |kept|];
        assert u in e2.thoughts[|kept|..];
      }
    }
  }

  /** After phase four the thoughts behind the kept ones are the created ones: active,
      creatable and of a def the entry did not keep. */
  lemma EntryPhasesCreated(w: ThoughtWorld, toAdd: set<Pair>, b: CachedSocialThoughts, k: PawnId, e2: CachedSocialThoughts)
    requires EntryAdded(w, toAdd, b, k, e2)
    ensures var e := Refreshed(w, e2);
      forall t :: t in e.thoughts[|b.thoughts|..] ==>
        t == Thought(t.def, Some(k), true) && Creatable(w, t.def, Some(k)) && t.def !in Defs(b.thoughts)
  {
    var e := Refreshed(w, e2);
    forall t | t in e.thoughts[|b.thoughts|..]
      ensures t == Thought(t.def, Some(k), true) && Creatable(w, t.def, Some(k)) && t.def !in Defs(b.thoughts)
    {
      var j :| 0 <= j < |e.thoughts| - |b.thoughts| && e.thoughts[|b.thoughts|..][j] == t;
      var u := e2.thoughts[|b.thoughts| + j];
      assert u == e2.thoughts[|b.thoughts|..][j];
      assert u in e2.thoughts[|b.thoughts|..];
      assert t == Recalculated(w, u);
    }
  }

  /** The entries left after phase four are exactly those `KeepsEntry` names. */
  lemma PhasesKeys(w: ThoughtWorld, self: PawnId, m0: SocialCache, m2: SocialCache)
    requires Added(w, ToAdd(w, self), Pruned(m0, ToAdd(w, self)), m2)
    ensures var m := RefreshedAll(w, NonEmpty(m2));
      forall k :: k in m <==> KeepsEntry(w, self, m0, k)
  {
    var toAdd := ToAdd(w, self);
    var m1 := Pruned(m0, toAdd);
    var m := RefreshedAll(w, NonEmpty(m2));
    PhasesComplete(w, self, m0, m2);
    forall k ensures k in m <==> KeepsEntry(w, self, m0, k) {
      if k in m {
        PrunedBase(m0, toAdd, k);
        var b := BaseOf(m1, k);
        assert EntryAdded(w, toAdd, b, k, m2[k]);
        if !(k in m0 && |KeepPairs(m0[k].thoughts, k, toAdd)| > 0) {
          assert |b.thoughts| == 0;
          var t := m2[k].thoughts[0];
          assert t in m2[k].thoughts[|b.thoughts|..];
          assert (t.def, k) in toAdd && Creatable(w, t.def, Some(k));
        }
      }
      if k in m0 && |KeepPairs(m0[k].thoughts, k, toAdd)| > 0 {
        assert k in m1 && EntryAdded(w, toAdd, BaseOf(m1, k), k, m2[k]) by {
          PrunedBase(m0, toAdd, k);
        }
      }
    }
  }

  /** The four phases together give AffectingRecalculated. */
  lemma AffectingPhases(w: ThoughtWorld, self: PawnId, m0: SocialCache, m2: SocialCache)
    requires forall k :: k in m0 ==> forall t :: t in m0[k].thoughts ==> t.other == Some(k)
    requires Added(w, ToAdd(w, self), Pruned(m0, ToAdd(w, self)), m2)
    ensures AffectingRecalculated(w, self, m0, RefreshedAll(w, NonEmpty(m2)))
  {
    var toAdd := ToAdd(w, self);
    var m := RefreshedAll(w, NonEmpty(m2));
    forall k | k in m ensures EntryRecalculated(w, toAdd, Lookup(m0, k), k, m[k]) {
      PrunedBase(m0, toAdd, k);
      EntryPhases(w, toAdd, Lookup(m0, k), k, m2[k]);
    }
    PhasesComplete(w, self, m0, m2);
    PhasesKeys(w, self, m0, m2);
  }

  /** After the phases every wanted, creatable pair is present. */
  lemma PhasesComplete(w: ThoughtWorld, self: PawnId, m0: SocialCache, m2: SocialCache)
    requires Added(w, ToAdd(w, self), Pruned(m0, ToAdd(w, self)), m2)
    ensures var m := RefreshedAll(w, NonEmpty(m2));
      forall d, k :: (d, k) in ToAdd(w, self) && Creatable(w, d, Some(k)) ==> k in m && d in Defs(m[k].thoughts)
  {
    var toAdd := ToAdd(w, self);
    var m1 := Pruned(m0, toAdd);
    var m := RefreshedAll(w, NonEmpty(m2));
    forall d, k | (d, k) in toAdd && Creatable(w, d, Some(k)) ensures k in m && d in Defs(m[k].thoughts) {
      if !NeedsCreate(w, m1, d, k) {
        assert k in m1;
        EntryAddedKeepsDefs(w, toAdd, m1[k], k, m2[k]);
      }
      assert |m2[k].thoughts| > 0;
    }
  }


  // ---------------------------------------------------------------------------
  // The handler
  // ---------------------------------------------------------------------------

  /** Every entry's active list is the active members of its thoughts, every thought is
      about the entry's pawn, and mood-affecting entries are non-empty. */
  predicate EntryValid(c: CachedSocialThoughts, k: PawnId)
  {
    c.activeThoughts == ActiveOf(c.thoughts) && forall t :: t in c.thoughts ==> t.other == Some(k)
  }

  /** The concatenated active lists of the entries, in the order `order`. */
  function ActiveLists(m: SocialCache, order: seq<PawnId>): seq<Thought>
    requires forall k :: k in order ==> k in m
    decreases |order|
  {
    if |order| == 0 then []
    else ActiveLists(m, order[..|order| - 1]) + m[order[|order| - 1]].activeThoughts
  }

  lemma {:induction false} ActiveListsSame(m: SocialCache, m': SocialCache, order: seq<PawnId>)
    requires forall k :: k in order ==> k in m && k in m' && m[k].activeThoughts == m'[k].activeThoughts
    ensures ActiveLists(m, order) == ActiveLists(m', order)
    decreases |order|
  {
    if |order| > 0 {
      assert forall k :: k in order[..|order| - 1] ==> k in order;
      ActiveListsSame(m, m', order[..|order| - 1]);
    }
  }

  /** Stamping the query tick keeps the handler's invariant on a dictionary. */
  lemma StampedValid(m: SocialCache, now: int)
    requires forall k :: k in m ==> EntryValid(m[k], k) && |m[k].thoughts| > 0
    ensures forall k :: k in Stamped(m, now) ==> EntryValid(Stamped(m, now)[k], k) && |Stamped(m, now)[k].thoughts| > 0
  {
  }

  /** Entries stamped as queried at `now` by AppendMoodThoughts. */
  function Stamped(m: SocialCache, now: int): (r: SocialCache)
    ensures r.Keys == m.Keys
    ensures forall k :: k in r ==> r[k] == m[k].(lastQueryTick := now)
  {
    map k | k in m :: m[k].(lastQueryTick := now)
  }

  class SituationalThoughtHandler {
    const pawn: PawnId
    var cachedThoughts: seq<Thought>
    var lastMoodThoughtsRecalculationTick: int
    var cachedSocialThoughts: SocialCache
    var cachedSocialThoughtsAffectingMood: SocialCache

    predicate Valid()
      reads this
    {
      (forall t :: t in cachedThoughts ==> t.other.None?)
      && (forall k :: k in cachedSocialThoughts ==> EntryValid(cachedSocialThoughts[k], k))
      && (forall k :: k in cachedSocialThoughtsAffectingMood ==>
            EntryValid(cachedSocialThoughtsAffectingMood[k], k) && |cachedSocialThoughtsAffectingMood[k].thoughts| > 0)
    }

    constructor(pawn: PawnId)
      ensures Valid()
      ensures this.pawn == pawn && cachedThoughts == [] && lastMoodThoughtsRecalculationTick == NeverTick
      ensures cachedSocialThoughts == map[] && cachedSocialThoughtsAffectingMood == map[]
    {
      this.pawn := pawn;
      cachedThoughts := [];
      lastMoodThoughtsRecalculationTick := NeverTick;
      cachedSocialThoughts := map[];
      cachedSocialThoughtsAffectingMood := map[];
    }

    /** AppendMoodThoughts: recalculate if due (giving `recalculated`), then append the
        active cached mood thoughts and the active lists of the mood-affecting social
        entries, in the dictionary's order `order`, stamping each entry as queried now. */
    method AppendMoodThoughts(w: ThoughtWorld, outThoughts: seq<Thought>)
      returns (out: seq<Thought>, ghost recalculated: SocialCache, ghost order: seq<PawnId>)
      requires Valid()
      modifies this
      ensures Valid()
      ensures cachedSocialThoughts == old(cachedSocialThoughts)
      ensures w.now - old(lastMoodThoughtsRecalculationTick) < RecalculateStateEveryTicks ==>
        cachedThoughts == old(cachedThoughts) && lastMoodThoughtsRecalculationTick == old(lastMoodThoughtsRecalculationTick)
        && recalculated == old(cachedSocialThoughtsAffectingMood)
      ensures w.now - old(lastMoodThoughtsRecalculationTick) >= RecalculateStateEveryTicks ==>
        cachedThoughts == RecalcMoodList(w, old(cachedThoughts)) && lastMoodThoughtsRecalculationTick == w.now
        && AffectingRecalculated(w, pawn, old(cachedSocialThoughtsAffectingMood), recalculated)
      ensures cachedSocialThoughtsAffectingMood == Stamped(recalculated, w.now)
      ensures forall k :: k in order <==> k in cachedSocialThoughtsAffectingMood
      ensures |order| == |cachedSocialThoughtsAffectingMood|
      ensures out == outThoughts + ActiveOf(cachedThoughts) + ActiveLists(cachedSocialThoughtsAffectingMood, order)
    {
      CheckRecalculateMoodThoughts(w);
      recalculated := cachedSocialThoughtsAffectingMood;
      out, order := AppendCachedMoodThoughts(w.now, outThoughts);
    }

    /** The two loops of AppendMoodThoughts after the recalculation check: the active
        cached mood thoughts, then every mood-affecting entry's active list, each entry
        stamped as queried now. */
    method AppendCachedMoodThoughts(now: int, outThoughts: seq<Thought>) returns (out: seq<Thought>, ghost order: seq<PawnId>)
      requires Valid()
      modifies this
      ensures Valid()
      ensures cachedThoughts == old(cachedThoughts) && cachedSocialThoughts == old(cachedSocialThoughts)
      ensures lastMoodThoughtsRecalculationTick == old(lastMoodThoughtsRecalculationTick)
      ensures cachedSocialThoughtsAffectingMood == Stamped(old(cachedSocialThoughtsAffectingMood), now)
      ensures forall k :: k in order <==> k in cachedSocialThoughtsAffectingMood
      ensures |order| == |cachedSocialThoughtsAffectingMood|
      ensures out == outThoughts + ActiveOf(cachedThoughts) + ActiveLists(cachedSocialThoughtsAffectingMood, order)
    {
      var mid := AppendActive(outThoughts, cachedThoughts);
      var m;
      m, out, order := StampQueried(cachedSocialThoughtsAffectingMood, now, mid);
      StampedValid(cachedSocialThoughtsAffectingMood, now);
      assert forall k :: k in m ==> EntryValid(m[k], k) && |m[k].thoughts| > 0;
      cachedSocialThoughtsAffectingMood := m;
    }

    /** AppendSocialThoughts: recalculate the entry about `otherPawn` (creating it if
        missing) when due, stamp it as queried now and append its active thoughts. */
    method AppendSocialThoughts(w: ThoughtWorld, otherPawn: PawnId, outThoughts: seq<Thought>) returns (out: seq<Thought>)
      requires Valid()
      modifies this
      ensures Valid()
      ensures cachedThoughts == old(cachedThoughts) && cachedSocialThoughtsAffectingMood == old(cachedSocialThoughtsAffectingMood)
      ensures lastMoodThoughtsRecalculationTick == old(lastMoodThoughtsRecalculationTick)
      ensures var e := SocialEntryAfterCheck(w, old(cachedSocialThoughts), otherPawn);
        cachedSocialThoughts == old(cachedSocialThoughts)[otherPawn := e.(lastQueryTick := w.now)]
        && out == outThoughts + e.activeThoughts
    {
      CheckRecalculateSocialThoughts(w, otherPawn);
      var c := cachedSocialThoughts[otherPawn];
      cachedSocialThoughts := cachedSocialThoughts[otherPawn := c.(lastQueryTick := w.now)];
      out := AppendThoughts(outThoughts, c.activeThoughts);
    }

    /** CheckRecalculateMoodThoughts: nothing within 100 ticks of the last run; otherwise
        stamp the tick, recalculate the cached mood thoughts, add the creatable uncached
        non-social ones, and recalculate the mood-affecting social entries. */
    method CheckRecalculateMoodThoughts(w: ThoughtWorld)
      requires Valid()
      modifies this
      ensures Valid()
      ensures cachedSocialThoughts == old(cachedSocialThoughts)
      ensures w.now - old(lastMoodThoughtsRecalculationTick) < RecalculateStateEveryTicks ==>
        cachedThoughts == old(cachedThoughts) && lastMoodThoughtsRecalculationTick == old(lastMoodThoughtsRecalculationTick)
        && cachedSocialThoughtsAffectingMood == old(cachedSocialThoughtsAffectingMood)
      ensures w.now - old(lastMoodThoughtsRecalculationTick) >= RecalculateStateEveryTicks ==>
        lastMoodThoughtsRecalculationTick == w.now
        && cachedThoughts == RecalcMoodList(w, old(cachedThoughts))
        && AffectingRecalculated(w, pawn, old(cachedSocialThoughtsAffectingMood), cachedSocialThoughtsAffectingMood)
    {
      if w.now - lastMoodThoughtsRecalculationTick < RecalculateStateEveryTicks {
        return;
      }
      lastMoodThoughtsRecalculationTick := w.now;
      var ts, tmpCachedThoughts := RecalculateAll(w, cachedThoughts);
      ts := AddCreated(w, ts, w.nonSocialDefs, tmpCachedThoughts, None);
      MoodListAboutNobody(w, cachedThoughts);
      cachedThoughts := ts;
      RecalculateSocialThoughtsAffectingMood(w);
    }

    /** RecalculateSocialThoughtsAffectingMood: the wanted pairs, pruning, creation of the
        missing thoughts, removal of empty entries, and the refresh of the rest. */
    method RecalculateSocialThoughtsAffectingMood(w: ThoughtWorld)
      requires forall t :: t in cachedThoughts ==> t.other.None?
      requires forall k :: k in cachedSocialThoughts ==> EntryValid(cachedSocialThoughts[k], k)
      requires forall k :: k in cachedSocialThoughtsAffectingMood ==> EntryValid(cachedSocialThoughtsAffectingMood[k], k)
      modifies this
      ensures Valid()
      ensures cachedThoughts == old(cachedThoughts) && cachedSocialThoughts == old(cachedSocialThoughts)
      ensures lastMoodThoughtsRecalculationTick == old(lastMoodThoughtsRecalculationTick)
      ensures AffectingRecalculated(w, pawn, old(cachedSocialThoughtsAffectingMood), cachedSocialThoughtsAffectingMood)
    {
      var m0 := cachedSocialThoughtsAffectingMood;
      var toAdd := WantedPairs(w, pawn);
      var m := PruneEntries(m0, toAdd);
      m := AddMissing(w, toAdd, m);
      ghost var m2 := m;
      m := NonEmpty(m);
      m := RefreshEntries(w, m);
      AffectingPhases(w, pawn, m0, m2);
      AffectingValid(w, pawn, m0, m);
      cachedSocialThoughtsAffectingMood := m;
    }

    /** CheckRecalculateSocialThoughts: create the entry about `otherPawn` if missing, and
        recalculate it when due. */
    method CheckRecalculateSocialThoughts(w: ThoughtWorld, otherPawn: PawnId)
      requires Valid()
      modifies this
      ensures Valid()
      ensures cachedSocialThoughts == old(cachedSocialThoughts)[otherPawn := SocialEntryAfterCheck(w, old(cachedSocialThoughts), otherPawn)]
      ensures cachedThoughts == old(cachedThoughts) && cachedSocialThoughtsAffectingMood == old(cachedSocialThoughtsAffectingMood)
      ensures lastMoodThoughtsRecalculationTick == old(lastMoodThoughtsRecalculationTick)
    {
      var c := if otherPawn in cachedSocialThoughts then cachedSocialThoughts[otherPawn] else NewCache;
      assert EntryValid(c, otherPawn);
      if c.ShouldRecalculateState(w.now) {
        c := RecalculateEntry(w, c, otherPawn);
      }
      assert EntryValid(c, otherPawn);
      cachedSocialThoughts := cachedSocialThoughts[otherPawn := c];
    }

    /** Notify_SituationalThoughtsDirty: all three caches emptied. */
    method NotifySituationalThoughtsDirty()
      modifies this
      ensures Valid()
      ensures cachedThoughts == [] && cachedSocialThoughts == map[] && cachedSocialThoughtsAffectingMood == map[]
      ensures lastMoodThoughtsRecalculationTick == old(lastMoodThoughtsRecalculationTick)
    {
      cachedThoughts := [];
      cachedSocialThoughts := map[];
      cachedSocialThoughtsAffectingMood := map[];
    }

    /** RemoveExpiredThoughtsFromCache (the SituationalThoughtInterval tick): both
        dictionaries lose exactly the entries that are expired or whose pawn is discarded. */
    method RemoveExpiredThoughtsFromCache(w: ThoughtWorld)
      requires Valid()
      modifies this
      ensures Valid()
      ensures cachedSocialThoughts == Unexpired(w, old(cachedSocialThoughts))
      ensures cachedSocialThoughtsAffectingMood == Unexpired(w, old(cachedSocialThoughtsAffectingMood))
      ensures cachedThoughts == old(cachedThoughts) && lastMoodThoughtsRecalculationTick == old(lastMoodThoughtsRecalculationTick)
    {
      cachedSocialThoughts := Unexpired(w, cachedSocialThoughts);
      cachedSocialThoughtsAffectingMood := Unexpired(w, cachedSocialThoughtsAffectingMood);
    }
  }

  lemma MoodListAboutNobody(w: ThoughtWorld, ts: seq<Thought>)
    requires forall t :: t in ts ==> t.other.None?
    ensures forall t :: t in RecalcMoodList(w, ts) ==> t.other.None?
  {
    RecalculatedAllAbout(w, ts, None);
    NewThoughtsMembers(w, w.nonSocialDefs, Defs(ts), None);
  }

  /** Recalculation keeps every thought's other pawn. */
  lemma RecalculatedAllAbout(w: ThoughtWorld, ts: seq<Thought>, o: Option<PawnId>)
    ensures (forall t :: t in ts ==> t.other == o) ==> forall t :: t in RecalculatedAll(w, ts) ==> t.other == o
  {
    var a := RecalculatedAll(w, ts);
    if forall t :: t in ts ==> t.other == o {
      forall t | t in a ensures t.other == o {
        var i :| 0 <= i < |a| && a[i] == t;
        assert ts[i] in ts;
      }
    }
  }

  // ---------------------------------------------------------------------------
  // The loops of the handler, on values
  // ---------------------------------------------------------------------------

  /** CheckRecalculateSocialThoughts' recalculation of one entry: stamp it, recalculate
      its thoughts, create the uncached social ones and rebuild the active list. */
  method RecalculateEntry(w: ThoughtWorld, c0: CachedSocialThoughts, otherPawn: PawnId) returns (c: CachedSocialThoughts)
    ensures c == RecalcSocialEntry(w, c0, otherPawn)
  {
    c := c0.(lastRecalculationTick := w.now);
    var ts, tmpCachedSocialThoughts := RecalculateAll(w, c.thoughts);
    ts := AddCreated(w, ts, w.socialDefs, tmpCachedSocialThoughts, Some(otherPawn));
    var active := AppendActive([], ts);
    c := c.(thoughts := ts, activeThoughts := active);
  }

  /** The loop appending the active members of `ts`. */
  method AppendActive(out0: seq<Thought>, ts: seq<Thought>) returns (out: seq<Thought>)
    ensures out == out0 + ActiveOf(ts)
  {
    out := out0;
    var i := 0;
    while i < |ts|
      invariant 0 <= i <= |ts|
      invariant out == out0 + ActiveOf(ts[..i])
    {
      assert ts[..i + 1] == ts[..i] + [ts[i]];
      ActiveOfAppend(ts[..i], [ts[i]]);
      if ts[i].active {
        out := out + [ts[i]];
      }
      i := i + 1;
    }
    assert ts[..i] == ts;
  }

  /** The loop appending all of `ts`. */
  method AppendThoughts(out0: seq<Thought>, ts: seq<Thought>) returns (out: seq<Thought>)
    ensures out == out0 + ts
  {
    out := out0;
    var i := 0;
    while i < |ts|
      invariant 0 <= i <= |ts|
      invariant out == out0 + ts[..i]
    {
      assert ts[..i + 1] == ts[..i] + [ts[i]];
      out := out + [ts[i]];
      i := i + 1;
    }
    assert ts[..i] == ts;
  }

  /** The foreach of AppendMoodThoughts over the mood-affecting dictionary. */
  method StampQueried(m0: SocialCache, now: int, out0: seq<Thought>) returns (m: SocialCache, out: seq<Thought>, ghost order: seq<PawnId>)
    ensures m == Stamped(m0, now)
    ensures forall k :: k in order <==> k in m0
    ensures |order| == |m0|
    ensures out == out0 + ActiveLists(m, order)
  {
    m := m0;
    out := out0;
    var keys := m0.Keys;
    order := [];
    while keys != {}
      invariant StampInv(m0, m, keys, order, now)
      invariant out == out0 + ActiveLists(m0, order)
      decreases |keys|
    {
      var k :| k in keys;
      var entry := m[k];
      StampInvStep(m0, m, keys, order, now, k);
      m := m[k := entry.(lastQueryTick := now)];
      out := AppendThoughts(out, entry.activeThoughts);
      order := order + [k];
      keys := keys - {k};
    }
    StampInvDone(m0, m, order, now);
  }

  /** The loop's invariant: `keys` are the entries still to visit, `order` the ones visited,
      whose query ticks are stamped. */
  ghost predicate StampInv(m0: SocialCache, m: SocialCache, keys: set<PawnId>, order: seq<PawnId>, now: int)
  {
    keys <= m0.Keys && m.Keys == m0.Keys
    && (forall k :: k in order <==> k in m0 && k !in keys)
    && |order| + |keys| == |m0.Keys|
    && (forall k :: k in keys ==> m[k] == m0[k])
    && (forall k :: k in m0 && k !in keys ==> m[k] == m0[k].(lastQueryTick := now))
  }

  lemma StampInvStep(m0: SocialCache, m: SocialCache, keys: set<PawnId>, order: seq<PawnId>, now: int, k: PawnId)
    requires StampInv(m0, m, keys, order, now) && k in keys
    ensures k in m && m[k] == m0[k]
    ensures StampInv(m0, m[k := m[k].(lastQueryTick := now)], keys - {k}, order + [k], now)
    ensures forall j :: j in order ==> j in m0
    ensures ActiveLists(m0, order + [k]) == ActiveLists(m0, order) + m[k].activeThoughts
    ensures |keys - {k}| < |keys|
  {
    ActiveListsSnoc(m0, order, k);
  }

  lemma StampInvDone(m0: SocialCache, m: SocialCache, order: seq<PawnId>, now: int)
    requires StampInv(m0, m, {}, order, now)
    ensures m == Stamped(m0, now)
    ensures forall k :: k in order <==> k in m0
    ensures |order| == |m0|
    ensures ActiveLists(m0, order) == ActiveLists(m, order)
  {
    ActiveListsSame(m0, m, order);
    assert m == Stamped(m0, now);
  }

  lemma ActiveListsSnoc(m: SocialCache, order: seq<PawnId>, k: PawnId)
    requires forall j :: j in order ==> j in m
    requires k in m
    ensures ActiveLists(m, order + [k]) == ActiveLists(m, order) + m[k].activeThoughts
  {
    assert (order + [k])[..|order|] == order;
  }

  /** The loop recalculating every cached thought and collecting the cached defs. */
  method RecalculateAll(w: ThoughtWorld, ts0: seq<Thought>) returns (ts: seq<Thought>, tmp: set<ThoughtDef>)
    ensures ts == RecalculatedAll(w, ts0) && tmp == Defs(ts0)
  {
    ts := ts0;
    tmp := {};
    var i := 0;
    while i < |ts|
      invariant 0 <= i <= |ts| == |ts0|
      invariant forall j :: 0 <= j < i ==> ts[j] == Recalculated(w, ts0[j])
      invariant forall j :: i <= j < |ts0| ==> ts[j] == ts0[j]
      invariant forall d :: d in tmp <==> exists j :: 0 <= j < i && ts0[j].def == d
    {
      ts := ts[i := Recalculated(w, ts[i])];
      tmp := tmp + {ts[i].def};
      i := i + 1;
    }
    assert ts == RecalculatedAll(w, ts0);
    assert tmp == Defs(ts0) by {
      forall d | d in Defs(ts0) ensures d in tmp {
        var t :| t in ts0 && t.def == d;
        var j :| 0 <= j < |ts0| && ts0[j] == t;
      }
    }
  }

  /** The loop creating a thought for every def of `defs` not in `existing`. */
  method AddCreated(w: ThoughtWorld, ts0: seq<Thought>, defs: seq<ThoughtDef>, existing: set<ThoughtDef>, other: Option<PawnId>)
    returns (ts: seq<Thought>)
    ensures ts == ts0 + NewThoughts(w, defs, existing, other)
  {
    ts := ts0;
    var j := 0;
    while j < |defs|
      invariant 0 <= j <= |defs|
      invariant ts + NewThoughts(w, defs[j..], existing, other) == ts0 + NewThoughts(w, defs, existing, other)
    {
      assert defs[j..][1..] == defs[j + 1..];
      assert NewThoughts(w, defs[j..], existing, other)
          == Created(w, defs[j], existing, other) + NewThoughts(w, defs[j + 1..], existing, other);
      ghost var before := ts;
      if defs[j] !in existing {
        var thought := if other.Some? then TryCreateSocialThought(w, defs[j], other.value) else TryCreateThought(w, defs[j]);
        if thought.Some? {
          ts := ts + [thought.value];
        }
      }
      assert ts == before + Created(w, defs[j], existing, other);
      j := j + 1;
    }
    assert defs[j..] == [];
  }

  /** Phase one: the loop over the social defs collecting tmpToAdd. */
  method WantedPairs(w: ThoughtWorld, self: PawnId) returns (toAdd: set<Pair>)
    ensures toAdd == ToAdd(w, self)
  {
    toAdd := {};
    var defs := w.socialDefs;
    var i := 0;
    while i < |defs|
      invariant 0 <= i <= |defs|
      invariant forall d, c :: (d, c) in toAdd <==> d in defs[..i] && w.affectsMood(d) && c in w.candidates(d) && c != self
    {
      assert defs[..i + 1] == defs[..i] + [defs[i]];
      if w.affectsMood(defs[i]) {
        toAdd := AddCandidates(w, self, defs[i], toAdd);
      }
      i := i + 1;
    }
    assert defs[..i] == defs;
    forall pr ensures pr in toAdd <==> pr in ToAdd(w, self) {
      var (d, c) := pr;
      assert pr == (d, c);
      assert (d, c) in toAdd <==> d in defs && w.affectsMood(d) && c in w.candidates(d) && c != self;
      assert (d, c) in ToAdd(w, self) <==> d in defs && w.affectsMood(d) && c in w.candidates(d) && c != self;
    }
    assert toAdd == ToAdd(w, self);
  }

  method AddCandidates(w: ThoughtWorld, self: PawnId, d: ThoughtDef, toAdd0: set<Pair>) returns (toAdd: set<Pair>)
    ensures forall d', c :: (d', c) in toAdd <==> (d', c) in toAdd0 || (d' == d && c in w.candidates(d) && c != self)
  {
    toAdd := toAdd0;
    var cs := w.candidates(d);
    var j := 0;
    while j < |cs|
      invariant 0 <= j <= |cs|
      invariant forall d', c :: (d', c) in toAdd <==> (d', c) in toAdd0 || (d' == d && c in cs[..j] && c != self)
    {
      assert cs[..j + 1] == cs[..j] + [cs[j]];
      if cs[j] != self {
        toAdd := toAdd + {(d, cs[j])};
      }
      j := j + 1;
    }
    assert cs[..j] == cs;
  }

  /** Phase two: each entry's backwards RemoveAt loop over unwanted pairs. */
  method PruneEntries(m0: SocialCache, toAdd: set<Pair>) returns (m: SocialCache)
    ensures m == Pruned(m0, toAdd)
  {
    m := m0;
    var keys := m0.Keys;
    while keys != {}
      invariant keys <= m0.Keys && m.Keys == m0.Keys
      invariant forall k :: k in keys ==> m[k] == m0[k]
      invariant forall k :: k in m0 && k !in keys ==> m[k] == Pruned(m0, toAdd)[k]
      decreases |keys|
    {
      var k :| k in keys;
      var entry := m[k];
      var thoughts := PruneThoughts(entry.thoughts, k, toAdd);
      m := m[k := entry.(thoughts := thoughts)];
      keys := keys - {k};
    }
  }

  method PruneThoughts(ts: seq<Thought>, k: PawnId, toAdd: set<Pair>) returns (r: seq<Thought>)
    ensures r == KeepPairs(ts, k, toAdd)
  {
    r := ts;
    var j := |ts| - 1;
    while j >= 0
      invariant -1 <= j < |ts|
      invariant r == ts[..j + 1] + KeepPairs(ts[j + 1..], k, toAdd)
    {
      PruneStep(ts, j, k, toAdd, r);
      if (r[j].def, k) !in toAdd {
        r := r[..j] + r[j + 1..];
      }
      j := j - 1;
    }
  }

  /** One iteration of the backwards loop: removing (or keeping) the thought at `j` extends
      the pruned suffix by one. */
  lemma PruneStep(ts: seq<Thought>, j: int, k: PawnId, toAdd: set<Pair>, r: seq<Thought>)
    requires 0 <= j < |ts|
    requires r == ts[..j + 1] + KeepPairs(ts[j + 1..], k, toAdd)
    ensures j < |r| && r[j] == ts[j]
    ensures (ts[j].def, k) !in toAdd ==> r[..j] + r[j + 1..] == ts[..j] + KeepPairs(ts[j..], k, toAdd)
    ensures (ts[j].def, k) in toAdd ==> r == ts[..j] + KeepPairs(ts[j..], k, toAdd)
  {
    var tail := KeepPairs(ts[j + 1..], k, toAdd);
    assert ts[j..][1..] == ts[j + 1..];
    assert ts[..j + 1] == ts[..j] + [ts[j]];
    assert r == ts[..j] + [ts[j]] + tail;
    if (ts[j].def, k) !in toAdd {
      assert r[..j] == ts[..j];
      assert r[j + 1..] == tail;
    } else {
      assert r == ts[..j] + ([ts[j]] + tail);
    }
  }

  /** Phase three: a thought for every wanted pair whose def is not cached for its pawn. */
  method AddMissing(w: ThoughtWorld, toAdd: set<Pair>, m0: SocialCache) returns (m: SocialCache)
    requires forall pr :: pr in toAdd ==> pr.1 >= 0
    ensures Added(w, toAdd, m0, m)
  {
    m := m0;
    var pending := toAdd;
    AddedNothing(w, toAdd, m0);
    while pending != {}
      invariant pending <= toAdd
      invariant Added(w, toAdd - pending, m0, m)
      decreases |pending|
    {
      var pair :| pair in pending;
      var (first, second) := pair;
      ghost var before := m;
      m := AddPair(w, m, first, second);
      AddedPair(w, toAdd - pending, m0, before, m, first, second);
      assert toAdd - pending + {pair} == toAdd - (pending - {pair});
      pending := pending - {pair};
    }
    assert toAdd - pending == toAdd;
  }

  /** One iteration of phase three: look the def up in the pawn's entry and, if it is
      missing and the thought can be created, append it (creating the entry if need be). */
  method AddPair(w: ThoughtWorld, m0: SocialCache, first: ThoughtDef, second: PawnId) returns (m: SocialCache)
    ensures var cached := second in m0 && first in Defs(m0[second].thoughts);
      if !cached && Creatable(w, first, Some(second)) then
        m == m0[second := BaseOf(m0, second).(thoughts := BaseOf(m0, second).thoughts + [Thought(first, Some(second), true)])]
      else m == m0
  {
    m := m0;
    var flag := second in m;
    var flag2 := false;
    if flag {
      flag2 := ContainsDef(m[second].thoughts, first);
    }
    if !flag2 {
      var thought := TryCreateSocialThought(w, first, second);
      if thought.Some? {
        var entry := if flag then m[second] else NewCache;
        m := m[second := entry.(thoughts := entry.thoughts + [thought.value])];
      }
    }
  }

  method ContainsDef(ts: seq<Thought>, d: ThoughtDef) returns (found: bool)
    ensures found <==> d in Defs(ts)
  {
    found := false;
    var k := 0;
    while k < |ts|
      invariant 0 <= k <= |ts|
      invariant forall i :: 0 <= i < k ==> ts[i].def != d
    {
      if ts[k].def == d {
        found := true;
        return;
      }
      k := k + 1;
    }
  }

  /** Phase four: every entry's thoughts recalculated and its active list rebuilt. */
  method RefreshEntries(w: ThoughtWorld, m0: SocialCache) returns (m: SocialCache)
    ensures m == RefreshedAll(w, m0)
  {
    m := m0;
    var keys := m0.Keys;
    while keys != {}
      invariant keys <= m0.Keys && m.Keys == m0.Keys
      invariant forall k :: k in keys ==> m[k] == m0[k]
      invariant forall k :: k in m0 && k !in keys ==> m[k] == Refreshed(w, m0[k])
      decreases |keys|
    {
      var k :| k in keys;
      var entry := RefreshEntry(w, m[k]);
      m := m[k := entry];
      keys := keys - {k};
    }
  }

  method RefreshEntry(w: ThoughtWorld, c: CachedSocialThoughts) returns (r: CachedSocialThoughts)
    ensures r == Refreshed(w, c)
  {
    var ts := c.thoughts;
    var active: seq<Thought> := [];
    var tick := c.lastRecalculationTick;
    var l := 0;
    while l < |ts|
      invariant 0 <= l <= |ts| == |c.thoughts|
      invariant forall j :: 0 <= j < l ==> ts[j] == Recalculated(w, c.thoughts[j])
      invariant forall j :: l <= j < |ts| ==> ts[j] == c.thoughts[j]
      invariant active == ActiveOf(ts[..l])
      invariant tick == if l > 0 then w.now else c.lastRecalculationTick
    {
      var t := Recalculated(w, ts[l]);
      ts := ts[l := t];
      assert ts[..l + 1] == ts[..l] + [t];
      ActiveOfAppend(ts[..l], [t]);
      tick := w.now;
      if t.active {
        active := active + [t];
      }
      l := l + 1;
    }
    assert ts[..l] == ts;
    assert ts == RecalculatedAll(w, c.thoughts);
    r := c.(thoughts := ts, activeThoughts := active, lastRecalculationTick := tick);
  }

  /** The entry about `other` once CheckRecalculateSocialThoughts has run. */
  function SocialEntryAfterCheck(w: ThoughtWorld, m: SocialCache, other: PawnId): CachedSocialThoughts
  {
    var c := BaseOf(m, other);
    if c.ShouldRecalculateState(w.now) then RecalcSocialEntry(w, c, other) else c
  }

  function Unexpired(w: ThoughtWorld, m: SocialCache): (r: SocialCache)
    ensures forall k :: k in r <==> k in m && !m[k].Expired(w.now) && !w.discarded(k)
    ensures forall k :: k in r ==> r[k] == m[k]
  {
    map k | k in m && !(m[k].Expired(w.now) || w.discarded(k)) :: m[k]
  }

  lemma AddedNothing(w: ThoughtWorld, toAdd: set<Pair>, m0: SocialCache)
    ensures Added(w, toAdd - toAdd, m0, m0)
  {
    forall k | k in m0 ensures EntryAdded(w, toAdd - toAdd, BaseOf(m0, k), k, m0[k]) {
      assert m0[k].thoughts[..|m0[k].thoughts|] == m0[k].thoughts;
    }
  }

  /** One iteration of phase three keeps `Added`. */
  lemma AddedPair(w: ThoughtWorld, done: set<Pair>, m0: SocialCache, m: SocialCache, m': SocialCache, d: ThoughtDef, k: PawnId)
    requires Added(w, done, m0, m) && (d, k) !in done
    requires var cached := k in m && d in Defs(m[k].thoughts);
      if !cached && Creatable(w, d, Some(k)) then
        m' == m[k := BaseOf(m, k).(thoughts := BaseOf(m, k).thoughts + [Thought(d, Some(k), true)])]
      else m' == m
    ensures Added(w, done + {(d, k)}, m0, m')
  {
    AddedLookup(w, done, m0, m, d, k);
    AddedStep(w, done, m0, m, m', d, k);
  }

  /** Looking a pair up during phase three: its def is cached for its pawn exactly when it
      was cached before the phase (a pair is met once, and only met pairs add thoughts). */
  lemma AddedLookup(w: ThoughtWorld, done: set<Pair>, m0: SocialCache, m: SocialCache, d: ThoughtDef, k: PawnId)
    requires Added(w, done, m0, m) && (d, k) !in done
    ensures (k in m && d in Defs(m[k].thoughts)) <==> d in Defs(BaseOf(m0, k).thoughts)
  {
    if k in m {
      EntryLookup(w, done, BaseOf(m0, k), k, m[k], d);
    }
  }

  lemma EntryLookup(w: ThoughtWorld, done: set<Pair>, b: CachedSocialThoughts, k: PawnId, e: CachedSocialThoughts, d: ThoughtDef)
    requires EntryAdded(w, done, b, k, e) && (d, k) !in done
    ensures d in Defs(e.thoughts) <==> d in Defs(b.thoughts)
  {
    EntryAddedKeepsDefs(w, done, b, k, e);
    if d in Defs(e.thoughts) {
      var t :| t in e.thoughts && t.def == d;
      var i :| 0 <= i < |e.thoughts| && e.thoughts[i] == t;
      if i < |b.thoughts| {
        assert t == b.thoughts[i];
      }
    }
  }

  lemma EntryAddedMonotone(w: ThoughtWorld, done: set<Pair>, done': set<Pair>, b: CachedSocialThoughts, k: PawnId, e: CachedSocialThoughts)
    requires EntryAdded(w, done, b, k, e) && done <= done'
    ensures EntryAdded(w, done', b, k, e)
  {
  }

  lemma EntryAddedSnoc(w: ThoughtWorld, done: set<Pair>, b: CachedSocialThoughts, k: PawnId, e: CachedSocialThoughts, d: ThoughtDef)
    requires EntryAdded(w, done, b, k, e) && (d, k) in done
    requires Creatable(w, d, Some(k)) && d !in Defs(b.thoughts)
    ensures EntryAdded(w, done, b, k, e.(thoughts := e.thoughts + [Thought(d, Some(k), true)]))
    ensures d in Defs(e.thoughts + [Thought(d, Some(k), true)])
  {
    var t := Thought(d, Some(k), true);
    var nt := e.thoughts + [t];
    assert nt[..|b.thoughts|] == b.thoughts;
    assert nt[|b.thoughts|..] == e.thoughts[|b.thoughts|..] + [t];
    assert nt[|nt| - 1] == t;
  }

  /** One pair of phase three keeps `Added`. */
  lemma AddedStep(w: ThoughtWorld, done: set<Pair>, m0: SocialCache, m: SocialCache, m': SocialCache, d: ThoughtDef, k: PawnId)
    requires Added(w, done, m0, m) && (d, k) !in done
    requires NeedsCreate(w, m0, d, k) ==>
      m' == m[k := BaseOf(m, k).(thoughts := BaseOf(m, k).thoughts + [Thought(d, Some(k), true)])]
    requires !NeedsCreate(w, m0, d, k) ==> m' == m
    ensures Added(w, done + {(d, k)}, m0, m')
  {
    var done' := done + {(d, k)};
    forall k0 | k0 in m' ensures EntryAdded(w, done', BaseOf(m0, k0), k0, m'[k0]) {
      if k0 == k && NeedsCreate(w, m0, d, k) {
        if k !in m {
          assert BaseOf(m, k) == NewCache == BaseOf(m0, k);
        }
        EntryAddedMonotone(w, done, done', BaseOf(m0, k), k, BaseOf(m, k));
        EntryAddedSnoc(w, done', BaseOf(m0, k), k, BaseOf(m, k), d);
      } else {
        EntryAddedMonotone(w, done, done', BaseOf(m0, k0), k0, m[k0]);
      }
    }
    if NeedsCreate(w, m0, d, k) {
      forall d0, k0 | (d0, k0) in done && NeedsCreate(w, m0, d0, k0) && k0 == k
        ensures d0 in Defs(m'[k0].thoughts)
      {
        var t :| t in m[k].thoughts && t.def == d0;
        assert t in m'[k].thoughts;
      }
      if k !in m {
        assert BaseOf(m, k) == NewCache == BaseOf(m0, k);
      }
      EntryAddedSnoc(w, done', BaseOf(m0, k), k, BaseOf(m, k), d);
    }
  }

}
