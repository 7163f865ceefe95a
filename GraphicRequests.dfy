/** Verse/GraphicRequest.cs: the key under which graphics are cached. Two requests are
    the same key when all nine fields agree; the hash folds the nine fields in a fixed
    order through the engine's hash combiner, which is a parameter here. References to
    engine objects (graphic class, shader, graphic data) are identities, `None` being null. */
module GraphicRequests {
  import opened Common

  datatype Color = Color(r: real, g: real, b: real, a: real)

  /** A List<ShaderParameter> object: its identity and its number of elements. */
  datatype ShaderParameterList = ShaderParameterList(id: nat, count: nat)

  datatype GraphicRequest = GraphicRequest(
    graphicClass: Option<nat>,
    path: Option<string>,
    shader: Option<nat>,
    drawSize: Vec2,
    color: Color,
    colorTwo: Color,
    graphicData: Option<nat>,
    renderQueue: int,
    shaderParameters: Option<ShaderParameterList>)

  predicate NullOrEmpty(l: Option<ShaderParameterList>)
  {
    l.None? || l.value.count == 0
  }

  /** The constructor: every field as given, except that a null or empty parameter list is
      stored as null, so a stored list is never empty. */
  function NewGraphicRequest(graphicClass: Option<nat>, path: Option<string>, shader: Option<nat>,
                             drawSize: Vec2, color: Color, colorTwo: Color, graphicData: Option<nat>,
                             renderQueue: int, shaderParameters: Option<ShaderParameterList>): (r: GraphicRequest)
    ensures r.shaderParameters.None? <==> NullOrEmpty(shaderParameters)
    ensures r.shaderParameters.Some? ==> r.shaderParameters == shaderParameters && r.shaderParameters.value.count > 0
    ensures r.(shaderParameters := shaderParameters) ==
      GraphicRequest(graphicClass, path, shader, drawSize, color, colorTwo, graphicData, renderQueue, shaderParameters)
  {
    GraphicRequest(graphicClass, path, shader, drawSize, color, colorTwo, graphicData, renderQueue,
                   if NullOrEmpty(shaderParameters) then None else shaderParameters)
  }

  /** Equals(GraphicRequest): field by field; it is exactly equality of requests. */
  predicate Equals(a: GraphicRequest, b: GraphicRequest)
    ensures Equals(a, b) <==> a == b
  {
    a.graphicClass == b.graphicClass && a.path == b.path && a.shader == b.shader
    && a.drawSize == b.drawSize && a.color == b.color && a.colorTwo == b.colorTwo
    && a.graphicData == b.graphicData && a.renderQueue == b.renderQueue
    && a.shaderParameters == b.shaderParameters
  }

  /** Equals is an equivalence relation. */
  lemma EqualsIsEquivalence(a: GraphicRequest, b: GraphicRequest, c: GraphicRequest)
    ensures Equals(a, a)
    ensures Equals(a, b) ==> Equals(b, a)
    ensures Equals(a, b) && Equals(b, c) ==> Equals(a, c)
  {
  }

  function OperatorEq(lhs: GraphicRequest, rhs: GraphicRequest): (r: bool)
    ensures r <==> lhs == rhs
  {
    Equals(lhs, rhs)
  }

  function OperatorNeq(lhs: GraphicRequest, rhs: GraphicRequest): (r: bool)
    ensures r <==> lhs != rhs
    ensures r == !OperatorEq(lhs, rhs)
  {
    !OperatorEq(lhs, rhs)
  }

  /** The argument of Equals(object): null, a boxed request, or an object of another type. */
  datatype Object = NullObject | BoxedRequest(request: GraphicRequest) | OtherObject(typeId: nat)

  function EqualsObject(self: GraphicRequest, obj: Object): (r: bool)
    ensures r <==> obj == BoxedRequest(self)
    ensures !obj.BoxedRequest? ==> !r
  {
    obj.BoxedRequest? && Equals(self, obj.request)
  }

  /** One value handed to the hash combiner, tagged with the overload it goes through. */
  datatype HashInput =
    | TypeInput(typeRef: Option<nat>)
    | StringInput(text: Option<string>)
    | ShaderInput(shaderRef: Option<nat>)
    | Vector2Input(vector: Vec2)
    | ColorInput(colorValue: Color)
    | GraphicDataInput(dataRef: Option<nat>)
    | IntInput(number: int)
    | ShaderParametersInput(list: Option<ShaderParameterList>)

  /** The nine fields in the order GetHashCode combines them. */
  function HashInputs(r: GraphicRequest): seq<HashInput>
  {
    [TypeInput(r.graphicClass), StringInput(r.path), ShaderInput(r.shader),
     Vector2Input(r.drawSize), ColorInput(r.color), ColorInput(r.colorTwo),
     GraphicDataInput(r.graphicData), IntInput(r.renderQueue),
     ShaderParametersInput(r.shaderParameters)]
  }

  /** The inputs determine the request: nothing is lost on the way to the combiner. */
  lemma HashInputsInjective(a: GraphicRequest, b: GraphicRequest)
    ensures HashInputs(a) == HashInputs(b) <==> a == b
  {
    if HashInputs(a) == HashInputs(b) {
      assert HashInputs(a)[0] == HashInputs(b)[0];
      assert HashInputs(a)[1] == HashInputs(b)[1];
      assert HashInputs(a)[2] == HashInputs(b)[2];
      assert HashInputs(a)[3] == HashInputs(b)[3];
      assert HashInputs(a)[4] == HashInputs(b)[4];
      assert HashInputs(a)[5] == HashInputs(b)[5];
      assert HashInputs(a)[6] == HashInputs(b)[6];
      assert HashInputs(a)[7] == HashInputs(b)[7];
      assert HashInputs(a)[8] == HashInputs(b)[8];
    }
  }

  /** Threading the seed through the combiner, left to right. */
  function Fold(seed: int, inputs: seq<HashInput>, combine: (int, HashInput) -> int): int
    decreases |inputs|
  {
    if |inputs| == 0 then seed else Fold(combine(seed, inputs[0]), inputs[1..], combine)
  }

  /** Folding a concatenation folds the second part from where the first one ended. */
  lemma {:induction false} FoldAppend(seed: int, xs: seq<HashInput>, ys: seq<HashInput>, combine: (int, HashInput) -> int)
    ensures Fold(seed, xs + ys, combine) == Fold(Fold(seed, xs, combine), ys, combine)
    decreases |xs|
  {
    if |xs| > 0 {
      assert (xs + ys)[0] == xs[0];
      assert (xs + ys)[1..] == xs[1..] + ys;
      FoldAppend(combine(seed, xs[0]), xs[1..], ys, combine);
    } else {
      assert xs + ys == ys;
    }
  }

  /** The request after GetHashCode's first step: a null path replaced by the bad-texture path. */
  function WithPath(r: GraphicRequest, badTexPath: string): (n: GraphicRequest)
    ensures n.path.Some?
    ensures r.path.Some? ==> n == r
    ensures n.(path := r.path) == r
  {
    if r.path.None? then r.(path := Some(badTexPath)) else r
  }

  /** The hash GetHashCode returns, in terms of the request it leaves behind. */
  function HashOf(r: GraphicRequest, combine: (int, HashInput) -> int): int
  {
    Fold(0, HashInputs(r), combine)
  }

  /** GetHashCode: writes the path back into the (struct) request when it was null, then
      combines the fields one after another starting from seed 0. */
  method GetHashCode(self: GraphicRequest, badTexPath: string, combine: (int, HashInput) -> int)
    returns (hash: int, after: GraphicRequest)
    ensures after == WithPath(self, badTexPath)
    ensures hash == HashOf(after, combine)
  {
    after := self;
    if after.path == None {
      after := after.(path := Some(badTexPath));
    }
    var seed := 0;
    seed := combine(seed, TypeInput(after.graphicClass));
    seed := combine(seed, StringInput(after.path));
    seed := combine(seed, ShaderInput(after.shader));
    seed := combine(seed, Vector2Input(after.drawSize));
    seed := combine(seed, ColorInput(after.color));
    seed := combine(seed, ColorInput(after.colorTwo));
    seed := combine(seed, GraphicDataInput(after.graphicData));
    seed := combine(seed, IntInput(after.renderQueue));
    hash := combine(seed, ShaderParametersInput(after.shaderParameters));
    FoldNine(after, combine);
  }

  lemma FoldNine(r: GraphicRequest, combine: (int, HashInput) -> int)
    ensures HashOf(r, combine) ==
      combine(combine(combine(combine(combine(combine(combine(combine(combine(0,
        TypeInput(r.graphicClass)), StringInput(r.path)), ShaderInput(r.shader)),
        Vector2Input(r.drawSize)), ColorInput(r.color)), ColorInput(r.colorTwo)),
        GraphicDataInput(r.graphicData)), IntInput(r.renderQueue)),
        ShaderParametersInput(r.shaderParameters))
  {
    var s := HashInputs(r);
    var h0 := 0;
    var h1 := combine(h0, s[0]);
    var h2 := combine(h1, s[1]);
    var h3 := combine(h2, s[2]);
    var h4 := combine(h3, s[3]);
    var h5 := combine(h4, s[4]);
    var h6 := combine(h5, s[5]);
    var h7 := combine(h6, s[6]);
    var h8 := combine(h7, s[7]);
    var h9 := combine(h8, s[8]);
    FoldStep(h0, s, 0, combine);
    FoldStep(h1, s, 1, combine);
    FoldStep(h2, s, 2, combine);
    FoldStep(h3, s, 3, combine);
    FoldStep(h4, s, 4, combine);
    FoldStep(h5, s, 5, combine);
    FoldStep(h6, s, 6, combine);
    FoldStep(h7, s, 7, combine);
    FoldStep(h8, s, 8, combine);
    assert s[0..] == s;
    assert s[9..] == [];
  }

  lemma FoldStep(seed: int, s: seq<HashInput>, k: nat, combine: (int, HashInput) -> int)
    requires k < |s|
    ensures Fold(seed, s[k..], combine) == Fold(combine(seed, s[k]), s[k + 1..], combine)
  {
    assert s[k..][1..] == s[k + 1..];
  }

  /** Requests equal under Equals hash alike, whichever the combiner, and a request whose
      path is null hashes like the same request carrying the bad-texture path. */
  lemma HashRespectsEquals(a: GraphicRequest, b: GraphicRequest, badTexPath: string, combine: (int, HashInput) -> int)
    ensures Equals(a, b) ==> HashOf(WithPath(a, badTexPath), combine) == HashOf(WithPath(b, badTexPath), combine)
    ensures a.path.None? ==>
      HashOf(WithPath(a, badTexPath), combine) == HashOf(a.(path := Some(badTexPath)), combine)
  {
  }

  /** A second GetHashCode on the request the first one left behind changes nothing and
      returns the same hash. */
  lemma HashIsStable(r: GraphicRequest, badTexPath: string, combine: (int, HashInput) -> int)
    ensures WithPath(WithPath(r, badTexPath), badTexPath) == WithPath(r, badTexPath)
    ensures HashOf(WithPath(WithPath(r, badTexPath), badTexPath), combine) == HashOf(WithPath(r, badTexPath), combine)
  {
  }
}
