/** The feature vector of a (task, recipe) pair, which the bandit learns over. */
module Context {
  import opened Reals
  import opened LinAlg
  import opened Labels
  import opened Wrappers

  datatype TaskDescriptor = TaskDescriptor(isClassification: bool, n: int, d: int, difficulty: real, nClasses: int)

  /** A recipe-shaped proposal, or one that only has a name and an author. */
  datatype RecipeDict = Shaped(recipe: Recipe) | Raw(text: string, source: string)

  /** The two transcendental curves of the encoding. */
  datatype Curves = Curves(log10: real -> real, tanh: real -> real)

  const TASK_DIM := 5
  const RECIPE_DIM := 10
  const CONTEXT_DIM: nat := 16

  const BASE_VOCAB: seq<string> := ["hist_gbm", "rf", "logreg", "svc_rbf", "ridge", "gbr"]

  function TaskVec(c: Curves, td: TaskDescriptor): (v: Vec)
    ensures |v| == TASK_DIM
  {
    [if td.isClassification then 1.0 else 0.0,
     c.log10(AtLeastOne(td.n) as real + 1.0) / 6.0,
     c.log10(AtLeastOne(td.d) as real + 1.0) / 4.0,
     c.tanh(td.difficulty),
     (if td.nClasses < 20 then td.nClasses else 20) as real / 20.0]
  }

  function IndexOf(s: seq<string>, x: string): (i: nat)
    ensures i <= |s|
    ensures i < |s| ==> s[i] == x
    ensures x in s <==> i < |s|
  {
    if s == [] then 0 else if s[0] == x then 0 else 1 + IndexOf(s[1..], x)
  }

  /** One-hot in the fixed vocabulary; all zero for anything else. */
  function BaseVec(rd: RecipeDict): (v: Vec)
    ensures |v| == 6
  {
    var i := if rd.Shaped? then IndexOf(BASE_VOCAB, rd.recipe.base) else 6;
    AxisVec(6, i, 1.0)
  }

  function Bit(b: bool): real {
    if b then 1.0 else 0.0
  }

  function DegreeShare(poly: Option<int>): real {
    var d := if poly.Some? then poly.value else 0;
    (if d < 3 then d else 3) as real / 3.0
  }

  /** Scale, poly, target_log. */
  function EnhancerVec(rd: RecipeDict): (v: Vec)
    ensures |v| == 3
  {
    match rd
    case Shaped(r) => [Bit(Flag(r.scale)), DegreeShare(r.poly), Bit(Flag(r.targetLog))]
    case Raw(_, _) => [0.0, 0.0, 0.0]
  }

  function EnhancerMass(rd: RecipeDict): real {
    var v := EnhancerVec(rd);
    v[0] + v[1] + v[2]
  }

  function Interaction(c: Curves, td: TaskDescriptor, rd: RecipeDict): real {
    c.tanh(td.difficulty) * EnhancerMass(rd)
  }

  /** Task descriptor, recipe descriptor with a bias term, and their interaction. */
  function Phi(c: Curves, td: TaskDescriptor, rd: RecipeDict): (v: Vec)
    ensures |v| == CONTEXT_DIM
  {
    TaskVec(c, td) + BaseVec(rd) + EnhancerVec(rd) + [1.0] + [Interaction(c, td, rd)]
  }

  // ------------------------------------------------------------------- squared length

  lemma {:induction false} DotAppend(u: Vec, v: Vec)
    ensures Dot(u + v, u + v) == Dot(u, u) + Dot(v, v)
  {
    if u == [] {
      assert u + v == v;
    } else {
      var w := u + v;
      DotAppend(u[1..], v);
      assert w[1..] == u[1..] + v;
      assert Dot(w, w) == DotStep(w, w);
      assert Dot(u, u) == DotStep(u, u);
    }
  }

  lemma DotSingle(x: real)
    ensures Dot([x], [x]) == x * x
  {
    assert Dot([x], [x]) == DotStep([x], [x]);
    assert [x][1..] == [];
  }

  lemma DotTriple(x: real, y: real, z: real)
    ensures Dot([x, y, z], [x, y, z]) == x * x + y * y + z * z
  {
    DotSingle(x);
    DotSingle(y);
    DotSingle(z);
    DotAppend([x], [y]);
    DotAppend([x] + [y], [z]);
    assert [x] + [y] + [z] == [x, y, z];
  }

  lemma PhiLength(c: Curves, td: TaskDescriptor, rd: RecipeDict, e: real, i: real)
    requires e == Dot(EnhancerVec(rd), EnhancerVec(rd)) && i == Interaction(c, td, rd)
    ensures Dot(Phi(c, td, rd), Phi(c, td, rd))
         == Dot(TaskVec(c, td), TaskVec(c, td)) + Dot(BaseVec(rd), BaseVec(rd)) + e + 1.0 + i * i
  {
    var t, b, x := TaskVec(c, td), BaseVec(rd), EnhancerVec(rd);
    DotSingle(1.0);
    DotSingle(i);
    DotAppend(t, b);
    DotAppend(t + b, x);
    DotAppend(t + b + x, [1.0]);
    DotAppend(t + b + x + [1.0], [i]);
  }

  lemma VocabularyIsDistinct(i: nat, j: nat)
    requires i < 6 && j < 6 && BASE_VOCAB[i] == BASE_VOCAB[j]
    ensures i == j
  {
    assert BASE_VOCAB[0][0] == 'h' && BASE_VOCAB[1] == "rf" && BASE_VOCAB[2][0] == 'l';
    assert BASE_VOCAB[3][0] == 's' && BASE_VOCAB[4] == "ridge" && BASE_VOCAB[5][0] == 'g';
    assert "rf"[1] != "ridge"[1] && "rf"[0] == 'r' && "ridge"[0] == 'r';
  }

  /** Where the base of a recipe shows in the vector: one coordinate per known base. */
  lemma BaseCoordinates(c: Curves, td: TaskDescriptor, r: Recipe, i: nat)
    requires i < 6
    ensures Phi(c, td, Shaped(r))[5 + i] == if r.base == BASE_VOCAB[i] then 1.0 else 0.0
  {
    BaseHot(r, i);
    assert Phi(c, td, Shaped(r))[5 + i] == BaseVec(Shaped(r))[i];
  }

  lemma BaseHot(r: Recipe, i: nat)
    requires i < 6
    ensures BaseVec(Shaped(r))[i] == if r.base == BASE_VOCAB[i] then 1.0 else 0.0
  {
    var k := IndexOf(BASE_VOCAB, r.base);
    if k < 6 && BASE_VOCAB[k] == BASE_VOCAB[i] { VocabularyIsDistinct(k, i); }
  }

  /** Where its enhancers show: a coordinate each, and all of them again after the constant,
      weighted by the difficulty of the task. */
  lemma EnhancerCoordinates(c: Curves, td: TaskDescriptor, r: Recipe, e: Vec, x: real)
    requires e == EnhancerVec(Shaped(r)) && x == c.tanh(td.difficulty) * (e[0] + e[1] + e[2])
    ensures e[0] == (if r.scale == Some(true) then 1.0 else 0.0) && e[2] == (if r.targetLog == Some(true) then 1.0 else 0.0)
    ensures 3.0 * e[1] == if r.poly.None? then 0.0 else if r.poly.value < 3 then r.poly.value as real else 3.0
    ensures Phi(c, td, Shaped(r))[11..] == e + [1.0, x]
  {
    assert x == Interaction(c, td, Shaped(r));
    PhiBack(TaskVec(c, td) + BaseVec(Shaped(r)), e, x, Phi(c, td, Shaped(r)));
  }

  lemma PhiBack(front: Vec, e: Vec, i: real, v: Vec)
    requires v == front + e + [1.0] + [i]
    ensures v[|front|..] == e + [1.0, i]
  {
    assert v == front + (e + [1.0, i]);
  }

  /** Every context has a bias coordinate, so no context is the zero vector. */
  lemma PhiIsNotZero(c: Curves, td: TaskDescriptor, rd: RecipeDict)
    ensures Phi(c, td, rd) != Zero(CONTEXT_DIM)
  {
    assert Phi(c, td, rd)[14] == 1.0;
  }
}
