/** Recipe genomes: dictionaries of arbitrary gene values, normalised to canonical ones. */
module Genome {
  import opened Wrappers

  datatype Kind = Classification | Regression

  /** The values a gene can hold, with the equality, truth and hashing rules they come with. */
  datatype Value =
    | PNone
    | PBool(b: bool)
    | PInt(i: int)
    | PFloat(r: real)
    | PNan
    | PStr(s: string)
    | PTuple(items: seq<Value>)
    | PList(elements: seq<Value>)

  /** Booleans, integers and floats compare by value. */
  function Number(v: Value): Option<real> {
    match v
    case PBool(b) => Some(if b then 1.0 else 0.0)
    case PInt(i) => Some(i as real)
    case PFloat(r) => Some(r)
    case _ => None
  }

  /** `v == w`. */
  predicate Equal(v: Value, w: Value)
    decreases v
  {
    if Number(v).Some? then Number(v) == Number(w)
    else match v
      case PNone => w.PNone?
      case PStr(s) => w.PStr? && w.s == s
      case PTuple(items) =>
        w.PTuple? && |items| == |w.items| && forall i :: 0 <= i < |items| ==> Equal(items[i], w.items[i])
      case PList(elements) =>
        w.PList? && |elements| == |w.elements| && forall i :: 0 <= i < |elements| ==> Equal(elements[i], w.elements[i])
      case _ => false
  }

  predicate Truthy(v: Value) {
    match v
    case PNone => false
    case PBool(b) => b
    case PInt(i) => i != 0
    case PFloat(r) => r != 0.0
    case PNan => true
    case PStr(s) => s != ""
    case PTuple(items) => items != []
    case PList(elements) => elements != []
  }

  predicate Hashable(v: Value)
    decreases v
  {
    match v
    case PTuple(items) => forall i :: 0 <= i < |items| ==> Hashable(items[i])
    case PList(_) => false
    case _ => true
  }

  /** `v in choices`. */
  predicate OneOf(v: Value, choices: seq<Value>) {
    exists i :: 0 <= i < |choices| && Equal(v, choices[i])
  }

  // ---------------------------------------------------------------- genes and alphabets

  /** A dictionary of genes; `None` marks an absent key, and keys that are not genes are
      ignored by everything below. */
  datatype Genes = Genes(
    base: Option<Value>, scale: Option<Value>, winsor: Option<Value>, power: Option<Value>, poly: Option<Value>,
    interactionsOnly: Option<Value>, reduce: Option<Value>, select: Option<Value>, target: Option<Value>)

  /** An empty recipe dictionary. */
  const NO_GENES := Genes(None, None, None, None, None, None, None, None, None)

  /** A genome with every gene present. */
  datatype Genome = Genome(
    base: Value, scale: Value, winsor: Value, power: Value, poly: Value,
    interactionsOnly: Value, reduce: Value, select: Value, target: Value)

  const DEFAULTS := Genome(PStr("ridge"), PBool(false), PNone, PNone, PInt(0), PBool(false), PNone, PNone, PNone)

  const SCALE_CHOICES := [PBool(false), PStr("standard"), PStr("robust"), PStr("minmax"), PStr("maxabs")]
  const POWER_CHOICES := [PNone, PStr("yeo-johnson"), PStr("quantile-normal")]
  const POLY_CHOICES := [PInt(0), PInt(2), PInt(3)]
  const TARGET_CHOICES := [PNone, PStr("log1p"), PStr("yeo-johnson"), PStr("quantile-normal")]
  const WINSOR_CHOICES := [PNone, PFloat(0.05), PFloat(0.01)]
  const REDUCE_CHOICES := [PNone, PTuple([PStr("pca"), PFloat(0.95)]), PTuple([PStr("agg"), PFloat(0.5)])]
  const SELECT_CHOICES := [PNone, PTuple([PStr("kbest_mi"), PFloat(0.5)]), PTuple([PStr("model"), PFloat(0.5)])]

  /** The base estimators of a kind, in registry order. */
  function Bases(kind: Kind): seq<string> {
    match kind
    case Classification => ["hist_gbm", "rf", "logreg", "svc_rbf"]
    case Regression => ["hist_gbm", "ridge", "rf", "gbr"]
  }

  function DefaultBase(kind: Kind): Value {
    if kind == Regression then PStr("ridge") else PStr("logreg")
  }

  function Complete(g: Genes): Genome {
    Genome(Or(g.base, DEFAULTS.base), Or(g.scale, DEFAULTS.scale), Or(g.winsor, DEFAULTS.winsor),
           Or(g.power, DEFAULTS.power), Or(g.poly, DEFAULTS.poly), Or(g.interactionsOnly, DEFAULTS.interactionsOnly),
           Or(g.reduce, DEFAULTS.reduce), Or(g.select, DEFAULTS.select), Or(g.target, DEFAULTS.target))
  }

  function Or(x: Option<Value>, d: Value): Value {
    if x.Some? then x.value else d
  }

  /** A genome as a dictionary with every key present. */
  function AsGenes(g: Genome): Genes {
    Genes(Some(g.base), Some(g.scale), Some(g.winsor), Some(g.power), Some(g.poly),
          Some(g.interactionsOnly), Some(g.reduce), Some(g.select), Some(g.target))
  }

  // ------------------------------------------------------------------- normalisation

  predicate KnownBase(v: Value, kind: Kind) {
    v.PStr? && v.s in Bases(kind)
  }

  function NormalBase(v: Value, kind: Kind): Value {
    if KnownBase(v, kind) then v else DefaultBase(kind)
  }

  function NormalPower(v: Value): Value {
    if OneOf(v, POWER_CHOICES) then v else PNone
  }

  /** `True` means standard; a power transform makes standard scaling redundant. */
  function NormalScale(v: Value, power: Value): Value {
    var named := if v == PBool(true) then PStr("standard") else v;
    var known := if OneOf(named, SCALE_CHOICES) then named else PBool(false);
    if !power.PNone? && Equal(known, PStr("standard")) then PBool(false) else known
  }

  function KnownPoly(v: Value): Value {
    if OneOf(v, POLY_CHOICES) then v else PInt(0)
  }

  predicate PolyOff(v: Value) {
    OneOf(v, [PInt(0), PInt(1)])
  }

  function NormalPoly(v: Value): Value {
    if PolyOff(KnownPoly(v)) then PInt(0) else KnownPoly(v)
  }

  function NormalInteractions(v: Value, poly: Value): Value {
    if PolyOff(KnownPoly(poly)) then PBool(false) else PBool(Truthy(v))
  }

  function NormalWinsor(v: Value): Value {
    if v.PFloat? && 0.0 < v.r <= 0.2 then v else PNone
  }

  function NormalReduce(v: Value): Value {
    if OneOf(v, REDUCE_CHOICES) then v else PNone
  }

  /** Reduction wins over selection. */
  function NormalSelect(v: Value, reduce: Value): Value {
    if !reduce.PNone? || !OneOf(v, SELECT_CHOICES) then PNone else v
  }

  function NormalTarget(v: Value, kind: Kind): Value {
    if kind != Regression || !OneOf(v, TARGET_CHOICES) then PNone else v
  }

  /** The canonical genome; `None` when the base cannot be looked up because it is not
      hashable. */
  function Normalize(g: Genes, kind: Kind): Option<Genome> {
    var c := Complete(g);
    if !Hashable(c.base) then None else Some(Canonical(c, kind))
  }

  function Canonical(c: Genome, kind: Kind): Genome {
    var power, reduce := NormalPower(c.power), NormalReduce(c.reduce);
    Genome(NormalBase(c.base, kind), NormalScale(c.scale, power), NormalWinsor(c.winsor), power, NormalPoly(c.poly),
           NormalInteractions(c.interactionsOnly, c.poly), reduce, NormalSelect(c.select, reduce), NormalTarget(c.target, kind))
  }

  /** The rules applied one after the other to one dictionary. */
  method NormalizeGenome(g: Genes, kind: Kind) returns (r: Option<Genome>)
    ensures r == Normalize(g, kind)
    ensures r.Some? ==> Safe(r.value, kind)
  {
    CanonicalIsSafe(Complete(g), kind);
    var out := Complete(g);
    if !Hashable(out.base) {
      return None;
    }
    if !KnownBase(out.base, kind) {
      out := out.(base := if kind == Regression then PStr("ridge") else PStr("logreg"));
    }
    out := ArbitrateScaling(out);
    out := ClampPoly(out);
    if !(out.winsor.PFloat? && 0.0 < out.winsor.r <= 0.2) {
      out := out.(winsor := PNone);
    }
    out := ArbitrateWidth(out);
    if kind != Regression || !OneOf(out.target, TARGET_CHOICES) {
      out := out.(target := PNone);
    }
    r := Some(out);
  }

  method ArbitrateScaling(g: Genome) returns (out: Genome)
    ensures out == g.(power := NormalPower(g.power), scale := NormalScale(g.scale, NormalPower(g.power)))
  {
    out := g;
    if out.scale == PBool(true) {
      out := out.(scale := PStr("standard"));
    }
    if !OneOf(out.scale, SCALE_CHOICES) {
      out := out.(scale := PBool(false));
    }
    if !OneOf(out.power, POWER_CHOICES) {
      out := out.(power := PNone);
    }
    if !out.power.PNone? && Equal(out.scale, PStr("standard")) {
      out := out.(scale := PBool(false));
    }
  }

  method ClampPoly(g: Genome) returns (out: Genome)
    ensures out == g.(poly := NormalPoly(g.poly), interactionsOnly := NormalInteractions(g.interactionsOnly, g.poly))
  {
    out := g;
    if !OneOf(out.poly, POLY_CHOICES) {
      out := out.(poly := PInt(0));
    }
    if PolyOff(out.poly) {
      out := out.(poly := PInt(0), interactionsOnly := PBool(false));
    }
    out := out.(interactionsOnly := PBool(Truthy(out.interactionsOnly)));
  }

  method ArbitrateWidth(g: Genome) returns (out: Genome)
    ensures out == g.(reduce := NormalReduce(g.reduce), select := NormalSelect(g.select, NormalReduce(g.reduce)))
  {
    out := g;
    if !OneOf(out.reduce, REDUCE_CHOICES) {
      out := out.(reduce := PNone);
    }
    if !OneOf(out.select, SELECT_CHOICES) {
      out := out.(select := PNone);
    }
    if !out.reduce.PNone? {
      out := out.(select := PNone);
    }
  }

  /** A genome that composes safely: a base of its kind, every gene from its alphabet, no
      standard scaling beside a power transform, no selection beside a reduction, no target
      transform on classification, no interactions without a polynomial. */
  ghost predicate Safe(g: Genome, kind: Kind) {
    && g.base.PStr? && g.base.s in Bases(kind)
    && OneOf(g.scale, SCALE_CHOICES) && OneOf(g.power, POWER_CHOICES) && OneOf(g.poly, POLY_CHOICES)
    && OneOf(g.reduce, REDUCE_CHOICES) && OneOf(g.select, SELECT_CHOICES) && OneOf(g.target, TARGET_CHOICES)
    && (g.winsor.PNone? || (g.winsor.PFloat? && 0.0 < g.winsor.r <= 0.2))
    && (!g.power.PNone? ==> !Equal(g.scale, PStr("standard")))
    && (!g.reduce.PNone? ==> g.select.PNone?)
    && (kind == Classification ==> g.target.PNone?)
    && g.interactionsOnly.PBool?
    && (!Truthy(g.poly) ==> g.poly == PInt(0) && g.interactionsOnly == PBool(false))
  }

  lemma CanonicalIsSafe(c: Genome, kind: Kind)
    ensures Safe(Canonical(c, kind), kind)
  {
    CanonicalScaling(c.scale, c.power);
    CanonicalPoly(c.poly, c.interactionsOnly);
    CanonicalWidth(c.reduce, c.select);
    FirstChoice(PNone, TARGET_CHOICES);
    DefaultIsKnown(c.base, kind);
  }

  /** Normalising makes every genome safe, and leaves exactly the safe ones alone. */
  lemma SafeExactlyWhenCanonical(c: Genome, kind: Kind)
    ensures Safe(Canonical(c, kind), kind)
    ensures Canonical(c, kind) == c <==> Safe(c, kind)
  {
    CanonicalIsSafe(c, kind);
    if Safe(c, kind) {
      CanonicalScaling(c.scale, c.power);
      CanonicalPoly(c.poly, c.interactionsOnly);
      CanonicalWidth(c.reduce, c.select);
    }
  }

  lemma CanonicalScaling(scale: Value, power: Value)
    ensures var p, s := NormalPower(power), NormalScale(scale, NormalPower(power));
      && OneOf(p, POWER_CHOICES) && OneOf(s, SCALE_CHOICES) && (!p.PNone? ==> !Equal(s, PStr("standard")))
    ensures OneOf(power, POWER_CHOICES) && OneOf(scale, SCALE_CHOICES) && (!power.PNone? ==> !Equal(scale, PStr("standard")))
      ==> NormalPower(power) == power && NormalScale(scale, power) == scale
  {
    FirstChoice(PNone, POWER_CHOICES);
    FirstChoice(PBool(false), SCALE_CHOICES);
    assert Equal(PStr("standard"), SCALE_CHOICES[1]);
    assert !OneOf(PBool(true), SCALE_CHOICES);
  }

  lemma CanonicalPoly(poly: Value, only: Value)
    ensures var p, i := NormalPoly(poly), NormalInteractions(only, poly);
      OneOf(p, POLY_CHOICES) && i.PBool? && (!Truthy(p) ==> p == PInt(0) && i == PBool(false))
    ensures OneOf(poly, POLY_CHOICES) && only.PBool? && (!Truthy(poly) ==> poly == PInt(0) && only == PBool(false))
      ==> NormalPoly(poly) == poly && NormalInteractions(only, poly) == only
  {
    FirstChoice(PInt(0), POLY_CHOICES);
    FirstChoice(PInt(0), [PInt(0), PInt(1)]);
    ZeroIsOff(KnownPoly(poly));
  }

  lemma ZeroIsOff(v: Value)
    requires OneOf(v, POLY_CHOICES)
    ensures PolyOff(v) <==> !Truthy(v)
  {
    if !Truthy(v) { FirstChoice(v, [PInt(0), PInt(1)]); }
  }

  lemma CanonicalWidth(reduce: Value, select: Value)
    ensures var r, s := NormalReduce(reduce), NormalSelect(select, NormalReduce(reduce));
      OneOf(r, REDUCE_CHOICES) && OneOf(s, SELECT_CHOICES) && (!r.PNone? ==> s.PNone?)
    ensures OneOf(reduce, REDUCE_CHOICES) && OneOf(select, SELECT_CHOICES) && (!reduce.PNone? ==> select.PNone?)
      ==> NormalReduce(reduce) == reduce && NormalSelect(select, reduce) == select
  {
    FirstChoice(PNone, REDUCE_CHOICES);
    FirstChoice(PNone, SELECT_CHOICES);
  }

  lemma DefaultIsKnown(v: Value, kind: Kind)
    ensures KnownBase(NormalBase(v, kind), kind)
  {
    assert Bases(Regression)[1] == "ridge" && Bases(Classification)[2] == "logreg";
  }

  lemma FirstChoice(v: Value, choices: seq<Value>)
    requires choices != [] && Equal(v, choices[0])
    ensures OneOf(v, choices)
  {}

  lemma PowerTwice(v: Value)
    ensures NormalPower(NormalPower(v)) == NormalPower(v)
  {
    FirstChoice(PNone, POWER_CHOICES);
  }

  lemma ScaleTwice(v: Value, power: Value)
    ensures NormalScale(NormalScale(v, power), power) == NormalScale(v, power)
  {
    FirstChoice(PBool(false), SCALE_CHOICES);
    assert Equal(PStr("standard"), SCALE_CHOICES[1]);
    assert !OneOf(PBool(true), SCALE_CHOICES);
  }

  lemma PolyTwice(v: Value)
    ensures NormalPoly(NormalPoly(v)) == NormalPoly(v)
    ensures PolyOff(KnownPoly(NormalPoly(v))) <==> PolyOff(KnownPoly(v))
  {
    FirstChoice(PInt(0), POLY_CHOICES);
    FirstChoice(PInt(0), [PInt(0), PInt(1)]);
  }

  lemma WidthTwice(reduce: Value, select: Value)
    ensures NormalReduce(NormalReduce(reduce)) == NormalReduce(reduce)
    ensures var r := NormalReduce(reduce); NormalSelect(NormalSelect(select, r), r) == NormalSelect(select, r)
  {
    FirstChoice(PNone, REDUCE_CHOICES);
    FirstChoice(PNone, SELECT_CHOICES);
  }

  lemma TargetTwice(v: Value, kind: Kind)
    ensures NormalTarget(NormalTarget(v, kind), kind) == NormalTarget(v, kind)
  {
    FirstChoice(PNone, TARGET_CHOICES);
  }

  /** Normalising a second time changes nothing, whatever values the genes held. */
  lemma NormalizeTwice(g: Genes, kind: Kind)
    requires Normalize(g, kind).Some?
    ensures Normalize(AsGenes(Normalize(g, kind).value), kind) == Normalize(g, kind)
  {
    var c := Complete(g);
    CanonicalTwice(c, kind);
    assert Complete(AsGenes(Canonical(c, kind))) == Canonical(c, kind);
  }

  lemma CanonicalTwice(c: Genome, kind: Kind)
    ensures Canonical(Canonical(c, kind), kind) == Canonical(c, kind) && Hashable(Canonical(c, kind).base)
  {
    PowerTwice(c.power);
    ScaleTwice(c.scale, NormalPower(c.power));
    PolyTwice(c.poly);
    WidthTwice(c.reduce, c.select);
    TargetTwice(c.target, kind);
  }
}
