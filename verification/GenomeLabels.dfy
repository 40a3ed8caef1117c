/** Labels of recipe genomes: the tags of the genes that are set, joined, the base last.  A tag
    shows by its first letters which gene it belongs to, and tags hold no separator; so a label
    reads back as its tags, and they tell the genes. */
module GenomeLabels {
  import opened Wrappers
  import opened Labels
  import opened Genome

  function TargetTag(v: Value): string {
    if Equal(v, PStr("log1p")) then "tlog" else if Equal(v, PStr("yeo-johnson")) then "tyj" else "tqn"
  }

  function PowerTag(v: Value): string {
    if Equal(v, PStr("yeo-johnson")) then "yj" else "qn"
  }

  function ScaleTag(v: Value): string {
    if Equal(v, PStr("robust")) then "rscale"
    else if Equal(v, PStr("minmax")) then "mm"
    else if Equal(v, PStr("maxabs")) then "ma"
    else "scale"
  }

  function TextOf(v: Value): string {
    if v.PStr? then v.s else ""
  }

  function NumberOf(v: Value): real {
    if Number(v).Some? then Number(v).value else 0.0
  }

  /** Name and amount of a width-reducing gene. */
  function WidthTag(v: Value, format: real -> string): string {
    if v.PTuple? && |v.items| == 2 then TextOf(v.items[0]) + format(NumberOf(v.items[1])) else ""
  }

  function When(c: bool, tag: string): seq<string> {
    if c then [tag] else []
  }

  /** The tags of a genome's label, the base last; `format` renders floats. */
  function GenomeTags(g: Genome, format: real -> string): (tags: seq<string>)
    ensures tags != []
  {
    When(Truthy(g.target), TargetTag(g.target)) +
    When(Truthy(g.winsor), "win" + format(NumberOf(g.winsor))) +
    When(Truthy(g.power), PowerTag(g.power)) +
    When(Truthy(g.poly), "poly" + PrintInt(NumberOf(g.poly).Floor) + (if Truthy(g.interactionsOnly) then "i" else "")) +
    When(Truthy(g.reduce), WidthTag(g.reduce, format)) +
    When(Truthy(g.select), WidthTag(g.select, format)) +
    When(Truthy(g.scale), ScaleTag(g.scale)) +
    [TextOf(g.base)]
  }

  function GenomeLabel(g: Genome, format: real -> string): string {
    Join(GenomeTags(g, format))
  }

  /** A genome that uses nothing beyond what a plain recipe can say. */
  ghost predicate Plain(g: Genome, r: Recipe) {
    && g.base == PStr(r.base) && g.winsor == PNone && g.power == PNone && g.reduce == PNone && g.select == PNone
    && g.interactionsOnly == PBool(false)
    && g.scale == (if Flag(r.scale) then PStr("standard") else PBool(false))
    && g.poly == PInt(if HasDegree(r.poly) then r.poly.value else 0)
    && g.target == (if Flag(r.targetLog) then PStr("log1p") else PNone)
  }

  /** Such a genome has the label of that recipe. */
  lemma PlainLabelsAgree(g: Genome, r: Recipe, format: real -> string)
    requires Plain(g, r)
    ensures GenomeLabel(g, format) == Label(r)
  {
    var log := When(Truthy(g.target), TargetTag(g.target));
    var poly := When(Truthy(g.poly), "poly" + PrintInt(NumberOf(g.poly).Floor) + "");
    var scale := When(Truthy(g.scale), ScaleTag(g.scale));
    assert log == (if Flag(r.targetLog) then ["tlog"] else []);
    if HasDegree(r.poly) { DegreeTag(r.poly.value); }
    assert poly == (if HasDegree(r.poly) then ["poly" + PrintInt(r.poly.value)] else []);
    assert scale == (if Flag(r.scale) then ["scale"] else []);
    PlainTags(g, format, log, poly, scale);
    assert log + poly + scale + [r.base] == Tags(r);
  }

  lemma DegreeTag(n: int)
    ensures "poly" + PrintInt(NumberOf(PInt(n)).Floor) + "" == "poly" + PrintInt(n)
  {
    assert NumberOf(PInt(n)).Floor == n;
  }

  lemma PlainTags(g: Genome, format: real -> string, log: seq<string>, poly: seq<string>, scale: seq<string>)
    requires g.winsor == PNone && g.power == PNone && g.reduce == PNone && g.select == PNone
    requires log == When(Truthy(g.target), TargetTag(g.target)) && scale == When(Truthy(g.scale), ScaleTag(g.scale))
    requires g.interactionsOnly == PBool(false)
    requires poly == When(Truthy(g.poly), "poly" + PrintInt(NumberOf(g.poly).Floor) + "")
    ensures GenomeTags(g, format) == log + poly + scale + [TextOf(g.base)]
  {}

  // ------------------------------------------------------------------ what labels tell apart

  /** A tag per gene in label order, `None` for a gene that is off. */
  function Slots(g: Genome, format: real -> string): (s: seq<Option<string>>)
    ensures |s| == 7
  {
    [Slot(Truthy(g.target), TargetTag(g.target)),
     Slot(Truthy(g.winsor), "win" + format(NumberOf(g.winsor))),
     Slot(Truthy(g.power), PowerTag(g.power)),
     Slot(Truthy(g.poly), PolyTag(g.poly, g.interactionsOnly)),
     Slot(Truthy(g.reduce), WidthTag(g.reduce, format)),
     Slot(Truthy(g.select), WidthTag(g.select, format)),
     Slot(Truthy(g.scale), ScaleTag(g.scale))]
  }

  function PolyTag(poly: Value, interactionsOnly: Value): string {
    "poly" + PrintInt(NumberOf(poly).Floor) + (if Truthy(interactionsOnly) then "i" else "")
  }

  function Slot(c: bool, tag: string): Option<string> {
    if c then Some(tag) else None
  }

  function Present(s: seq<Option<string>>): seq<string> {
    if s == [] then [] else Present(s[..|s| - 1]) + Listed(s[|s| - 1])
  }

  /** Which gene a tag belongs to: its first letters tell. */
  function GeneOf(tag: string): int {
    if |tag| < 2 then -1
    else if tag[0] == 't' then 0
    else if tag[0] == 'w' then 1
    else if tag[0] == 'y' || tag[0] == 'q' then 2
    else if tag[0] == 'p' && tag[1] == 'o' then 3
    else if tag[0] == 'p' || tag[0] == 'a' then 4
    else if tag[0] == 'k' || (tag[0] == 'm' && tag[1] == 'o') then 5
    else 6
  }

  /** Every tag sits in the slot of its gene. */
  ghost predicate InPlace(s: seq<Option<string>>) {
    forall i :: 0 <= i < |s| && s[i].Some? ==> GeneOf(s[i].value) == i
  }

  lemma {:induction false} PresentIsEarlier(s: seq<Option<string>>)
    requires InPlace(s)
    ensures forall t :: t in Present(s) ==> GeneOf(t) < |s|
  {
    if s != [] {
      var last := |s| - 1;
      PresentIsEarlier(s[..last]);
      assert s[last].Some? ==> GeneOf(s[last].value) == last;
    }
  }

  /** The tags that are present tell which slots they came from. */
  lemma {:induction false} PresentTells(s: seq<Option<string>>, t: seq<Option<string>>)
    requires InPlace(s) && InPlace(t) && |s| == |t| && Present(s) == Present(t)
    ensures s == t
  {
    if s != [] {
      var last := |s| - 1;
      PresentIsEarlier(s[..last]);
      PresentIsEarlier(t[..last]);
      SameLast(Present(s[..last]), s[last], Present(t[..last]), t[last]);
      PresentTells(s[..last], t[..last]);
      assert s == s[..last] + [s[last]] && t == t[..last] + [t[last]];
    }
  }

  function Listed(x: Option<string>): seq<string> {
    if x.Some? then [x.value] else []
  }

  lemma SameLast(a: seq<string>, x: Option<string>, b: seq<string>, y: Option<string>)
    requires a + Listed(x) == b + Listed(y)
    requires x.Some? ==> x.value !in b
    requires y.Some? ==> y.value !in a
    ensures x == y && a == b
  {
    var tags := a + Listed(x);
    assert tags == b + Listed(y);
    assert if x.Some? then tags[|a|] == x.value && tags[..|a|] == a else tags == a;
    assert if y.Some? then tags[|b|] == y.value && tags[..|b|] == b else tags == b;
  }

  // ------------------------------------------------------------------- canonical genomes

  /** Float rendering that puts no separator into the amounts a genome can hold. */
  ghost predicate Clean(format: real -> string) {
    forall r {:trigger format(r)} :: 0.0 < r <= 1.0 ==> '+' !in format(r)
  }

  /** Float rendering that renders no two amounts of winsorising alike. */
  ghost predicate TellsApart(format: real -> string) {
    forall r, s {:trigger format(r), format(s)} :: 0.0 < r <= 0.2 && 0.0 < s <= 0.2 && format(r) == format(s) ==> r == s
  }

  ghost predicate Faithful(format: real -> string) {
    Clean(format) && TellsApart(format)
  }

  /** Genes that mean the same. */
  ghost predicate SameGenes(g: Genome, h: Genome) {
    SameButWinsor(g, h) && Equal(g.winsor, h.winsor)
  }

  ghost predicate SameButWinsor(g: Genome, h: Genome) {
    && Equal(g.base, h.base) && Equal(g.scale, h.scale) && Equal(g.power, h.power) && Equal(g.poly, h.poly)
    && Equal(g.interactionsOnly, h.interactionsOnly) && Equal(g.reduce, h.reduce) && Equal(g.select, h.select)
    && Equal(g.target, h.target)
  }

  /** Winsorising is off in both, or its amounts look the same. */
  ghost predicate WinsorsLookAlike(v: Value, w: Value, format: real -> string) {
    Truthy(v) == Truthy(w) && (Truthy(v) ==> format(NumberOf(v)) == format(NumberOf(w)))
  }

  // The values a canonical gene can have.

  predicate TargetForm(v: Value) {
    v == PNone || v == PStr("log1p") || v == PStr("yeo-johnson") || v == PStr("quantile-normal")
  }

  predicate PowerForm(v: Value) {
    v == PNone || v == PStr("yeo-johnson") || v == PStr("quantile-normal")
  }

  predicate ScaleForm(v: Value) {
    Number(v) == Some(0.0) || v == PStr("standard") || v == PStr("robust") || v == PStr("minmax") || v == PStr("maxabs")
  }

  predicate PolyForm(v: Value) {
    Number(v) == Some(0.0) || Number(v) == Some(2.0) || Number(v) == Some(3.0)
  }

  predicate WinsorForm(v: Value) {
    v == PNone || (v.PFloat? && 0.0 < v.r <= 0.2)
  }

  predicate IsPair(v: Value, name: string, amount: real) {
    v.PTuple? && |v.items| == 2 && v.items[0] == PStr(name) && Number(v.items[1]) == Some(amount)
  }

  predicate ReduceForm(v: Value) {
    v == PNone || IsPair(v, "pca", 0.95) || IsPair(v, "agg", 0.5)
  }

  predicate SelectForm(v: Value) {
    v == PNone || IsPair(v, "kbest_mi", 0.5) || IsPair(v, "model", 0.5)
  }

  ghost predicate Forms(g: Genome, kind: Kind) {
    && TargetForm(g.target) && PowerForm(g.power) && ScaleForm(g.scale) && PolyForm(g.poly) && WinsorForm(g.winsor)
    && ReduceForm(g.reduce) && SelectForm(g.select) && KnownBase(g.base, kind)
    && g.interactionsOnly.PBool? && (Truthy(g.interactionsOnly) ==> Truthy(g.poly))
  }

  lemma PairForm(v: Value, name: string, amount: real)
    requires Equal(v, PTuple([PStr(name), PFloat(amount)]))
    ensures IsPair(v, name, amount)
  {
    var w := PTuple([PStr(name), PFloat(amount)]);
    assert Equal(v.items[0], w.items[0]) && Equal(v.items[1], w.items[1]);
  }

  lemma WidthForms(reduce: Value, select: Value)
    ensures ReduceForm(NormalReduce(reduce)) && SelectForm(NormalSelect(select, NormalReduce(reduce)))
  {
    if OneOf(reduce, REDUCE_CHOICES) && !Equal(reduce, PNone) {
      if Equal(reduce, REDUCE_CHOICES[1]) { PairForm(reduce, "pca", 0.95); } else { PairForm(reduce, "agg", 0.5); }
    }
    if OneOf(select, SELECT_CHOICES) && !Equal(select, PNone) {
      if Equal(select, SELECT_CHOICES[1]) { PairForm(select, "kbest_mi", 0.5); } else { PairForm(select, "model", 0.5); }
    }
  }

  lemma PolyForms(poly: Value, only: Value)
    ensures PolyForm(NormalPoly(poly)) && NormalInteractions(only, poly).PBool?
    ensures Truthy(NormalInteractions(only, poly)) ==> Truthy(NormalPoly(poly))
  {
    if !PolyOff(KnownPoly(poly)) {
      assert !Equal(KnownPoly(poly), [PInt(0), PInt(1)][0]);
      assert [PInt(0), PInt(1)][1] == PInt(1);
    }
  }

  /** Normalising leaves only these values. */
  lemma CanonicalForms(c: Genome, kind: Kind)
    ensures Forms(Canonical(c, kind), kind)
  {
    WidthForms(c.reduce, c.select);
    PolyForms(c.poly, c.interactionsOnly);
    ScaleForms(c.scale, NormalPower(c.power));
    DefaultIsKnown(c.base, kind);
    OtherForms(c.power, c.winsor, c.target, kind);
  }

  lemma OtherForms(power: Value, winsor: Value, target: Value, kind: Kind)
    ensures PowerForm(NormalPower(power)) && WinsorForm(NormalWinsor(winsor)) && TargetForm(NormalTarget(target, kind))
  {}

  lemma ScaleForms(v: Value, power: Value)
    ensures ScaleForm(NormalScale(v, power))
  {}

  // Slot by slot: a tag is in place, holds no separator, and tells the value of its gene.

  predicate GoodSlot(x: Option<string>, k: int) {
    x.Some? ==> GeneOf(x.value) == k && '+' !in x.value
  }

  lemma TargetInPlace(v: Value)
    requires TargetForm(v)
    ensures GoodSlot(Slot(Truthy(v), TargetTag(v)), 0)
  {}

  lemma TargetSlot(v: Value, w: Value)
    requires TargetForm(v) && TargetForm(w)
    ensures Slot(Truthy(v), TargetTag(v)) == Slot(Truthy(w), TargetTag(w)) <==> Equal(v, w)
  {
    assert "tlog"[1] == 'l' && "tyj"[1] == 'y' && "tqn"[1] == 'q';
  }

  lemma PowerInPlace(v: Value)
    requires PowerForm(v)
    ensures GoodSlot(Slot(Truthy(v), PowerTag(v)), 2)
  {}

  lemma PowerSlot(v: Value, w: Value)
    requires PowerForm(v) && PowerForm(w)
    ensures Slot(Truthy(v), PowerTag(v)) == Slot(Truthy(w), PowerTag(w)) <==> Equal(v, w)
  {
    assert "yj"[0] == 'y' && "qn"[0] == 'q';
  }

  lemma ScaleInPlace(v: Value)
    requires ScaleForm(v)
    ensures GoodSlot(Slot(Truthy(v), ScaleTag(v)), 6)
  {}

  /** One letter of each scale tag; they all differ. */
  function ScaleMark(x: Option<string>): char {
    if x.Some? && |x.value| > 2 then x.value[0] else if x.Some? && |x.value| > 1 then x.value[1] else '-'
  }

  lemma ScaleMarked(v: Value)
    requires ScaleForm(v)
    ensures ScaleMark(Slot(Truthy(v), ScaleTag(v))) ==
      if v == PStr("standard") then 's'
      else if v == PStr("robust") then 'r'
      else if v == PStr("minmax") then 'm'
      else if v == PStr("maxabs") then 'a'
      else '-'
  {}

  lemma ScaleSlot(v: Value, w: Value)
    requires ScaleForm(v) && ScaleForm(w)
    ensures Slot(Truthy(v), ScaleTag(v)) == Slot(Truthy(w), ScaleTag(w)) <==> Equal(v, w)
  {
    ScaleMarked(v);
    ScaleMarked(w);
  }

  lemma WinsorInPlace(v: Value, format: real -> string)
    requires WinsorForm(v) && Clean(format)
    ensures GoodSlot(Slot(Truthy(v), "win" + format(NumberOf(v))), 1)
  {
    assert ("win" + format(NumberOf(v)))[0] == 'w';
  }

  lemma WinsorSlot(v: Value, w: Value, format: real -> string)
    requires WinsorForm(v) && WinsorForm(w)
    ensures Slot(Truthy(v), "win" + format(NumberOf(v))) == Slot(Truthy(w), "win" + format(NumberOf(w)))
       <==> WinsorsLookAlike(v, w, format)
  {
    assert ("win" + format(NumberOf(v)))[3..] == format(NumberOf(v));
    assert ("win" + format(NumberOf(w)))[3..] == format(NumberOf(w));
  }

  lemma PolySpelled(v: Value, i: Value)
    requires PolyForm(v) && i.PBool?
    ensures Number(v) == Some(2.0) ==> PolyTag(v, i) == if i.b then "poly2i" else "poly2"
    ensures Number(v) == Some(3.0) ==> PolyTag(v, i) == if i.b then "poly3i" else "poly3"
    ensures Truthy(v) <==> Number(v) != Some(0.0)
  {
    assert PrintInt(2) == "2" && PrintInt(3) == "3";
    assert 2.0.Floor == 2 && 3.0.Floor == 3;
  }

  lemma PolyInPlace(v: Value, i: Value)
    requires PolyForm(v) && i.PBool?
    ensures GoodSlot(Slot(Truthy(v), PolyTag(v, i)), 3)
  {
    PolySpelled(v, i);
  }

  /** Degree and kind of terms, read off a tag. */
  function PolyMark(x: Option<string>): (char, nat) {
    if x.Some? && |x.value| > 4 then (x.value[4], |x.value|) else ('-', 0)
  }

  lemma PolyMarked(v: Value, i: Value)
    requires PolyForm(v) && i.PBool?
    ensures PolyMark(Slot(Truthy(v), PolyTag(v, i))) ==
      if Number(v) == Some(0.0) then ('-', 0) else (if Number(v) == Some(2.0) then '2' else '3', if i.b then 6 else 5)
  {
    PolySpelled(v, i);
  }

  lemma PolySlot(v: Value, i: Value, w: Value, j: Value)
    requires PolyForm(v) && PolyForm(w) && i.PBool? && j.PBool?
    requires (Truthy(i) ==> Truthy(v)) && (Truthy(j) ==> Truthy(w))
    ensures Slot(Truthy(v), PolyTag(v, i)) == Slot(Truthy(w), PolyTag(w, j)) <==> Equal(v, w) && Equal(i, j)
  {
    PolyMarked(v, i);
    PolyMarked(w, j);
  }

  lemma ReduceInPlace(v: Value, format: real -> string)
    requires ReduceForm(v) && Clean(format)
    ensures GoodSlot(Slot(Truthy(v), WidthTag(v, format)), 4)
  {
    assert WidthTag(v, format) == "pca" + format(0.95) || WidthTag(v, format) == "agg" + format(0.5) || v == PNone;
  }

  lemma SelectInPlace(v: Value, format: real -> string)
    requires SelectForm(v) && Clean(format)
    ensures GoodSlot(Slot(Truthy(v), WidthTag(v, format)), 5)
  {
    assert WidthTag(v, format) == "kbest_mi" + format(0.5) || WidthTag(v, format) == "model" + format(0.5) || v == PNone;
  }

  lemma ReduceSlot(v: Value, w: Value, format: real -> string)
    requires ReduceForm(v) && ReduceForm(w)
    ensures Slot(Truthy(v), WidthTag(v, format)) == Slot(Truthy(w), WidthTag(w, format)) <==> Equal(v, w)
  {
    PairsAgree(v, w);
    assert v == PNone || WidthTag(v, format)[0] == if IsPair(v, "pca", 0.95) then 'p' else 'a';
    assert w == PNone || WidthTag(w, format)[0] == if IsPair(w, "pca", 0.95) then 'p' else 'a';
  }

  lemma SelectSlot(v: Value, w: Value, format: real -> string)
    requires SelectForm(v) && SelectForm(w)
    ensures Slot(Truthy(v), WidthTag(v, format)) == Slot(Truthy(w), WidthTag(w, format)) <==> Equal(v, w)
  {
    PairsAgree(v, w);
    assert v == PNone || WidthTag(v, format)[0] == if IsPair(v, "kbest_mi", 0.5) then 'k' else 'm';
    assert w == PNone || WidthTag(w, format)[0] == if IsPair(w, "kbest_mi", 0.5) then 'k' else 'm';
  }

  lemma PairsAgree(v: Value, w: Value)
    ensures forall name, name', x, x' {:trigger IsPair(v, name, x), IsPair(w, name', x')} ::
      IsPair(v, name, x) && IsPair(w, name', x') ==> (Equal(v, w) <==> name == name' && x == x')
  {}

  // ---------------------------------------------------------------------------- the whole label

  lemma PresentFour(s: seq<Option<string>>)
    requires |s| >= 4
    ensures Present(s[..4]) == Listed(s[0]) + Listed(s[1]) + Listed(s[2]) + Listed(s[3])
  {
    assert Present(s[..0]) + Listed(s[0]) == Listed(s[0]);
    PresentMore(s, 0);
    PresentMore(s, 1);
    PresentMore(s, 2);
    PresentMore(s, 3);
  }

  lemma PresentSeven(s: seq<Option<string>>, t: seq<string>)
    requires |s| == 7 && t == Present(s[..4])
    ensures Present(s) == t + Listed(s[4]) + Listed(s[5]) + Listed(s[6])
  {
    PresentMore(s, 4);
    PresentMore(s, 5);
    PresentMore(s, 6);
    assert s[..7] == s;
  }

  lemma PresentMore(s: seq<Option<string>>, i: nat)
    requires i < |s|
    ensures Present(s[..i + 1]) == Present(s[..i]) + Listed(s[i])
  {
    assert s[..i + 1][..i] == s[..i];
  }

  lemma TagsAreSlots(g: Genome, format: real -> string)
    ensures GenomeTags(g, format) == Present(Slots(g, format)) + [TextOf(g.base)]
  {
    PresentFour(Slots(g, format));
    PresentSeven(Slots(g, format), Present(Slots(g, format)[..4]));
  }

  /** Genes that are the same, with winsor amounts compared as they are printed. */
  ghost predicate LookAlike(g: Genome, h: Genome, format: real -> string) {
    SameButWinsor(g, h) && WinsorsLookAlike(g.winsor, h.winsor, format)
  }

  lemma SlotsInPlace(g: Genome, kind: Kind, format: real -> string)
    requires Forms(g, kind) && Clean(format)
    ensures forall i :: 0 <= i < 7 ==> GoodSlot(Slots(g, format)[i], i)
  {
    TargetInPlace(g.target);
    WinsorInPlace(g.winsor, format);
    PowerInPlace(g.power);
    PolyInPlace(g.poly, g.interactionsOnly);
    ReduceInPlace(g.reduce, format);
    SelectInPlace(g.select, format);
    ScaleInPlace(g.scale);
  }

  lemma SlotsTell(g: Genome, h: Genome, kind: Kind, format: real -> string)
    requires Forms(g, kind) && Forms(h, kind)
    ensures LookAlike(g, h, format) <==> Slots(g, format) == Slots(h, format) && g.base == h.base
  {
    TargetSlot(g.target, h.target);
    WinsorSlot(g.winsor, h.winsor, format);
    PowerSlot(g.power, h.power);
    PolySlot(g.poly, g.interactionsOnly, h.poly, h.interactionsOnly);
    ReduceSlot(g.reduce, h.reduce, format);
    SelectSlot(g.select, h.select, format);
    ScaleSlot(g.scale, h.scale);
    SameSlots(Slots(g, format), Slots(h, format));
  }

  lemma SameSlots(s: seq<Option<string>>, t: seq<Option<string>>)
    requires |s| == |t| == 7
    ensures s == t <==> s[0] == t[0] && s[1] == t[1] && s[2] == t[2] && s[3] == t[3] && s[4] == t[4] && s[5] == t[5] && s[6] == t[6]
  {}

  lemma {:induction false} PresentIsClean(s: seq<Option<string>>)
    requires forall i :: 0 <= i < |s| && s[i].Some? ==> '+' !in s[i].value
    ensures forall t :: t in Present(s) ==> '+' !in t
  {
    if s != [] { PresentIsClean(s[..|s| - 1]); }
  }

  /** Labels read back as their tags, because no tag holds a separator. */
  lemma TagsReadBack(g: Genome, kind: Kind, format: real -> string)
    requires Forms(g, kind) && Clean(format)
    ensures Split(GenomeLabel(g, format)) == Present(Slots(g, format)) + [TextOf(g.base)]
  {
    SlotsInPlace(g, kind, format);
    TagsAreSlots(g, format);
    PresentIsClean(Slots(g, format));
    BasesAreClean(g.base, kind);
    SplitJoin(GenomeTags(g, format));
  }

  lemma BasesAreClean(v: Value, kind: Kind)
    requires KnownBase(v, kind)
    ensures '+' !in v.s
  {}

  lemma TagsIdentify(g: Genome, h: Genome, kind: Kind, format: real -> string)
    requires Forms(g, kind) && Forms(h, kind) && Clean(format)
    ensures GenomeLabel(g, format) == GenomeLabel(h, format) <==> LookAlike(g, h, format)
  {
    TagsReadBack(g, kind, format);
    TagsReadBack(h, kind, format);
    SlotsTell(g, h, kind, format);
    SlotsInPlace(g, kind, format);
    SlotsInPlace(h, kind, format);
    TagsAreSlots(g, format);
    TagsAreSlots(h, format);
    if GenomeLabel(g, format) == GenomeLabel(h, format) {
      SameTags(Present(Slots(g, format)), TextOf(g.base), Present(Slots(h, format)), TextOf(h.base));
      PresentTells(Slots(g, format), Slots(h, format));
    }
  }

  /** Labels identify genomes: two canonical genomes share a label exactly when every gene of
      one equals that of the other, winsor amounts as they are printed. */
  lemma LabelsIdentifyGenomes(c: Genome, d: Genome, kind: Kind, format: real -> string)
    requires Clean(format)
    ensures GenomeLabel(Canonical(c, kind), format) == GenomeLabel(Canonical(d, kind), format)
       <==> LookAlike(Canonical(c, kind), Canonical(d, kind), format)
  {
    CanonicalForms(c, kind);
    CanonicalForms(d, kind);
    TagsIdentify(Canonical(c, kind), Canonical(d, kind), kind, format);
  }

  lemma SameTags(a: seq<string>, x: string, b: seq<string>, y: string)
    requires a + [x] == b + [y]
    ensures a == b && x == y
  {
    assert (a + [x])[|a|] == x && (b + [y])[|b|] == y;
    assert a == (a + [x])[..|a|] && b == (b + [y])[..|b|];
  }

  /** With a rendering that tells amounts apart, labels tell all genes apart. */
  lemma FaithfulLabels(c: Genome, d: Genome, kind: Kind, format: real -> string)
    requires Faithful(format)
    ensures GenomeLabel(Canonical(c, kind), format) == GenomeLabel(Canonical(d, kind), format)
       <==> SameGenes(Canonical(c, kind), Canonical(d, kind))
  {
    LabelsIdentifyGenomes(c, d, kind, format);
    CanonicalForms(c, kind);
    CanonicalForms(d, kind);
    FaithfulWinsors(Canonical(c, kind).winsor, Canonical(d, kind).winsor, format);
  }

  lemma FaithfulWinsors(v: Value, w: Value, format: real -> string)
    requires WinsorForm(v) && WinsorForm(w) && Faithful(format)
    ensures WinsorsLookAlike(v, w, format) <==> Equal(v, w)
  {}

  /** No two canonical genomes of a kind share a label unless their genes are the same. */
  ghost predicate UniqueLabels(kind: Kind, format: real -> string) {
    forall c, d {:trigger UniqueFor(Canonical(c, kind), Canonical(d, kind), format)} ::
      UniqueFor(Canonical(c, kind), Canonical(d, kind), format)
  }

  ghost predicate UniqueFor(g: Genome, h: Genome, format: real -> string) {
    GenomeLabel(g, format) == GenomeLabel(h, format) ==> SameGenes(g, h)
  }

  /** Labels are unique exactly when the rendering of floats tells the amounts of winsorising
      apart. */
  lemma UniqueExactlyWhenToldApart(kind: Kind, format: real -> string)
    requires Clean(format)
    ensures UniqueLabels(kind, format) <==> TellsApart(format)
  {
    if UniqueLabels(kind, format) {
      forall r, s | 0.0 < r <= 0.2 && 0.0 < s <= 0.2 && format(r) == format(s) ensures r == s {
        var c, d := DEFAULTS.(winsor := PFloat(r)), DEFAULTS.(winsor := PFloat(s));
        assert UniqueFor(Canonical(c, kind), Canonical(d, kind), format);
        ToldApart(DEFAULTS, kind, format, r, s, Canonical(c, kind), Canonical(d, kind));
      }
    }
    if TellsApart(format) {
      forall c, d ensures UniqueFor(Canonical(c, kind), Canonical(d, kind), format) {
        FaithfulLabels(c, d, kind, format);
      }
    }
  }

  /** Two genomes that differ in their winsorising only. */
  lemma ToldApart(g: Genome, kind: Kind, format: real -> string, r: real, s: real, cn: Genome, dn: Genome)
    requires cn == Canonical(g.(winsor := PFloat(r)), kind) && dn == Canonical(g.(winsor := PFloat(s)), kind)
    requires Clean(format) && UniqueFor(cn, dn, format) && 0.0 < r <= 0.2 && 0.0 < s <= 0.2 && format(r) == format(s)
    ensures r == s
  {
    OtherWinsor(g, kind, r, s, cn, dn);
    CanonicalForms(g.(winsor := PFloat(r)), kind);
    CanonicalForms(g.(winsor := PFloat(s)), kind);
    WinsorTells(cn, dn, kind, format, r, s);
  }

  lemma WinsorTells(g: Genome, h: Genome, kind: Kind, format: real -> string, r: real, s: real)
    requires Forms(g, kind) && Forms(h, kind) && g.winsor == PFloat(r) && h == g.(winsor := PFloat(s))
    requires Clean(format) && UniqueFor(g, h, format) && format(r) == format(s)
    ensures r == s
  {
    EqualToItself(g, h, kind);
    TagsIdentify(g, h, kind, format);
  }

  lemma OtherWinsor(g: Genome, kind: Kind, r: real, s: real, cn: Genome, dn: Genome)
    requires 0.0 < r <= 0.2 && 0.0 < s <= 0.2
    requires cn == Canonical(g.(winsor := PFloat(r)), kind) && dn == Canonical(g.(winsor := PFloat(s)), kind)
    ensures cn.winsor == PFloat(r) && dn == cn.(winsor := PFloat(s))
  {}

  lemma EqualToItself(g: Genome, h: Genome, kind: Kind)
    requires Forms(g, kind) && h == g.(winsor := h.winsor)
    ensures SameButWinsor(g, h)
  {
    PairsAgree(g.reduce, g.reduce);
    PairsAgree(g.select, g.select);
  }

  // How a genome is spelled when one transform is the only gene set.

  predicate PowerSpelling(v: string, tag: string) {
    (v == "yeo-johnson" && tag == "yj") || (v == "quantile-normal" && tag == "qn")
  }

  predicate TargetSpelling(v: string, tag: string) {
    (v == "log1p" && tag == "tlog") || (v == "yeo-johnson" && tag == "tyj") || (v == "quantile-normal" && tag == "tqn")
  }

  predicate ScaleSpelling(v: string, tag: string) {
    (v == "standard" && tag == "scale") || (v == "robust" && tag == "rscale") || (v == "minmax" && tag == "mm") || (v == "maxabs" && tag == "ma")
  }

  lemma PowerLabel(v: string, tag: string, base: string, format: real -> string)
    requires PowerSpelling(v, tag)
    ensures GenomeLabel(DEFAULTS.(base := PStr(base), power := PStr(v)), format) == tag + "+" + base
  {
    JoinTwo(tag, base);
    assert GenomeTags(DEFAULTS.(base := PStr(base), power := PStr(v)), format) == [tag] + [base];
  }

  lemma TargetLabel(v: string, tag: string, base: string, format: real -> string)
    requires TargetSpelling(v, tag)
    ensures GenomeLabel(DEFAULTS.(base := PStr(base), target := PStr(v)), format) == tag + "+" + base
  {
    JoinTwo(tag, base);
    assert GenomeTags(DEFAULTS.(base := PStr(base), target := PStr(v)), format) == [tag] + [base];
  }

  lemma ScaleLabel(v: string, tag: string, base: string, format: real -> string)
    requires ScaleSpelling(v, tag)
    ensures GenomeLabel(DEFAULTS.(base := PStr(base), scale := PStr(v)), format) == tag + "+" + base
  {
    JoinTwo(tag, base);
    assert GenomeTags(DEFAULTS.(base := PStr(base), scale := PStr(v)), format) == [tag] + [base];
  }

  lemma JoinTwo(tag: string, base: string)
    ensures Join([tag] + [base]) == tag + "+" + base
  {
    assert ([tag] + [base])[1..] == [base];
    assert Join([base]) == base;
  }
}
