/** Recipe labels, printed when a proposal is made and parsed back from history. */
module Labels {
  import opened Wrappers

  /** A recipe dictionary; an absent key is `None`. */
  datatype Recipe = Recipe(base: string, scale: Option<bool>, poly: Option<int>, targetLog: Option<bool>)

  predicate Flag(x: Option<bool>) {
    x == Some(true)
  }

  predicate HasDegree(x: Option<int>) {
    x.Some? && x.value != 0
  }

  /** The recipe without its falsy entries. */
  function DropFalsy(r: Recipe): Recipe {
    Recipe(r.base,
           if Flag(r.scale) then r.scale else None,
           if HasDegree(r.poly) then r.poly else None,
           if Flag(r.targetLog) then r.targetLog else None)
  }

  // ----------------------------------------------------------------- decimal numerals

  function Digit(d: nat): char
    requires d < 10
  {
    ['0', '1', '2', '3', '4', '5', '6', '7', '8', '9'][d]
  }

  predicate IsDigit(c: char) {
    '0' <= c <= '9'
  }

  function DigitValue(c: char): nat
    requires IsDigit(c)
  {
    c as nat - '0' as nat
  }

  function PrintNat(n: nat): (s: string)
    ensures s != []
    ensures forall i :: 0 <= i < |s| ==> IsDigit(s[i])
  {
    if n < 10 then [Digit(n)] else PrintNat(n / 10) + [Digit(n % 10)]
  }

  function PrintInt(n: int): (s: string)
    ensures s != [] && '+' !in s
  {
    if n < 0 then "-" + PrintNat(-n) else PrintNat(n)
  }

  /** The value of a string of digits, `None` when it holds anything else or nothing. */
  function ReadNat(s: string): Option<nat>
  {
    if s == [] || !IsDigit(s[|s| - 1]) then None
    else if |s| == 1 then Some(DigitValue(s[0]))
    else match ReadNat(s[..|s| - 1])
      case None => None
      case Some(n) => Some(10 * n + DigitValue(s[|s| - 1]))
  }

  /** `int(s)` for a numeral with an optional sign. */
  function ReadInt(s: string): Option<int> {
    if s != [] && (s[0] == '-' || s[0] == '+') then
      match ReadNat(s[1..])
      case None => None
      case Some(n) => var i: int := n; Some(if s[0] == '-' then -i else i)
    else
      match ReadNat(s)
      case None => None
      case Some(n) => Some(n)
  }

  lemma {:induction false} ReadsBackNat(n: nat)
    ensures ReadNat(PrintNat(n)) == Some(n)
  {
    if n >= 10 {
      var s := PrintNat(n);
      ReadsBackNat(n / 10);
      assert s[..|s| - 1] == PrintNat(n / 10);
    }
  }

  lemma ReadsBackInt(n: int)
    ensures ReadInt(PrintInt(n)) == Some(n)
  {
    if n < 0 {
      ReadsSigned(-n, PrintNat(-n));
    } else {
      ReadsUnsigned(n, PrintNat(n));
    }
  }

  lemma ReadsSigned(n: int, digits: string)
    requires n >= 0 && digits == PrintNat(n)
    ensures ReadInt("-" + digits) == Some(-n)
  {
    ReadsBackNat(n);
    assert ("-" + digits)[1..] == digits;
  }

  lemma ReadsUnsigned(n: nat, digits: string)
    requires digits == PrintNat(n)
    ensures ReadInt(digits) == Some(n)
  {
    ReadsBackNat(n);
    assert IsDigit(digits[0]);
  }

  // ------------------------------------------------------------------- join and split

  function Join(tags: seq<string>): string
    requires tags != []
  {
    if |tags| == 1 then tags[0] else tags[0] + "+" + Join(tags[1..])
  }

  /** `s.split('+')`, with `word` already read. */
  function SplitFrom(word: string, s: string): (parts: seq<string>)
    ensures parts != []
    decreases |s|
  {
    if s == [] then [word]
    else if s[0] == '+' then [word] + SplitFrom([], s[1..])
    else SplitFrom(word + [s[0]], s[1..])
  }

  function Split(s: string): (parts: seq<string>)
    ensures parts != []
  {
    SplitFrom([], s)
  }

  lemma {:induction false} SplitWord(word: string, tag: string, rest: string)
    requires '+' !in tag
    ensures SplitFrom(word, tag + rest) == SplitFrom(word + tag, rest)
    decreases |tag|
  {
    if tag == [] {
      assert tag + rest == rest && word + tag == word;
    } else {
      SplitWord(word + [tag[0]], tag[1..], rest);
      assert (tag + rest)[1..] == tag[1..] + rest;
      assert word + [tag[0]] + tag[1..] == word + tag;
    }
  }

  /** Splitting undoes joining when no tag holds a separator. */
  lemma {:induction false} SplitJoin(tags: seq<string>)
    requires tags != [] && forall t :: t in tags ==> '+' !in t
    ensures Split(Join(tags)) == tags
  {
    if |tags| == 1 {
      SplitWord([], tags[0], []);
      assert tags[0] + [] == tags[0] && [] + tags[0] == tags[0];
    } else {
      var rest := "+" + Join(tags[1..]);
      SplitJoin(tags[1..]);
      SplitWord([], tags[0], rest);
      assert [] + tags[0] == tags[0];
      assert tags[0] + rest == Join(tags);
      assert rest[1..] == Join(tags[1..]);
    }
  }

  /** No part of a split holds a separator. */
  lemma {:induction false} SplitIsClean(word: string, s: string)
    requires '+' !in word
    ensures forall p :: p in SplitFrom(word, s) ==> '+' !in p
    decreases |s|
  {
    if s != [] {
      if s[0] == '+' { SplitIsClean([], s[1..]); } else { SplitIsClean(word + [s[0]], s[1..]); }
    }
  }

  // ------------------------------------------------------------------------- printing

  /** The tags of a label, the base last. */
  function Tags(r: Recipe): (tags: seq<string>)
    ensures tags != [] && tags[|tags| - 1] == r.base
  {
    (if Flag(r.targetLog) then ["tlog"] else []) +
    (if HasDegree(r.poly) then ["poly" + PrintInt(r.poly.value)] else []) +
    (if Flag(r.scale) then ["scale"] else []) +
    [r.base]
  }

  function Label(r: Recipe): string {
    Join(Tags(r))
  }

  method RecipeLabel(r: Recipe) returns (text: string)
    ensures text == Label(r)
  {
    var tags := [];
    if Flag(r.targetLog) {
      tags := tags + ["tlog"];
    }
    if HasDegree(r.poly) {
      tags := tags + ["poly" + PrintInt(r.poly.value)];
    }
    if Flag(r.scale) {
      tags := tags + ["scale"];
    }
    tags := tags + [r.base];
    assert tags == Tags(r);
    text := Join(tags);
  }

  // -------------------------------------------------------------------------- parsing

  /** What one axis tag adds to a recipe; unknown tags add nothing. */
  function ReadTag(r: Recipe, tag: string): Recipe {
    if tag == "tlog" then r.(targetLog := Some(true))
    else if tag == "scale" then r.(scale := Some(true))
    else if "poly" <= tag then
      r.(poly := match ReadInt(tag[4..])
                 case Some(n) => Some(n)
                 case None => Some(2))
    else r
  }

  function ReadTags(r: Recipe, tags: seq<string>): Recipe
    decreases |tags|
  {
    if tags == [] then r else ReadTags(ReadTag(r, tags[0]), tags[1..])
  }

  function Parse(text: string): Recipe {
    var parts := Split(text);
    ReadTags(Recipe(parts[|parts| - 1], None, None, None), parts[..|parts| - 1])
  }

  method ParseRecipeFromLabel(text: string) returns (recipe: Recipe)
    ensures recipe == Parse(text)
  {
    if text == "" {
      return Recipe("", None, None, None);
    }
    var parts := Split(text);
    var tags := parts[..|parts| - 1];
    recipe := Recipe(parts[|parts| - 1], None, None, None);
    for i := 0 to |tags|
      invariant ReadTags(recipe, tags[i..]) == Parse(text)
    {
      var tag := tags[i];
      assert tags[i..][1..] == tags[i + 1..];
      if tag == "tlog" {
        recipe := recipe.(targetLog := Some(true));
      } else if tag == "scale" {
        recipe := recipe.(scale := Some(true));
      } else if "poly" <= tag {
        match ReadInt(tag[4..])
        case Some(n) => recipe := recipe.(poly := Some(n));
        case None => recipe := recipe.(poly := Some(2));
      }
    }
  }

  lemma {:induction false} ParseKeepsBase(r: Recipe, tags: seq<string>)
    ensures ReadTags(r, tags).base == r.base
    decreases |tags|
  {
    if tags != [] { ParseKeepsBase(ReadTag(r, tags[0]), tags[1..]); }
  }

  lemma {:induction false} ReadTagsSplit(r: Recipe, front: seq<string>, back: seq<string>)
    ensures ReadTags(r, front + back) == ReadTags(ReadTags(r, front), back)
    decreases |front|
  {
    if front == [] {
      assert front + back == back;
    } else {
      ReadTagsSplit(ReadTag(r, front[0]), front[1..], back);
      assert (front + back)[1..] == front[1..] + back;
    }
  }

  lemma ReadsOneTag(r: Recipe, tag: string)
    ensures ReadTags(r, [tag]) == ReadTag(r, tag)
  {
    assert [tag][1..] == [];
  }

  lemma ReadsPoly(r: Recipe, n: int)
    ensures ReadTag(r, "poly" + PrintInt(n)) == r.(poly := Some(n))
  {
    var tag := "poly" + PrintInt(n);
    ReadsBackInt(n);
    assert tag[4..] == PrintInt(n);
    assert tag[0] == 'p';
  }

  lemma ReadsAxisTags(r: Recipe)
    ensures ReadTags(Recipe(r.base, None, None, None), Tags(r)[..|Tags(r)| - 1]) == DropFalsy(r)
  {
    var start := Recipe(r.base, None, None, None);
    var log := if Flag(r.targetLog) then ["tlog"] else [];
    var poly := if HasDegree(r.poly) then ["poly" + PrintInt(r.poly.value)] else [];
    var scale := if Flag(r.scale) then ["scale"] else [];
    assert Tags(r)[..|Tags(r)| - 1] == (log + poly) + scale;
    ReadTagsSplit(start, log + poly, scale);
    ReadTagsSplit(start, log, poly);
    ReadsOneTag(start, "tlog");
    var logged := ReadTags(start, log);
    if HasDegree(r.poly) {
      ReadsOneTag(logged, poly[0]);
      ReadsPoly(logged, r.poly.value);
    }
    ReadsOneTag(ReadTags(logged, poly), "scale");
  }

  /** A label reads back as the recipe it was printed from, up to falsy entries, exactly
      when the name of the base estimator holds no separator. */
  lemma LabelRoundTrip(r: Recipe)
    ensures Parse(Label(r)) == DropFalsy(r) <==> '+' !in r.base
  {
    if '+' !in r.base {
      SplitJoin(Tags(r));
      ReadsAxisTags(r);
    } else {
      var parts := Split(Label(r));
      SplitIsClean([], Label(r));
      ParseKeepsBase(Recipe(parts[|parts| - 1], None, None, None), parts[..|parts| - 1]);
      assert parts[|parts| - 1] in parts;
    }
  }

  /** Labels identify recipes: two recipes share a label exactly when they differ only in
      falsy entries. */
  lemma LabelsIdentifyRecipes(r: Recipe, s: Recipe)
    requires '+' !in r.base && '+' !in s.base
    ensures Label(r) == Label(s) <==> DropFalsy(r) == DropFalsy(s)
  {
    LabelRoundTrip(r);
    LabelRoundTrip(s);
    assert Tags(r) == Tags(DropFalsy(r)) && Tags(s) == Tags(DropFalsy(s));
  }

  datatype Axis = ScaleAxis | PolyAxis | TargetLogAxis

  predicate AxisPresent(r: Recipe, axis: Axis) {
    match axis
    case ScaleAxis => Flag(r.scale)
    case PolyAxis => HasDegree(r.poly) && r.poly.value > 1
    case TargetLogAxis => Flag(r.targetLog)
  }

  /** Diagnosis sees the same axes in a label as in the recipe behind it. */
  lemma AxesSurvive(r: Recipe, axis: Axis)
    requires '+' !in r.base
    ensures AxisPresent(Parse(Label(r)), axis) <==> AxisPresent(r, axis)
  {
    LabelRoundTrip(r);
  }
}
