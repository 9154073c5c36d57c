/** Shared validators (src/validate.rs): a cooldown names exactly one unit,
  * a color has three numeric values, and a scope reference is checked
  * against the registry its prefix names. */
module Validate {
  import opened Base
  import opened Report
  import opened Tree

  const CooldownUnits: seq<string> := ["years", "months", "days"]

  /** How many of `years`, `months` and `days` a cooldown has. */
  function UnitCount(block: Block, units: seq<string>): (r: nat)
    ensures r <= |units|
  {
    if |units| == 0 then 0
    else UnitCount(block, units[..|units| - 1]) + (if HasKey(block, units[|units| - 1]) then 1 else 0)
  }

  /** The warning of `validate_cooldown`, if any. */
  function CooldownReports(block: Block): (r: seq<LogReport>)
    ensures |r| <= 1
    ensures |r| == 0 <==> UnitCount(block, CooldownUnits) == 1
  {
    if UnitCount(block, CooldownUnits) != 1 then
      [WarnAt(block.loc, Validation, "cooldown must have one of `years`, `months`, or `days`")]
    else []
  }

  /** A cooldown passes exactly when one of the three units is given. */
  lemma CooldownExactlyOne(block: Block)
    ensures CooldownReports(block) == [] <==>
      (HasKey(block, "years") && !HasKey(block, "months") && !HasKey(block, "days"))
      || (!HasKey(block, "years") && HasKey(block, "months") && !HasKey(block, "days"))
      || (!HasKey(block, "years") && !HasKey(block, "months") && HasKey(block, "days"))
  {
    var units := CooldownUnits;
    assert units[..2] == ["years", "months"];
    assert units[..2][..1] == ["years"];
    assert units[..2][..1][..0] == [];
    var y := if HasKey(block, "years") then 1 else 0;
    var m := if HasKey(block, "months") then 1 else 0;
    var d := if HasKey(block, "days") then 1 else 0;
    assert UnitCount(block, units[..2][..1]) == y;
    assert UnitCount(block, units[..2]) == y + m;
    assert UnitCount(block, units) == y + m + d;
  }

  method ValidateCooldown(block: Block) returns (reports: seq<LogReport>)
    ensures reports == CooldownReports(block)
  {
    var count := 0;
    for i := 0 to |CooldownUnits|
      invariant count == UnitCount(block, CooldownUnits[..i])
    {
      assert CooldownUnits[..i + 1][..i] == CooldownUnits[..i];
      if HasKey(block, CooldownUnits[i]) {
        count := count + 1;
      }
    }
    assert CooldownUnits[..|CooldownUnits|] == CooldownUnits;
    reports := [];
    if count != 1 {
      reports := [WarnAt(block.loc, Validation, "cooldown must have one of `years`, `months`, or `days`")];
    }
  }

  // ---------------------------------------------------------------- color

  const ExpectedColor := "expected color value"
  const IntegerRange := "color values should be between 0 and 255"
  const FloatRange := "color values should be between 0.0 and 1.0"
  const ExpectedThree := "expected 3 color values"

  /** The reports about one item of a color block. `floatInRange` says
    * whether a text parses as a float (and then whether it lies in
    * 0.0..=1.0). */
  function ColorItem(item: BlockItem, floatInRange: string -> Option<bool>): seq<LogReport>
  {
    match item
    case ItemField(f) => [ErrorAt(f.key.loc, Validation, ExpectedColor)]
    case ItemBlock(b) => [ErrorAt(b.loc, Validation, ExpectedColor)]
    case ItemValue(t) =>
      match ParseIsize(t.text)
      case Some(i) => if !(0 <= i <= 255) then [ErrorAt(t.loc, Validation, IntegerRange)] else []
      case None =>
        match floatInRange(t.text)
        case Some(ok) => if !ok then [ErrorAt(t.loc, Validation, FloatRange)] else []
        case None => [ErrorAt(t.loc, Validation, ExpectedColor)]
  }

  function ColorItems(items: seq<BlockItem>, floatInRange: string -> Option<bool>): seq<LogReport>
  {
    if |items| == 0 then []
    else ColorItems(items[..|items| - 1], floatInRange) + ColorItem(items[|items| - 1], floatInRange)
  }

  /** `validate_color`: every item checked, then the count of values. */
  function ColorReports(block: Block, floatInRange: string -> Option<bool>): seq<LogReport>
  {
    ColorItems(block.items, floatInRange)
      + (if |Values(block.items)| != 3 then [ErrorAt(block.loc, Validation, ExpectedThree)] else [])
  }

  /** Every keyed item and every block item is an error; an integer value
    * is an error exactly when it is outside 0..=255. */
  lemma ColorItemMeaning(item: BlockItem, floatInRange: string -> Option<bool>)
    ensures item.ItemField? || item.ItemBlock? ==>
      |ColorItem(item, floatInRange)| == 1 && ColorItem(item, floatInRange)[0].severity == Error
    ensures item.ItemValue? && ParseIsize(item.token.text).Some? ==>
      (ColorItem(item, floatInRange) == [] <==> 0 <= ParseIsize(item.token.text).value <= 255)
    ensures |ColorItem(item, floatInRange)| <= 1
  {
  }

  /** One report at most per item, and one for each item that is not a
    * value. */
  lemma {:induction false} ColorItemsCount(items: seq<BlockItem>, floatInRange: string -> Option<bool>)
    ensures |items| - |Values(items)| <= |ColorItems(items, floatInRange)| <= |items|
  {
    if |items| > 0 {
      ColorItemsCount(items[..|items| - 1], floatInRange);
      ColorItemMeaning(items[|items| - 1], floatInRange);
    }
  }

  /** The loop of `validate_color`, counting the value items. */
  method ValidateColor(block: Block, floatInRange: string -> Option<bool>) returns (reports: seq<LogReport>)
    ensures reports == ColorReports(block, floatInRange)
  {
    var items := block.items;
    var count := 0;
    reports := [];
    for i := 0 to |items|
      invariant reports == ColorItems(items[..i], floatInRange)
      invariant count == |Values(items[..i])|
    {
      assert items[..i + 1][..i] == items[..i];
      match items[i] {
        case ItemField(f) =>
          reports := reports + [ErrorAt(f.key.loc, Validation, ExpectedColor)];
        case ItemBlock(b) =>
          reports := reports + [ErrorAt(b.loc, Validation, ExpectedColor)];
        case ItemValue(t) =>
          reports := reports + ColorItem(items[i], floatInRange);
          count := count + 1;
      }
    }
    assert items[..|items|] == items;
    if count != 3 {
      reports := reports + [ErrorAt(block.loc, Validation, ExpectedThree)];
    }
  }

  /** Every value item counts towards the three, whether or not it parses
    * as a number; any other number of values draws the final error. */
  lemma ColorCountChecked(block: Block, floatInRange: string -> Option<bool>)
    ensures var r := ColorReports(block, floatInRange);
      (|Values(block.items)| != 3 <==> |r| == |ColorItems(block.items, floatInRange)| + 1)
      && (|Values(block.items)| != 3 ==> r[|r| - 1] == ErrorAt(block.loc, Validation, ExpectedThree))
  {
  }

  /** An integer colour component in 0..=255. */
  predicate IntegerComponent(t: Token)
  {
    ParseIsize(t.text).Some? && 0 <= ParseIsize(t.text).value <= 255
  }

  /** Three integer values in range, and nothing else, give no report. */
  lemma ColorThreeInRange(block: Block, floatInRange: string -> Option<bool>, a: Token, b: Token, c: Token)
    requires block.items == [ItemValue(a), ItemValue(b), ItemValue(c)]
    requires IntegerComponent(a) && IntegerComponent(b) && IntegerComponent(c)
    ensures ColorReports(block, floatInRange) == []
  {
    var items := block.items;
    assert items[..2][..1][..0] == [];
    assert items[..2] == [ItemValue(a), ItemValue(b)];
    assert items[..2][..1] == [ItemValue(a)];
    assert Values(items[..2][..1]) == [a];
    assert Values(items[..2]) == [a, b];
    assert Values(items) == [a, b, c];
    assert ColorItems(items[..2][..1], floatInRange) == [];
    assert ColorItems(items[..2], floatInRange) == [];
    assert ColorItems(items, floatInRange) == [];
  }

  // -------------------------------------------------------- scope reference

  /** The registry a scope reference is checked against. */
  datatype Registry = Characters | Dynasties | Faiths | Houses | Provinces | Religions | Titles

  /** `validate_scope_reference`: the registry for the prefix, and no check
    * for any other prefix. */
  function ScopeReference(prefix: Token): (r: Option<Registry>)
    ensures r.None? <==> prefix.text !in {"character", "dynasty", "faith", "house", "province", "religion", "title"}
    ensures prefix.Is("faith") ==> r == Some(Faiths)
    ensures prefix.Is("religion") ==> r == Some(Religions)
  {
    match prefix.text
    case "character" => Some(Characters)
    case "dynasty" => Some(Dynasties)
    case "faith" => Some(Faiths)
    case "house" => Some(Houses)
    case "province" => Some(Provinces)
    case "religion" => Some(Religions)
    case "title" => Some(Titles)
    case _ => None
  }

  /** Distinct prefixes are checked against distinct registries. */
  lemma ScopeReferenceInjective(p: Token, q: Token)
    requires ScopeReference(p).Some? && ScopeReference(p) == ScopeReference(q)
    ensures p.text == q.text
  {
  }
}
