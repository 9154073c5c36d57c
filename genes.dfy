/** Portrait genes (src/data/genes.rs): how a `genes` file is split into
  * gene categories, the template maps of morph and accessory genes, the
  * check of a gene's use in a portrait, the accessory-tag flags and the
  * search for a template setting. */
module Genes {
  import opened Base
  import opened Report
  import opened Tree

  /** The definition name that is a setting of the gene, not a template. */
  const Ugliness: string := "ugliness_feature_categories"

  datatype Gene =
    | ColorGene
    | AgePresetGene
    | MorphGene(special: bool, templates: map<string, Token>)
    | AccessoryGene(templates: map<string, Token>)
  {
    /** `has_property`: a template of a morph or accessory gene. */
    predicate HasProperty(property: string)
    {
      (MorphGene? || AccessoryGene?) && property in templates
    }
  }

  /** The database kind a gene is registered under. */
  datatype GeneItem = GeneCategory | GeneAgePreset

  datatype Addition = Addition(item: GeneItem, key: Token, block: Block, gene: Gene)

  /** What the genes add to the database: the registered genes in order and
    * the accessory tags named by templates. */
  datatype GeneStore = GeneStore(items: seq<Addition>, tags: set<string>)

  // ----------------------------------------------------------- templates

  /** The template map of a morph or accessory gene: every definition except
    * the ugliness setting, the later one winning. */
  function TemplateMap(defs: seq<(Token, Block)>): map<string, Token>
  {
    if |defs| == 0 then map[]
    else
      var m := TemplateMap(defs[..|defs| - 1]);
      var k := defs[|defs| - 1].0;
      if k.Is(Ugliness) then m else m[k.text := k]
  }

  /** One duplicate report for each template named again. */
  function TemplateDups(defs: seq<(Token, Block)>, what: string): seq<LogReport>
  {
    if |defs| == 0 then []
    else
      var init := defs[..|defs| - 1];
      var m := TemplateMap(init);
      var k := defs[|defs| - 1].0;
      TemplateDups(init, what) + (if !k.Is(Ugliness) && k.text in m then [DupError(k, m[k.text], what)] else [])
  }

  /** The `set_tags` parts of one template. */
  function SetTags(b: Block): set<string>
  {
    match GetFieldValue(b, "set_tags")
    case None => {}
    case Some(t) => set p | p in Split(t.text, ',')
  }

  /** Every tag named by the templates of an accessory gene. */
  function TemplateTags(defs: seq<(Token, Block)>): set<string>
  {
    if |defs| == 0 then {}
    else
      var (k, b) := defs[|defs| - 1];
      TemplateTags(defs[..|defs| - 1]) + (if k.Is(Ugliness) then {} else SetTags(b))
  }

  /** The number of definitions that are templates. */
  function TemplateCount(defs: seq<(Token, Block)>): nat
  {
    if |defs| == 0 then 0
    else TemplateCount(defs[..|defs| - 1]) + (if defs[|defs| - 1].0.Is(Ugliness) then 0 else 1)
  }

  /** The templates are exactly the definition names other than the
    * ugliness setting. */
  lemma {:induction false} TemplateMapKeys(defs: seq<(Token, Block)>)
    ensures forall name :: name in TemplateMap(defs) <==>
      name != Ugliness && exists i :: 0 <= i < |defs| && defs[i].0.text == name
    ensures forall name :: name in TemplateMap(defs) ==> TemplateMap(defs)[name].text == name
  {
    if |defs| > 0 {
      var init := defs[..|defs| - 1];
      TemplateMapKeys(init);
      assert forall i :: 0 <= i < |init| ==> init[i] == defs[i];
      forall name | name != Ugliness && exists i :: 0 <= i < |defs| && defs[i].0.text == name
        ensures name in TemplateMap(defs)
      {
        var i :| 0 <= i < |defs| && defs[i].0.text == name;
        if i < |init| {
          assert init[i].0.text == name;
        }
      }
    }
  }

  /** Each template is either new or reported as a duplicate: the reports
    * and the distinct templates together account for every template. */
  lemma {:induction false} TemplateDupsCount(defs: seq<(Token, Block)>, what: string)
    ensures |TemplateDups(defs, what)| + |TemplateMap(defs).Keys| == TemplateCount(defs)
  {
    if |defs| > 0 {
      var init := defs[..|defs| - 1];
      TemplateDupsCount(init, what);
      var k := defs[|defs| - 1].0;
      var m := TemplateMap(init);
      if !k.Is(Ugliness) && k.text !in m {
        assert m[k.text := k].Keys == m.Keys + {k.text};
      } else if !k.Is(Ugliness) {
        assert m[k.text := k].Keys == m.Keys;
      }
    }
  }

  /** A tag is registered exactly when a template lists it in `set_tags`. */
  lemma {:induction false} TemplateTagsMeaning(defs: seq<(Token, Block)>, tag: string)
    ensures tag in TemplateTags(defs) <==>
      exists i :: 0 <= i < |defs| && !defs[i].0.Is(Ugliness) && tag in SetTags(defs[i].1)
  {
    if |defs| > 0 {
      var init := defs[..|defs| - 1];
      TemplateTagsMeaning(init, tag);
      assert forall i :: 0 <= i < |init| ==> init[i] == defs[i];
    }
  }

  /** The loop of `MorphGene::add` and `AccessoryGene::add`. */
  method CollectTemplates(defs: seq<(Token, Block)>, what: string)
    returns (templates: map<string, Token>, tags: set<string>, reports: seq<LogReport>)
    ensures templates == TemplateMap(defs)
    ensures tags == TemplateTags(defs)
    ensures reports == TemplateDups(defs, what)
  {
    templates, tags, reports := map[], {}, [];
    for i := 0 to |defs|
      invariant templates == TemplateMap(defs[..i])
      invariant tags == TemplateTags(defs[..i])
      invariant reports == TemplateDups(defs[..i], what)
    {
      assert defs[..i + 1][..i] == defs[..i];
      var (k, b) := defs[i];
      if k.Is(Ugliness) {
        continue;
      }
      if k.text in templates {
        reports := reports + [DupError(k, templates[k.text], what)];
      }
      templates := templates[k.text := k];
      tags := tags + SetTags(b);
    }
    assert defs[..|defs|] == defs;
  }

  // ------------------------------------------------------------ Gene::add

  /** How a definition under a gene-type key is added. */
  datatype GeneKind = ColorKind | AgeKind | DecalKind | MorphKind(special: bool) | AccessoryKind

  function AddOne(s: GeneStore, kind: GeneKind, key: Token, block: Block): Checked<GeneStore>
  {
    var defs := Definitions(block.items);
    match kind
    case ColorKind => Checked(GeneStore(s.items + [Addition(GeneCategory, key, block, ColorGene)], s.tags), [])
    case AgeKind => Checked(GeneStore(s.items + [Addition(GeneAgePreset, key, block, AgePresetGene)], s.tags), [])
    case DecalKind => Checked(s, [])
    case MorphKind(special) =>
      Checked(GeneStore(s.items + [Addition(GeneCategory, key, block, MorphGene(special, TemplateMap(defs)))], s.tags),
              TemplateDups(defs, "morph gene template"))
    case AccessoryKind =>
      Checked(GeneStore(s.items + [Addition(GeneCategory, key, block, AccessoryGene(TemplateMap(defs)))],
                        s.tags + TemplateTags(defs)),
              TemplateDups(defs, "accessory gene template"))
  }

  /** Every definition added as the same kind, in order. */
  function AddEach(s: GeneStore, kind: GeneKind, defs: seq<(Token, Block)>): Checked<GeneStore>
  {
    if |defs| == 0 then Checked(s, [])
    else
      var before := AddEach(s, kind, defs[..|defs| - 1]);
      var last := AddOne(before.value, kind, defs[|defs| - 1].0, defs[|defs| - 1].1);
      Checked(last.value, before.reports + last.reports)
  }

  /** The definitions under `special_genes`: only morph and accessory genes. */
  function AddSpecial(s: GeneStore, defs: seq<(Token, Block)>): Checked<GeneStore>
  {
    if |defs| == 0 then Checked(s, [])
    else
      var before := AddSpecial(s, defs[..|defs| - 1]);
      var (k, b) := defs[|defs| - 1];
      var last :=
        if k.Is("morph_genes") then AddEach(before.value, MorphKind(true), Definitions(b.items))
        else if k.Is("accessory_genes") then AddEach(before.value, AccessoryKind, Definitions(b.items))
        else Checked(before.value, [WarnAt(k.loc, ParseError, "unknown gene type")]);
      Checked(last.value, before.reports + last.reports)
  }

  /** The gene-type key of a top-level definition in a genes file. */
  function KindOfKey(name: string): Option<GeneKind>
  {
    if name == "color_genes" then Some(ColorKind)
    else if name == "age_presets" then Some(AgeKind)
    else if name == "decal_atlases" then Some(DecalKind)
    else if name == "morph_genes" then Some(MorphKind(false))
    else if name == "accessory_genes" then Some(AccessoryKind)
    else None
  }

  /** `Gene::add`. */
  function GeneAdd(s: GeneStore, key: Token, block: Block): Checked<GeneStore>
  {
    var defs := Definitions(block.items);
    if key.Is("special_genes") then AddSpecial(s, defs)
    else match KindOfKey(key.text)
      case Some(kind) => AddEach(s, kind, defs)
      case None => Checked(s, [WarnAt(key.loc, ParseError, "unknown gene type")])
  }

  /** The gene a morph or accessory definition registers has a property
    * exactly when the property names one of its templates; colour genes and
    * age presets have none. */
  lemma {:induction false} AddedGeneProperties(s: GeneStore, kind: GeneKind, key: Token, block: Block, p: string)
    requires !kind.DecalKind?
    ensures var r := AddOne(s, kind, key, block).value;
      |r.items| == |s.items| + 1
      && (r.items[|s.items|].gene.HasProperty(p) <==>
          (kind.MorphKind? || kind.AccessoryKind?) && p != Ugliness
          && exists i :: 0 <= i < |Definitions(block.items)| && Definitions(block.items)[i].0.text == p)
  {
    TemplateMapKeys(Definitions(block.items));
  }

  /** An unknown gene-type key adds nothing and gives one ParseError warning. */
  lemma UnknownGeneType(s: GeneStore, key: Token, block: Block)
    requires !key.Is("special_genes") && key.text !in {"color_genes", "age_presets", "decal_atlases", "morph_genes", "accessory_genes"}
    ensures GeneAdd(s, key, block).value == s
    ensures var r := GeneAdd(s, key, block).reports; |r| == 1 && IsReport(r[0], Warning, ParseError, key.loc)
  {
  }

  /** Adding every definition as one kind registers one gene per definition,
    * in order, after the earlier ones; `decal_atlases` registers none. */
  lemma {:induction false} AddEachItems(s: GeneStore, kind: GeneKind, defs: seq<(Token, Block)>)
    ensures var r := AddEach(s, kind, defs).value;
      if kind.DecalKind? then r == s
      else (|r.items| == |s.items| + |defs| && r.items[..|s.items|] == s.items
        && forall i :: 0 <= i < |defs| ==> r.items[|s.items| + i].key == defs[i].0)
  {
    if |defs| > 0 {
      var init := defs[..|defs| - 1];
      AddEachItems(s, kind, init);
      if !kind.DecalKind? {
        var before := AddEach(s, kind, init).value;
        var r := AddEach(s, kind, defs).value;
        assert r.items == before.items + [r.items[|r.items| - 1]];
        forall i | 0 <= i < |defs|
          ensures r.items[|s.items| + i].key == defs[i].0
        {
          if i < |init| {
            assert init[i] == defs[i];
            assert r.items[|s.items| + i] == before.items[|s.items| + i];
          }
        }
      }
    }
  }

  /** Color genes and age presets never report anything when added. */
  lemma {:induction false} AddEachSilent(s: GeneStore, kind: GeneKind, defs: seq<(Token, Block)>)
    requires kind.ColorKind? || kind.AgeKind? || kind.DecalKind?
    ensures AddEach(s, kind, defs).reports == []
    ensures AddEach(s, kind, defs).value.tags == s.tags
  {
    if |defs| > 0 {
      AddEachSilent(s, kind, defs[..|defs| - 1]);
    }
  }

  /** Under `special_genes`, a definition that is neither `morph_genes` nor
    * `accessory_genes` adds nothing and gives one warning of its own. */
  lemma {:induction false} SpecialUnknownOnly(s: GeneStore, defs: seq<(Token, Block)>)
    requires forall i :: 0 <= i < |defs| ==> !defs[i].0.Is("morph_genes") && !defs[i].0.Is("accessory_genes")
    ensures AddSpecial(s, defs).value == s
    ensures |AddSpecial(s, defs).reports| == |defs|
    ensures forall i :: 0 <= i < |defs| ==>
      IsReport(AddSpecial(s, defs).reports[i], Warning, ParseError, defs[i].0.loc)
  {
    if |defs| > 0 {
      var init := defs[..|defs| - 1];
      assert forall i :: 0 <= i < |init| ==> init[i] == defs[i];
      SpecialUnknownOnly(s, init);
    }
  }

  /** `r` keeps the genes of `s` and adds only special morph genes and
    * accessory genes after them. */
  predicate SpecialOnly(s: GeneStore, r: GeneStore)
  {
    |r.items| >= |s.items| && r.items[..|s.items|] == s.items
    && forall i :: |s.items| <= i < |r.items| ==>
      (r.items[i].gene.MorphGene? && r.items[i].gene.special) || r.items[i].gene.AccessoryGene?
  }

  lemma SpecialOnlyTrans(a: GeneStore, b: GeneStore, c: GeneStore)
    requires SpecialOnly(a, b) && SpecialOnly(b, c)
    ensures SpecialOnly(a, c)
  {
    assert c.items[..|a.items|] == c.items[..|b.items|][..|a.items|];
    forall i | |a.items| <= i < |c.items|
      ensures (c.items[i].gene.MorphGene? && c.items[i].gene.special) || c.items[i].gene.AccessoryGene?
    {
      if i < |b.items| {
        assert c.items[i] == c.items[..|b.items|][i];
      }
    }
  }

  /** The genes registered under `special_genes` are special morph genes
    * and accessory genes only. */
  lemma {:induction false} SpecialGenesKinds(s: GeneStore, defs: seq<(Token, Block)>)
    ensures SpecialOnly(s, AddSpecial(s, defs).value)
  {
    if |defs| > 0 {
      var init := defs[..|defs| - 1];
      SpecialGenesKinds(s, init);
      var before := AddSpecial(s, init).value;
      var (k, b) := defs[|defs| - 1];
      if k.Is("morph_genes") {
        AddEachKinds(before, MorphKind(true), Definitions(b.items));
      } else if k.Is("accessory_genes") {
        AddEachKinds(before, AccessoryKind, Definitions(b.items));
      } else {
        assert AddSpecial(s, defs).value == before;
      }
      SpecialOnlyTrans(s, before, AddSpecial(s, defs).value);
    }
  }

  lemma {:induction false} AddEachKinds(s: GeneStore, kind: GeneKind, defs: seq<(Token, Block)>)
    requires kind == MorphKind(true) || kind == AccessoryKind
    ensures SpecialOnly(s, AddEach(s, kind, defs).value)
  {
    if |defs| > 0 {
      var init := defs[..|defs| - 1];
      AddEachKinds(s, kind, init);
      var before := AddEach(s, kind, init).value;
      var after := AddEach(s, kind, defs).value;
      assert after.items == before.items + [after.items[|after.items| - 1]];
      SpecialOnlyTrans(s, before, after);
    }
  }

  /** The gene database of a genes file. */
  class GeneDb {
    var items: seq<Addition>
    var tags: set<string>

    constructor ()
      ensures items == [] && tags == {}
    {
      items, tags := [], {};
    }

    function Store(): GeneStore
      reads this
    {
      GeneStore(items, tags)
    }

    /** `ColorGene::add`, `AgePresetGene::add`, `MorphGene::add` and
      * `AccessoryGene::add`. */
    method AddKind(kind: GeneKind, key: Token, block: Block) returns (reports: seq<LogReport>)
      modifies this
      ensures Checked(Store(), reports) == AddOne(old(Store()), kind, key, block)
    {
      reports := [];
      match kind {
        case ColorKind => items := items + [Addition(GeneCategory, key, block, ColorGene)];
        case AgeKind => items := items + [Addition(GeneAgePreset, key, block, AgePresetGene)];
        case DecalKind =>
        case MorphKind(special) =>
          var templates, _, dups := CollectTemplates(Definitions(block.items), "morph gene template");
          items := items + [Addition(GeneCategory, key, block, MorphGene(special, templates))];
          reports := dups;
        case AccessoryKind =>
          var templates, named, dups := CollectTemplates(Definitions(block.items), "accessory gene template");
          tags := tags + named;
          items := items + [Addition(GeneCategory, key, block, AccessoryGene(templates))];
          reports := dups;
      }
    }

    method AddAll(kind: GeneKind, defs: seq<(Token, Block)>) returns (reports: seq<LogReport>)
      modifies this
      ensures Checked(Store(), reports) == AddEach(old(Store()), kind, defs)
    {
      ghost var s := Store();
      reports := [];
      for i := 0 to |defs|
        invariant Checked(Store(), reports) == AddEach(s, kind, defs[..i])
      {
        assert defs[..i + 1][..i] == defs[..i];
        var r := AddKind(kind, defs[i].0, defs[i].1);
        reports := reports + r;
      }
      assert defs[..|defs|] == defs;
    }

    /** `Gene::add`: dispatch on the gene-type key. */
    method Add(key: Token, block: Block) returns (reports: seq<LogReport>)
      modifies this
      ensures Checked(Store(), reports) == GeneAdd(old(Store()), key, block)
    {
      var defs := Definitions(block.items);
      if key.Is("special_genes") {
        ghost var s := Store();
        reports := [];
        for i := 0 to |defs|
          invariant Checked(Store(), reports) == AddSpecial(s, defs[..i])
        {
          assert defs[..i + 1][..i] == defs[..i];
          var (k, b) := defs[i];
          var r;
          if k.Is("morph_genes") {
            r := AddAll(MorphKind(true), Definitions(b.items));
          } else if k.Is("accessory_genes") {
            r := AddAll(AccessoryKind, Definitions(b.items));
          } else {
            r := [WarnAt(k.loc, ParseError, "unknown gene type")];
          }
          reports := reports + r;
        }
        assert defs[..|defs|] == defs;
      } else {
        match KindOfKey(key.text) {
          case Some(kind) => reports := AddAll(kind, defs);
          case None => reports := [WarnAt(key.loc, ParseError, "unknown gene type")];
        }
      }
    }
  }

  // ------------------------------------------------------- validate_use

  const TooManyValues := "too many values in this gene"
  const TooFewValues := "too few values in this gene"
  const ExpectedInteger := "expected integer"
  const WeightRange := "expected value from 0 to 256"

  /** A value at an even position: "" or a template of the gene. */
  function TemplateCheck(t: Token, templates: map<string, Token>, callKey: Token): seq<LogReport>
  {
    if !t.Is("") && t.text !in templates then
      [ErrorAt(t.loc, MissingItem, "Gene template " + t.text + " not found in category " + callKey.text)]
    else []
  }

  /** A value at an odd position: an integer weight in 0..=256. */
  function WeightCheck(t: Token): seq<LogReport>
  {
    match ParseIsize(t.text)
    case None => [ErrorAt(t.loc, Validation, ExpectedInteger)]
    case Some(v) => if !(0 <= v <= 256) then [WarnAt(t.loc, Range, WeightRange)] else []
  }

  /** The check of one value of a gene's use, by its position. */
  function UseValue(i: nat, t: Token, templates: map<string, Token>, callKey: Token): seq<LogReport>
  {
    if i % 2 == 0 then TemplateCheck(t, templates, callKey) else WeightCheck(t)
  }

  function UseValues(vals: seq<Token>, templates: map<string, Token>, callKey: Token): seq<LogReport>
  {
    if |vals| == 0 then []
    else UseValues(vals[..|vals| - 1], templates, callKey) + UseValue(|vals| - 1, vals[|vals| - 1], templates, callKey)
  }

  /** `validate_use` of morph and accessory genes: the first five values are
    * checked, a fifth one is "too many" and ends the check, and fewer than
    * four are "too few". */
  function UseReports(vals: seq<Token>, templates: map<string, Token>, callKey: Token, callBlock: Block): seq<LogReport>
  {
    var n := if |vals| < 5 then |vals| else 5;
    UseValues(vals[..n], templates, callKey)
      + (if |vals| >= 5 then [ErrorAt(vals[4].loc, Validation, TooManyValues)] else [])
      + (if |vals| < 4 then [ErrorAt(callBlock.loc, Validation, TooFewValues)] else [])
  }

  lemma UseReportsShort(vals: seq<Token>, templates: map<string, Token>, callKey: Token, callBlock: Block)
    requires |vals| <= 4
    ensures UseReports(vals, templates, callKey, callBlock) == UseValues(vals, templates, callKey)
      + (if |vals| < 4 then [ErrorAt(callBlock.loc, Validation, TooFewValues)] else [])
  {
    assert vals[..|vals|] == vals;
  }

  lemma UseReportsLong(vals: seq<Token>, templates: map<string, Token>, callKey: Token, callBlock: Block)
    requires |vals| >= 5
    ensures UseReports(vals, templates, callKey, callBlock)
      == UseValues(vals[..4], templates, callKey) + UseValue(4, vals[4], templates, callKey)
        + [ErrorAt(vals[4].loc, Validation, TooManyValues)]
  {
    assert vals[..5][..4] == vals[..4];
  }

  method ValidateUse(gene: Gene, callKey: Token, callBlock: Block) returns (reports: seq<LogReport>)
    requires gene.MorphGene? || gene.AccessoryGene?
    ensures reports == UseReports(Values(callBlock.items), gene.templates, callKey, callBlock)
  {
    var templates := gene.templates;
    var vals := Values(callBlock.items);
    var count := 0;
    reports := [];
    while count < |vals|
      invariant count <= |vals| && count <= 4
      invariant reports == UseValues(vals[..count], templates, callKey)
    {
      assert vals[..count + 1][..count] == vals[..count];
      var token := vals[count];
      ghost var before := reports;
      reports := reports + UseValue(count, token, templates, callKey);
      count := count + 1;
      if count > 4 {
        assert before == UseValues(vals[..4], templates, callKey) && token == vals[4];
        reports := reports + [ErrorAt(token.loc, Validation, TooManyValues)];
        UseReportsLong(vals, templates, callKey, callBlock);
        return;
      }
    }
    UseReportsShort(vals, templates, callKey, callBlock);
    if count < 4 {
      reports := reports + [ErrorAt(callBlock.loc, Validation, TooFewValues)];
    }
  }

  /** `validate_use` of age-preset genes: they cannot be used at all. */
  function AgePresetUse(callKey: Token): (r: seq<LogReport>)
    ensures |r| == 1 && IsReport(r[0], Warning, Validation, callKey.loc)
  {
    [WarnAt(callKey.loc, Validation, "cannot define age preset genes")]
  }

  /** The reports of the checked values include each value's own. */
  lemma {:induction false} UseValuesContains(vals: seq<Token>, templates: map<string, Token>, callKey: Token, i: nat)
    requires i < |vals|
    ensures forall r :: r in UseValue(i, vals[i], templates, callKey) ==> r in UseValues(vals, templates, callKey)
  {
    if i < |vals| - 1 {
      UseValuesContains(vals[..|vals| - 1], templates, callKey, i);
    }
  }

  /** An out-of-range weight among the first five values is warned about,
    * and a name that is not a template is an error. */
  lemma UseChecksPositions(vals: seq<Token>, templates: map<string, Token>, callKey: Token, callBlock: Block, i: nat)
    requires i < |vals| && i < 5
    ensures i % 2 == 1 && ParseIsize(vals[i].text).Some? && !(0 <= ParseIsize(vals[i].text).value <= 256) ==>
      WarnAt(vals[i].loc, Range, WeightRange) in UseReports(vals, templates, callKey, callBlock)
    ensures i % 2 == 0 && !vals[i].Is("") && vals[i].text !in templates ==>
      ErrorAt(vals[i].loc, MissingItem, "Gene template " + vals[i].text + " not found in category " + callKey.text)
        in UseReports(vals, templates, callKey, callBlock)
  {
    var n := if |vals| < 5 then |vals| else 5;
    assert vals[..n][i] == vals[i];
    UseValuesContains(vals[..n], templates, callKey, i);
  }

  /** Values after the fifth are never looked at. */
  lemma UseStopsAtFive(vals: seq<Token>, templates: map<string, Token>, callKey: Token, callBlock: Block)
    requires |vals| >= 5
    ensures UseReports(vals, templates, callKey, callBlock) == UseReports(vals[..5], templates, callKey, callBlock)
  {
    assert vals[..5][..5] == vals[..5];
  }

  /** Exactly four values, all fine, give no report. */
  lemma {:induction false} UseFourValid(vals: seq<Token>, templates: map<string, Token>, callKey: Token, callBlock: Block)
    requires |vals| == 4
    requires forall i :: 0 <= i < 4 ==> UseValue(i, vals[i], templates, callKey) == []
    ensures UseReports(vals, templates, callKey, callBlock) == []
  {
    assert vals[..4] == vals;
    UseValuesClean(vals, templates, callKey);
  }

  lemma {:induction false} UseValuesClean(vals: seq<Token>, templates: map<string, Token>, callKey: Token)
    requires forall i :: 0 <= i < |vals| ==> UseValue(i, vals[i], templates, callKey) == []
    ensures UseValues(vals, templates, callKey) == []
  {
    if |vals| > 0 {
      var init := vals[..|vals| - 1];
      assert forall i :: 0 <= i < |init| ==> init[i] == vals[i];
      UseValuesClean(init, templates, callKey);
    }
  }

  // -------------------------------------------------- has_template_setting

  const BodyTypes: seq<string> := ["male", "female", "boy", "girl"]

  /** A weighted setting other than "empty" that equals `setting`. */
  predicate SettingAmong(assigns: seq<(Token, Token)>, setting: string)
  {
    exists j :: 0 <= j < |assigns| && !assigns[j].1.Is("empty") && assigns[j].1.Is(setting)
  }

  predicate BodySetting(template: Block, body: string, setting: string)
  {
    match GetFieldBlock(template, body)
    case None => false
    case Some(b) => SettingAmong(Assignments(b.items), setting)
  }

  /** `has_template_setting` as a statement: some body type of the template
    * offers the setting. */
  predicate HasTemplateSetting(block: Block, template: string, setting: string)
  {
    template != Ugliness
    && match GetFieldBlock(block, template)
       case None => false
       case Some(tb) => exists i :: 0 <= i < |BodyTypes| && BodySetting(tb, BodyTypes[i], setting)
  }

  /** The search of `has_template_setting`, returning at the first match. */
  method SearchTemplateSetting(block: Block, template: string, setting: string) returns (r: bool)
    ensures r == HasTemplateSetting(block, template, setting)
    ensures r ==> setting != "empty" && template != Ugliness
  {
    if template == Ugliness {
      return false;
    }
    match GetFieldBlock(block, template) {
      case None => return false;
      case Some(tb) =>
        for i := 0 to |BodyTypes|
          invariant forall i' :: 0 <= i' < i ==> !BodySetting(tb, BodyTypes[i'], setting)
        {
          match GetFieldBlock(tb, BodyTypes[i]) {
            case None =>
            case Some(b) =>
              var assigns := Assignments(b.items);
              for j := 0 to |assigns|
                invariant forall j' :: 0 <= j' < j ==> assigns[j'].1.Is("empty") || !assigns[j'].1.Is(setting)
              {
                if assigns[j].1.Is("empty") {
                  continue;
                }
                if assigns[j].1.Is(setting) {
                  return true;
                }
              }
          }
        }
        return false;
    }
  }

  // --------------------------------------------------------- required_tags

  /** The tag a `required_tags` part names: `not(x)` names `x`. */
  function RequiredTag(part: string): string
  {
    if StartsWith(part, "not(") then
      assert part[3] == '(';
      var inner := Split(part, '(');
      Split(inner[1], ')')[0]
    else part
  }

  /** The tags a `required_tags` value asks to exist, one per comma part. */
  function RequiredTags(value: string): (r: seq<string>)
    ensures |r| == |Split(value, ',')|
    ensures forall i :: 0 <= i < |r| ==> r[i] == RequiredTag(Split(value, ',')[i])
  {
    var parts := Split(value, ',');
    seq(|parts|, i requires 0 <= i < |parts| => RequiredTag(parts[i]))
  }

  /** `not(x)` is checked as the tag `x`, and any other part as itself. */
  lemma NegatedTag(x: string)
    requires '(' !in x && ')' !in x
    ensures RequiredTag("not(" + x + ")") == x
  {
    var part := "not(" + x + ")";
    var rest := x + ")";
    assert part[..4] == "not(";
    assert part[..3] == "not";
    assert IndexOf(part, '(') == Some(3);
    assert part[4..] == rest;
    assert SplitOnce(part, '(') == Some(("not", rest));
    assert '(' !in rest by {
      assert forall i :: 0 <= i < |rest| ==> rest[i] != '(';
    }
    assert Split(rest, '(') == [rest];
    assert Split(part, '(')[1] == rest;
    assert IndexOf(rest, ')') == Some(|x|) by {
      assert rest[..|x|] == x;
    }
    assert SplitOnce(rest, ')') == Some((x, ""));
  }

  lemma PlainTag(part: string)
    requires !StartsWith(part, "not(")
    ensures RequiredTag(part) == part
  {
  }
}
