/** Portrait modifier groups and portrait animations (src/data/portrait.rs):
  * which properties a modifier group offers, how `validate` decides which
  * localization keys and gene-template uses a group asks for, the `fallback`
  * check, references from modifier packs to groups, and the body-type rule
  * of animations. The scripted triggers and weights inside the blocks are
  * validated by code that is not part of this model. */
module Portrait {
  import opened Base
  import opened Report
  import opened Tree
  import opened ScopeContexts
  import Genes

  // ------------------------------------------------------------ has_property

  /** An `add_accessory_modifiers` entry names a gene and a template, and
    * that template of the gene (looked up in the database) offers `property`. */
  predicate EntryOffers(entry: Block, property: string, geneBlock: string -> Option<Block>)
  {
    match GetFieldValue(entry, "gene")
    case None => false
    case Some(gene) =>
      match GetFieldValue(entry, "template")
      case None => false
      case Some(template) =>
        match geneBlock(gene.text)
        case None => false
        case Some(gb) => Genes.HasTemplateSetting(gb, template.text, property)
  }

  /** `has_property` as a statement: the reserved fields are never
    * properties; a block field is one; otherwise some accessory entry must
    * offer it through its gene. */
  predicate HasProperty(block: Block, property: string, geneBlock: string -> Option<Block>)
  {
    if property == "fallback" || property == "add_accessory_modifiers" then false
    else if GetFieldBlock(block, property).Some? then true
    else
      var entries := GetFieldBlocks(block, "add_accessory_modifiers");
      exists i :: 0 <= i < |entries| && EntryOffers(entries[i], property, geneBlock)
  }

  /** The search of `has_property`, returning at the first entry that offers
    * the property. */
  method SearchProperty(block: Block, property: string, geneBlock: string -> Option<Block>) returns (r: bool)
    ensures r == HasProperty(block, property, geneBlock)
  {
    if property == "fallback" || property == "add_accessory_modifiers" {
      return false;
    }
    if GetFieldBlock(block, property).Some? {
      return true;
    }
    var entries := GetFieldBlocks(block, "add_accessory_modifiers");
    for i := 0 to |entries|
      invariant forall i' :: 0 <= i' < i ==> !EntryOffers(entries[i'], property, geneBlock)
    {
      match GetFieldValue(entries[i], "gene") {
        case None =>
        case Some(gene) =>
          match GetFieldValue(entries[i], "template") {
            case None =>
            case Some(template) =>
              match geneBlock(gene.text) {
                case None =>
                case Some(gb) =>
                  var offers := Genes.SearchTemplateSetting(gb, template.text, property);
                  if offers {
                    return true;
                  }
              }
          }
      }
    }
    return false;
  }

  /** No gene template offers "empty", so a group has the property "empty"
    * exactly when it has an `empty` block of its own. */
  lemma EmptyOnlyAsBlock(block: Block, geneBlock: string -> Option<Block>)
    ensures HasProperty(block, "empty", geneBlock) <==> GetFieldBlock(block, "empty").Some?
  {
    var entries := GetFieldBlocks(block, "add_accessory_modifiers");
    forall i | 0 <= i < |entries|
      ensures !EntryOffers(entries[i], "empty", geneBlock)
    {
    }
  }

  // ---------------------------------------------------------------- validate

  /** The named scopes a portrait modifier group's triggers may use. */
  const GroupNames: map<string, Scopes> := map[
    "age" := {Value}, "culture" := {Culture}, "current_weight" := {Value},
    "highest_held_title_tier" := {Value}, "faith" := {Faith}, "female" := {Bool},
    "government" := {GovernmentType}, "prowess" := {Value}, "ruler_designer" := {Bool},
    "weight_for_portrait" := {Value}, "year_of_birth" := {Value}]

  /** The fields of a group that are not portrait modifiers. */
  const GroupFields: set<string> :=
    {"usage", "interface_position", "priority", "user_data", "selection_behavior", "fallback",
     "add_accessory_modifiers"}

  const NotDefinedMessage := "portrait modifier not defined"

  /** A call of `validate_property_use`: the gene's template is used by the
    * named caller. */
  datatype PropertyUse = PropertyUse(gene: Token, template: Token, caller: string)

  /** What validating a group yields: its scope context, the localization
    * keys it requires, the template uses it declares and its reports. */
  datatype GroupCheck = GroupCheck(
    sc: ScopeContext, localization: seq<string>, uses: seq<PropertyUse>, reports: seq<LogReport>)

  /** The block's `usage` is one of `usages`. */
  predicate UsageAmong(block: Block, usages: set<string>)
  {
    GetFieldValue(block, "usage").Some? && GetFieldValue(block, "usage").value.text in usages
  }

  /** The scope context of a group's triggers: rooted in a character. */
  function GroupContext(key: Token): (r: ScopeContext)
    ensures r.root == {Character} && r.rooted && r.key == key
    ensures r.names.Keys == GroupNames.Keys
    ensures forall name :: name in r.names ==> r.names[name] == GroupNames[name]
  {
    NewRooted({Character}, key).(names := GroupNames)
  }

  /** The caller of a group: its key, unless the group is not used in
    * customization (`usage` is `game` or `none`). */
  function GroupCaller(key: Token, block: Block): (r: string)
    ensures r == "" || r == key.text
    ensures r == "" <==> key.text == "" || UsageAmong(block, {"game", "none"})
  {
    match GetFieldValue(block, "usage")
    case Some(token) => if token.Is("game") || token.Is("none") then "" else key.text
    case None => key.text
  }

  /** The caller inside one modifier: `usage = game` clears it. */
  function ModifierCaller(caller: string, block: Block): (r: string)
    ensures r == "" || r == caller
    ensures r == "" <==> caller == "" || UsageAmong(block, {"game"})
  {
    match GetFieldValue(block, "usage")
    case Some(token) => if token.Is("game") then "" else caller
    case None => caller
  }

  function ModifierKey(caller: string, key: Token): string
  {
    "PORTRAIT_MODIFIER_" + caller + "_" + key.text
  }

  /** The localization keys the modifiers require, in order. */
  function ModifierLocalization(defs: seq<(Token, Block)>, caller: string): seq<string>
  {
    if |defs| == 0 then []
    else
      var d := defs[|defs| - 1];
      var c := ModifierCaller(caller, d.1);
      ModifierLocalization(defs[..|defs| - 1], caller) + (if c != "" then [ModifierKey(c, d.0)] else [])
  }

  /** `unknown_block_fields`: the definitions the group validator does not know. */
  function UnknownDefinitions(defs: seq<(Token, Block)>): (r: seq<(Token, Block)>)
  {
    if |defs| == 0 then []
    else
      var d := defs[|defs| - 1];
      UnknownDefinitions(defs[..|defs| - 1]) + (if d.0.text !in GroupFields then [d] else [])
  }

  /** The template uses the accessory entries declare, in order. */
  function AccessoryUses(entries: seq<Block>, caller: string): seq<PropertyUse>
  {
    if |entries| == 0 then []
    else
      var e := entries[|entries| - 1];
      var gene := GetFieldValue(e, "gene");
      var template := GetFieldValue(e, "template");
      AccessoryUses(entries[..|entries| - 1], caller)
        + (if caller != "" && gene.Some? && template.Some? then [PropertyUse(gene.value, template.value, caller)] else [])
  }

  /** The `fallback` must name a field of the same group. */
  function FallbackReports(block: Block): (r: seq<LogReport>)
    ensures |r| <= 1
    ensures |r| == 1 <==>
      GetFieldValue(block, "fallback").Some? && !HasKey(block, GetFieldValue(block, "fallback").value.text)
    ensures |r| == 1 ==> IsReport(r[0], Warning, MissingItem, GetFieldValue(block, "fallback").value.loc)
  {
    match GetFieldValue(block, "fallback")
    case Some(token) => if !HasKey(block, token.text) then [WarnAt(token.loc, MissingItem, NotDefinedMessage)] else []
    case None => []
  }

  /** `PortraitModifierGroup::validate` as a function of the group. */
  function GroupSpec(key: Token, block: Block): GroupCheck
  {
    var caller := GroupCaller(key, block);
    GroupCheck(
      GroupContext(key),
      (if caller != "" then ["PORTRAIT_MODIFIER_" + key.text] else [])
        + ModifierLocalization(UnknownDefinitions(Definitions(block.items)), caller),
      AccessoryUses(GetFieldBlocks(block, "add_accessory_modifiers"), caller),
      FallbackReports(block))
  }

  /** `PortraitModifierGroup::validate`: the caller is reassigned once, then
    * handed to each accessory entry and each modifier. */
  method ValidateGroup(key: Token, block: Block) returns (r: GroupCheck)
    ensures r == GroupSpec(key, block)
  {
    var sc := SeedGroup(key);
    var caller := key.text;
    match GetFieldValue(block, "usage") {
      case Some(token) =>
        if token.Is("game") || token.Is("none") {
          caller := "";
        }
      case None =>
    }
    var localization := [];
    if caller != "" {
      localization := ["PORTRAIT_MODIFIER_" + key.text];
    }
    var reports := FallbackReports(block);
    var uses := CollectUses(GetFieldBlocks(block, "add_accessory_modifiers"), caller);
    var mods := CollectModifierKeys(UnknownDefinitions(Definitions(block.items)), caller);
    r := GroupCheck(sc, localization + mods, uses, reports);
  }

  /** The named scopes a group's triggers may use, defined one by one. */
  method SeedGroup(key: Token) returns (sc: ScopeContext)
    ensures sc == GroupContext(key)
  {
    sc := NewRooted({Character}, key);
    sc := DefineName(sc, "age", {Value});
    sc := DefineName(sc, "culture", {Culture});
    sc := DefineName(sc, "current_weight", {Value});
    sc := DefineName(sc, "highest_held_title_tier", {Value});
    sc := DefineName(sc, "faith", {Faith});
    sc := DefineName(sc, "female", {Bool});
    sc := DefineName(sc, "government", {GovernmentType});
    sc := DefineName(sc, "prowess", {Value});
    sc := DefineName(sc, "ruler_designer", {Bool});
    sc := DefineName(sc, "weight_for_portrait", {Value});
    sc := DefineName(sc, "year_of_birth", {Value});
    assert sc.names == GroupNames;
  }

  /** Each accessory entry with a gene and a template, under a caller. */
  method CollectUses(entries: seq<Block>, caller: string) returns (uses: seq<PropertyUse>)
    ensures uses == AccessoryUses(entries, caller)
  {
    uses := [];
    for i := 0 to |entries|
      invariant uses == AccessoryUses(entries[..i], caller)
    {
      assert entries[..i + 1][..i] == entries[..i];
      var gene := GetFieldValue(entries[i], "gene");
      var template := GetFieldValue(entries[i], "template");
      if gene.Some? && template.Some? && caller != "" {
        uses := uses + [PropertyUse(gene.value, template.value, caller)];
      }
    }
    assert entries[..|entries|] == entries;
  }

  /** Each modifier's localization key, unless its `usage` is `game`. */
  method CollectModifierKeys(defs: seq<(Token, Block)>, caller: string) returns (mods: seq<string>)
    ensures mods == ModifierLocalization(defs, caller)
  {
    mods := [];
    for i := 0 to |defs|
      invariant mods == ModifierLocalization(defs[..i], caller)
    {
      assert defs[..i + 1][..i] == defs[..i];
      var c := caller;
      match GetFieldValue(defs[i].1, "usage") {
        case Some(token) =>
          if token.Is("game") {
            c := "";
          }
        case None =>
      }
      if c != "" {
        mods := mods + [ModifierKey(c, defs[i].0)];
      }
    }
    assert defs[..|defs|] == defs;
  }

  /** Every key a modifier requires is named after the caller and a modifier
    * whose own `usage` is not `game`. */
  lemma {:induction false} ModifierLocalizationSound(defs: seq<(Token, Block)>, caller: string, k: string)
    requires k in ModifierLocalization(defs, caller)
    ensures caller != ""
    ensures exists i :: 0 <= i < |defs| && !UsageAmong(defs[i].1, {"game"}) && k == ModifierKey(caller, defs[i].0)
  {
    var n := |defs| - 1;
    var init := defs[..n];
    if k in ModifierLocalization(init, caller) {
      ModifierLocalizationSound(init, caller, k);
      var i :| 0 <= i < |init| && !UsageAmong(init[i].1, {"game"}) && k == ModifierKey(caller, init[i].0);
      assert init[i] == defs[i];
    } else {
      assert k == ModifierKey(caller, defs[n].0);
    }
  }

  /** With a caller, each modifier whose `usage` is not `game` requires its key. */
  lemma {:induction false} ModifierLocalizationComplete(defs: seq<(Token, Block)>, caller: string, i: nat)
    requires caller != "" && i < |defs| && !UsageAmong(defs[i].1, {"game"})
    ensures ModifierKey(caller, defs[i].0) in ModifierLocalization(defs, caller)
  {
    if i < |defs| - 1 {
      var init := defs[..|defs| - 1];
      assert init[i] == defs[i];
      ModifierLocalizationComplete(init, caller, i);
    }
  }

  /** Every template use carries the caller and comes from an entry naming
    * that gene and template. */
  lemma {:induction false} AccessoryUsesSound(entries: seq<Block>, caller: string, u: PropertyUse)
    requires u in AccessoryUses(entries, caller)
    ensures caller != "" && u.caller == caller
    ensures exists i :: (0 <= i < |entries| && GetFieldValue(entries[i], "gene") == Some(u.gene)
      && GetFieldValue(entries[i], "template") == Some(u.template))
  {
    var n := |entries| - 1;
    var init := entries[..n];
    if u in AccessoryUses(init, caller) {
      AccessoryUsesSound(init, caller, u);
      var i :| 0 <= i < |init| && GetFieldValue(init[i], "gene") == Some(u.gene)
        && GetFieldValue(init[i], "template") == Some(u.template);
      assert init[i] == entries[i];
    } else {
      assert GetFieldValue(entries[n], "gene") == Some(u.gene);
    }
  }

  /** With a caller, every entry naming a gene and a template declares a use. */
  lemma {:induction false} AccessoryUsesComplete(entries: seq<Block>, caller: string, i: nat)
    requires caller != "" && i < |entries|
    requires GetFieldValue(entries[i], "gene").Some? && GetFieldValue(entries[i], "template").Some?
    ensures PropertyUse(GetFieldValue(entries[i], "gene").value, GetFieldValue(entries[i], "template").value, caller)
      in AccessoryUses(entries, caller)
  {
    if i < |entries| - 1 {
      var init := entries[..|entries| - 1];
      assert init[i] == entries[i];
      AccessoryUsesComplete(init, caller, i);
    }
  }

  /** A group used only in game (or not at all) requires no localization and
    * declares no template uses. */
  lemma SilentGroup(key: Token, block: Block)
    requires UsageAmong(block, {"game", "none"})
    ensures GroupSpec(key, block).localization == []
    ensures GroupSpec(key, block).uses == []
  {
    var defs := UnknownDefinitions(Definitions(block.items));
    var entries := GetFieldBlocks(block, "add_accessory_modifiers");
    var keys := ModifierLocalization(defs, "");
    if keys != [] {
      ModifierLocalizationSound(defs, "", keys[0]);
      assert false;
    }
    var uses := AccessoryUses(entries, "");
    if uses != [] {
      AccessoryUsesSound(entries, "", uses[0]);
      assert false;
    }
  }

  // ------------------------------------------------ validate_portrait_modifiers

  /** A reference `group = modifier` must name a property of the group. */
  function ReferenceReports(refs: seq<(Token, Token)>, hasProperty: (string, string) -> bool): seq<LogReport>
  {
    if |refs| == 0 then []
    else
      var r := refs[|refs| - 1];
      ReferenceReports(refs[..|refs| - 1], hasProperty)
        + (if !hasProperty(r.0.text, r.1.text)
           then [ErrorAt(r.1.loc, MissingItem, "portrait modifier " + r.1.text + " not found in group " + r.0.text)]
           else [])
  }

  /** One error per reference the group does not offer, at the modifier. */
  lemma {:induction false} ReferenceReportsMeaning(refs: seq<(Token, Token)>, hasProperty: (string, string) -> bool)
    ensures |ReferenceReports(refs, hasProperty)| <= |refs|
    ensures ReferenceReports(refs, hasProperty) == [] <==>
      forall i :: 0 <= i < |refs| ==> hasProperty(refs[i].0.text, refs[i].1.text)
    ensures forall r :: r in ReferenceReports(refs, hasProperty) ==>
      exists i :: 0 <= i < |refs| && !hasProperty(refs[i].0.text, refs[i].1.text)
        && IsReport(r, Error, MissingItem, refs[i].1.loc)
  {
    if |refs| > 0 {
      var init := refs[..|refs| - 1];
      ReferenceReportsMeaning(init, hasProperty);
      assert forall i :: 0 <= i < |init| ==> init[i] == refs[i];
    }
  }

  // ---------------------------------------------------------- PortraitAnimation

  const UnknownBodyType := "unknown body type"

  /** What validating an animation yields: the localization key it needs,
    * the body types it lacks, and its reports. */
  datatype AnimationCheck = AnimationCheck(localization: string, missing: seq<string>, reports: seq<LogReport>)

  /** The body types (of `types`) the block has no field for. */
  function MissingTypes(types: seq<string>, block: Block): seq<string>
  {
    if |types| == 0 then []
    else
      MissingTypes(types[..|types| - 1], block)
        + (if !HasKey(block, types[|types| - 1]) then [types[|types| - 1]] else [])
  }

  /** A field `t = value` must chain to another body type. */
  function TypeReports(fields: seq<Field>, t: string): seq<LogReport>
  {
    if |fields| == 0 then []
    else
      var f := fields[|fields| - 1];
      TypeReports(fields[..|fields| - 1], t)
        + (if f.key.Is(t) && f.bv.BVValue? && f.bv.token.text !in Genes.BodyTypes
           then [WarnAt(f.bv.token.loc, Validation, UnknownBodyType)] else [])
  }

  function AllTypeReports(types: seq<string>, fields: seq<Field>): seq<LogReport>
  {
    if |types| == 0 then []
    else AllTypeReports(types[..|types| - 1], fields) + TypeReports(fields, types[|types| - 1])
  }

  function AnimationSpec(key: Token, block: Block): AnimationCheck
  {
    AnimationCheck(key.text, MissingTypes(Genes.BodyTypes, block), AllTypeReports(Genes.BodyTypes, Fields(block.items)))
  }

  /** `PortraitAnimation::validate`: one pass per body type. */
  method ValidateAnimation(key: Token, block: Block) returns (r: AnimationCheck)
    ensures r == AnimationSpec(key, block)
  {
    var types := Genes.BodyTypes;
    var fields := Fields(block.items);
    var missing := [];
    var reports := [];
    for i := 0 to |types|
      invariant missing == MissingTypes(types[..i], block)
      invariant reports == AllTypeReports(types[..i], fields)
    {
      assert types[..i + 1][..i] == types[..i];
      if !HasKey(block, types[i]) {
        missing := missing + [types[i]];
      }
      reports := reports + TypeReports(fields, types[i]);
    }
    assert types[..|types|] == types;
    r := AnimationCheck(key.text, missing, reports);
  }

  lemma {:induction false} MissingTypesMeaning(types: seq<string>, block: Block, t: string)
    ensures t in MissingTypes(types, block) <==> t in types && !HasKey(block, t)
  {
    if |types| > 0 {
      MissingTypesMeaning(types[..|types| - 1], block, t);
      assert types == types[..|types| - 1] + [types[|types| - 1]];
    }
  }

  /** An animation lacks nothing exactly when it has all four body types. */
  lemma AnimationComplete(key: Token, block: Block)
    ensures AnimationSpec(key, block).missing == [] <==>
      forall i :: 0 <= i < |Genes.BodyTypes| ==> HasKey(block, Genes.BodyTypes[i])
  {
    var m := MissingTypes(Genes.BodyTypes, block);
    forall i | 0 <= i < |Genes.BodyTypes|
      ensures Genes.BodyTypes[i] in m <==> !HasKey(block, Genes.BodyTypes[i])
    {
      MissingTypesMeaning(Genes.BodyTypes, block, Genes.BodyTypes[i]);
    }
    if m != [] {
      MissingTypesMeaning(Genes.BodyTypes, block, m[0]);
    }
  }

  lemma {:induction false} TypeReportsMeaning(fields: seq<Field>, t: string)
    ensures TypeReports(fields, t) == [] <==>
      forall j :: 0 <= j < |fields| && fields[j].key.Is(t) && fields[j].bv.BVValue? ==>
        fields[j].bv.token.text in Genes.BodyTypes
  {
    if |fields| > 0 {
      var init := fields[..|fields| - 1];
      TypeReportsMeaning(init, t);
      assert forall j :: 0 <= j < |init| ==> init[j] == fields[j];
    }
  }

  lemma {:induction false} AllTypeReportsMeaning(types: seq<string>, fields: seq<Field>)
    ensures AllTypeReports(types, fields) == [] <==> forall i :: 0 <= i < |types| ==> TypeReports(fields, types[i]) == []
  {
    if |types| > 0 {
      var init := types[..|types| - 1];
      AllTypeReportsMeaning(init, fields);
      assert forall i :: 0 <= i < |init| ==> init[i] == types[i];
    }
  }

  /** An animation is silent exactly when every body-type field that holds a
    * value names a body type. */
  lemma AnimationValuesKnown(key: Token, block: Block)
    ensures AnimationSpec(key, block).reports == [] <==>
      forall i, j :: (0 <= i < |Genes.BodyTypes| && 0 <= j < |Fields(block.items)|
        && Fields(block.items)[j].key.Is(Genes.BodyTypes[i]) && Fields(block.items)[j].bv.BVValue?) ==>
        Fields(block.items)[j].bv.token.text in Genes.BodyTypes
  {
    var fields := Fields(block.items);
    var types := Genes.BodyTypes;
    assert AnimationSpec(key, block).reports == AllTypeReports(types, fields);
    AllTypeReportsMeaning(types, fields);
    forall i | 0 <= i < |types|
      ensures TypeReports(fields, types[i]) == [] <==>
        forall j :: (0 <= j < |fields| && fields[j].key.Is(types[i]) && fields[j].bv.BVValue?) ==>
          fields[j].bv.token.text in types
    {
      TypeReportsMeaning(fields, types[i]);
    }
  }
}
