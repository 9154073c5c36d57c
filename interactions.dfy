/** Character interactions (src/data/interactions.rs): the registry, the
  * named scopes an interaction starts with, and the rules about
  * `ai_potential`, localization and yes/no-or-trigger fields. */
module Interactions {
  import opened Base
  import opened Report
  import opened Tree
  import opened ScopeContexts

  /** `load_item` on values: always replaces, reports a duplicate only when
    * the earlier one comes from the same kind of file. */
  function LoadItemF(items: map<string, (Token, Block)>, key: Token, block: Block)
    : (r: (map<string, (Token, Block)>, seq<LogReport>))
    ensures r.0 == items[key.text := (key, block)]
    ensures |r.1| == 1 <==> key.text in items && items[key.text].0.loc.kind == key.loc.kind
    ensures |r.1| <= 1 && (|r.1| == 1 ==> r.1[0] == DupError(key, items[key.text].0, "interaction"))
  {
    if key.text in items && items[key.text].0.loc.kind == key.loc.kind then
      (items[key.text := (key, block)], [DupError(key, items[key.text].0, "interaction")])
    else (items[key.text := (key, block)], [])
  }

  // -------------------------------------------------------- named scopes

  /** The names every interaction starts with. */
  const FixedNames: map<string, Scopes> := map[
    "actor" := {Character}, "recipient" := {Character}, "hook" := {Bool},
    "secondary_actor" := {Character}, "secondary_recipient" := {Character}]

  /** The names implied by `target_type`. */
  function TargetTypeNames(t: Token): map<string, Scopes>
  {
    if t.Is("artifact") then map["target" := {Artifact}]
    else if t.Is("title") then map["target" := {LandedTitle}, "landed_title" := {LandedTitle}]
    else map[]
  }

  /** The names implied by `interface`. */
  function InterfaceNames(t: Token): map<string, Scopes>
  {
    if t.Is("interfere_in_war") || t.Is("call_ally") then map["target" := {War}]
    else if t.Is("blackmail") then map["target" := {Secret}]
    else if t.Is("council_task_interaction") then map["target" := {CouncilTask}]
    else if t.Is("create_claimant_faction_against") then map["landed_title" := {LandedTitle}]
    else map[]
  }

  /** The names implied by `special_interaction`. */
  function SpecialNames(t: Token): map<string, Scopes>
  {
    if t.Is("invite_to_council_interaction") then map["target" := {CouncilTask}]
    else if t.Is("end_war_attacker_victory_interaction") || t.Is("end_war_attacker_defeat_interaction")
      || t.Is("end_war_white_peace_interaction") then map["war" := {War}]
    else if t.Is("remove_scheme_interaction") || t.Is("invite_to_scheme_interaction") then map["scheme" := {Scheme}]
    else map[]
  }

  /** Only the first of `target_type`, `interface` and
    * `special_interaction` that is present is consulted. */
  function TargetNames(block: Block): (r: map<string, Scopes>)
    ensures r.Keys <= {"target", "landed_title", "war", "scheme"}
    ensures GetFieldValue(block, "target_type").Some? ==> r == TargetTypeNames(GetFieldValue(block, "target_type").value)
    ensures GetFieldValue(block, "target_type").None? && GetFieldValue(block, "interface").Some? ==>
      r == InterfaceNames(GetFieldValue(block, "interface").value)
    ensures GetFieldValue(block, "target_type").None? && GetFieldValue(block, "interface").None? ==>
      r == (match GetFieldValue(block, "special_interaction") case Some(t) => SpecialNames(t) case None => map[])
  {
    match GetFieldValue(block, "target_type")
    case Some(t) => TargetTypeNames(t)
    case None =>
      match GetFieldValue(block, "interface")
      case Some(t) => InterfaceNames(t)
      case None =>
        match GetFieldValue(block, "special_interaction")
        case Some(t) => SpecialNames(t)
        case None => map[]
  }

  /** The `flag` of every `send_option`, in order. */
  function SendOptionFlags(options: seq<Block>): seq<Token>
  {
    if |options| == 0 then []
    else
      var last := options[|options| - 1];
      SendOptionFlags(options[..|options| - 1])
        + (match GetFieldValue(last, "flag") case Some(t) => [t] case None => [])
  }

  /** Each flag defined in turn as a yes/no scope. */
  function DefineFlags(names: map<string, Scopes>, flags: seq<Token>): map<string, Scopes>
  {
    if |flags| == 0 then names
    else DefineFlags(names, flags[..|flags| - 1])[flags[|flags| - 1].text := {Bool}]
  }

  /** The context `Interaction::validate` starts from. */
  function Seeded(key: Token, block: Block): ScopeContext
  {
    var names := DefineFlags(FixedNames + TargetNames(block), SendOptionFlags(GetFieldBlocks(block, "send_option")));
    NewRooted({NoScope}, key).(names := names)
  }

  /** The names of the flags. */
  function FlagNames(flags: seq<Token>): set<string>
  {
    set t | t in flags :: t.text
  }

  lemma {:induction false} DefineFlagsMeaning(names: map<string, Scopes>, flags: seq<Token>, n: string)
    ensures n in DefineFlags(names, flags) <==> n in names || n in FlagNames(flags)
    ensures n in FlagNames(flags) ==> DefineFlags(names, flags)[n] == {Bool}
    ensures n in names && n !in FlagNames(flags) ==> DefineFlags(names, flags)[n] == names[n]
  {
    if |flags| > 0 {
      var init := flags[..|flags| - 1];
      DefineFlagsMeaning(names, init, n);
      assert flags == init + [flags[|flags| - 1]];
      assert FlagNames(flags) == FlagNames(init) + {flags[|flags| - 1].text};
    }
  }

  /** Every interaction knows `scope:actor`, `scope:recipient` and the
    * secondary ones as characters and `scope:hook` as yes/no, unless a
    * `send_option` flag takes the name over; every flag is a yes/no scope;
    * the target names are as the target fields imply. */
  lemma SeededNames(key: Token, block: Block, n: string)
    ensures var sc := Seeded(key, block);
      var flags := FlagNames(SendOptionFlags(GetFieldBlocks(block, "send_option")));
      (n in FixedNames ==> n in sc.names && (sc.names[n] == if n in flags then {Bool} else FixedNames[n]))
      && (n in flags ==> n in sc.names && sc.names[n] == {Bool})
      && (n in TargetNames(block) && n !in flags ==> n in sc.names && sc.names[n] == TargetNames(block)[n])
  {
    var flags := SendOptionFlags(GetFieldBlocks(block, "send_option"));
    var names := FixedNames + TargetNames(block);
    assert Seeded(key, block).names == DefineFlags(names, flags);
    DefineFlagsMeaning(names, flags, n);
    BaseNames(TargetNames(block), n);
  }

  /** No target name clashes with a fixed name. */
  lemma BaseNames(targets: map<string, Scopes>, n: string)
    requires targets.Keys <= {"target", "landed_title", "war", "scheme"}
    ensures n in FixedNames ==> n in FixedNames + targets && (FixedNames + targets)[n] == FixedNames[n]
    ensures n in targets ==> n in FixedNames + targets && (FixedNames + targets)[n] == targets[n]
  {
    if n in FixedNames {
      assert n in {"actor", "recipient", "hook", "secondary_actor", "secondary_recipient"};
      assert n !in targets;
    }
  }

  /** The `define_name` calls at the start of `Interaction::validate`. */
  method SeedScopes(key: Token, block: Block) returns (sc: ScopeContext)
    ensures sc == Seeded(key, block)
  {
    sc := NewRooted({NoScope}, key);
    sc := DefineName(sc, "actor", {Character});
    sc := DefineName(sc, "recipient", {Character});
    sc := DefineName(sc, "hook", {Bool});
    sc := DefineName(sc, "secondary_actor", {Character});
    sc := DefineName(sc, "secondary_recipient", {Character});
    assert sc.names == FixedNames;
    sc := DefineTargets(sc, block);
    sc := DefineSendOptions(sc, GetFieldBlocks(block, "send_option"));
  }

  /** The names that depend on the kind of target. */
  method DefineTargets(sc0: ScopeContext, block: Block) returns (sc: ScopeContext)
    ensures sc == sc0.(names := sc0.names + TargetNames(block))
  {
    var targetType := GetFieldValue(block, "target_type");
    var iface := GetFieldValue(block, "interface");
    var special := GetFieldValue(block, "special_interaction");
    if targetType.Some? {
      sc := DefineTargetType(sc0, targetType.value);
    } else if iface.Some? {
      sc := DefineInterface(sc0, iface.value);
    } else if special.Some? {
      sc := DefineSpecial(sc0, special.value);
    } else {
      sc := sc0;
      assert sc0.names + map[] == sc0.names;
    }
  }

  method DefineTargetType(sc0: ScopeContext, t: Token) returns (sc: ScopeContext)
    ensures sc == sc0.(names := sc0.names + TargetTypeNames(t))
  {
    sc := sc0;
    if t.Is("artifact") {
      sc := DefineName(sc, "target", {Artifact});
      AddOne(sc0.names, "target", {Artifact});
    } else if t.Is("title") {
      sc := DefineName(sc, "target", {LandedTitle});
      sc := DefineName(sc, "landed_title", {LandedTitle});
      assert sc.names == sc0.names + map["target" := {LandedTitle}, "landed_title" := {LandedTitle}];
    } else {
      assert sc0.names + map[] == sc0.names;
    }
  }

  /** Adding a one-entry map is one update. */
  lemma AddOne(m: map<string, Scopes>, k: string, v: Scopes)
    ensures m + map[k := v] == m[k := v]
  {
  }

  method DefineInterface(sc0: ScopeContext, t: Token) returns (sc: ScopeContext)
    ensures sc == sc0.(names := sc0.names + InterfaceNames(t))
  {
    sc := sc0;
    if t.Is("interfere_in_war") || t.Is("call_ally") {
      sc := DefineName(sc, "target", {War});
      AddOne(sc0.names, "target", {War});
    } else if t.Is("blackmail") {
      sc := DefineName(sc, "target", {Secret});
      AddOne(sc0.names, "target", {Secret});
    } else if t.Is("council_task_interaction") {
      sc := DefineName(sc, "target", {CouncilTask});
      AddOne(sc0.names, "target", {CouncilTask});
    } else if t.Is("create_claimant_faction_against") {
      sc := DefineName(sc, "landed_title", {LandedTitle});
      AddOne(sc0.names, "landed_title", {LandedTitle});
    } else {
      assert sc0.names + map[] == sc0.names;
    }
  }

  method DefineSpecial(sc0: ScopeContext, t: Token) returns (sc: ScopeContext)
    ensures sc == sc0.(names := sc0.names + SpecialNames(t))
  {
    sc := sc0;
    if t.Is("invite_to_council_interaction") {
      sc := DefineName(sc, "target", {CouncilTask});
      AddOne(sc0.names, "target", {CouncilTask});
    } else if t.Is("end_war_attacker_victory_interaction") || t.Is("end_war_attacker_defeat_interaction")
      || t.Is("end_war_white_peace_interaction") {
      sc := DefineName(sc, "war", {War});
      AddOne(sc0.names, "war", {War});
    } else if t.Is("remove_scheme_interaction") || t.Is("invite_to_scheme_interaction") {
      sc := DefineName(sc, "scheme", {Scheme});
      AddOne(sc0.names, "scheme", {Scheme});
    } else {
      assert sc0.names + map[] == sc0.names;
    }
  }

  /** Every `send_option` flag as a yes/no scope, in order. */
  method DefineSendOptions(sc0: ScopeContext, options: seq<Block>) returns (sc: ScopeContext)
    ensures sc == sc0.(names := DefineFlags(sc0.names, SendOptionFlags(options)))
  {
    sc := sc0;
    for i := 0 to |options|
      invariant sc == sc0.(names := DefineFlags(sc0.names, SendOptionFlags(options[..i])))
    {
      assert options[..i + 1][..i] == options[..i];
      match GetFieldValue(options[i], "flag") {
        case Some(t) =>
          ghost var before := SendOptionFlags(options[..i]);
          assert SendOptionFlags(options[..i + 1]) == before + [t];
          assert (before + [t])[..|before|] == before;
          sc := DefineName(sc, t.text, {Bool});
        case None =>
          assert SendOptionFlags(options[..i + 1]) == SendOptionFlags(options[..i]);
      }
    }
    assert options[..|options|] == options;
  }

  // ------------------------------------------------------------- checks

  /** The `ai_potential` rule: it is pointless when `ai_frequency` is absent
    * or 0, except for `revoke_title_interaction`. */
  function AiPotentialCheck(key: Token, block: Block): (r: seq<LogReport>)
    ensures |r| <= 1
    ensures |r| == 1 <==>
      GetKey(block, "ai_potential").Some?
      && (GetFieldInteger(block, "ai_frequency").None? || GetFieldInteger(block, "ai_frequency") == Some(0))
      && !key.Is("revoke_title_interaction")
    ensures |r| == 1 ==> IsReport(r[0], Warning, Unneeded, GetKey(block, "ai_potential").value.loc)
  {
    match GetKey(block, "ai_potential")
    case None => []
    case Some(token) =>
      var frequency := match GetFieldInteger(block, "ai_frequency") case Some(n) => n case None => 0;
      if frequency == 0 && !key.Is("revoke_title_interaction") then
        [WarnAt(token.loc, Unneeded, "`ai_potential` will not be used if `ai_frequency` is 0")]
      else []
  }

  /** Whether the interaction's own name must be localized: not for the
    * interactions named `ai_...`. */
  predicate NeedsLocalization(key: Token)
  {
    !StartsWith(key.text, "ai_")
  }

  /** Only names beginning with the three characters `ai_` are exempt. */
  lemma LocalizationExemption(key: Token)
    ensures !NeedsLocalization(key) <==>
      |key.text| >= 3 && key.text[0] == 'a' && key.text[1] == 'i' && key.text[2] == '_'
  {
    if |key.text| >= 3 && key.text[0] == 'a' && key.text[1] == 'i' && key.text[2] == '_' {
      assert key.text[..3] == "ai_";
    }
  }

  /** `validate_bool_or_trigger`: a token must be yes or no; a block is
    * handed on to be validated as a trigger. */
  function BoolOrTrigger(bv: BV): (r: (seq<LogReport>, Option<Block>))
    ensures bv.BVBlock? ==> r == ([], Some(bv.block))
    ensures bv.BVValue? ==> r.1.None? && (|r.0| == 1 <==> !bv.token.Is("yes") && !bv.token.Is("no"))
    ensures bv.BVValue? && |r.0| == 1 ==> IsReport(r.0[0], Warning, Validation, bv.token.loc)
    ensures |r.0| <= 1
  {
    match bv
    case BVValue(t) => (if !t.Is("yes") && !t.Is("no") then [WarnAt(t.loc, Validation, "expected yes or no")] else [], None)
    case BVBlock(b) => ([], Some(b))
  }

  class Interactions {
    var interactions: map<string, (Token, Block)>

    constructor ()
      ensures interactions == map[]
    {
      interactions := map[];
    }

    method LoadItem(key: Token, block: Block) returns (reports: seq<LogReport>)
      modifies this
      ensures (interactions, reports) == LoadItemF(old(interactions), key, block)
    {
      reports := [];
      if key.text in interactions && interactions[key.text].0.loc.kind == key.loc.kind {
        reports := [DupError(key, interactions[key.text].0, "interaction")];
      }
      interactions := interactions[key.text := (key, block)];
    }

    predicate Exists(key: string)
      reads this
    {
      key in interactions
    }

    /** After loading, the interaction exists and is the one just loaded. */
    lemma LoadedExists(key: Token, block: Block)
      ensures var r := LoadItemF(interactions, key, block); key.text in r.0 && r.0[key.text] == (key, block)
    {
    }
  }
}
