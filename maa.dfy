/** Men-at-arms types (src/data/maa.rs): the registry of types and of the
  * base types they name, the icon rule, the modifiers a base type implies,
  * and the checks of `winter_bonus` and `counters`. */
module MenAtArms {
  import opened Base
  import opened Report
  import opened Tree

  /** The base type a men-at-arms definition names, if any. */
  function BaseOf(block: Block): Option<Token> { GetFieldValue(block, "type") }

  /** `load_item` on values: the new type always replaces the old one, its
    * base type is remembered, and a duplicate is reported only when both
    * come from the same kind of file. */
  function LoadItemF(types: map<string, (Token, Block)>, bases: set<string>, key: Token, block: Block)
    : (r: (map<string, (Token, Block)>, set<string>, seq<LogReport>))
    ensures r.0 == types[key.text := (key, block)]
    ensures BaseOf(block).Some? ==> r.1 == bases + {BaseOf(block).value.text}
    ensures BaseOf(block).None? ==> r.1 == bases
    ensures |r.2| == 1 <==> key.text in types && types[key.text].0.loc.kind == key.loc.kind
    ensures |r.2| <= 1 && (|r.2| == 1 ==> r.2[0] == DupError(key, types[key.text].0, "men-at-arms type"))
  {
    var reports :=
      if key.text in types && types[key.text].0.loc.kind == key.loc.kind then
        [DupError(key, types[key.text].0, "men-at-arms type")]
      else [];
    var bases' := match BaseOf(block) case Some(b) => bases + {b.text} case None => bases;
    (types[key.text := (key, block)], bases', reports)
  }

  /** Every loaded type's base type is a known base type. */
  ghost predicate BasesKnown(types: map<string, (Token, Block)>, bases: set<string>)
  {
    forall k :: k in types && BaseOf(types[k].1).Some? ==> BaseOf(types[k].1).value.text in bases
  }

  lemma LoadItemKeepsBasesKnown(types: map<string, (Token, Block)>, bases: set<string>, key: Token, block: Block)
    requires BasesKnown(types, bases)
    ensures var r := LoadItemF(types, bases, key, block); BasesKnown(r.0, r.1)
  {
    var r := LoadItemF(types, bases, key, block);
    forall k | k in r.0 && BaseOf(r.0[k].1).Some?
      ensures BaseOf(r.0[k].1).value.text in r.1
    {
      if k != key.text {
        assert r.0[k] == types[k];
      }
    }
  }

  /** A type that was loaded twice from different kinds of file (a mod
    * overriding the game) is silently replaced. */
  lemma OverrideIsSilent(types: map<string, (Token, Block)>, bases: set<string>, key: Token, block: Block)
    requires key.text in types && types[key.text].0.loc.kind != key.loc.kind
    ensures LoadItemF(types, bases, key, block).2 == []
    ensures LoadItemF(types, bases, key, block).0[key.text] == (key, block)
  {
  }

  // ------------------------------------------------- implied modifiers

  const StationedSuffixes: seq<string> := [
    "_damage_add", "_damage_mult", "_pursuit_add", "_pursuit_mult", "_screen_add", "_screen_mult",
    "_toughness_add", "_toughness_mult", "_siege_value_add", "_siege_value_mult"]

  const PlainSuffixes: seq<string> := [
    "_damage_add", "_damage_mult", "_pursuit_add", "_pursuit_mult", "_screen_add", "_screen_mult",
    "_toughness_add", "_toughness_mult", "_recruitment_cost_mult", "_siege_value_add",
    "_siege_value_mult", "_maintenance_mult", "_max_size_add", "_max_size_mult"]

  /** The modifier names a base type implies, in the order they are checked. */
  function ImpliedModifiers(base: string): (r: seq<string>)
    ensures |r| == |StationedSuffixes| + |PlainSuffixes| == 24
    ensures forall i :: 0 <= i < |StationedSuffixes| ==> r[i] == "stationed_" + base + StationedSuffixes[i]
    ensures forall i :: 0 <= i < |PlainSuffixes| ==> r[|StationedSuffixes| + i] == base + PlainSuffixes[i]
  {
    seq(|StationedSuffixes|, i requires 0 <= i < |StationedSuffixes| => "stationed_" + base + StationedSuffixes[i])
    + seq(|PlainSuffixes|, i requires 0 <= i < |PlainSuffixes| => base + PlainSuffixes[i])
  }

  /** The implied modifiers that are not known, each reported at the base
    * type; a type without a base type implies none. */
  function MissingModifiers(block: Block, known: set<string>): (r: seq<string>)
    ensures BaseOf(block).None? ==> r == []
    ensures BaseOf(block).Some? ==> forall m :: m in r <==> m in ImpliedModifiers(BaseOf(block).value.text) && m !in known
  {
    match BaseOf(block)
    case None => []
    case Some(b) => Missing(ImpliedModifiers(b.text), known)
  }

  function Missing(names: seq<string>, known: set<string>): (r: seq<string>)
    ensures forall m :: m in r <==> m in names && m !in known
  {
    if |names| == 0 then []
    else Missing(names[..|names| - 1], known) + (if names[|names| - 1] in known then [] else [names[|names| - 1]])
  }

  // ---------------------------------------------------------------- icons

  /** What one icon define asks of the file set: a path that must exist
    * (with the token to report at) and a base icon that is marked used. */
  datatype IconCheck = IconCheck(required: Option<(string, Token)>, used: Option<string>)

  /** The icon rule: an explicit `icon` must exist under the icon path;
    * otherwise the base type's icon is used, and only when it is missing
    * must the type's own icon exist. */
  function Icon(iconPath: Option<string>, key: Token, block: Block, fileExists: string -> bool): (r: IconCheck)
    ensures iconPath.None? ==> r == IconCheck(None, None)
    ensures iconPath.Some? && GetFieldValue(block, "icon").Some? ==>
      var icon := GetFieldValue(block, "icon").value;
      r == IconCheck(Some((iconPath.value + "/" + icon.text + ".dds", icon)), None)
    ensures iconPath.Some? && GetFieldValue(block, "icon").None? && BaseOf(block).Some? ==>
      var basePath := iconPath.value + "/" + BaseOf(block).value.text + ".dds";
      r.used == Some(basePath)
      && (r.required.Some? <==> !fileExists(basePath))
      && (r.required.Some? ==> r.required.value == (iconPath.value + "/" + key.text + ".dds", key))
    ensures GetFieldValue(block, "icon").None? && BaseOf(block).None? ==> r == IconCheck(None, None)
  {
    match iconPath
    case None => IconCheck(None, None)
    case Some(p) =>
      match GetFieldValue(block, "icon")
      case Some(icon) => IconCheck(Some((p + "/" + icon.text + ".dds", icon)), None)
      case None =>
        match BaseOf(block)
        case None => IconCheck(None, None)
        case Some(b) =>
          var basePath := p + "/" + b.text + ".dds";
          IconCheck(if fileExists(basePath) then None else Some((p + "/" + key.text + ".dds", key)), Some(basePath))
  }

  /** The defines naming the three icon directories, in the order checked. */
  const IconDefines: seq<string> := [
    "NGameIcons|REGIMENTYPE_ICON_PATH", "NGameIcons|REGIMENTYPE_HORIZONTAL_IMAGE_PATH",
    "NGameIcons|REGIMENTYPE_VERTICAL_IMAGE_PATH"]

  // ----------------------------------------------------------- sub-blocks

  /** `validate_winter_bonus`: each sub-block must be `harsh_winter` or
    * `normal_winter`. */
  function WinterReports(fields: seq<(Token, Block)>): seq<LogReport>
  {
    if |fields| == 0 then []
    else
      var k := fields[|fields| - 1].0;
      WinterReports(fields[..|fields| - 1])
        + (if k.Is("harsh_winter") || k.Is("normal_winter") then [] else [WarnAt(k.loc, Validation, "unknown winter type")])
  }

  lemma {:induction false} WinterReportsMeaning(fields: seq<(Token, Block)>)
    ensures |WinterReports(fields)| <= |fields|
    ensures (forall i :: 0 <= i < |fields| ==> fields[i].0.Is("harsh_winter") || fields[i].0.Is("normal_winter"))
      <==> WinterReports(fields) == []
    ensures forall r :: r in WinterReports(fields) ==>
      exists i :: 0 <= i < |fields| && IsReport(r, Warning, Validation, fields[i].0.loc)
        && !fields[i].0.Is("harsh_winter") && !fields[i].0.Is("normal_winter")
  {
    if |fields| > 0 {
      var init := fields[..|fields| - 1];
      WinterReportsMeaning(init);
      assert forall i :: 0 <= i < |init| ==> init[i] == fields[i];
    }
  }

  method ValidateWinterBonus(block: Block) returns (reports: seq<LogReport>)
    ensures reports == WinterReports(Definitions(block.items))
  {
    var fields := Definitions(block.items);
    reports := [];
    for i := 0 to |fields|
      invariant reports == WinterReports(fields[..i])
    {
      assert fields[..i + 1][..i] == fields[..i];
      var key := fields[i].0;
      if !(key.Is("harsh_winter") || key.Is("normal_winter")) {
        reports := reports + [WarnAt(key.loc, Validation, "unknown winter type")];
      }
    }
    assert fields[..|fields|] == fields;
  }

  /** `validate_counters`: the fields named after a base type are accepted;
    * every other field is left to the validator to report as unknown. */
  function UnknownCounters(fields: seq<Field>, bases: set<string>): seq<Token>
  {
    if |fields| == 0 then []
    else
      var k := fields[|fields| - 1].key;
      UnknownCounters(fields[..|fields| - 1], bases) + (if k.text in bases then [] else [k])
  }

  lemma {:induction false} UnknownCountersMeaning(fields: seq<Field>, bases: set<string>)
    ensures forall t :: t in UnknownCounters(fields, bases) <==>
      t.text !in bases && exists i :: 0 <= i < |fields| && fields[i].key == t
  {
    if |fields| > 0 {
      var init := fields[..|fields| - 1];
      UnknownCountersMeaning(init, bases);
      assert forall i :: 0 <= i < |init| ==> init[i] == fields[i];
    }
  }

  /** Every definition of a file loaded in order. */
  function LoadAllF(types: map<string, (Token, Block)>, bases: set<string>, defs: seq<(Token, Block)>)
    : (map<string, (Token, Block)>, set<string>, seq<LogReport>)
  {
    if |defs| == 0 then (types, bases, [])
    else
      var before := LoadAllF(types, bases, defs[..|defs| - 1]);
      var last := LoadItemF(before.0, before.1, defs[|defs| - 1].0, defs[|defs| - 1].1);
      (last.0, last.1, before.2 + last.2)
  }

  /** After a file is loaded, its last definition of each name is stored. */
  lemma {:induction false} LoadAllLastWins(types: map<string, (Token, Block)>, bases: set<string>,
                                           defs: seq<(Token, Block)>, i: nat)
    requires i < |defs| && forall j :: i < j < |defs| ==> defs[j].0.text != defs[i].0.text
    ensures var stored := LoadAllF(types, bases, defs).0;
      defs[i].0.text in stored && stored[defs[i].0.text] == defs[i]
  {
    if i < |defs| - 1 {
      var init := defs[..|defs| - 1];
      assert forall j :: i < j < |init| ==> init[j] == defs[j];
      LoadAllLastWins(types, bases, init, i);
    }
  }

  class MenAtArmsTypes {
    var bases: set<string>
    var types: map<string, (Token, Block)>

    constructor ()
      ensures bases == {} && types == map[]
    {
      bases, types := {}, map[];
    }

    ghost predicate Valid()
      reads this
    {
      BasesKnown(types, bases)
    }

    method LoadItem(key: Token, block: Block) returns (reports: seq<LogReport>)
      modifies this
      requires Valid()
      ensures Valid()
      ensures (types, bases, reports) == LoadItemF(old(types), old(bases), key, block)
    {
      LoadItemKeepsBasesKnown(types, bases, key, block);
      reports := [];
      if key.text in types && types[key.text].0.loc.kind == key.loc.kind {
        reports := [DupError(key, types[key.text].0, "men-at-arms type")];
      }
      match BaseOf(block) {
        case Some(b) => bases := bases + {b.text};
        case None =>
      }
      types := types[key.text := (key, block)];
    }

    predicate BaseExists(key: string)
      reads this
    {
      key in bases
    }

    predicate Exists(key: string)
      reads this
    {
      key in types
    }

    /** The base type of a loaded type always exists. */
    lemma LoadedBaseExists(key: string)
      requires Valid() && Exists(key) && BaseOf(types[key].1).Some?
      ensures BaseExists(BaseOf(types[key].1).value.text)
    {
    }

    /** `handle_file`: every definition of a readable `.txt` file. */
    method HandleFile(filename: string, file: Option<Block>) returns (reports: seq<LogReport>)
      modifies this
      requires Valid()
      ensures Valid()
      ensures !EndsWith(filename, ".txt") || file.None? ==> types == old(types) && bases == old(bases) && reports == []
      ensures EndsWith(filename, ".txt") && file.Some? ==>
        (types, bases, reports) == LoadAllF(old(types), old(bases), Definitions(file.value.items))
    {
      reports := [];
      if !EndsWith(filename, ".txt") || file.None? {
        return;
      }
      var defs := Definitions(file.value.items);
      for i := 0 to |defs|
        invariant Valid()
        invariant (types, bases, reports) == LoadAllF(old(types), old(bases), defs[..i])
      {
        assert defs[..i + 1][..i] == defs[..i];
        var r := LoadItem(defs[i].0, defs[i].1);
        reports := reports + r;
      }
      assert defs[..|defs|] == defs;
    }
  }
}
