/** The hub of all registries (src/everything.rs): the report-filter and
  * output-style settings read from the configuration, the loaders that
  * turn the files of a directory into items, whether an item exists, and
  * the lookups that combine the global and the event-file registries. */
module Everything {
  import opened Base
  import opened Report
  import opened Tree
  import ScriptedTriggers
  import ScriptedEffects
  import Events
  import Defines
  import ScopeContexts

  // -------------------------------------------------------- ignore rules

  /** A rule handed to the report filter: ignore a key everywhere, every
    * report in a file, or a key in a file. */
  datatype IgnoreRule = IgnoreKey(key: ErrorKey) | IgnorePath(path: string) | IgnoreKeyFor(path: string, key: ErrorKey)

  /** The error keys named by `key = ...`, in order; a name that does not
    * parse is warned about and skipped. */
  function ParsedKeys(names: seq<Token>, parseKey: string -> Option<ErrorKey>, keyError: string -> string)
    : (r: Checked<seq<ErrorKey>>)
    ensures |r.value| + |r.reports| == |names|
  {
    if |names| == 0 then Checked([], [])
    else
      var before := ParsedKeys(names[..|names| - 1], parseKey, keyError);
      var name := names[|names| - 1];
      match parseKey(name.text)
      case Some(k) => Checked(before.value + [k], before.reports)
      case None => Checked(before.value, before.reports + [WarnAt(name.loc, ErrorKey.Config, keyError(name.text))])
  }

  lemma {:induction false} ParsedKeysMeaning(names: seq<Token>, parseKey: string -> Option<ErrorKey>, keyError: string -> string)
    ensures var r := ParsedKeys(names, parseKey, keyError);
      (forall k :: k in r.value ==> exists i :: 0 <= i < |names| && parseKey(names[i].text) == Some(k))
      && (forall i :: 0 <= i < |names| && parseKey(names[i].text).Some? ==> parseKey(names[i].text).value in r.value)
      && (forall w :: w in r.reports ==> w.severity == Warning && w.key == ErrorKey.Config)
  {
    if |names| > 0 {
      var init := names[..|names| - 1];
      ParsedKeysMeaning(init, parseKey, keyError);
      assert forall i :: 0 <= i < |init| ==> init[i] == names[i];
    }
  }

  function KeysEverywhere(keys: seq<ErrorKey>): (r: seq<IgnoreRule>)
    ensures |r| == |keys| && forall j :: 0 <= j < |keys| ==> r[j] == IgnoreKey(keys[j])
  {
    seq(|keys|, j requires 0 <= j < |keys| => IgnoreKey(keys[j]))
  }

  function PathsEntirely(paths: seq<Token>): (r: seq<IgnoreRule>)
    ensures |r| == |paths| && forall j :: 0 <= j < |paths| ==> r[j] == IgnorePath(paths[j].text)
  {
    seq(|paths|, j requires 0 <= j < |paths| => IgnorePath(paths[j].text))
  }

  function KeysFor(path: Token, keys: seq<ErrorKey>): (r: seq<IgnoreRule>)
    ensures |r| == |keys| && forall j :: 0 <= j < |keys| ==> r[j] == IgnoreKeyFor(path.text, keys[j])
  {
    seq(|keys|, j requires 0 <= j < |keys| => IgnoreKeyFor(path.text, keys[j]))
  }

  /** For each path in order, the key rules for that path. */
  function CrossProduct(paths: seq<Token>, keys: seq<ErrorKey>): seq<IgnoreRule>
  {
    if |paths| == 0 then []
    else CrossProduct(paths[..|paths| - 1], keys) + KeysFor(paths[|paths| - 1], keys)
  }

  /** The cross product has one rule per (path, key) pair, each a key rule
    * for a path. */
  lemma {:induction false} CrossProductSize(paths: seq<Token>, keys: seq<ErrorKey>)
    ensures |CrossProduct(paths, keys)| == |paths| * |keys|
    ensures forall r :: r in CrossProduct(paths, keys) ==> r.IgnoreKeyFor?
  {
    if |paths| > 0 {
      CrossProductSize(paths[..|paths| - 1], keys);
      assert |paths| * |keys| == (|paths| - 1) * |keys| + |keys|;
    }
  }

  /** A key rule for a path is in the cross product exactly when the path
    * and the key were both named. */
  lemma {:induction false} CrossProductMembers(paths: seq<Token>, keys: seq<ErrorKey>, p: string, k: ErrorKey)
    ensures IgnoreKeyFor(p, k) in CrossProduct(paths, keys) <==>
      (exists i :: 0 <= i < |paths| && paths[i].text == p) && k in keys
  {
    if |paths| > 0 {
      var init := paths[..|paths| - 1];
      var last := paths[|paths| - 1];
      CrossProductMembers(init, keys, p, k);
      assert forall i :: 0 <= i < |init| ==> init[i] == paths[i];
      if IgnoreKeyFor(p, k) in KeysFor(last, keys) {
        var j :| 0 <= j < |keys| && KeysFor(last, keys)[j] == IgnoreKeyFor(p, k);
        assert paths[|paths| - 1].text == p;
      }
      if (exists i :: 0 <= i < |paths| && paths[i].text == p) && k in keys {
        var i :| 0 <= i < |paths| && paths[i].text == p;
        var j :| 0 <= j < |keys| && keys[j] == k;
        if i == |paths| - 1 {
          assert KeysFor(last, keys)[j] == IgnoreKeyFor(p, k);
        } else {
          assert init[i] == paths[i];
        }
      }
    }
  }

  /** The rules of one `ignore = { ... }` block: without `file` the keys are
    * ignored everywhere, without keys the files entirely, and with both
    * every key in every file. */
  function BlockRules(block: Block, parseKey: string -> Option<ErrorKey>, keyError: string -> string)
    : Checked<seq<IgnoreRule>>
  {
    var parsed := ParsedKeys(GetFieldValues(block, "key"), parseKey, keyError);
    var paths := GetFieldValues(block, "file");
    var rules :=
      if |paths| == 0 then KeysEverywhere(parsed.value)
      else if |parsed.value| == 0 then PathsEntirely(paths)
      else CrossProduct(paths, parsed.value);
    Checked(rules, parsed.reports)
  }

  function AllRules(blocks: seq<Block>, parseKey: string -> Option<ErrorKey>, keyError: string -> string)
    : Checked<seq<IgnoreRule>>
  {
    if |blocks| == 0 then Checked([], [])
    else
      var before := AllRules(blocks[..|blocks| - 1], parseKey, keyError);
      var last := BlockRules(blocks[|blocks| - 1], parseKey, keyError);
      Checked(before.value + last.value, before.reports + last.reports)
  }

  /** One rule shape per block, and never more key rules than its keys
    * allow. */
  lemma BlockRulesShape(block: Block, parseKey: string -> Option<ErrorKey>, keyError: string -> string)
    ensures var keys := ParsedKeys(GetFieldValues(block, "key"), parseKey, keyError).value;
      var paths := GetFieldValues(block, "file");
      var r := BlockRules(block, parseKey, keyError).value;
      (|paths| == 0 ==> |r| == |keys| && forall x :: x in r ==> x.IgnoreKey?)
      && (|paths| > 0 && |keys| == 0 ==> |r| == |paths| && forall x :: x in r ==> x.IgnorePath?)
      && (|paths| > 0 && |keys| > 0 ==> |r| == |paths| * |keys| && forall x :: x in r ==> x.IgnoreKeyFor?)
  {
    var keys := ParsedKeys(GetFieldValues(block, "key"), parseKey, keyError).value;
    CrossProductSize(GetFieldValues(block, "file"), keys);
  }

  /** The key names of one block, parsed in order. */
  method ParseKeyNames(names: seq<Token>, parseKey: string -> Option<ErrorKey>, keyError: string -> string)
    returns (keys: seq<ErrorKey>, reports: seq<LogReport>)
    ensures Checked(keys, reports) == ParsedKeys(names, parseKey, keyError)
  {
    keys, reports := [], [];
    var i := 0;
    while i < |names|
      invariant 0 <= i <= |names|
      invariant Checked(keys, reports) == ParsedKeys(names[..i], parseKey, keyError)
    {
      assert names[..i + 1][..i] == names[..i];
      match parseKey(names[i].text) {
        case Some(k) => keys := keys + [k];
        case None => reports := reports + [WarnAt(names[i].loc, ErrorKey.Config, keyError(names[i].text))];
      }
      i := i + 1;
    }
    assert names[..i] == names;
  }

  /** The keys ignored everywhere, one rule per key. */
  method IgnoreKeys(keys: seq<ErrorKey>) returns (rules: seq<IgnoreRule>)
    ensures rules == KeysEverywhere(keys)
  {
    rules := [];
    for i := 0 to |keys|
      invariant rules == KeysEverywhere(keys[..i])
    {
      rules := rules + [IgnoreKey(keys[i])];
    }
    assert keys[..|keys|] == keys;
  }

  /** The files ignored entirely, one rule per path. */
  method IgnorePaths(paths: seq<Token>) returns (rules: seq<IgnoreRule>)
    ensures rules == PathsEntirely(paths)
  {
    rules := [];
    for i := 0 to |paths|
      invariant rules == PathsEntirely(paths[..i])
    {
      rules := rules + [IgnorePath(paths[i].text)];
    }
    assert paths[..|paths|] == paths;
  }

  /** Every key in every file: the outer loop over paths, the inner over keys. */
  method IgnoreKeysIn(paths: seq<Token>, keys: seq<ErrorKey>) returns (rules: seq<IgnoreRule>)
    ensures rules == CrossProduct(paths, keys)
  {
    rules := [];
    for i := 0 to |paths|
      invariant rules == CrossProduct(paths[..i], keys)
    {
      assert paths[..i + 1][..i] == paths[..i];
      ghost var before := rules;
      for j := 0 to |keys|
        invariant rules == before + KeysFor(paths[i], keys[..j])
      {
        rules := rules + [IgnoreKeyFor(paths[i].text, keys[j])];
      }
      assert keys[..|keys|] == keys;
    }
    assert paths[..|paths|] == paths;
  }

  /** The rules of one block, issued in the loops' order. */
  method IgnoreBlock(block: Block, parseKey: string -> Option<ErrorKey>, keyError: string -> string)
    returns (rules: seq<IgnoreRule>, reports: seq<LogReport>)
    ensures Checked(rules, reports) == BlockRules(block, parseKey, keyError)
  {
    var keys;
    keys, reports := ParseKeyNames(GetFieldValues(block, "key"), parseKey, keyError);
    var paths := GetFieldValues(block, "file");
    if |paths| == 0 {
      rules := IgnoreKeys(keys);
    } else if |keys| == 0 {
      rules := IgnorePaths(paths);
    } else {
      rules := IgnoreKeysIn(paths, keys);
    }
  }

  // ------------------------------------------------------- output style

  datatype OutputStyle = NoColor | Styled(colors: map<Severity, string>)

  function SeverityName(s: Severity): string
  {
    match s
    case Info => "info"
    case Warning => "warning"
    case Error => "error"
  }

  /** The color configured for one severity, if its block names one. */
  function SeverityColor(block: Block, s: Severity): Option<string>
  {
    match GetFieldBlock(block, SeverityName(s))
    case None => None
    case Some(b) =>
      match GetFieldValue(b, "color")
      case None => None
      case Some(c) => Some(c.text)
  }

  /** `load_output_styles`. */
  function OutputStyles(config: Block): (r: Option<OutputStyle>)
    ensures r.None? <==> GetFieldBlock(config, "output_style").None?
    ensures r == Some(NoColor) <==>
      GetFieldBlock(config, "output_style").Some?
      && GetFieldValue(GetFieldBlock(config, "output_style").value, "enable").Some?
      && !GetFieldValue(GetFieldBlock(config, "output_style").value, "enable").value.Is("yes")
    ensures r.Some? && r.value.Styled? ==>
      forall s :: (s in r.value.colors <==> SeverityColor(GetFieldBlock(config, "output_style").value, s).Some?)
  {
    match GetFieldBlock(config, "output_style")
    case None => None
    case Some(block) =>
      var enable := GetFieldBool(block, "enable");
      if !(if enable.Some? then enable.value else true) then Some(NoColor)
      else
        Some(Styled(map s: Severity | SeverityColor(block, s).Some? :: SeverityColor(block, s).value))
  }

  // -------------------------------------------------------------- loaders

  /** A file under an item's directory, as read (or not) by the parser. */
  datatype FileEntry = FileEntry(filename: string, kind: FileKind, path: string, contents: Option<Block>)

  /** `load_pdx_items_ext` (and `load_pdx_items` with ".txt"): every
    * definition of every readable file with that extension. */
  function PdxItems(entries: seq<FileEntry>, ext: string): seq<(Token, Block)>
  {
    if |entries| == 0 then []
    else
      var e := entries[|entries| - 1];
      PdxItems(entries[..|entries| - 1], ext)
        + (if EndsWith(e.filename, ext) && e.contents.Some? then Definitions(e.contents.value.items) else [])
  }

  /** Only files with the extension contribute, each with all its
    * definitions in order. */
  lemma {:induction false} PdxItemsFilter(entries: seq<FileEntry>, ext: string)
    ensures (forall e :: e in entries ==> !EndsWith(e.filename, ext)) ==> PdxItems(entries, ext) == []
    ensures forall x :: x in PdxItems(entries, ext) ==>
      exists e :: e in entries && EndsWith(e.filename, ext) && e.contents.Some? && x in Definitions(e.contents.value.items)
  {
    if |entries| > 0 {
      PdxItemsFilter(entries[..|entries| - 1], ext);
      assert forall e :: e in entries[..|entries| - 1] ==> e in entries;
    }
  }

  method LoadPdxItemsExt(entries: seq<FileEntry>, ext: string) returns (added: seq<(Token, Block)>)
    ensures added == PdxItems(entries, ext)
  {
    added := [];
    for i := 0 to |entries|
      invariant added == PdxItems(entries[..i], ext)
    {
      assert entries[..i + 1][..i] == entries[..i];
      var e := entries[i];
      if EndsWith(e.filename, ext) && e.contents.Some? {
        added := added + Definitions(e.contents.value.items);
      }
    }
    assert entries[..|entries|] == entries;
  }

  /** `load_pdx_files_optional_bom`: one item per readable `.txt` file,
    * named after the file without ".txt", at the file's location. */
  function PdxFiles(entries: seq<FileEntry>): seq<(Token, Block)>
  {
    if |entries| == 0 then []
    else
      var e := entries[|entries| - 1];
      PdxFiles(entries[..|entries| - 1])
        + match StripSuffix(e.filename, ".txt")
          case Some(key) =>
            if e.contents.Some? then [(Token(key, Loc(e.kind, e.path, 0, 0, None)), e.contents.value)] else []
          case None => []
  }

  lemma {:induction false} PdxFilesNamed(entries: seq<FileEntry>)
    ensures |PdxFiles(entries)| <= |entries|
    ensures forall x :: x in PdxFiles(entries) ==>
      exists e :: e in entries && e.filename == x.0.text + ".txt" && e.contents == Some(x.1)
  {
    if |entries| > 0 {
      PdxFilesNamed(entries[..|entries| - 1]);
      assert forall e :: e in entries[..|entries| - 1] ==> e in entries;
    }
  }

  method LoadPdxFilesOptionalBom(entries: seq<FileEntry>) returns (added: seq<(Token, Block)>)
    ensures added == PdxFiles(entries)
  {
    added := [];
    for i := 0 to |entries|
      invariant added == PdxFiles(entries[..i])
    {
      assert entries[..i + 1][..i] == entries[..i];
      var e := entries[i];
      var key := StripSuffix(e.filename, ".txt");
      if key.Some? && e.contents.Some? {
        added := added + [(Token(key.value, Loc(e.kind, e.path, 0, 0, None)), e.contents.value)];
      }
    }
    assert entries[..|entries|] == entries;
  }

  // ---------------------------------------------------------- item_exists

  /** The item kinds of `item_exists` that this model distinguishes: kinds
    * checked against a constant list, the five kinds held by the registries
    * of this model (defines, events, event namespaces, scripted effects and
    * triggers), the kinds `verify_exists_implied` treats apart, and every
    * other registry-held kind by name. */
  datatype Item =
    | ActivityState | ArtifactHistory | ArtifactRarity | DangerType | Dlc | DlcFeature
    | PrisonType | RewardItem | Sexuality | Skill | TitleHistoryType | TraitCategory
    | Define | Event | EventNamespace | ScriptedEffect | ScriptedTrigger
    | File | Localization | Music | Province | Sound | TextureFile
    | Registered(name: string)

  const ActivityStates: seq<string> := ["passive", "travel", "active"]
  const ArtifactHistories: seq<string> := [
    "created_before_history", "created", "prize_created", "discovered", "creator_discovered",
    "claimed_by_house", "given", "stolen", "inherited", "conquest", "taken_in_siege",
    "taken_in_battle", "won_in_duel", "purchased", "prize_awarded", "ransomed", "reforged"]
  const Dlcs: seq<string> := [
    "Fashion of the Abbasid Court", "The Northern Lords", "Garments of the Holy Roman Empire",
    "The Fate of Iberia", "The Royal Court", "Friends and Foes", "tours_and_tournaments",
    "Elegance of the Empire"]
  const DlcFeatures: seq<string> := [
    "garments_of_the_hre", "fashion_of_the_abbasid_court", "the_northern_lords", "hybridize_culture",
    "diverge_culture", "royal_court", "reform_culture", "court_artifacts", "the_fate_of_iberia",
    "friends_and_foes", "tours_and_tournaments", "advanced_activities", "accolades",
    "elegance_of_the_empire"]
  const RewardItems: seq<string> := ["newsletter_crown"]
  const PrisonTypes: seq<string> := ["dungeon", "house_arrest"]
  const Skills: seq<string> := ["diplomacy", "intrigue", "learning", "martial", "prowess", "stewardship"]
  const Sexualities: seq<string> := ["heterosexual", "homosexual", "bisexual", "asexual", "none"]
  const TitleHistoryTypes: seq<string> := [
    "conquest", "conquest_holy_war", "conquest_claim", "conquest_populist", "election", "inheritance",
    "abdication", "created", "destroyed", "usurped", "granted", "revoked", "independency",
    "leased_out", "lease_revoked", "returned", "faction_demand", "swear_fealty"]
  const TraitCategories: seq<string> := [
    "personality", "education", "childhood", "commander", "winter_commander", "lifestyle",
    "court_type", "fame", "health"]
  const DangerTypes: seq<string> := [
    "default", "battle", "raid", "siege", "army", "occupation", "county_control",
    "county_opinion", "owner_opinion"]
  const ArtifactRarities: seq<string> := ["common", "masterwork", "famed", "illustrious"]

  /** The constant list an item kind is checked against, if it has one. */
  function FixedList(itype: Item): Option<seq<string>>
  {
    match itype
    case ActivityState => Some(ActivityStates)
    case ArtifactHistory => Some(ArtifactHistories)
    case ArtifactRarity => Some(ArtifactRarities)
    case DangerType => Some(DangerTypes)
    case Dlc => Some(Dlcs)
    case DlcFeature => Some(DlcFeatures)
    case PrisonType => Some(PrisonTypes)
    case RewardItem => Some(RewardItems)
    case Sexuality => Some(Sexualities)
    case Skill => Some(Skills)
    case TitleHistoryType => Some(TitleHistoryTypes)
    case TraitCategory => Some(TraitCategories)
    case _ => None
  }

  /** What the registries of this model hold, as `item_exists` asks them:
    * define keys, event indices, namespaces, and global scripted trigger
    * and effect names. */
  datatype Known = Known(defines: set<string>, events: set<(string, nat)>, namespaces: set<string>,
                         triggers: set<string>, effects: set<string>)

  /** The kinds answered by a registry of this model. */
  predicate InModelledRegistry(itype: Item)
  {
    itype.Define? || itype.Event? || itype.EventNamespace? || itype.ScriptedEffect? || itype.ScriptedTrigger?
  }

  /** `item_exists`: membership in the constant list, in the modelled
    * registry of that kind, or in the registered (kind, key) pairs of any
    * other registry. An event exists when its key parses to a stored
    * (namespace, number) index, as `Events::exists` parses it. */
  function ItemExists(itype: Item, key: string, known: Known, registered: set<(Item, string)>): (r: bool)
    ensures FixedList(itype).Some? ==> (r <==> key in FixedList(itype).value)
    ensures itype == Define ==> (r <==> key in known.defines)
    ensures itype == Event ==> (r <==> Events.EventIndex(key).Some? && Events.EventIndex(key).value in known.events)
    ensures itype.EventNamespace? ==> (r <==> key in known.namespaces)
    ensures itype == ScriptedTrigger ==> (r <==> key in known.triggers)
    ensures itype == ScriptedEffect ==> (r <==> key in known.effects)
    ensures FixedList(itype).None? && !InModelledRegistry(itype) ==> (r <==> (itype, key) in registered)
  {
    match itype
    case Define => key in known.defines
    case Event => Events.EventIndex(key).Some? && Events.EventIndex(key).value in known.events
    case EventNamespace => key in known.namespaces
    case ScriptedTrigger => key in known.triggers
    case ScriptedEffect => key in known.effects
    case _ =>
      match FixedList(itype)
      case Some(list) => key in list
      case None => (itype, key) in registered
  }

  /** A skill is one of six names, whatever the registries hold. */
  lemma SkillIsFixed(key: string, known: Known, registered: set<(Item, string)>)
    ensures ItemExists(Skill, key, known, registered) <==>
      key in {"diplomacy", "intrigue", "learning", "martial", "prowess", "stewardship"}
  {
  }

  /** After `load_event`, an event with a well-formed key exists, under its
    * own spelling and under any other spelling of the same index. */
  lemma LoadedEventExists(events: map<(string, nat), Events.Event>, key: Token, block: Block,
                          scopeNames: map<string, ScopeContexts.Scopes>, other: string, known: Known,
                          registered: set<(Item, string)>)
    requires Events.EventIndex(key.text).Some?
    requires Events.EventIndex(other) == Events.EventIndex(key.text)
    requires known.events == Events.LoadEventF(events, key, block, scopeNames).value.Keys
    ensures ItemExists(Event, key.text, known, registered) && ItemExists(Event, other, known, registered)
  {
  }

  /** Once event `a.1` is stored, both `a.1` and `a.01` exist. */
  lemma EventSpellingsExist(known: Known, registered: set<(Item, string)>)
    requires ("a", 1) in known.events
    ensures ItemExists(Event, "a.1", known, registered) && ItemExists(Event, "a.01", known, registered)
  {
    Events.IndexCollision();
  }

  /** What `verify_exists_implied` does: a few kinds hand the check to their
    * own registry, a texture must be a known texture file, and every other
    * kind reports one MissingItem error exactly when the item does not
    * exist. */
  datatype Verification = Delegated | Verified(reports: seq<LogReport>)

  function VerifyExistsImplied(itype: Item, key: string, token: Token, known: Known, registered: set<(Item, string)>,
                               textures: set<string>, itemPath: Item -> string, itemName: Item -> string)
    : (r: Verification)
    ensures itype in {File, Localization, Music, Province, Sound} <==> r.Delegated?
    ensures itype == TextureFile ==> r == Verified(
      if key in textures then []
      else [ErrorAt(token.loc, MissingFile, "no texture file " + key + " anywhere under " + itemPath(itype))])
    ensures itype !in {File, Localization, Music, Province, Sound, TextureFile} ==>
      r.Verified? && (|r.reports| == 1 <==> !ItemExists(itype, key, known, registered))
      && (r.reports == [] <==> ItemExists(itype, key, known, registered))
      && (|r.reports| == 1 ==> IsReport(r.reports[0], Error, MissingItem, token.loc))
  {
    match itype
    case File => Delegated
    case Localization => Delegated
    case Music => Delegated
    case Province => Delegated
    case Sound => Delegated
    case TextureFile =>
      if key in textures then Verified([])
      else Verified([ErrorAt(token.loc, MissingFile, "no texture file " + key + " anywhere under " + itemPath(itype))])
    case _ =>
      if ItemExists(itype, key, known, registered) then Verified([])
      else Verified([ErrorAt(token.loc, MissingItem, itemName(itype) + " " + key + " not defined in " + itemPath(itype))])
  }

  // --------------------------------------------------- warn-once defines

  /** `get_defined_string_warn` on values: the lookup result unchanged, a
    * warning only the first time a missing name is asked for. */
  function DefinedStringWarn(warned: set<string>, found: Option<Token>, token: Token, key: string)
    : (r: (Option<Token>, set<string>, seq<LogReport>))
    ensures r.0 == found
    ensures r.1 == (if found.None? then warned + {key} else warned)
    ensures |r.2| == (if found.None? && key !in warned then 1 else 0)
    ensures |r.2| == 1 ==> IsReport(r.2[0], Warning, MissingItem, token.loc)
  {
    if found.None? && key !in warned then
      (found, warned + {key}, [WarnAt(token.loc, MissingItem, key + " not defined in common/defines/")])
    else (found, warned, [])
  }

  /** Asking twice for the same missing define warns at most once. */
  lemma WarnOnce(warned: set<string>, t1: Token, t2: Token, key: string)
    ensures var first := DefinedStringWarn(warned, None, t1, key);
      var second := DefinedStringWarn(first.1, None, t2, key);
      second.2 == [] && |first.2| + |second.2| <= 1
  {
  }

  class Everything {
    const config: Block
    const triggers: ScriptedTriggers.Triggers
    const effects: ScriptedEffects.Effects
    const events: Events.Events
    const defines: Defines.Defines
    var warnedDefines: set<string>

    constructor (config: Block, triggers: ScriptedTriggers.Triggers, effects: ScriptedEffects.Effects,
                 events: Events.Events, defines: Defines.Defines)
      ensures this.config == config && this.triggers == triggers && this.effects == effects
      ensures this.events == events && this.defines == defines && warnedDefines == {}
    {
      this.config := config;
      this.triggers := triggers;
      this.effects := effects;
      this.events := events;
      this.defines := defines;
      warnedDefines := {};
    }

    /** `load_errorkey_config`: the rules of every `ignore` block, in order. */
    method LoadErrorkeyConfig(parseKey: string -> Option<ErrorKey>, keyError: string -> string)
      returns (rules: seq<IgnoreRule>, reports: seq<LogReport>)
      ensures Checked(rules, reports) == AllRules(GetFieldBlocks(config, "ignore"), parseKey, keyError)
    {
      var blocks := GetFieldBlocks(config, "ignore");
      rules, reports := [], [];
      for i := 0 to |blocks|
        invariant Checked(rules, reports) == AllRules(blocks[..i], parseKey, keyError)
      {
        assert blocks[..i + 1][..i] == blocks[..i];
        var r, w := IgnoreBlock(blocks[i], parseKey, keyError);
        rules := rules + r;
        reports := reports + w;
      }
      assert blocks[..|blocks|] == blocks;
    }

    /** `get_trigger`: the global scripted trigger of that name, else the
      * one defined in the same event file. */
    function GetTrigger(key: Token): (r: Option<ScriptedTriggers.Trigger>)
      reads triggers, events
      ensures triggers.Exists(key.text) ==> r == triggers.Get(key.text)
      ensures !triggers.Exists(key.text) ==> r == events.GetTrigger(key)
      ensures r.None? <==> !triggers.Exists(key.text) && !events.TriggerExists(key)
    {
      match triggers.Get(key.text)
      case Some(t) => Some(t)
      case None => events.GetTrigger(key)
    }

    /** `get_effect`: the global scripted effect of that name, else the one
      * defined in the same event file. */
    function GetEffect(key: Token): (r: Option<ScriptedEffects.Effect>)
      reads effects, events
      ensures effects.Exists(key.text) ==> r == effects.Get(key.text)
      ensures !effects.Exists(key.text) ==> r == events.GetEffect(key)
      ensures r.None? <==> !effects.Exists(key.text) && !events.EffectExists(key)
    {
      match effects.Get(key.text)
      case Some(e) => Some(e)
      case None => events.GetEffect(key)
    }

    /** What the four registries of the hub hold now. */
    function KnownNow(): Known
      reads defines, events, triggers, effects
    {
      Known(defines.defines.Keys, events.events.Keys, events.namespaces.Keys,
            triggers.triggers.Keys, effects.effects.Keys)
    }

    /** `item_exists` on the hub: the five modelled kinds ask their own
      * registry's `exists`, every other kind is answered as `ItemExists`
      * answers it. */
    function ItemExistsNow(itype: Item, key: string, registered: set<(Item, string)>): (r: bool)
      reads defines, events, triggers, effects
      ensures itype == Define ==> (r <==> defines.Exists(key))
      ensures itype == Event ==> (r <==> events.Exists(key) && events.GetEvent(key).Some?)
      ensures itype.EventNamespace? ==> (r <==> events.NamespaceExists(key))
      ensures itype == ScriptedTrigger ==> (r <==> triggers.Exists(key))
      ensures itype == ScriptedEffect ==> (r <==> effects.Exists(key))
      ensures FixedList(itype).Some? ==> (r <==> key in FixedList(itype).value)
      ensures FixedList(itype).None? && !InModelledRegistry(itype) ==> (r <==> (itype, key) in registered)
    {
      events.ExistsIffGetEvent(key);
      ItemExists(itype, key, KnownNow(), registered)
    }

    method GetDefinedStringWarn(token: Token, key: string) returns (r: Option<Token>, reports: seq<LogReport>)
      modifies this`warnedDefines
      ensures (r, warnedDefines, reports) == DefinedStringWarn(old(warnedDefines), defines.GetString(key), token, key)
    {
      r := defines.GetString(key);
      reports := [];
      if r.None? && key !in warnedDefines {
        reports := [WarnAt(token.loc, MissingItem, key + " not defined in common/defines/")];
        warnedDefines := warnedDefines + {key};
      }
    }
  }
}
