/** Events (src/data/events.rs): the registry of events keyed by
  * (namespace, number), the namespaces an event file declares, the
  * scripted triggers and effects local to one event file, the reader that
  * tells those apart, and the rules an event's block is checked against. */
module Events {
  import opened Base
  import opened Report
  import opened Tree
  import opened ScopeContexts
  import ScriptedTriggers
  import ScriptedEffects

  // ------------------------------------------------------------ one event

  datatype Event = Event(key: Token, block: Block, expectsScope: Scopes)

  /** `Event::new`: the scope an event expects is its `scope` field's scope,
    * all non-primitive scopes if that name is unknown, and Character if
    * there is no `scope` field. */
  function NewEvent(key: Token, block: Block, scopeNames: map<string, Scopes>): (e: Event)
    ensures e.key == key && e.block == block
    ensures GetFieldValue(block, "scope").None? ==> e.expectsScope == {Character}
    ensures GetFieldValue(block, "scope").Some? && GetFieldValue(block, "scope").value.text !in scopeNames
            ==> e.expectsScope == NonPrimitive
    ensures GetFieldValue(block, "scope").Some? && GetFieldValue(block, "scope").value.text in scopeNames
            ==> e.expectsScope == scopeNames[GetFieldValue(block, "scope").value.text]
  {
    var expects := match GetFieldValue(block, "scope")
      case Some(token) => if token.text in scopeNames then scopeNames[token.text] else NonPrimitive
      case None => {Character};
    Event(key, block, expects)
  }

  const EventTypes: seq<string> :=
    ["letter_event", "character_event", "court_event", "duel_event", "fullscreen_event", "activity_event"]

  const WindowTypes: seq<string> := ["character_event", "duel_event", "fullscreen_event", "letter_event"]

  datatype WindowRule = WindowChoice(choices: seq<string>) | WindowAnyValue | WindowBanned

  /** The decisions `Event::validate` takes from the event's key and block.
    * The checks it hands to the validator are recorded as which fields it
    * requires, chooses among or advises against. */
  datatype EventRules = EventRules(
    reports: seq<LogReport>,
    tooltippedImmediate: ScriptedEffects.Tooltipped,
    tooltipped: ScriptedEffects.Tooltipped,
    evtype: string,
    typeChoices: Option<seq<string>>,
    window: WindowRule,
    context: ScopeContext,
    requiresSender: bool,
    advisesAgainstLetterFields: bool,
    advisesAgainstPortraits: bool,
    requiresOption: bool)

  function NamespaceOf(key: Token): Option<string>
  {
    match SplitOnce(key.text, '.')
    case Some((ns, _)) => Some(ns)
    case None => None
  }

  function Rules(key: Token, block: Block, namespaces: set<string>, scopeNames: map<string, Scopes>)
    : EventRules
  {
    var ns := NamespaceOf(key);
    var nsReports :=
      if ns.Some? && ns.value !in namespaces then
        [ErrorInfoAt(key.loc, EventNamespace, "event file should start with `namespace = " + ns.value + "`",
                     "otherwise the event won't be found in-game")]
      else [];
    var debug := ns == Some("debug");
    var typeField := GetFieldValue(block, "type");
    var evtype := if typeField.Some? then typeField.value.text else "character_event";
    var typeReports :=
      if evtype == "empty" then [ErrorAt(typeField.value.loc, Validation, "`type = empty` has been replaced by `scope = none`")]
      else [];
    var window :=
      if evtype == "character_event" then WindowChoice(WindowTypes)
      else if evtype == "activity_event" then WindowAnyValue
      else WindowBanned;
    var scopeField := GetFieldValue(block, "scope");
    var sc :=
      if scopeField.Some? && scopeField.value.text in scopeNames
      then NewRooted(scopeNames[scopeField.value.text], scopeField.value)
      else NewRooted({Character}, key);
    var scopeReports :=
      if scopeField.Some? && scopeField.value.text !in scopeNames
      then [WarnAt(scopeField.value.loc, Scopes, "unknown scope type")] else [];
    var hidden := GetFieldBool(block, "hidden");
    EventRules(
      nsReports + typeReports + scopeReports,
      if debug then ScriptedEffects.No else ScriptedEffects.Past,
      if debug then ScriptedEffects.No else ScriptedEffects.Yes,
      evtype,
      if evtype == "empty" then None else Some(EventTypes),
      window,
      SetStrictScopes(sc, false),
      evtype == "letter_event",
      evtype != "letter_event",
      evtype == "court_event",
      !(hidden.Some? && hidden.value))
  }

  /** `option` is required unless `hidden = yes`; `sender` only for a
    * letter_event, which is also the default-free type: without `type` an
    * event is a character_event; the debug namespace turns tooltips off. */
  lemma RulesMeaning(key: Token, block: Block, namespaces: set<string>, scopeNames: map<string, Scopes>)
    ensures var r := Rules(key, block, namespaces, scopeNames);
      && (r.requiresOption <==> GetFieldValue(block, "hidden").None? || !GetFieldValue(block, "hidden").value.Is("yes"))
      && (r.requiresSender <==> GetFieldValue(block, "type").Some? && GetFieldValue(block, "type").value.Is("letter_event"))
      && (GetFieldValue(block, "type").None? ==> r.evtype == "character_event" && r.window == WindowChoice(WindowTypes))
      && (NamespaceOf(key) == Some("debug") ==> r.tooltipped == ScriptedEffects.No && r.tooltippedImmediate == ScriptedEffects.No)
      && (NamespaceOf(key) != Some("debug") ==> r.tooltipped == ScriptedEffects.Yes && r.tooltippedImmediate == ScriptedEffects.Past)
      && !r.context.strict && r.context.rooted
  {
  }

  // --------------------------------------------------------- event index

  /** The (namespace, number) an event key is stored under: the text before
    * the first '.', and the rest read as a `u16`. */
  function EventIndex(key: string): (r: Option<(string, nat)>)
    ensures r.Some? ==> '.' !in r.value.0
  {
    match SplitOnce(key, '.')
    case None => None
    case Some((ns, rest)) =>
      match ParseU16(rest)
      case None => None
      case Some(id) => Some((ns, id))
  }

  lemma {:induction false} IndexOfAfterPrefix(ns: string, rest: string, c: char)
    requires c !in ns
    ensures IndexOf(ns + [c] + rest, c) == Some(|ns|)
    decreases |ns|
  {
    if |ns| > 0 {
      assert (ns + [c] + rest)[1..] == ns[1..] + [c] + rest;
      IndexOfAfterPrefix(ns[1..], rest, c);
    }
  }

  /** A key `NS.REST` with no '.' in NS is stored under NS and REST read as
    * a `u16`, or nowhere if REST is not one. */
  lemma EventIndexOf(ns: string, rest: string)
    requires '.' !in ns
    ensures EventIndex(ns + "." + rest) ==
      (if ParseU16(rest).Some? then Some((ns, ParseU16(rest).value)) else None)
  {
    IndexOfAfterPrefix(ns, rest, '.');
    var s := ns + "." + rest;
    assert s[..|ns|] == ns && s[|ns| + 1..] == rest;
  }

  lemma LeadingZeroSameNumber()
    ensures ParseU16("1") == ParseU16("01") == Some(1)
  {
    assert "01"[..1] == "0";
    assert "0"[..0] == "";
    assert "1"[..0] == "";
  }

  lemma OutOfRangeNoNumber()
    ensures ParseU16("65536") == None
  {
    var s := "65536";
    assert s[..4] == "6553" && s[..4][..3] == "655" && s[..3][..2] == "65" && s[..2][..1] == "6";
    assert "6"[..0] == "";
    assert DigitsValue("6") == 6;
    assert DigitsValue("65") == 65;
    assert DigitsValue("655") == 655;
    assert DigitsValue("6553") == 6553;
    assert DigitsValue(s) == 65536;
  }

  lemma LetterNoNumber()
    ensures ParseU16("x") == None
  {
  }

  /** "a.1" and "a.01" are stored under the same index. */
  lemma IndexCollision()
    ensures EventIndex("a.1") == EventIndex("a.01") == Some(("a", 1))
  {
    var one, zeroOne := "a.1", "a.01";
    assert one == "a" + "." + "1" && zeroOne == "a" + "." + "01";
    LeadingZeroSameNumber();
    EventIndexOf("a", "1");
    EventIndexOf("a", "01");
  }

  lemma NotNumberNoIndex()
    ensures EventIndex("a.x") == None
  {
    var key := "a.x";
    assert key == "a" + "." + "x";
    LetterNoNumber();
    EventIndexOf("a", "x");
  }

  lemma OutOfRangeNoIndex()
    ensures EventIndex("a.65536") == None
  {
    var key := "a.65536";
    assert key == "a" + "." + "65536";
    OutOfRangeNoNumber();
    EventIndexOf("a", "65536");
  }

  lemma NoDotNoIndex()
    ensures EventIndex("a1") == None
  {
    assert IndexOf("a1", '.') == None by {
      assert "a1"[1..] == "1";
      assert "1"[1..] == "";
    }
  }

  /** "a.x", "a.65536" and "a1" are stored under no index. */
  lemma NoIndex()
    ensures EventIndex("a.x") == None && EventIndex("a.65536") == None && EventIndex("a1") == None
  {
    NotNumberNoIndex();
    OutOfRangeNoIndex();
    NoDotNoIndex();
  }

  // ------------------------------------------------- the event-file reader

  datatype Expecting = ExpectEvent | ExpectScriptedTrigger | ExpectScriptedEffect

  /** What the reader does with one item of an event file. */
  datatype Action =
    | DeclareNamespace(value: Token)
    | LoadEvent(key: Token, block: Block)
    | LoadTrigger(key: Token, block: Block)
    | LoadEffect(key: Token, block: Block)
    | Emit(report: LogReport)

  /** One step of the `handle_file` loop. */
  function Step(exp: Expecting, item: BlockItem): (Expecting, seq<Action>)
  {
    match item
    case ItemField(Field(key, _, bv)) =>
      if key.Is("namespace") then
        match bv
        case BVValue(t) => (exp, [DeclareNamespace(t)])
        case BVBlock(b) => (exp, [Emit(ErrorAt(b.loc, Structure, "expected value, found block"))])
      else if key.Is("scripted_trigger") || key.Is("scripted_effect") then
        (exp, [Emit(ErrorAt(key.loc, Validation, "`" + key.text + "` should be used without `=`"))])
      else if bv.BVBlock? then
        match exp
        case ExpectScriptedTrigger => (ExpectEvent, [LoadTrigger(key, bv.block)])
        case ExpectScriptedEffect => (ExpectEvent, [LoadEffect(key, bv.block)])
        case ExpectEvent => (ExpectEvent, [LoadEvent(key, bv.block)])
      else (exp, [Emit(ErrorAt(key.loc, UnknownField, "unknown setting in event files"))])
    case ItemValue(t) =>
      if exp == ExpectEvent && t.Is("scripted_trigger") then (ExpectScriptedTrigger, [])
      else if exp == ExpectEvent && t.Is("scripted_effect") then (ExpectScriptedEffect, [])
      else (exp, [Emit(ErrorInfoAt(t.loc, Validation, "unexpected token", "Did you forget an = ?"))])
    case ItemBlock(b) => (exp, [Emit(ErrorAt(b.loc, Structure, "expected value, found block"))])
  }

  /** The reader over a whole file, from the start state. */
  function Run(items: seq<BlockItem>): (Expecting, seq<Action>)
  {
    if |items| == 0 then (ExpectEvent, [])
    else
      var before := Run(items[..|items| - 1]);
      var step := Step(before.0, items[|items| - 1]);
      (step.0, before.1 + step.1)
  }

  /** A bare `scripted_trigger` (or `scripted_effect`) while expecting an
    * event switches mode, and the next `key = { ... }` is loaded as that
    * kind, after which the reader expects events again. */
  lemma SwitchThenLoad(t: Token, key: Token, cmp: Comparator, block: Block)
    requires !key.Is("namespace") && !key.Is("scripted_trigger") && !key.Is("scripted_effect")
    ensures t.Is("scripted_trigger") ==>
      var s1 := Step(ExpectEvent, ItemValue(t));
      s1 == (ExpectScriptedTrigger, [])
      && Step(s1.0, ItemField(Field(key, cmp, BVBlock(block)))) == (ExpectEvent, [LoadTrigger(key, block)])
    ensures t.Is("scripted_effect") ==>
      var s1 := Step(ExpectEvent, ItemValue(t));
      s1 == (ExpectScriptedEffect, [])
      && Step(s1.0, ItemField(Field(key, cmp, BVBlock(block)))) == (ExpectEvent, [LoadEffect(key, block)])
  {
  }

  /** Any other bare token, or a switch token while not expecting an event,
    * is an "unexpected token" error and leaves the mode alone. */
  lemma OtherTokenUnexpected(exp: Expecting, t: Token)
    requires exp != ExpectEvent || (!t.Is("scripted_trigger") && !t.Is("scripted_effect"))
    ensures var s := Step(exp, ItemValue(t));
      s.0 == exp && |s.1| == 1 && s.1[0].Emit?
      && IsReport(s.1[0].report, Error, Validation, t.loc) && s.1[0].report.msg == "unexpected token"
  {
  }

  /** `namespace = X` declares X; `scripted_trigger = ...` is an error; a
    * non-block value under any other key is an unknown field. */
  lemma FieldActions(exp: Expecting, key: Token, cmp: Comparator, bv: BV)
    ensures key.Is("namespace") && bv.BVValue? ==>
      Step(exp, ItemField(Field(key, cmp, bv))) == (exp, [DeclareNamespace(bv.token)])
    ensures key.Is("scripted_trigger") || key.Is("scripted_effect") ==>
      var s := Step(exp, ItemField(Field(key, cmp, bv)));
      s.0 == exp && |s.1| == 1 && s.1[0].Emit? && IsReport(s.1[0].report, Error, Validation, key.loc)
    ensures !key.Is("namespace") && !key.Is("scripted_trigger") && !key.Is("scripted_effect") && bv.BVValue? ==>
      var s := Step(exp, ItemField(Field(key, cmp, bv)));
      s.0 == exp && |s.1| == 1 && s.1[0].Emit? && IsReport(s.1[0].report, Error, UnknownField, key.loc)
  {
  }

  /** A bare `name` token, as the mode switches are written. */
  predicate IsSwitch(item: BlockItem, name: string)
  {
    item.ItemValue? && item.token.Is(name)
  }

  /** A `key = { ... }` field with that key and block. */
  predicate IsBlockField(item: BlockItem, key: Token, block: Block)
  {
    item.ItemField? && item.field.key == key && item.field.bv == BVBlock(block)
  }

  /** The reader only holds a mode after a bare switch token that it read
    * while expecting an event. */
  lemma {:induction false} ModeFollowsSwitch(items: seq<BlockItem>)
    ensures Run(items).0 == ExpectScriptedTrigger ==>
      exists s :: 0 <= s < |items| && IsSwitch(items[s], "scripted_trigger") && Run(items[..s]).0 == ExpectEvent
    ensures Run(items).0 == ExpectScriptedEffect ==>
      exists s :: 0 <= s < |items| && IsSwitch(items[s], "scripted_effect") && Run(items[..s]).0 == ExpectEvent
  {
    if |items| > 0 {
      var last := |items| - 1;
      var init := items[..last];
      ModeFollowsSwitch(init);
      if Run(items).0 != ExpectEvent && Run(init).0 == Run(items).0 {
        var name := if Run(items).0 == ExpectScriptedTrigger then "scripted_trigger" else "scripted_effect";
        var s :| 0 <= s < |init| && IsSwitch(init[s], name) && Run(init[..s]).0 == ExpectEvent;
        assert items[s] == init[s] && items[..s] == init[..s];
      } else if Run(items).0 != ExpectEvent {
        assert items[..last] == init;
      }
    }
  }

  /** The mode a load action is read in, and the token that switches to it. */
  function LoadMode(a: Action): Expecting
  {
    if a.LoadTrigger? then ExpectScriptedTrigger else if a.LoadEffect? then ExpectScriptedEffect else ExpectEvent
  }

  function SwitchName(m: Expecting): string
  {
    if m == ExpectScriptedTrigger then "scripted_trigger" else "scripted_effect"
  }

  /** One step loads a file-local item only from a block field, in that item's mode. */
  lemma StepLoads(exp: Expecting, item: BlockItem, k: nat)
    requires k < |Step(exp, item).1|
    requires Step(exp, item).1[k].LoadTrigger? || Step(exp, item).1[k].LoadEffect?
    ensures IsBlockField(item, Step(exp, item).1[k].key, Step(exp, item).1[k].block)
    ensures exp == LoadMode(Step(exp, item).1[k])
  {
  }

  lemma {:induction false} LoadSite(items: seq<BlockItem>, i: nat)
    requires i < |Run(items).1|
    requires Run(items).1[i].LoadTrigger? || Run(items).1[i].LoadEffect?
    ensures exists j ::
      0 < j < |items| && IsBlockField(items[j], Run(items).1[i].key, Run(items).1[i].block)
      && Run(items[..j]).0 == LoadMode(Run(items).1[i])
      && exists s :: 0 <= s < j && IsSwitch(items[s], SwitchName(LoadMode(Run(items).1[i])))
  {
    var last := |items| - 1;
    var init := items[..last];
    var before := Run(init);
    var a := Run(items).1[i];
    var name := SwitchName(LoadMode(a));
    if i < |before.1| {
      assert a == before.1[i];
      LoadSite(init, i);
      var j :| 0 < j < |init| && IsBlockField(init[j], a.key, a.block) && Run(init[..j]).0 == LoadMode(a)
        && exists s :: 0 <= s < j && IsSwitch(init[s], name);
      var s :| 0 <= s < j && IsSwitch(init[s], name);
      assert items[j] == init[j] && items[s] == init[s] && items[..j] == init[..j];
    } else {
      StepLoads(before.0, items[last], i - |before.1|);
      assert items[..last] == init;
      ModeFollowsSwitch(init);
      var s :| 0 <= s < |init| && IsSwitch(init[s], name) && Run(init[..s]).0 == ExpectEvent;
      assert items[s] == init[s];
    }
  }

  /** A file-local trigger (effect) is loaded only from a `key = { ... }`
    * field read in trigger (effect) mode, and that mode was entered by an
    * earlier bare `scripted_trigger` (`scripted_effect`) token. */
  lemma RunLoadsLocalsOnlyAfterSwitch(items: seq<BlockItem>, i: nat)
    requires i < |Run(items).1|
    ensures Run(items).1[i].LoadTrigger? ==>
      exists j :: 0 < j < |items| && IsBlockField(items[j], Run(items).1[i].key, Run(items).1[i].block)
        && Run(items[..j]).0 == ExpectScriptedTrigger
        && exists s :: 0 <= s < j && IsSwitch(items[s], "scripted_trigger")
    ensures Run(items).1[i].LoadEffect? ==>
      exists j :: 0 < j < |items| && IsBlockField(items[j], Run(items).1[i].key, Run(items).1[i].block)
        && Run(items[..j]).0 == ExpectScriptedEffect
        && exists s :: 0 <= s < j && IsSwitch(items[s], "scripted_effect")
  {
    if Run(items).1[i].LoadTrigger? || Run(items).1[i].LoadEffect? {
      LoadSite(items, i);
    }
  }

  // ---------------------------------------------------------- the store

  /** What the registry holds, with each file-local trigger and effect
    * represented by the key it was defined with. */
  datatype Store = Store(
    events: map<(string, nat), Event>,
    namespaces: map<string, Token>,
    triggerKeys: map<(string, string), Token>,
    effectKeys: map<(string, string), Token>)

  /** File-local triggers and effects are indexed by file and name. */
  function LocalIndex(key: Token): (string, string) { (key.loc.path, key.text) }

  /** The warning for an event key that has no index. */
  const BadEventNameMessage := "Event names should be in the form NAMESPACE.NUMBER"
  const BadEventNameInfo :=
    "where NAMESPACE is the namespace declared at the top of the file, and NUMBER is a series of up to 4 digits."

  function BadEventName(key: Token): (r: LogReport)
    ensures IsReport(r, Warning, EventNamespace, key.loc)
  {
    WarnInfoAt(key.loc, EventNamespace, BadEventNameMessage, BadEventNameInfo)
  }

  /** `load_event` on values: stored under its index if the key parses, a
    * duplicate if that index is taken; otherwise one EventNamespace warning. */
  function LoadEventF(events: map<(string, nat), Event>, key: Token, block: Block,
                      scopeNames: map<string, Scopes>): (r: Checked<map<(string, nat), Event>>)
    ensures var index := EventIndex(key.text);
      index.None? ==> r.value == events && r.reports == [BadEventName(key)]
    ensures var index := EventIndex(key.text);
      index.Some? ==> r.value == events[index.value := NewEvent(key, block, scopeNames)]
    ensures var index := EventIndex(key.text);
      index.Some? ==> |r.reports| == (if index.value in events then 1 else 0)
    ensures var index := EventIndex(key.text);
      index.Some? && index.value in events ==> r.reports[0] == DupError(key, events[index.value].key, "event")
  {
    var index := EventIndex(key.text);
    if index.None? then Checked(events, [BadEventName(key)])
    else
      var idx := index.value;
      var e := NewEvent(key, block, scopeNames);
      Checked(events[idx := e], if idx in events then [DupError(key, events[idx].key, "event")] else [])
  }

  /** Loading a file-local item: a duplicate only within the same file. */
  function LoadLocalF(keys: map<(string, string), Token>, key: Token, what: string)
    : (r: Checked<map<(string, string), Token>>)
    ensures r.value == keys[LocalIndex(key) := key]
    ensures |r.reports| == (if LocalIndex(key) in keys then 1 else 0)
  {
    var idx := LocalIndex(key);
    Checked(keys[idx := key], if idx in keys then [DupError(key, keys[idx], what)] else [])
  }

  /** Same-named file-local items of different files never collide. */
  lemma LocalItemsPerFile(keys: map<(string, string), Token>, a: Token, b: Token)
    requires a.text == b.text && a.loc.path != b.loc.path
    ensures var after := LoadLocalF(keys, a, "scripted trigger").value;
      LoadLocalF(after, b, "scripted trigger").reports == LoadLocalF(keys, b, "scripted trigger").reports
  {
  }

  /** "a.1" then "a.01": the second replaces the first and is a duplicate. */
  lemma SecondSpellingIsDuplicate(events: map<(string, nat), Event>, k1: Token, k2: Token, b1: Block, b2: Block,
                                  scopeNames: map<string, Scopes>)
    requires k1.text == "a.1" && k2.text == "a.01"
    ensures var first := LoadEventF(events, k1, b1, scopeNames);
      var second := LoadEventF(first.value, k2, b2, scopeNames);
      |second.reports| == 1 && second.reports[0] == DupError(k2, k1, "event")
      && ("a", 1) in second.value && second.value[("a", 1)].key == k2
  {
    IndexCollision();
  }

  function Apply(s: Store, a: Action, scopeNames: map<string, Scopes>): Checked<Store>
  {
    match a
    case DeclareNamespace(t) => Checked(s.(namespaces := s.namespaces[t.text := t]), [])
    case LoadEvent(key, block) =>
      var r := LoadEventF(s.events, key, block, scopeNames);
      Checked(s.(events := r.value), r.reports)
    case LoadTrigger(key, _) =>
      var r := LoadLocalF(s.triggerKeys, key, "scripted trigger");
      Checked(s.(triggerKeys := r.value), r.reports)
    case LoadEffect(key, _) =>
      var r := LoadLocalF(s.effectKeys, key, "scripted effect");
      Checked(s.(effectKeys := r.value), r.reports)
    case Emit(report) => Checked(s, [report])
  }

  function ApplyAll(s: Store, actions: seq<Action>, scopeNames: map<string, Scopes>): Checked<Store>
  {
    if |actions| == 0 then Checked(s, [])
    else
      var before := ApplyAll(s, actions[..|actions| - 1], scopeNames);
      var last := Apply(before.value, actions[|actions| - 1], scopeNames);
      Checked(last.value, before.reports + last.reports)
  }

  /** One more action applies to the store the earlier ones left. */
  lemma ApplyAllStep(s: Store, actions: seq<Action>, a: Action, scopeNames: map<string, Scopes>)
    ensures var before := ApplyAll(s, actions, scopeNames);
      var last := Apply(before.value, a, scopeNames);
      ApplyAll(s, actions + [a], scopeNames) == Checked(last.value, before.reports + last.reports)
  {
    assert (actions + [a])[..|actions|] == actions;
  }

  // ------------------------------------------------- validation order

  predicate EarliestIn(m: Token, s: set<Token>)
  {
    m in s && forall x :: x in s ==> LocLe(m.loc, x.loc)
  }

  lemma EarlierThanEarliest(s: set<Token>, m: Token, y: Token)
    requires forall x :: x in s ==> LocLe(m.loc, x.loc)
    requires LocLe(y.loc, m.loc)
    ensures forall x :: x in s ==> LocLe(y.loc, x.loc)
  {
    forall x | x in s
      ensures LocLe(y.loc, x.loc)
    {
      LocLeTransitive(y.loc, m.loc, x.loc);
    }
  }

  /** Every non-empty set of tokens has one read earliest. */
  lemma {:induction false} HasEarliest(s: set<Token>)
    requires s != {}
    ensures exists m :: EarliestIn(m, s)
    decreases |s|
  {
    var y :| y in s;
    if s == {y} {
      assert EarliestIn(y, s);
    } else {
      var rest := s - {y};
      HasEarliest(rest);
      var m :| EarliestIn(m, rest);
      LocLeTotal(m.loc, y.loc);
      if LocLe(m.loc, y.loc) {
        assert EarliestIn(m, s);
      } else {
        EarlierThanEarliest(rest, m, y);
        assert EarliestIn(y, s);
      }
    }
  }

  predicate SortedByLoc(r: seq<Token>)
  {
    forall i, j :: 0 <= i < j < |r| ==> LocLe(r[i].loc, r[j].loc)
  }

  /** `sort_unstable_by_key(|item| &item.key.loc)` over the keys of a
    * registry: each key once, in file order, ties in any order. */
  method SortByLoc(keys: set<Token>) returns (r: seq<Token>)
    ensures SortedByLoc(r)
    ensures |r| == |keys| && forall t :: t in r <==> t in keys
  {
    r := [];
    var rest := keys;
    while rest != {}
      invariant rest <= keys
      invariant SortedByLoc(r)
      invariant forall t :: t in r <==> t in keys && t !in rest
      invariant |r| + |rest| == |keys|
      invariant forall i, x :: 0 <= i < |r| && x in rest ==> LocLe(r[i].loc, x.loc)
      decreases |rest|
    {
      HasEarliest(rest);
      var m :| EarliestIn(m, rest);
      r := r + [m];
      rest := rest - {m};
    }
  }

  datatype Visit = VisitEffect(key: Token) | VisitTrigger(key: Token) | VisitEvent(key: Token)

  function VisitRank(v: Visit): nat
  {
    match v
    case VisitEffect(_) => 0
    case VisitTrigger(_) => 1
    case VisitEvent(_) => 2
  }

  /** Effects, then triggers, then events, each group in the given order. */
  function Visits(a: seq<Token>, b: seq<Token>, c: seq<Token>): (r: seq<Visit>)
    ensures |r| == |a| + |b| + |c|
  {
    seq(|a|, i requires 0 <= i < |a| => VisitEffect(a[i]))
      + seq(|b|, i requires 0 <= i < |b| => VisitTrigger(b[i]))
      + seq(|c|, i requires 0 <= i < |c| => VisitEvent(c[i]))
  }

  lemma VisitsOrdered(a: seq<Token>, b: seq<Token>, c: seq<Token>)
    requires SortedByLoc(a) && SortedByLoc(b) && SortedByLoc(c)
    ensures var r := Visits(a, b, c);
      (forall i, j :: 0 <= i < j < |r| ==> VisitRank(r[i]) <= VisitRank(r[j]))
      && (forall i, j :: 0 <= i < j < |r| && VisitRank(r[i]) == VisitRank(r[j]) ==> LocLe(r[i].key.loc, r[j].key.loc))
  {
  }

  lemma VisitsMembers(a: seq<Token>, b: seq<Token>, c: seq<Token>, v: Visit)
    ensures v in Visits(a, b, c) <==>
      (v.VisitEffect? && v.key in a) || (v.VisitTrigger? && v.key in b) || (v.VisitEvent? && v.key in c)
  {
    var r := Visits(a, b, c);
    if v in r {
      var i :| 0 <= i < |r| && r[i] == v;
      if i < |a| { assert v.key == a[i]; }
      else if i < |a| + |b| { assert v.key == b[i - |a|]; }
      else { assert v.key == c[i - |a| - |b|]; }
    }
    if v.VisitEffect? && v.key in a {
      var i :| 0 <= i < |a| && a[i] == v.key;
      assert r[i] == v;
    } else if v.VisitTrigger? && v.key in b {
      var i :| 0 <= i < |b| && b[i] == v.key;
      assert r[|a| + i] == v;
    } else if v.VisitEvent? && v.key in c {
      var i :| 0 <= i < |c| && c[i] == v.key;
      assert r[|a| + |b| + i] == v;
    }
  }

  class Events {
    var events: map<(string, nat), Event>
    var namespaces: map<string, Token>
    var triggers: map<(string, string), ScriptedTriggers.Trigger>
    var effects: map<(string, string), ScriptedEffects.Effect>
    const scopeNames: map<string, Scopes>

    constructor (scopeNames: map<string, Scopes>)
      ensures events == map[] && namespaces == map[] && triggers == map[] && effects == map[]
      ensures this.scopeNames == scopeNames
    {
      events := map[];
      namespaces := map[];
      triggers := map[];
      effects := map[];
      this.scopeNames := scopeNames;
    }

    function StoreOf(): Store
      reads this
    {
      Store(events, namespaces,
            map k | k in triggers :: triggers[k].key,
            map k | k in effects :: effects[k].key)
    }

    function GetEvent(key: string): (r: Option<Event>)
      reads this
      ensures r.Some? <==> EventIndex(key).Some? && EventIndex(key).value in events
      ensures r.Some? ==> r.value == events[EventIndex(key).value]
    {
      match EventIndex(key)
      case Some(idx) => if idx in events then Some(events[idx]) else None
      case None => None
    }

    /** `exists`: the same parse as `get_event`. */
    predicate Exists(key: string)
      reads this
    {
      match SplitOnce(key, '.')
      case Some((ns, rest)) => ParseU16(rest).Some? && (ns, ParseU16(rest).value) in events
      case None => false
    }

    lemma ExistsIffGetEvent(key: string)
      ensures Exists(key) <==> GetEvent(key).Some?
    {
    }

    predicate NamespaceExists(key: string) reads this { key in namespaces }

    predicate TriggerExists(key: Token) reads this { LocalIndex(key) in triggers }

    function GetTrigger(key: Token): (r: Option<ScriptedTriggers.Trigger>)
      reads this
      ensures r.Some? <==> TriggerExists(key)
    {
      if LocalIndex(key) in triggers then Some(triggers[LocalIndex(key)]) else None
    }

    predicate EffectExists(key: Token) reads this { LocalIndex(key) in effects }

    function GetEffect(key: Token): (r: Option<ScriptedEffects.Effect>)
      reads this
      ensures r.Some? <==> EffectExists(key)
    {
      if LocalIndex(key) in effects then Some(effects[LocalIndex(key)]) else None
    }

    function EffectKeys(): set<Token> reads this { set k | k in effects :: effects[k].key }
    function TriggerKeys(): set<Token> reads this { set k | k in triggers :: triggers[k].key }
    function EventKeys(): set<Token> reads this { set k | k in events :: events[k].key }

    /** `validate`: the order in which the items are validated, all
      * file-local effects, then all file-local triggers, then all events,
      * each group in file order. */
    method ValidationOrder() returns (order: seq<Visit>)
      ensures forall i, j :: 0 <= i < j < |order| ==> VisitRank(order[i]) <= VisitRank(order[j])
      ensures forall i, j :: 0 <= i < j < |order| && VisitRank(order[i]) == VisitRank(order[j])
                ==> LocLe(order[i].key.loc, order[j].key.loc)
      ensures forall v :: v in order <==>
                (v.VisitEffect? && v.key in EffectKeys())
                || (v.VisitTrigger? && v.key in TriggerKeys())
                || (v.VisitEvent? && v.key in EventKeys())
      ensures |order| == |EffectKeys()| + |TriggerKeys()| + |EventKeys()|
    {
      var a := SortByLoc(EffectKeys());
      var b := SortByLoc(TriggerKeys());
      var c := SortByLoc(EventKeys());
      order := Visits(a, b, c);
      VisitsOrdered(a, b, c);
      forall v
        ensures v in order <==>
                (v.VisitEffect? && v.key in EffectKeys())
                || (v.VisitTrigger? && v.key in TriggerKeys())
                || (v.VisitEvent? && v.key in EventKeys())
      {
        VisitsMembers(a, b, c, v);
      }
    }

    method LoadEvent(key: Token, block: Block) returns (reports: seq<LogReport>)
      modifies this`events
      ensures Checked(events, reports) == LoadEventF(old(events), key, block, scopeNames)
    {
      var idx := EventIndex(key.text);
      if idx.Some? {
        var other := GetEvent(key.text);
        reports := if other.Some? then [DupError(key, other.value.key, "event")] else [];
        events := events[idx.value := NewEvent(key, block, scopeNames)];
        return;
      }
      reports := [BadEventName(key)];
    }

    method LoadScriptedTrigger(key: Token, block: Block) returns (reports: seq<LogReport>)
      modifies this`triggers
      ensures triggers.Keys == old(triggers.Keys) + {LocalIndex(key)}
      ensures Checked(StoreOf().triggerKeys, reports) == LoadLocalF(old(StoreOf()).triggerKeys, key, "scripted trigger")
      ensures fresh(triggers[LocalIndex(key)]) && triggers[LocalIndex(key)].block == block
      ensures forall k :: k in old(triggers) && k != LocalIndex(key) ==> triggers[k] == old(triggers[k])
    {
      var index := LocalIndex(key);
      reports := if index in triggers then [DupError(key, triggers[index].key, "scripted trigger")] else [];
      ghost var before := StoreOf().triggerKeys;
      var t := new ScriptedTriggers.Trigger(key, block);
      triggers := triggers[index := t];
      assert StoreOf().triggerKeys == before[index := key];
    }

    method LoadScriptedEffect(key: Token, block: Block) returns (reports: seq<LogReport>)
      modifies this`effects
      ensures effects.Keys == old(effects.Keys) + {LocalIndex(key)}
      ensures Checked(StoreOf().effectKeys, reports) == LoadLocalF(old(StoreOf()).effectKeys, key, "scripted effect")
      ensures fresh(effects[LocalIndex(key)]) && effects[LocalIndex(key)].block == block
      ensures effects[LocalIndex(key)].scopeOverride == None
      ensures forall k :: k in old(effects) && k != LocalIndex(key) ==> effects[k] == old(effects[k])
    {
      var index := LocalIndex(key);
      reports := if index in effects then [DupError(key, effects[index].key, "scripted effect")] else [];
      ghost var before := StoreOf().effectKeys;
      var e := new ScriptedEffects.Effect(key, block, None);
      effects := effects[index := e];
      assert StoreOf().effectKeys == before[index := key];
    }

    method ApplyAction(a: Action) returns (reports: seq<LogReport>)
      modifies this`events, this`namespaces, this`triggers, this`effects
      ensures Checked(StoreOf(), reports) == Apply(old(StoreOf()), a, scopeNames)
    {
      match a {
        case DeclareNamespace(t) =>
          namespaces := namespaces[t.text := t];
          reports := [];
        case LoadEvent(key, block) =>
          reports := LoadEvent(key, block);
        case LoadTrigger(key, block) =>
          reports := LoadScriptedTrigger(key, block);
        case LoadEffect(key, block) =>
          reports := LoadScriptedEffect(key, block);
        case Emit(r) =>
          reports := [r];
      }
    }

    /** Applies the actions one item produced, after those of the items
      * before it. */
    method ApplyActions(ghost s0: Store, ghost done: seq<Action>, reports0: seq<LogReport>, acts: seq<Action>)
      returns (reports: seq<LogReport>)
      modifies this`events, this`namespaces, this`triggers, this`effects
      requires Checked(StoreOf(), reports0) == ApplyAll(s0, done, scopeNames)
      ensures Checked(StoreOf(), reports) == ApplyAll(s0, done + acts, scopeNames)
    {
      reports := reports0;
      assert done + acts[..0] == done;
      for j := 0 to |acts|
        invariant Checked(StoreOf(), reports) == ApplyAll(s0, done + acts[..j], scopeNames)
      {
        ghost var before := ApplyAll(s0, done + acts[..j], scopeNames);
        ApplyAllStep(s0, done + acts[..j], acts[j], scopeNames);
        assert done + acts[..j + 1] == done + acts[..j] + [acts[j]];
        var r := ApplyAction(acts[j]);
        ghost var step := Apply(before.value, acts[j], scopeNames);
        assert StoreOf() == step.value && r == step.reports;
        reports := reports + r;
      }
      assert acts[..|acts|] == acts;
    }

    /** `handle_file`: only `.txt` files that could be read are processed;
      * each item steps the three-state reader and the resulting actions are
      * applied in order. */
    method HandleFile(filename: string, file: Option<Block>) returns (reports: seq<LogReport>)
      modifies this`events, this`namespaces, this`triggers, this`effects
      ensures !EndsWith(filename, ".txt") || file.None? ==> StoreOf() == old(StoreOf()) && reports == []
      ensures EndsWith(filename, ".txt") && file.Some? ==>
                Checked(StoreOf(), reports) == ApplyAll(old(StoreOf()), Run(file.value.items).1, scopeNames)
    {
      reports := [];
      if !EndsWith(filename, ".txt") || file.None? {
        return;
      }
      var items := file.value.items;
      var expecting := ExpectEvent;
      ghost var done: seq<Action> := [];
      var i := 0;
      while i < |items|
        invariant 0 <= i <= |items|
        invariant (expecting, done) == Run(items[..i])
        invariant Checked(StoreOf(), reports) == ApplyAll(old(StoreOf()), done, scopeNames)
      {
        var step := Step(expecting, items[i]);
        reports := ApplyActions(old(StoreOf()), done, reports, step.1);
        expecting := step.0;
        done := done + step.1;
        assert items[..i + 1][..i] == items[..i];
        i := i + 1;
      }
      assert items[..i] == items;
    }
  }
}
