/** Scripted effects (src/data/scripted_effects.rs): the registry of
  * `common/scripted_effects`, the `scope_override` configuration, and each
  * effect's memo of validated contexts. The memo (src/macrocache.rs, not
  * part of this model) is keyed by the call's location, its arguments,
  * whether it is tooltipped, and whether it is negated. */
module ScriptedEffects {
  import opened Base
  import opened Report
  import opened Tree
  import opened ScopeContexts

  datatype Tooltipped = No | Yes | FailuresOnly | Past

  datatype CacheKey = CacheKey(loc: Loc, args: seq<(string, string)>, tooltipped: Tooltipped, negated: bool)

  type EffectCache = map<CacheKey, ScopeContext>

  function ArgTexts(args: seq<(string, Token)>): (r: seq<(string, string)>)
    ensures |r| == |args|
  {
    seq(|args|, i requires 0 <= i < |args| => (args[i].0, args[i].1.text))
  }

  function KeyOf(key: Token, args: seq<(string, Token)>, tooltipped: Tooltipped): CacheKey
  {
    CacheKey(key.loc, ArgTexts(args), tooltipped, false)
  }

  /** The collaborators this file calls but does not define. */
  datatype EffectEnv = EffectEnv(
    /** `Block::expand_macro`. */
    expand: (Block, seq<(string, Token)>, Token) -> Option<Block>,
    /** `validate_normal_effect`: the context it leaves, and this effect's
      * cache as nested expansions left it. */
    validateBody: (Block, ScopeContext, EffectCache, Tooltipped) -> (ScopeContext, EffectCache),
    /** `their.expect_compatibility(ours, key)`: the caller's context afterwards. */
    compat: (ScopeContext, ScopeContext, Token) -> ScopeContext)

  /** The context an effect's body starts from: all scopes, strict scopes
    * off, and no warnings when an override will replace the result. */
  function StartContext(selfKey: Token, override: Option<Scopes>): ScopeContext
  {
    SetNoWarn(SetStrictScopes(NewUnrooted(AllScopes, selfKey), false), override.Some?)
  }

  /** The context that is checked and cached after the body was validated. */
  function FinalContext(validated: ScopeContext, override: Option<Scopes>, key: Token): (r: ScopeContext)
    ensures override.Some? ==> r.root == override.value && !r.rooted && !r.strict && r.names == map[]
    ensures override.None? ==> r == validated
  {
    match override
    case Some(scopes) => SetStrictScopes(NewUnrooted(scopes, key), false)
    case None => validated
  }

  datatype Outcome = Outcome(cache: EffectCache, theirs: ScopeContext, validated: bool)

  /** A miss: placeholder first, then the body, then the final context. */
  function Miss(cache: EffectCache, ck: CacheKey, selfKey: Token, key: Token, body: Block,
                override: Option<Scopes>, tooltipped: Tooltipped, theirs: ScopeContext,
                env: EffectEnv): Outcome
  {
    var start := StartContext(selfKey, override);
    var v := env.validateBody(body, start, cache[ck := start], tooltipped);
    var ours := FinalContext(v.0, override, key);
    Outcome(v.1[ck := ours], env.compat(theirs, ours, key), true)
  }

  /** `validate_call` on values: the effect called without arguments. */
  function Call(cache: EffectCache, selfKey: Token, block: Block, override: Option<Scopes>,
                key: Token, theirs: ScopeContext, tooltipped: Tooltipped, env: EffectEnv): Outcome
  {
    var ck := KeyOf(key, [], tooltipped);
    if ck in cache then Outcome(cache, env.compat(theirs, cache[ck], key), false)
    else Miss(cache, ck, selfKey, key, block, override, tooltipped, theirs, env)
  }

  /** `validate_macro_expansion` on values. */
  function MacroExpansion(cache: EffectCache, selfKey: Token, block: Block, override: Option<Scopes>,
                          key: Token, args: seq<(string, Token)>, theirs: ScopeContext,
                          tooltipped: Tooltipped, env: EffectEnv): Outcome
  {
    var ck := KeyOf(key, args, tooltipped);
    if ck in cache then Outcome(cache, env.compat(theirs, cache[ck], key), false)
    else match env.expand(block, args, key)
      case None => Outcome(cache, theirs, false)
      case Some(body) => Miss(cache, ck, selfKey, key, body, override, tooltipped, theirs, env)
  }

  /** On a hit the body is not validated again: only the compatibility check
    * against the cached context runs. */
  lemma HitOnlyChecksCompatibility(cache: EffectCache, selfKey: Token, block: Block,
                                   override: Option<Scopes>, key: Token, args: seq<(string, Token)>,
                                   theirs: ScopeContext, tooltipped: Tooltipped, env: EffectEnv)
    requires KeyOf(key, args, tooltipped) in cache
    ensures var out := MacroExpansion(cache, selfKey, block, override, key, args, theirs, tooltipped, env);
      !out.validated && out.cache == cache
      && out.theirs == env.compat(theirs, cache[KeyOf(key, args, tooltipped)], key)
    ensures args == [] ==>
      var out := Call(cache, selfKey, block, override, key, theirs, tooltipped, env);
      !out.validated && out.cache == cache
      && out.theirs == env.compat(theirs, cache[KeyOf(key, args, tooltipped)], key)
  {
  }

  /** A miss validates the body against a cache that already holds the
    * starting context under the same key, and then stores the final context
    * under that key; with an override, that context has exactly the
    * override's scopes, whatever the body inferred. */
  lemma MissCachesPlaceholderThenResult(cache: EffectCache, selfKey: Token, block: Block,
                                        override: Option<Scopes>, key: Token, theirs: ScopeContext,
                                        tooltipped: Tooltipped, env: EffectEnv)
    requires KeyOf(key, [], tooltipped) !in cache
    ensures var ck := KeyOf(key, [], tooltipped);
      var start := StartContext(selfKey, override);
      var v := env.validateBody(block, start, cache[ck := start], tooltipped);
      var out := Call(cache, selfKey, block, override, key, theirs, tooltipped, env);
      && out.validated && ck in out.cache
      && out.cache[ck] == FinalContext(v.0, override, key)
      && out.theirs == env.compat(theirs, out.cache[ck], key)
      && (override.Some? ==> out.cache[ck].root == override.value && !out.cache[ck].strict)
      && !start.strict && start.root == AllScopes && (start.noWarn <==> override.Some?)
  {
  }

  /** When the macro does not expand, nothing changes. */
  lemma FailedExpansionKeepsCache(cache: EffectCache, selfKey: Token, block: Block,
                                  override: Option<Scopes>, key: Token, args: seq<(string, Token)>,
                                  theirs: ScopeContext, tooltipped: Tooltipped, env: EffectEnv)
    requires KeyOf(key, args, tooltipped) !in cache && env.expand(block, args, key).None?
    ensures var out := MacroExpansion(cache, selfKey, block, override, key, args, theirs, tooltipped, env);
      !out.validated && out.cache == cache && out.theirs == theirs
  {
  }

  // ------------------------------------------------------ scope overrides

  /** The union of the scopes named by the known parts. */
  function KnownUnion(parts: seq<string>, scopeNames: map<string, Scopes>): Scopes
  {
    if |parts| == 0 then {}
    else
      var p := parts[|parts| - 1];
      KnownUnion(parts[..|parts| - 1], scopeNames) + (if p in scopeNames then scopeNames[p] else {})
  }

  /** `Token::split` (src/token.rs, not part of this model) gives each part
    * its own location: `partLoc(loc, n)` is where the part that starts `n`
    * characters into a token at `loc` is located. */
  type PartLoc = (Loc, nat) -> Loc

  /** The warning for part `i`, at that part's own location. */
  function UnknownPartWarning(parts: seq<string>, i: nat, loc: Loc, partLoc: PartLoc): LogReport
    requires i < |parts|
  {
    WarnAt(partLoc(loc, PartsWidth(parts[..i])), Config, "unknown scope type `" + parts[i] + "`")
  }

  /** One Config warning per unknown part, in order. */
  function UnknownPartReports(parts: seq<string>, scopeNames: map<string, Scopes>, loc: Loc,
                              partLoc: PartLoc): seq<LogReport>
  {
    if |parts| == 0 then []
    else
      UnknownPartReports(parts[..|parts| - 1], scopeNames, loc, partLoc)
        + (if parts[|parts| - 1] in scopeNames then [] else [UnknownPartWarning(parts, |parts| - 1, loc, partLoc)])
  }

  function CountUnknown(parts: seq<string>, scopeNames: map<string, Scopes>): nat
  {
    if |parts| == 0 then 0
    else CountUnknown(parts[..|parts| - 1], scopeNames) + (if parts[|parts| - 1] in scopeNames then 0 else 1)
  }

  /** A scope is in the union iff some known part names it. */
  lemma {:induction false} KnownUnionMeaning(parts: seq<string>, scopeNames: map<string, Scopes>, s: Scope)
    ensures s in KnownUnion(parts, scopeNames) <==>
            exists i :: 0 <= i < |parts| && parts[i] in scopeNames && s in scopeNames[parts[i]]
  {
    if |parts| > 0 {
      var init := parts[..|parts| - 1];
      KnownUnionMeaning(init, scopeNames, s);
      if s in KnownUnion(init, scopeNames) {
        var i :| 0 <= i < |init| && init[i] in scopeNames && s in scopeNames[init[i]];
        assert parts[i] == init[i];
      }
      if exists i :: 0 <= i < |parts| && parts[i] in scopeNames && s in scopeNames[parts[i]] {
        var i :| 0 <= i < |parts| && parts[i] in scopeNames && s in scopeNames[parts[i]];
        if i < |init| {
          assert init[i] == parts[i];
        }
      }
    }
  }

  /** There is one Config warning per unknown part, and each is the
    * warning for an unknown part at that part's own location. */
  lemma {:induction false} UnknownPartsWarned(parts: seq<string>, scopeNames: map<string, Scopes>, loc: Loc,
                                              partLoc: PartLoc)
    ensures |UnknownPartReports(parts, scopeNames, loc, partLoc)| == CountUnknown(parts, scopeNames)
    ensures forall i :: 0 <= i < |parts| && parts[i] !in scopeNames ==>
      UnknownPartWarning(parts, i, loc, partLoc) in UnknownPartReports(parts, scopeNames, loc, partLoc)
    ensures forall r :: r in UnknownPartReports(parts, scopeNames, loc, partLoc) ==>
      exists i :: 0 <= i < |parts| && parts[i] !in scopeNames && r == UnknownPartWarning(parts, i, loc, partLoc)
  {
    if |parts| > 0 {
      var last := |parts| - 1;
      var init := parts[..last];
      UnknownPartsWarned(init, scopeNames, loc, partLoc);
      forall i | 0 <= i < last
        ensures init[i] == parts[i] && UnknownPartWarning(init, i, loc, partLoc) == UnknownPartWarning(parts, i, loc, partLoc)
      {
        assert init[..i] == parts[..i];
      }
    }
  }

  /** The scopes one `scope_override` entry stands for. */
  function OverrideScopes(value: Token, scopeNames: map<string, Scopes>): Scopes
  {
    if value.LowercaseIs("all") then AllScopes else KnownUnion(Split(value.text, '|'), scopeNames)
  }

  function OverrideReports(value: Token, scopeNames: map<string, Scopes>, partLoc: PartLoc): seq<LogReport>
  {
    if value.LowercaseIs("all") then [] else UnknownPartReports(Split(value.text, '|'), scopeNames, value.loc, partLoc)
  }

  /** Every unknown part of an override is warned about at the location of
    * that part: the one `PartsWidth` characters into the token, where its
    * text is found. */
  lemma UnknownPartWarnedAtItsText(value: Token, scopeNames: map<string, Scopes>, partLoc: PartLoc, i: nat)
    requires !value.LowercaseIs("all")
    requires i < |Split(value.text, '|')| && Split(value.text, '|')[i] !in scopeNames
    ensures var parts := Split(value.text, '|'); var o := PartsWidth(parts[..i]);
      o + |parts[i]| <= |value.text| && value.text[o..o + |parts[i]|] == parts[i]
      && WarnAt(partLoc(value.loc, o), Config, "unknown scope type `" + parts[i] + "`")
         in OverrideReports(value, scopeNames, partLoc)
  {
    SplitPartStartsAt(value.text, '|', i);
    UnknownPartsWarned(Split(value.text, '|'), scopeNames, value.loc, partLoc);
  }

  /** "all" in any letter case gives every scope, with no warning. */
  lemma AllIsEveryScope(value: Token, scopeNames: map<string, Scopes>, partLoc: PartLoc)
    requires Lower(value.text) == "all"
    ensures OverrideScopes(value, scopeNames) == AllScopes && OverrideReports(value, scopeNames, partLoc) == []
  {
  }

  function ApplyOverrides(m: map<string, Scopes>, assignments: seq<(Token, Token)>,
                          scopeNames: map<string, Scopes>): map<string, Scopes>
  {
    if |assignments| == 0 then m
    else
      var a := assignments[|assignments| - 1];
      ApplyOverrides(m, assignments[..|assignments| - 1], scopeNames)[a.0.text := OverrideScopes(a.1, scopeNames)]
  }

  function AllOverrideReports(assignments: seq<(Token, Token)>, scopeNames: map<string, Scopes>,
                              partLoc: PartLoc): seq<LogReport>
  {
    if |assignments| == 0 then []
    else AllOverrideReports(assignments[..|assignments| - 1], scopeNames, partLoc)
         + OverrideReports(assignments[|assignments| - 1].1, scopeNames, partLoc)
  }

  /** One more assignment: its override and its reports come after the others'. */
  lemma OverridesStep(m: map<string, Scopes>, assignments: seq<(Token, Token)>, i: nat,
                      scopeNames: map<string, Scopes>, partLoc: PartLoc)
    requires i < |assignments|
    ensures ApplyOverrides(m, assignments[..i + 1], scopeNames)
      == ApplyOverrides(m, assignments[..i], scopeNames)[assignments[i].0.text := OverrideScopes(assignments[i].1, scopeNames)]
    ensures AllOverrideReports(assignments[..i + 1], scopeNames, partLoc)
      == AllOverrideReports(assignments[..i], scopeNames, partLoc) + OverrideReports(assignments[i].1, scopeNames, partLoc)
  {
    assert assignments[..i + 1][..i] == assignments[..i];
  }

  /** Every assignment ends up in the override map, the last one of a name winning. */
  lemma {:induction false} ApplyOverridesLastWins(m: map<string, Scopes>, assignments: seq<(Token, Token)>,
                                                  scopeNames: map<string, Scopes>, i: nat)
    requires i < |assignments|
    requires forall j :: i < j < |assignments| ==> assignments[j].0.text != assignments[i].0.text
    ensures var r := ApplyOverrides(m, assignments, scopeNames);
      assignments[i].0.text in r && r[assignments[i].0.text] == OverrideScopes(assignments[i].1, scopeNames)
  {
    if i < |assignments| - 1 {
      ApplyOverridesLastWins(m, assignments[..|assignments| - 1], scopeNames, i);
    }
  }

  /** The body of the `scope_override` loop for one entry: "all" in any
    * case, or the union of the known `|`-separated parts, warning once for
    * each unknown part. */
  method ParseOverride(token: Token, scopeNames: map<string, Scopes>, partLoc: PartLoc)
    returns (scopes: Scopes, warned: seq<LogReport>)
    ensures scopes == OverrideScopes(token, scopeNames)
    ensures warned == OverrideReports(token, scopeNames, partLoc)
  {
    scopes := {};
    warned := [];
    if token.LowercaseIs("all") {
      scopes := AllScopes;
    } else {
      var parts := Split(token.text, '|');
      var j := 0;
      while j < |parts|
        invariant 0 <= j <= |parts|
        invariant scopes == KnownUnion(parts[..j], scopeNames)
        invariant warned == UnknownPartReports(parts[..j], scopeNames, token.loc, partLoc)
      {
        var part := parts[j];
        if part in scopeNames {
          scopes := scopes + scopeNames[part];
        } else {
          warned := warned + [WarnAt(partLoc(token.loc, PartsWidth(parts[..j])), Config,
                                     "unknown scope type `" + part + "`")];
        }
        assert parts[..j + 1][..j] == parts[..j];
        j := j + 1;
      }
      assert parts[..j] == parts;
    }
  }

  class Effect {
    const key: Token
    const block: Block
    const scopeOverride: Option<Scopes>
    var cache: EffectCache

    constructor (key: Token, block: Block, scopeOverride: Option<Scopes>)
      ensures this.key == key && this.block == block && this.scopeOverride == scopeOverride
      ensures cache == map[]
    {
      this.key := key;
      this.block := block;
      this.scopeOverride := scopeOverride;
      cache := map[];
    }

    /** `cached_compat`: a hit runs only the compatibility check. */
    method CachedCompat(key: Token, args: seq<(string, Token)>, tooltipped: Tooltipped,
                        theirs: ScopeContext, env: EffectEnv)
      returns (hit: bool, r: ScopeContext)
      ensures hit <==> KeyOf(key, args, tooltipped) in cache
      ensures hit ==> r == env.compat(theirs, cache[KeyOf(key, args, tooltipped)], key)
      ensures !hit ==> r == theirs
    {
      var ck := KeyOf(key, args, tooltipped);
      if ck in cache {
        r := env.compat(theirs, cache[ck], key);
        hit := true;
      } else {
        r := theirs;
        hit := false;
      }
    }

    method ValidateMiss(ck: CacheKey, key: Token, body: Block, theirs: ScopeContext,
                        tooltipped: Tooltipped, env: EffectEnv)
      returns (r: ScopeContext)
      modifies this`cache
      ensures Outcome(cache, r, true)
           == Miss(old(cache), ck, this.key, key, body, scopeOverride, tooltipped, theirs, env)
    {
      var ours := SetStrictScopes(NewUnrooted(AllScopes, this.key), false);
      if scopeOverride.Some? {
        ours := SetNoWarn(ours, true);
      }
      cache := cache[ck := ours];
      var v := env.validateBody(body, ours, cache, tooltipped);
      ours := v.0;
      cache := v.1;
      if scopeOverride.Some? {
        ours := SetStrictScopes(NewUnrooted(scopeOverride.value, key), false);
      }
      r := env.compat(theirs, ours, key);
      cache := cache[ck := ours];
    }

    /** `validate_call`. */
    method ValidateCall(key: Token, theirs: ScopeContext, tooltipped: Tooltipped, env: EffectEnv)
      returns (r: ScopeContext)
      modifies this`cache
      ensures (cache, r) == (var o := Call(old(cache), this.key, block, scopeOverride, key, theirs, tooltipped, env);
                             (o.cache, o.theirs))
    {
      var hit;
      hit, r := CachedCompat(key, [], tooltipped, theirs, env);
      if !hit {
        r := ValidateMiss(KeyOf(key, [], tooltipped), key, block, theirs, tooltipped, env);
      }
    }

    /** `validate`: only a block that is not a macro is validated on its own,
      * as a call of itself from all scopes with strict scopes off. */
    method Validate(env: EffectEnv)
      modifies this`cache
      ensures block.source.None? ==>
                cache == Call(old(cache), key, block, scopeOverride, key, StartContext(key, scopeOverride), No, env).cache
      ensures block.source.Some? ==> cache == old(cache)
    {
      if block.source.None? {
        var sc := SetStrictScopes(NewUnrooted(AllScopes, key), false);
        if scopeOverride.Some? {
          sc := SetNoWarn(sc, true);
        }
        sc := ValidateCall(key, sc, No, env);
      }
    }

    /** `validate_macro_expansion`. */
    method ValidateMacroExpansion(key: Token, args: seq<(string, Token)>, theirs: ScopeContext,
                                  tooltipped: Tooltipped, env: EffectEnv)
      returns (r: ScopeContext, validated: bool)
      modifies this`cache
      ensures Outcome(cache, r, validated)
           == MacroExpansion(old(cache), this.key, block, scopeOverride, key, args, theirs, tooltipped, env)
    {
      var hit;
      hit, r := CachedCompat(key, args, tooltipped, theirs, env);
      validated := false;
      if !hit {
        var body := env.expand(block, args, key);
        if body.Some? {
          r := ValidateMiss(KeyOf(key, args, tooltipped), key, body.value, theirs, tooltipped, env);
          validated := true;
        }
      }
    }
  }

  class Effects {
    var scopeOverrides: map<string, Scopes>
    var effects: map<string, Effect>

    constructor ()
      ensures scopeOverrides == map[] && effects == map[]
    {
      scopeOverrides := map[];
      effects := map[];
    }

    /** `load_item`: always replaces; a duplicate only if the stored effect's
      * file kind is at least the new one's; the override registered under
      * the name is attached. */
    method LoadItem(key: Token, block: Block) returns (reports: seq<LogReport>)
      modifies this`effects
      ensures effects.Keys == old(effects.Keys) + {key.text}
      ensures fresh(effects[key.text])
      ensures effects[key.text].key == key && effects[key.text].block == block && effects[key.text].cache == map[]
      ensures effects[key.text].scopeOverride
              == (if key.text in scopeOverrides then Some(scopeOverrides[key.text]) else None)
      ensures forall k :: k in old(effects) && k != key.text ==> effects[k] == old(effects[k])
      ensures reports == (if key.text in old(effects) && KindAtLeast(old(effects[key.text]).key.loc.kind, key.loc.kind)
                          then [DupError(key, old(effects[key.text]).key, "scripted effect")] else [])
    {
      reports := [];
      if key.text in effects {
        var other := effects[key.text];
        if KindAtLeast(other.key.loc.kind, key.loc.kind) {
          reports := [DupError(key, other.key, "scripted effect")];
        }
      }
      var scopeOverride := if key.text in scopeOverrides then Some(scopeOverrides[key.text]) else None;
      var e := new Effect(key, block, scopeOverride);
      effects := effects[key.text := e];
    }

    predicate Exists(key: string) reads this { key in effects }

    function Get(key: string): (r: Option<Effect>)
      reads this
      ensures r.Some? <==> Exists(key)
      ensures r.Some? ==> r.value == effects[key]
    {
      if key in effects then Some(effects[key]) else None
    }

    /** `config`: every assignment in the `scope_override` block sets the
      * override of its name. */
    method Config(config: Block, scopeNames: map<string, Scopes>, partLoc: PartLoc) returns (reports: seq<LogReport>)
      modifies this`scopeOverrides
      ensures GetFieldBlock(config, "scope_override").None? ==> scopeOverrides == old(scopeOverrides) && reports == []
      ensures GetFieldBlock(config, "scope_override").Some? ==>
                var assignments := Assignments(GetFieldBlock(config, "scope_override").value.items);
                scopeOverrides == ApplyOverrides(old(scopeOverrides), assignments, scopeNames)
                && reports == AllOverrideReports(assignments, scopeNames, partLoc)
    {
      reports := [];
      var block := GetFieldBlock(config, "scope_override");
      if block.None? {
        return;
      }
      var assignments := Assignments(block.value.items);
      var i := 0;
      while i < |assignments|
        invariant 0 <= i <= |assignments|
        invariant scopeOverrides == ApplyOverrides(old(scopeOverrides), assignments[..i], scopeNames)
        invariant reports == AllOverrideReports(assignments[..i], scopeNames, partLoc)
      {
        OverridesStep(old(scopeOverrides), assignments, i, scopeNames, partLoc);
        var (key, token) := assignments[i];
        var scopes, warned := ParseOverride(token, scopeNames, partLoc);
        scopeOverrides := scopeOverrides[key.text := scopes];
        reports := reports + warned;
        i := i + 1;
      }
      assert assignments[..i] == assignments;
    }
  }
}
