/** Scripted triggers (src/data/scripted_triggers.rs): the registry of
  * `common/scripted_triggers`, and each trigger's memo of the contexts its
  * macro expansions produced, keyed by call site. */
module ScriptedTriggers {
  import opened Base
  import opened Report
  import opened Tree
  import opened ScopeContexts

  /** The cache of one trigger: a context per macro call site. */
  type TriggerCache = map<Loc, ScopeContext>

  /** The collaborators this file calls but does not define. */
  datatype TriggerEnv = TriggerEnv(
    /** `Block::expand_macro`: the body with the arguments substituted, if they fit. */
    expand: (Block, seq<(string, Token)>) -> Option<Block>,
    /** `validate_normal_trigger`: the context it leaves behind, and this
      * trigger's cache as nested expansions left it. */
    validateBody: (Block, ScopeContext, TriggerCache, bool) -> (ScopeContext, TriggerCache),
    /** `their.expect_compatibility(ours)`: the caller's context afterwards. */
    compat: (ScopeContext, ScopeContext) -> ScopeContext)

  /** The context cached while a call site's expansion is being validated. */
  function Placeholder(key: Token): ScopeContext { NewUnrooted(AllScopes, key) }

  /** The cache that body validation sees during the expansion at `loc`. */
  function CacheDuringValidation(cache: TriggerCache, loc: Loc, key: Token): TriggerCache
  {
    cache[loc := Placeholder(key)]
  }

  /** `cached_compat` on values: a hit runs only the compatibility check. */
  function CachedCompat(cache: TriggerCache, loc: Loc, theirs: ScopeContext, env: TriggerEnv)
    : (r: (bool, ScopeContext))
    ensures r.0 <==> loc in cache
    ensures r.0 ==> r.1 == env.compat(theirs, cache[loc])
    ensures !r.0 ==> r.1 == theirs
  {
    if loc in cache then (true, env.compat(theirs, cache[loc])) else (false, theirs)
  }

  datatype MacroOutcome = MacroOutcome(cache: TriggerCache, theirs: ScopeContext, expanded: bool)

  /** `validate_macro_expansion` on values. The call site is the location of
    * the first argument's value. */
  function MacroExpansion(cache: TriggerCache, key: Token, block: Block, args: seq<(string, Token)>,
                          theirs: ScopeContext, tooltipped: bool, env: TriggerEnv): MacroOutcome
    requires |args| > 0
  {
    var loc := args[0].1.loc;
    if loc in cache then MacroOutcome(cache, env.compat(theirs, cache[loc]), false)
    else match env.expand(block, args)
      case None => MacroOutcome(cache, theirs, false)
      case Some(body) =>
        var validated := env.validateBody(body, Placeholder(key), CacheDuringValidation(cache, loc, key), tooltipped);
        MacroOutcome(validated.1[loc := validated.0], env.compat(theirs, validated.0), true)
  }

  /** A hit changes nothing but the caller's context, and that only by the
    * compatibility check against the cached context. */
  lemma HitOnlyChecksCompatibility(cache: TriggerCache, key: Token, block: Block, args: seq<(string, Token)>,
                                   theirs: ScopeContext, tooltipped: bool, env: TriggerEnv)
    requires |args| > 0 && args[0].1.loc in cache
    ensures var out := MacroExpansion(cache, key, block, args, theirs, tooltipped, env);
      !out.expanded && out.cache == cache && out.theirs == env.compat(theirs, cache[args[0].1.loc])
  {
  }

  /** When the macro does not expand, nothing changes. */
  lemma FailedExpansionKeepsCache(cache: TriggerCache, key: Token, block: Block, args: seq<(string, Token)>,
                                  theirs: ScopeContext, tooltipped: bool, env: TriggerEnv)
    requires |args| > 0 && args[0].1.loc !in cache && env.expand(block, args).None?
    ensures var out := MacroExpansion(cache, key, block, args, theirs, tooltipped, env);
      !out.expanded && out.cache == cache && out.theirs == theirs
  {
  }

  /** On a miss, the body is validated against a cache in which the call site
    * already holds the placeholder, so a recursive expansion at the same
    * site is a hit; afterwards the site holds the validated context. */
  lemma MissCachesPlaceholderThenResult(cache: TriggerCache, key: Token, block: Block,
                                        args: seq<(string, Token)>, theirs: ScopeContext,
                                        tooltipped: bool, env: TriggerEnv)
    requires |args| > 0 && args[0].1.loc !in cache && env.expand(block, args).Some?
    ensures var loc := args[0].1.loc;
      var during := CacheDuringValidation(cache, loc, key);
      var validated := env.validateBody(env.expand(block, args).value, Placeholder(key), during, tooltipped);
      var out := MacroExpansion(cache, key, block, args, theirs, tooltipped, env);
      && CachedCompat(during, loc, theirs, env).0
      && during[loc] == Placeholder(key)
      && out.expanded
      && loc in out.cache && out.cache[loc] == validated.0
      && out.theirs == env.compat(theirs, validated.0)
  {
  }

  /** Once a call site has expanded (or was already cached), a second
    * expansion there never expands again, whatever its arguments. */
  lemma SecondCallDoesNotExpand(cache: TriggerCache, key: Token, block: Block,
                                args: seq<(string, Token)>, args2: seq<(string, Token)>,
                                theirs: ScopeContext, theirs2: ScopeContext, tooltipped: bool,
                                tooltipped2: bool, env: TriggerEnv)
    requires |args| > 0 && |args2| > 0 && args2[0].1.loc == args[0].1.loc
    ensures var out := MacroExpansion(cache, key, block, args, theirs, tooltipped, env);
      out.expanded || args[0].1.loc in cache ==>
        !MacroExpansion(out.cache, key, block, args2, theirs2, tooltipped2, env).expanded
  {
  }

  class Trigger {
    const key: Token
    const block: Block
    /** The context of the top-level validation, once it has run. */
    var sc: Option<ScopeContext>
    var cache: TriggerCache

    constructor (key: Token, block: Block)
      ensures this.key == key && this.block == block && sc == None && cache == map[]
    {
      this.key := key;
      this.block := block;
      sc := None;
      cache := map[];
    }

    /** `validate`: only a block that is not a macro is validated on its own,
      * from all scopes, and the resulting context is kept. */
    method Validate(env: TriggerEnv)
      modifies this`sc, this`cache
      ensures block.source.None? ==>
                var r := env.validateBody(block, NewUnrooted(AllScopes, key), old(cache), false);
                sc == Some(r.0) && cache == r.1
      ensures block.source.Some? ==> sc == old(sc) && cache == old(cache)
    {
      if block.source.None? {
        var r := env.validateBody(block, NewUnrooted(AllScopes, key), cache, false);
        sc := Some(r.0);
        cache := r.1;
      }
    }

    /** `validate_scope_compatibility`: a no-op until `validate` has stored a context. */
    method ValidateScopeCompatibility(theirs: ScopeContext, env: TriggerEnv) returns (r: ScopeContext)
      ensures sc.None? ==> r == theirs
      ensures sc.Some? ==> r == env.compat(theirs, sc.value)
    {
      r := theirs;
      if sc.Some? {
        r := env.compat(theirs, sc.value);
      }
    }

    method CachedCompatAt(loc: Loc, theirs: ScopeContext, env: TriggerEnv) returns (hit: bool, r: ScopeContext)
      ensures (hit, r) == CachedCompat(cache, loc, theirs, env)
      ensures hit <==> loc in cache
    {
      if loc in cache {
        r := env.compat(theirs, cache[loc]);
        hit := true;
      } else {
        r := theirs;
        hit := false;
      }
    }

    /** `validate_macro_expansion`: the first argument locates the call; the
      * placeholder goes in before the body is validated, the result after. */
    method ValidateMacroExpansion(args: seq<(string, Token)>, theirs: ScopeContext, tooltipped: bool,
                                  env: TriggerEnv)
      returns (r: ScopeContext, expanded: bool)
      requires |args| > 0
      modifies this`cache
      ensures MacroOutcome(cache, r, expanded)
           == MacroExpansion(old(cache), key, block, args, theirs, tooltipped, env)
    {
      var loc := args[0].1.loc;
      var hit;
      hit, r := CachedCompatAt(loc, theirs, env);
      expanded := false;
      if !hit {
        var body := env.expand(block, args);
        if body.Some? {
          var ours := NewUnrooted(AllScopes, key);
          cache := cache[loc := ours];
          var validated := env.validateBody(body.value, ours, cache, tooltipped);
          ours := validated.0;
          cache := validated.1;
          r := env.compat(r, ours);
          cache := cache[loc := ours];
          expanded := true;
        }
      }
    }
  }

  class Triggers {
    var triggers: map<string, Trigger>

    constructor ()
      ensures triggers == map[]
    {
      triggers := map[];
    }

    /** `load_item`: the new trigger always replaces the stored one; it is a
      * duplicate only if the stored one comes from a kind of file at least
      * as late in the load order. */
    method LoadItem(key: Token, block: Block) returns (reports: seq<LogReport>)
      modifies this
      ensures triggers.Keys == old(triggers.Keys) + {key.text}
      ensures fresh(triggers[key.text])
      ensures triggers[key.text].key == key && triggers[key.text].block == block
      ensures triggers[key.text].sc == None && triggers[key.text].cache == map[]
      ensures forall k :: k in old(triggers) && k != key.text ==> triggers[k] == old(triggers[k])
      ensures reports == (if key.text in old(triggers) && KindAtLeast(old(triggers[key.text]).key.loc.kind, key.loc.kind)
                          then [DupError(key, old(triggers[key.text]).key, "scripted trigger")] else [])
    {
      reports := [];
      if key.text in triggers {
        var other := triggers[key.text];
        if KindAtLeast(other.key.loc.kind, key.loc.kind) {
          reports := [DupError(key, other.key, "scripted trigger")];
        }
      }
      var t := new Trigger(key, block);
      triggers := triggers[key.text := t];
    }

    predicate Exists(key: string) reads this { key in triggers }

    function Get(key: string): (r: Option<Trigger>)
      reads this
      ensures r.Some? <==> Exists(key)
      ensures r.Some? ==> r.value == triggers[key]
    {
      if key in triggers then Some(triggers[key]) else None
    }
  }
}
