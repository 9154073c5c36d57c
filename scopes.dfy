/** Scope types and the scope context the validators thread through script.
  * src/scopes.rs and src/context.rs are not part of this model: a set of
  * scopes stands for the `Scopes` bit set, and a context records only what
  * the modelled code sets on it (its root, whether it is rooted, the strict
  * and no-warn switches, and its named scopes). */
module ScopeContexts {
  import opened Base

  datatype Scope =
    | NoScope | Value | Bool | Flag
    | Character | LandedTitle | Activity | Secret | Province | Scheme | Combat | CombatSide
    | Faith | GreatHolyWar | Religion | War | StoryCycle | CasusBelli | Dynasty | DynastyHouse
    | Faction | Culture | Army | HolyOrder | CouncilTask | MercenaryCompany | Artifact
    | Inspiration | Struggle | CharacterMemory | TravelPlan | Accolade | AccoladeType
    | Decision | Doctrine | ActivityType | CultureTradition | CulturePillar | GovernmentType
    | Trait | VassalContract | VassalObligationLevel

  type Scopes = set<Scope>

  /** `Scopes::all()`. */
  const AllScopes: Scopes := {
    NoScope, Value, Bool, Flag,
    Character, LandedTitle, Activity, Secret, Province, Scheme, Combat, CombatSide,
    Faith, GreatHolyWar, Religion, War, StoryCycle, CasusBelli, Dynasty, DynastyHouse,
    Faction, Culture, Army, HolyOrder, CouncilTask, MercenaryCompany, Artifact,
    Inspiration, Struggle, CharacterMemory, TravelPlan, Accolade, AccoladeType,
    Decision, Doctrine, ActivityType, CultureTradition, CulturePillar, GovernmentType,
    Trait, VassalContract, VassalObligationLevel }

  /** `Scopes::non_primitive()`: every scope that is a game object. */
  const NonPrimitive: Scopes := AllScopes - {NoScope, Value, Bool, Flag}

  datatype ScopeContext = ScopeContext(
    root: Scopes, rooted: bool, key: Token, strict: bool, noWarn: bool,
    names: map<string, Scopes>)

  /** `ScopeContext::new_unrooted`: the root may be any of `scopes`. */
  function NewUnrooted(scopes: Scopes, key: Token): ScopeContext
  {
    ScopeContext(scopes, false, key, true, false, map[])
  }

  /** `ScopeContext::new`: the root is known. */
  function NewRooted(scopes: Scopes, key: Token): ScopeContext
  {
    ScopeContext(scopes, true, key, true, false, map[])
  }

  function SetStrictScopes(sc: ScopeContext, strict: bool): ScopeContext { sc.(strict := strict) }

  function SetNoWarn(sc: ScopeContext, noWarn: bool): ScopeContext { sc.(noWarn := noWarn) }

  /** `define_name`: names `scope:name` with the given scopes. */
  function DefineName(sc: ScopeContext, name: string, scopes: Scopes): ScopeContext
  {
    sc.(names := sc.names[name := scopes])
  }
}
