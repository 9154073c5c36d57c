/** Data functions of localization and gui code (src/tables/datafunctions.rs):
  * the argument lists, the lookups of promotes and functions in tables
  * sorted by name, the case-insensitive search for an alternative
  * spelling, and the scope each datatype stands for. The tables themselves
  * are generated files that are not part of this model; they are
  * parameters here. */
module DataFunctions {
  import opened Base
  import ScopeContexts

  /** The datatypes that have a scope, `Unknown`, and every other datatype
    * by name. */
  datatype Datatype =
    | Unknown
    | Character | Title | Activity | Secret | Province | Scheme | Combat | CombatSide
    | Faith | GreatHolyWar | Religion | War | Story | CasusBelliItem | Dynasty | DynastyHouse
    | Faction | Culture | Army | HolyOrder | ActiveCouncilTask | MercenaryCompany | Artifact
    | Inspiration | Struggle | CharacterMemory | TravelPlan | Accolade | AccoladeType
    | Decision | FaithDoctrine | ActivityType | CultureTradition | CulturePillar | GovernmentType
    | Trait | VassalContract | ObligationLevel
    | Other(name: string)

  /** An argument is a datatype or an item kind (by name). */
  datatype Arg = DType(dtype: Datatype) | IType(item: string)

  datatype Args =
    | NoArgs
    | Arg1(a1: Arg)
    | Arg2(a1: Arg, a2: Arg)
    | Arg3(a1: Arg, a2: Arg, a3: Arg)
    | Arg4(a1: Arg, a2: Arg, a3: Arg, a4: Arg)
    | Arg5(a1: Arg, a2: Arg, a3: Arg, a4: Arg, a5: Arg)

  /** The arguments in order. */
  function ArgList(args: Args): seq<Arg>
  {
    match args
    case NoArgs => []
    case Arg1(a) => [a]
    case Arg2(a, b) => [a, b]
    case Arg3(a, b, c) => [a, b, c]
    case Arg4(a, b, c, d) => [a, b, c, d]
    case Arg5(a, b, c, d, e) => [a, b, c, d, e]
  }

  /** `Args::nargs`: how many arguments the variant carries. */
  function Nargs(args: Args): (n: nat)
    ensures n <= 5
    ensures n == |ArgList(args)|
  {
    match args
    case NoArgs => 0
    case Arg1(_) => 1
    case Arg2(_, _) => 2
    case Arg3(_, _, _) => 3
    case Arg4(_, _, _, _) => 4
    case Arg5(_, _, _, _, _) => 5
  }

  datatype LookupResult = NotFound | WrongType | Found(args: Args, rtype: Datatype)

  /** An entry of the global promote or function table. */
  datatype GlobalEntry = GlobalEntry(name: string, args: Args, rtype: Datatype)

  /** An entry of the promote or function table: applicable to `intype`. */
  datatype Entry = Entry(name: string, intype: Datatype, args: Args, rtype: Datatype)

  predicate SortedNames(names: seq<string>)
  {
    forall i, j :: 0 <= i < j < |names| ==> StrLe(names[i], names[j])
  }

  function GlobalNames(t: seq<GlobalEntry>): (r: seq<string>)
    ensures |r| == |t| && forall i :: 0 <= i < |t| ==> r[i] == t[i].name
  {
    seq(|t|, i requires 0 <= i < |t| => t[i].name)
  }

  function EntryNames(t: seq<Entry>): (r: seq<string>)
    ensures |r| == |t| && forall i :: 0 <= i < |t| ==> r[i] == t[i].name
  {
    seq(|t|, i requires 0 <= i < |t| => t[i].name)
  }

  lemma StrLeLt(a: string, b: string, c: string)
    requires StrLe(a, b) && StrLt(b, c)
    ensures StrLt(a, c)
  {
    if a != b {
      StrLtTransitive(a, b, c);
    }
  }

  /** `partition_point(|name| name < key)` on a name-sorted table: the
    * first position whose name is not before `key`. */
  method PartitionPoint(names: seq<string>, key: string) returns (p: nat)
    requires SortedNames(names)
    ensures p <= |names|
    ensures forall j :: 0 <= j < p ==> StrLt(names[j], key)
    ensures forall j :: p <= j < |names| ==> !StrLt(names[j], key)
  {
    var lo, hi := 0, |names|;
    while lo < hi
      invariant 0 <= lo <= hi <= |names|
      invariant forall j :: 0 <= j < lo ==> StrLt(names[j], key)
      invariant forall j :: hi <= j < |names| ==> !StrLt(names[j], key)
      decreases hi - lo
    {
      var mid := lo + (hi - lo) / 2;
      if StrLt(names[mid], key) {
        forall j | 0 <= j <= mid
          ensures StrLt(names[j], key)
        {
          if j < mid {
            StrLeLt(names[j], names[mid], key);
          }
        }
        lo := mid + 1;
      } else {
        forall j | mid <= j < |names|
          ensures !StrLt(names[j], key)
        {
          if j > mid && StrLt(names[j], key) {
            StrLeLt(names[mid], names[j], key);
          }
        }
        hi := mid;
      }
    }
    p := lo;
  }

  /** `binary_search_by_key` on a name-sorted table: the position of an
    * entry with that name, if there is one. */
  method BinarySearch(names: seq<string>, key: string) returns (r: Option<nat>)
    requires SortedNames(names)
    ensures r.Some? ==> r.value < |names| && names[r.value] == key
    ensures r.None? ==> key !in names
  {
    var p := PartitionPoint(names, key);
    if p < |names| && names[p] == key {
      return Some(p);
    }
    if key in names {
      var j :| 0 <= j < |names| && names[j] == key;
      StrLtIrreflexive(key);
      if j >= p {
        StrLtTotal(names[p], key);
        assert StrLt(key, names[p]);
        StrLeLt(names[p], names[j], key) by {
          if StrLt(names[p], key) {}
        }
      }
    }
    return None;
  }

  /** `lookup_global_promote`: an entry of the table with that name if
    * there is one, else a datatype name used directly, with no arguments. */
  method LookupGlobalPromote(name: string, table: seq<GlobalEntry>, parseDatatype: string -> Option<Datatype>)
    returns (r: Option<(Args, Datatype)>)
    requires SortedNames(GlobalNames(table))
    ensures (exists i :: 0 <= i < |table| && table[i].name == name) ==>
              exists i :: 0 <= i < |table| && table[i].name == name && r == Some((table[i].args, table[i].rtype))
    ensures (forall i :: 0 <= i < |table| ==> table[i].name != name) ==>
              r == (match parseDatatype(name) case Some(d) => Some((NoArgs, d)) case None => None)
  {
    var names := GlobalNames(table);
    var idx := BinarySearch(names, name);
    if idx.Some? {
      return Some((table[idx.value].args, table[idx.value].rtype));
    }
    assert forall i :: 0 <= i < |table| ==> table[i].name != name by {
      forall i | 0 <= i < |table| ensures table[i].name != name { assert names[i] == table[i].name; }
    }
    match parseDatatype(name) {
      case Some(d) => return Some((NoArgs, d));
      case None => return None;
    }
  }

  /** `lookup_global_function`: as for promotes, with no fallback. */
  method LookupGlobalFunction(name: string, table: seq<GlobalEntry>) returns (r: Option<(Args, Datatype)>)
    requires SortedNames(GlobalNames(table))
    ensures r.Some? <==> exists i :: 0 <= i < |table| && table[i].name == name
    ensures r.Some? ==> exists i :: 0 <= i < |table| && table[i].name == name && r.value == (table[i].args, table[i].rtype)
  {
    var names := GlobalNames(table);
    var idx := BinarySearch(names, name);
    if idx.Some? {
      return Some((table[idx.value].args, table[idx.value].rtype));
    }
    assert forall i :: 0 <= i < |table| ==> table[i].name != name by {
      forall i | 0 <= i < |table| ensures table[i].name != name { assert names[i] == table[i].name; }
    }
    return None;
  }

  // ------------------------------------- lookup_promote_or_function

  /** The entries named `name`, in table order. */
  function Matches(t: seq<Entry>, name: string): seq<Entry>
  {
    if |t| == 0 then []
    else (if t[0].name == name then [t[0]] else []) + Matches(t[1..], name)
  }

  /** Exactly the entries of `t` with that name. */
  lemma {:induction false} MatchesMeaning(t: seq<Entry>, name: string)
    ensures forall e :: e in Matches(t, name) ==> e.name == name && e in t
    ensures |Matches(t, name)| == 0 <==> forall i :: 0 <= i < |t| ==> t[i].name != name
  {
    if |t| > 0 {
      MatchesMeaning(t[1..], name);
      assert forall i :: 1 <= i < |t| ==> t[i] == t[1..][i - 1];
    }
  }

  /** The return type over all entries of one name, as the loop folds it:
    * the first one's, turned into `Unknown` as soon as one differs. */
  function Collapse(ms: seq<Entry>): Datatype
    requires |ms| > 0
  {
    if |ms| == 1 then ms[0].rtype
    else
      var c := Collapse(ms[..|ms| - 1]);
      if Some(ms[|ms| - 1].rtype) != Some(c) then Unknown else c
  }

  /** The fold is the first entry's return type if they all agree, else
    * `Unknown`. */
  lemma {:induction false} CollapseMeaning(ms: seq<Entry>)
    requires |ms| > 0
    ensures Collapse(ms) == (if forall j :: 0 <= j < |ms| ==> ms[j].rtype == ms[0].rtype then ms[0].rtype else Unknown)
  {
    if |ms| > 1 {
      var init := ms[..|ms| - 1];
      CollapseMeaning(init);
      assert forall j :: 0 <= j < |init| ==> init[j] == ms[j];
      if !(forall j :: 0 <= j < |init| ==> init[j].rtype == init[0].rtype) {
        var j :| 0 <= j < |init| && init[j].rtype != init[0].rtype;
        assert ms[j].rtype != ms[0].rtype;
      }
    }
  }

  /** The first entry applicable to `ltype`. */
  function FirstWithInput(ms: seq<Entry>, ltype: Datatype): Option<Entry>
  {
    if |ms| == 0 then None
    else if ms[0].intype == ltype then Some(ms[0])
    else FirstWithInput(ms[1..], ltype)
  }

  /** The first applicable entry is one of them, and there is none only if
    * no entry is applicable. */
  lemma {:induction false} FirstWithInputMeaning(ms: seq<Entry>, ltype: Datatype)
    ensures var r := FirstWithInput(ms, ltype);
      (r.Some? ==> r.value in ms && r.value.intype == ltype)
      && (r.None? <==> forall j :: 0 <= j < |ms| ==> ms[j].intype != ltype)
  {
    if |ms| > 0 && ms[0].intype != ltype {
      FirstWithInputMeaning(ms[1..], ltype);
      assert forall j :: 1 <= j < |ms| ==> ms[j] == ms[1..][j - 1];
    }
  }

  /** The answer, given the entries of that name in table order. */
  function Decide(ms: seq<Entry>, ltype: Datatype): LookupResult
  {
    if |ms| == 0 then NotFound
    else if ltype == Unknown then Found(ms[0].args, Collapse(ms))
    else match FirstWithInput(ms, ltype)
      case Some(e) => Found(e.args, e.rtype)
      case None => WrongType
  }

  /** What `lookup_promote_or_function` answers, in terms of the entries of
    * that name. */
  function PromoteOrFunction(name: string, ltype: Datatype, t: seq<Entry>): LookupResult
  {
    Decide(Matches(t, name), ltype)
  }

  /** NotFound exactly when no entry has the name; for a known input type,
    * the first matching entry's result or WrongType; for Unknown, the first
    * entry's arguments and the agreed return type or Unknown. */
  lemma PromoteOrFunctionMeaning(name: string, ltype: Datatype, t: seq<Entry>)
    ensures PromoteOrFunction(name, ltype, t).NotFound? <==> forall i :: 0 <= i < |t| ==> t[i].name != name
    ensures PromoteOrFunction(name, ltype, t).WrongType? <==>
      ltype != Unknown && (exists i :: 0 <= i < |t| && t[i].name == name)
      && forall i :: 0 <= i < |t| && t[i].name == name ==> t[i].intype != ltype
    ensures ltype == Unknown && |Matches(t, name)| > 0 ==>
      var ms := Matches(t, name);
      PromoteOrFunction(name, ltype, t) ==
        Found(ms[0].args, if forall j :: 0 <= j < |ms| ==> ms[j].rtype == ms[0].rtype then ms[0].rtype else Unknown)
  {
    var ms := Matches(t, name);
    MatchesMeaning(t, name);
    MatchesComplete(t, name);
    FirstWithInputMeaning(ms, ltype);
    if |ms| > 0 {
      CollapseMeaning(ms);
    }
  }

  lemma {:induction false} MatchesComplete(t: seq<Entry>, name: string)
    ensures forall i :: 0 <= i < |t| && t[i].name == name ==> t[i] in Matches(t, name)
  {
    if |t| > 0 {
      MatchesComplete(t[1..], name);
      forall i | 1 <= i < |t| && t[i].name == name
        ensures t[i] in Matches(t, name)
      {
        assert t[i] == t[1..][i - 1];
      }
    }
  }

  lemma {:induction false} MatchesSkipBefore(t: seq<Entry>, name: string, p: nat)
    requires p <= |t|
    requires forall j :: 0 <= j < p ==> t[j].name != name
    ensures Matches(t, name) == Matches(t[p..], name)
  {
    if p > 0 {
      assert t[1..][p - 1..] == t[p..];
      MatchesSkipBefore(t[1..], name, p - 1);
    }
  }

  lemma FirstWithInputSkip(a: seq<Entry>, b: seq<Entry>, ltype: Datatype)
    requires forall j :: 0 <= j < |a| ==> a[j].intype != ltype
    ensures FirstWithInput(a + b, ltype) == FirstWithInput(b, ltype)
    decreases |a|
  {
    if |a| == 0 {
      assert a + b == b;
    } else {
      assert (a + b)[0] == a[0];
      assert (a + b)[1..] == a[1..] + b;
      FirstWithInputSkip(a[1..], b, ltype);
    }
  }

  /** In a name-sorted table, once a name after the partition point
    * differs from `name`, no later entry has `name`. */
  lemma RunEnds(t: seq<Entry>, name: string, i: nat)
    requires SortedNames(EntryNames(t))
    requires i < |t| && t[i].name != name && !StrLt(t[i].name, name)
    ensures Matches(t[i..], name) == []
  {
    var names := EntryNames(t);
    forall j | 0 <= j < |t[i..]|
      ensures t[i..][j].name != name
    {
      assert names[i + j] == t[i + j].name;
    }
    MatchesMeaning(t[i..], name);
  }

  lemma CollapseSnoc(ms: seq<Entry>, e: Entry)
    requires |ms| > 0
    ensures Collapse(ms + [e]) == if Some(e.rtype) != Some(Collapse(ms)) then Unknown else Collapse(ms)
  {
    assert (ms + [e])[..|ms|] == ms;
  }

  lemma MatchesStep(u: seq<Entry>, name: string, k: nat)
    requires k < |u| && u[k].name == name
    requires Matches(u, name) == u[..k] + Matches(u[k..], name)
    ensures Matches(u, name) == u[..k + 1] + Matches(u[k + 1..], name)
  {
    var v := u[k..];
    assert v[0] == u[k] && v[1..] == u[k + 1..];
    assert Matches(v, name) == [u[k]] + Matches(u[k + 1..], name);
    assert u[..k + 1] == u[..k] + [u[k]];
  }

  /** The first applicable entry of the run ends the scan with its result. */
  lemma DecideFoundAt(u: seq<Entry>, name: string, k: nat, ltype: Datatype)
    requires k < |u| && u[k].name == name && u[k].intype == ltype && ltype != Unknown
    requires forall j :: 0 <= j < k ==> u[j].intype != ltype
    requires Matches(u, name) == u[..k + 1] + Matches(u[k + 1..], name)
    ensures Decide(Matches(u, name), ltype) == Found(u[k].args, u[k].rtype)
  {
    var rest := [u[k]] + Matches(u[k + 1..], name);
    FirstWithInputSkip(u[..k], rest, ltype);
    assert u[..k + 1] + Matches(u[k + 1..], name) == u[..k] + rest;
    assert rest[0] == u[k];
  }

  /** A run scanned to its end decides by how long it is and what it holds. */
  lemma DecideRun(run: seq<Entry>, ltype: Datatype)
    ensures |run| == 0 ==> Decide(run, ltype) == NotFound
    ensures |run| > 0 && ltype == Unknown ==> Decide(run, ltype) == Found(run[0].args, Collapse(run))
    ensures |run| > 0 && ltype != Unknown && (forall j :: 0 <= j < |run| ==> run[j].intype != ltype) ==>
      Decide(run, ltype) == WrongType
  {
    FirstWithInputMeaning(run, ltype);
  }

  /** What the scan knows after the first `k` entries of `u`, all of
    * that name: whether any was found, the first one's arguments and the
    * folded return type (for an unknown input type), and that none of them
    * applies (for a known one). */
  ghost predicate ScanState(u: seq<Entry>, name: string, ltype: Datatype, k: nat,
                            foundAny: bool, possibleArgs: Option<Args>, possibleRtype: Option<Datatype>)
  {
    && k <= |u|
    && (forall j :: 0 <= j < k ==> u[j].name == name)
    && Matches(u, name) == u[..k] + Matches(u[k..], name)
    && (foundAny <==> k > 0)
    && (ltype == Unknown && k > 0 ==> possibleArgs == Some(u[0].args) && possibleRtype == Some(Collapse(u[..k])))
    && (ltype == Unknown && k == 0 ==> possibleRtype.None?)
    && (ltype != Unknown ==> forall j :: 0 <= j < k ==> u[j].intype != ltype)
  }

  /** One entry of the loop for an unknown input type: the first entry sets
    * both, a later one with another return type turns it into Unknown. */
  function Accumulate(possibleArgs: Option<Args>, possibleRtype: Option<Datatype>, e: Entry)
    : (Option<Args>, Option<Datatype>)
  {
    if possibleRtype.None? then (Some(e.args), Some(e.rtype))
    else if possibleRtype != Some(e.rtype) then (possibleArgs, Some(Unknown))
    else (possibleArgs, possibleRtype)
  }

  lemma ScanAdvance(u: seq<Entry>, name: string, ltype: Datatype, k: nat,
                    foundAny: bool, possibleArgs: Option<Args>, possibleRtype: Option<Datatype>)
    requires ScanState(u, name, ltype, k, foundAny, possibleArgs, possibleRtype)
    requires k < |u| && u[k].name == name && (ltype == Unknown || u[k].intype != ltype)
    ensures var next := if ltype == Unknown then Accumulate(possibleArgs, possibleRtype, u[k])
                        else (possibleArgs, possibleRtype);
      ScanState(u, name, ltype, k + 1, true, next.0, next.1)
  {
    MatchesStep(u, name, k);
    if ltype == Unknown && k > 0 {
      CollapseSnoc(u[..k], u[k]);
      assert u[..k] + [u[k]] == u[..k + 1];
    }
  }

  lemma ScanFound(u: seq<Entry>, name: string, ltype: Datatype, k: nat,
                  foundAny: bool, possibleArgs: Option<Args>, possibleRtype: Option<Datatype>)
    requires ScanState(u, name, ltype, k, foundAny, possibleArgs, possibleRtype)
    requires k < |u| && u[k].name == name && u[k].intype == ltype && ltype != Unknown
    ensures Decide(Matches(u, name), ltype) == Found(u[k].args, u[k].rtype)
  {
    MatchesStep(u, name, k);
    DecideFoundAt(u, name, k, ltype);
  }

  lemma ScanDone(u: seq<Entry>, name: string, ltype: Datatype, k: nat,
                 foundAny: bool, possibleArgs: Option<Args>, possibleRtype: Option<Datatype>)
    requires ScanState(u, name, ltype, k, foundAny, possibleArgs, possibleRtype)
    requires SortedNames(EntryNames(u))
    requires forall j :: 0 <= j < |u| ==> !StrLt(u[j].name, name)
    requires k == |u| || u[k].name != name
    ensures Decide(Matches(u, name), ltype) ==
      if !foundAny then NotFound
      else if ltype == Unknown then Found(possibleArgs.value, possibleRtype.value)
      else WrongType
  {
    if k == |u| {
      assert u[k..] == [];
    } else {
      RunEnds(u, name, k);
    }
    assert Matches(u, name) == u[..k];
    DecideRun(u[..k], ltype);
  }

  /** The scan after the partition point: `u` is the table from there on,
    * so its entries of that name come first. */
  method ScanRun(name: string, ltype: Datatype, u: seq<Entry>) returns (r: LookupResult)
    requires SortedNames(EntryNames(u))
    requires forall j :: 0 <= j < |u| ==> !StrLt(u[j].name, name)
    ensures r == Decide(Matches(u, name), ltype)
  {
    var foundAny := false;
    var possibleArgs: Option<Args> := None;
    var possibleRtype: Option<Datatype> := None;
    var k := 0;
    assert u[..0] + Matches(u[0..], name) == Matches(u, name) by { assert u[0..] == u; }
    while k < |u| && u[k].name == name
      invariant ScanState(u, name, ltype, k, foundAny, possibleArgs, possibleRtype)
      decreases |u| - k
    {
      if ltype == Unknown {
        ScanAdvance(u, name, ltype, k, foundAny, possibleArgs, possibleRtype);
        if possibleRtype.None? {
          possibleArgs := Some(u[k].args);
          possibleRtype := Some(u[k].rtype);
        } else if possibleRtype != Some(u[k].rtype) {
          possibleRtype := Some(Unknown);
        }
      } else if ltype == u[k].intype {
        ScanFound(u, name, ltype, k, foundAny, possibleArgs, possibleRtype);
        return Found(u[k].args, u[k].rtype);
      } else {
        ScanAdvance(u, name, ltype, k, foundAny, possibleArgs, possibleRtype);
      }
      foundAny := true;
      k := k + 1;
    }
    ScanDone(u, name, ltype, k, foundAny, possibleArgs, possibleRtype);
    if foundAny {
      if ltype == Unknown {
        r := Found(possibleArgs.value, possibleRtype.value);
      } else {
        r := WrongType;
      }
    } else {
      r := NotFound;
    }
  }

  /** `lookup_promote_or_function`: find the first entry of that name by
    * partition point, then scan the run of entries of that name. */
  method LookupPromoteOrFunction(name: string, ltype: Datatype, t: seq<Entry>) returns (r: LookupResult)
    requires SortedNames(EntryNames(t))
    ensures r == PromoteOrFunction(name, ltype, t)
  {
    var names := EntryNames(t);
    var start := PartitionPoint(names, name);
    forall j | 0 <= j < start ensures t[j].name != name {
      assert names[j] == t[j].name;
      StrLtIrreflexive(name);
    }
    MatchesSkipBefore(t, name, start);
    var u := t[start..];
    assert EntryNames(u) == names[start..];
    forall j | 0 <= j < |u| ensures !StrLt(u[j].name, name) {
      assert names[start + j] == u[j].name;
    }
    r := ScanRun(name, ltype, u);
  }

  // ---------------------------------------------------- lookup_alternative

  /** The first of `names` that is `lc` once lower-cased and not skipped. */
  function FirstCaseMatch(names: seq<string>, lc: string, skip: set<string>): (r: Option<string>)
    ensures r.Some? ==> r.value in names && Lower(r.value) == lc && r.value !in skip
    ensures r.None? <==> forall n :: n in names && n !in skip ==> Lower(n) != lc
  {
    if |names| == 0 then None
    else if names[0] !in skip && Lower(names[0]) == lc then Some(names[0])
    else
      var r := FirstCaseMatch(names[1..], lc, skip);
      assert forall n :: n in names ==> n == names[0] || n in names[1..];
      r
  }

  /** A linear search with early return, skipping the names in `skip`. */
  method FindCaseVariant(names: seq<string>, lc: string, skip: set<string>) returns (r: Option<string>)
    ensures r == FirstCaseMatch(names, lc, skip)
  {
    var i := 0;
    while i < |names|
      invariant 0 <= i <= |names|
      invariant FirstCaseMatch(names, lc, skip) == FirstCaseMatch(names[i..], lc, skip)
    {
      assert names[i..][1..] == names[i + 1..];
      if names[i] !in skip && Lower(names[i]) == lc {
        return Some(names[i]);
      }
      i := i + 1;
    }
    return None;
  }

  /** What `lookup_alternative` suggests: for the first element of a chain
    * a global promote, or (when it is also the last) a global function that
    * is not a game concept; otherwise a promote, or (when last) a
    * function; always one equal to the query ignoring case. */
  function Alternative(name: string, first: bool, last: bool,
                       gp: seq<GlobalEntry>, gf: seq<GlobalEntry>, p: seq<Entry>, f: seq<Entry>,
                       gameConcepts: set<string>): Option<string>
  {
    var lc := Lower(name);
    if first then
      match FirstCaseMatch(GlobalNames(gp), lc, {})
      case Some(n) => Some(n)
      case None => if last then FirstCaseMatch(GlobalNames(gf), lc, gameConcepts) else None
    else
      match FirstCaseMatch(EntryNames(p), lc, {})
      case Some(n) => Some(n)
      case None => if last then FirstCaseMatch(EntryNames(f), lc, {}) else None
  }

  method LookupAlternative(name: string, first: bool, last: bool,
                           gp: seq<GlobalEntry>, gf: seq<GlobalEntry>, p: seq<Entry>, f: seq<Entry>,
                           gameConcepts: set<string>) returns (r: Option<string>)
    ensures r == Alternative(name, first, last, gp, gf, p, f, gameConcepts)
  {
    var lc := Lower(name);
    if first {
      r := FindCaseVariant(GlobalNames(gp), lc, {});
      if r.None? && last {
        r := FindCaseVariant(GlobalNames(gf), lc, gameConcepts);
      }
    } else {
      r := FindCaseVariant(EntryNames(p), lc, {});
      if r.None? && last {
        r := FindCaseVariant(EntryNames(f), lc, {});
      }
    }
  }

  /** A suggestion always equals the query ignoring case, is never a game
    * concept taken from the global functions, and functions are consulted
    * only for the last element. */
  lemma AlternativeMeaning(name: string, first: bool, last: bool,
                           gp: seq<GlobalEntry>, gf: seq<GlobalEntry>, p: seq<Entry>, f: seq<Entry>,
                           gameConcepts: set<string>)
    ensures var r := Alternative(name, first, last, gp, gf, p, f, gameConcepts);
      (r.Some? ==> Lower(r.value) == Lower(name))
      && (r.Some? && first ==> r.value in GlobalNames(gp) || (last && r.value in GlobalNames(gf) && r.value !in gameConcepts))
      && (r.Some? && !first ==> r.value in EntryNames(p) || (last && r.value in EntryNames(f)))
      && (!last && first ==> r == FirstCaseMatch(GlobalNames(gp), Lower(name), {}))
      && (!last && !first ==> r == FirstCaseMatch(EntryNames(p), Lower(name), {}))
  {
  }

  // ---------------------------------------------------- scope_from_datatype

  /** The one scope a datatype stands for, if any. */
  function ScopeOfDatatype(d: Datatype): Option<ScopeContexts.Scope>
  {
    match d
    case Character => Some(ScopeContexts.Character)
    case Title => Some(ScopeContexts.LandedTitle)
    case Activity => Some(ScopeContexts.Activity)
    case Secret => Some(ScopeContexts.Secret)
    case Province => Some(ScopeContexts.Province)
    case Scheme => Some(ScopeContexts.Scheme)
    case Combat => Some(ScopeContexts.Combat)
    case CombatSide => Some(ScopeContexts.CombatSide)
    case Faith => Some(ScopeContexts.Faith)
    case GreatHolyWar => Some(ScopeContexts.GreatHolyWar)
    case Religion => Some(ScopeContexts.Religion)
    case War => Some(ScopeContexts.War)
    case Story => Some(ScopeContexts.StoryCycle)
    case CasusBelliItem => Some(ScopeContexts.CasusBelli)
    case Dynasty => Some(ScopeContexts.Dynasty)
    case DynastyHouse => Some(ScopeContexts.DynastyHouse)
    case Faction => Some(ScopeContexts.Faction)
    case Culture => Some(ScopeContexts.Culture)
    case Army => Some(ScopeContexts.Army)
    case HolyOrder => Some(ScopeContexts.HolyOrder)
    case ActiveCouncilTask => Some(ScopeContexts.CouncilTask)
    case MercenaryCompany => Some(ScopeContexts.MercenaryCompany)
    case Artifact => Some(ScopeContexts.Artifact)
    case Inspiration => Some(ScopeContexts.Inspiration)
    case Struggle => Some(ScopeContexts.Struggle)
    case CharacterMemory => Some(ScopeContexts.CharacterMemory)
    case TravelPlan => Some(ScopeContexts.TravelPlan)
    case Accolade => Some(ScopeContexts.Accolade)
    case AccoladeType => Some(ScopeContexts.AccoladeType)
    case Decision => Some(ScopeContexts.Decision)
    case FaithDoctrine => Some(ScopeContexts.Doctrine)
    case ActivityType => Some(ScopeContexts.ActivityType)
    case CultureTradition => Some(ScopeContexts.CultureTradition)
    case CulturePillar => Some(ScopeContexts.CulturePillar)
    case GovernmentType => Some(ScopeContexts.GovernmentType)
    case Trait => Some(ScopeContexts.Trait)
    case VassalContract => Some(ScopeContexts.VassalContract)
    case ObligationLevel => Some(ScopeContexts.VassalObligationLevel)
    case _ => None
  }

  /** `scope_from_datatype`. */
  function ScopeFromDatatype(d: Datatype): (r: Option<ScopeContexts.Scopes>)
    ensures r.Some? ==> |r.value| == 1 && r.value <= ScopeContexts.NonPrimitive
    ensures d.Unknown? || d.Other? ==> r.None?
  {
    match ScopeOfDatatype(d)
    case Some(sc) => Some({sc})
    case None => None
  }

  /** The datatype a scope is read from, the other way round. */
  function DatatypeOfScope(s: ScopeContexts.Scope): Option<Datatype>
  {
    match s
    case Character => Some(Character)
    case LandedTitle => Some(Title)
    case Activity => Some(Activity)
    case Secret => Some(Secret)
    case Province => Some(Province)
    case Scheme => Some(Scheme)
    case Combat => Some(Combat)
    case CombatSide => Some(CombatSide)
    case Faith => Some(Faith)
    case GreatHolyWar => Some(GreatHolyWar)
    case Religion => Some(Religion)
    case War => Some(War)
    case StoryCycle => Some(Story)
    case CasusBelli => Some(CasusBelliItem)
    case Dynasty => Some(Dynasty)
    case DynastyHouse => Some(DynastyHouse)
    case Faction => Some(Faction)
    case Culture => Some(Culture)
    case Army => Some(Army)
    case HolyOrder => Some(HolyOrder)
    case CouncilTask => Some(ActiveCouncilTask)
    case MercenaryCompany => Some(MercenaryCompany)
    case Artifact => Some(Artifact)
    case Inspiration => Some(Inspiration)
    case Struggle => Some(Struggle)
    case CharacterMemory => Some(CharacterMemory)
    case TravelPlan => Some(TravelPlan)
    case Accolade => Some(Accolade)
    case AccoladeType => Some(AccoladeType)
    case Decision => Some(Decision)
    case Doctrine => Some(FaithDoctrine)
    case ActivityType => Some(ActivityType)
    case CultureTradition => Some(CultureTradition)
    case CulturePillar => Some(CulturePillar)
    case GovernmentType => Some(GovernmentType)
    case Trait => Some(Trait)
    case VassalContract => Some(VassalContract)
    case VassalObligationLevel => Some(ObligationLevel)
    case _ => None
  }

  // The round trip is proved a group of datatypes at a time; later
  // constructors of the two matches cost the solver more, so later groups
  // are smaller.

  lemma RoundTripGroup1(d: Datatype)
    requires d.Character? || d.Title? || d.Activity? || d.Secret?
      || d.Province? || d.Scheme? || d.Combat?
    ensures DatatypeOfScope(ScopeOfDatatype(d).value) == Some(d)
  {
  }

  lemma RoundTripGroup2(d: Datatype)
    requires d.CombatSide? || d.Faith? || d.GreatHolyWar? || d.Religion?
      || d.War? || d.Story?
    ensures DatatypeOfScope(ScopeOfDatatype(d).value) == Some(d)
  {
  }

  lemma RoundTripGroup3(d: Datatype)
    requires d.CasusBelliItem? || d.Dynasty? || d.DynastyHouse? || d.Faction?
      || d.Culture?
    ensures DatatypeOfScope(ScopeOfDatatype(d).value) == Some(d)
  {
  }

  lemma RoundTripGroup4(d: Datatype)
    requires d.Army? || d.HolyOrder? || d.ActiveCouncilTask? || d.MercenaryCompany?
    ensures DatatypeOfScope(ScopeOfDatatype(d).value) == Some(d)
  {
  }

  lemma RoundTripGroup5(d: Datatype)
    requires d.Artifact? || d.Inspiration? || d.Struggle? || d.CharacterMemory?
    ensures DatatypeOfScope(ScopeOfDatatype(d).value) == Some(d)
  {
  }

  lemma RoundTripGroup6(d: Datatype)
    requires d.TravelPlan? || d.Accolade? || d.AccoladeType?
    ensures DatatypeOfScope(ScopeOfDatatype(d).value) == Some(d)
  {
  }

  lemma RoundTripGroup7(d: Datatype)
    requires d.Decision? || d.FaithDoctrine? || d.ActivityType?
    ensures DatatypeOfScope(ScopeOfDatatype(d).value) == Some(d)
  {
  }

  lemma RoundTripGroup8(d: Datatype)
    requires d.CultureTradition? || d.CulturePillar? || d.GovernmentType?
    ensures DatatypeOfScope(ScopeOfDatatype(d).value) == Some(d)
  {
  }

  lemma RoundTripGroup9(d: Datatype)
    requires d.Trait? || d.VassalContract? || d.ObligationLevel?
    ensures DatatypeOfScope(ScopeOfDatatype(d).value) == Some(d)
  {
  }

  /** Each datatype with a scope is the one that scope is read from, so no
    * two datatypes stand for the same scope. */
  lemma ScopeFromDatatypeRoundTrip(d: Datatype)
    ensures ScopeOfDatatype(d).Some? ==> DatatypeOfScope(ScopeOfDatatype(d).value) == Some(d)
  {
    if d.Character? || d.Title? || d.Activity? || d.Secret?
        || d.Province? || d.Scheme? || d.Combat? {
      RoundTripGroup1(d);
    } else if d.CombatSide? || d.Faith? || d.GreatHolyWar? || d.Religion?
        || d.War? || d.Story? {
      RoundTripGroup2(d);
    } else if d.CasusBelliItem? || d.Dynasty? || d.DynastyHouse? || d.Faction?
        || d.Culture? {
      RoundTripGroup3(d);
    } else if d.Army? || d.HolyOrder? || d.ActiveCouncilTask? || d.MercenaryCompany? {
      RoundTripGroup4(d);
    } else if d.Artifact? || d.Inspiration? || d.Struggle? || d.CharacterMemory? {
      RoundTripGroup5(d);
    } else if d.TravelPlan? || d.Accolade? || d.AccoladeType? {
      RoundTripGroup6(d);
    } else if d.Decision? || d.FaithDoctrine? || d.ActivityType? {
      RoundTripGroup7(d);
    } else if d.CultureTradition? || d.CulturePillar? || d.GovernmentType? {
      RoundTripGroup8(d);
    } else if d.Trait? || d.VassalContract? || d.ObligationLevel? {
      RoundTripGroup9(d);
    }
  }
}
