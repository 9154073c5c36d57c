/** The scope-effect table of the Imperator game (src/imperator/tables/effects.rs):
  * the hash map built from the table, where a repeated name keeps its later
  * entry, and the lookup by name ignoring ASCII case. */
module ImperatorEffects {
  import opened Base

  /** One table entry: the scopes the effect runs in, its name, and how its
    * value is validated. */
  datatype Entry<S, E> = Entry(from: S, name: string, effect: E)

  /** The map the table turns into: each name to its last entry. */
  function TableMap<S, E>(table: seq<Entry<S, E>>): map<string, (S, E)>
  {
    if |table| == 0 then map[]
    else
      var e := table[|table| - 1];
      TableMap(table[..|table| - 1])[e.name := (e.from, e.effect)]
  }

  /** The map's names are exactly the table's names. */
  lemma {:induction false} TableMapKeys<S, E>(table: seq<Entry<S, E>>, name: string)
    ensures name in TableMap(table) <==> exists i :: 0 <= i < |table| && table[i].name == name
  {
    if |table| > 0 {
      var init := table[..|table| - 1];
      TableMapKeys(init, name);
      assert forall i :: 0 <= i < |init| ==> init[i] == table[i];
    }
  }

  /** A name maps to its last entry in the table. */
  lemma {:induction false} TableMapLastWins<S, E>(table: seq<Entry<S, E>>, i: nat)
    requires i < |table| && forall j :: i < j < |table| ==> table[j].name != table[i].name
    ensures var m := TableMap(table);
      table[i].name in m && m[table[i].name] == (table[i].from, table[i].effect)
  {
    if i < |table| - 1 {
      var init := table[..|table| - 1];
      assert forall j :: i < j < |init| ==> init[j] == table[j];
      TableMapLastWins(init, i);
    }
  }

  /** The loop that fills `SCOPE_EFFECT_MAP`. */
  method BuildScopeEffectMap<S, E>(table: seq<Entry<S, E>>) returns (hash: map<string, (S, E)>)
    ensures hash == TableMap(table)
  {
    hash := map[];
    for i := 0 to |table|
      invariant hash == TableMap(table[..i])
    {
      assert table[..i + 1][..i] == table[..i];
      hash := hash[table[i].name := (table[i].from, table[i].effect)];
    }
    assert table[..|table|] == table;
  }

  /** `scope_effect`: the entry of the name lower-cased. */
  function ScopeEffect<S, E>(name: Token, hash: map<string, (S, E)>): Option<(S, E)>
  {
    var lc := Lower(name.text);
    if lc in hash then Some(hash[lc]) else None
  }

  /** The lookup ignores ASCII case, finds every name of a lower-case
    * table, and gives nothing for a name the table lacks. */
  lemma ScopeEffectMeaning<S, E>(table: seq<Entry<S, E>>, name: Token, other: Token)
    ensures Lower(name.text) == Lower(other.text) ==>
      ScopeEffect(name, TableMap(table)) == ScopeEffect(other, TableMap(table))
    ensures ScopeEffect(name, TableMap(table)).Some? <==>
      exists i :: 0 <= i < |table| && table[i].name == Lower(name.text)
  {
    TableMapKeys(table, Lower(name.text));
  }

  /** Lines 48 to 51 of the table, with the entry written twice. */
  const Excerpt: seq<Entry<string, string>> := [
    Entry("Character", "add_holding", "ScopeOrItem(Province, Province)"),
    Entry("Character", "add_loyal_veterans", "ScriptValue"),
    Entry("Character", "add_loyal_veterans", "ScriptValue"),
    Entry("Character", "add_loyalty", "Item(Loyalty)")]

  /** The repeated `add_loyal_veterans` gives one map entry: four table
    * rows, three names; upper case finds it too. */
  lemma RepeatedEntry()
    ensures TableMap(Excerpt).Keys == {"add_holding", "add_loyal_veterans", "add_loyalty"}
    ensures TableMap(Excerpt)["add_loyal_veterans"] == ("Character", "ScriptValue")
    ensures ScopeEffect(Token("ADD_Loyal_Veterans", Loc(Vanilla, "", 1, 1, None)), TableMap(Excerpt))
      == Some(("Character", "ScriptValue"))
  {
    var holding := ("Character", "ScopeOrItem(Province, Province)");
    var veterans := ("Character", "ScriptValue");
    var loyalty := ("Character", "Item(Loyalty)");
    assert Excerpt[..1][..0] == [];
    assert TableMap(Excerpt[..1]) == map["add_holding" := holding];
    assert Excerpt[..2][..1] == Excerpt[..1];
    assert TableMap(Excerpt[..2]) == map["add_holding" := holding, "add_loyal_veterans" := veterans];
    assert Excerpt[..3][..2] == Excerpt[..2];
    assert TableMap(Excerpt[..3]) == map["add_holding" := holding, "add_loyal_veterans" := veterans];
    assert Excerpt[..3] == Excerpt[..|Excerpt| - 1];
    assert TableMap(Excerpt) == map["add_holding" := holding, "add_loyal_veterans" := veterans, "add_loyalty" := loyalty];
    var lc := Lower("ADD_Loyal_Veterans");
    assert lc == "add_loyal_veterans";
  }
}
