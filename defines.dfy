/** Defines (src/data/defines.rs): named values of the `common/defines`
  * files, grouped as `Group = { NAME = value }` and stored under the text
  * `Group|NAME`. */
module Defines {
  import opened Base
  import opened Report
  import opened Tree

  datatype Define = Define(group: Token, name: Token, bv: BV)
  {
    /** `Define::key`. */
    function Key(): string { DefineKey(group, name) }
  }

  function DefineKey(group: Token, name: Token): string
  {
    group.text + "|" + name.text
  }

  /** A group name without '|' can be read back from the key, and so can
    * the define name. */
  lemma DefineKeySplits(group: Token, name: Token)
    requires '|' !in group.text
    ensures SplitOnce(DefineKey(group, name), '|') == Some((group.text, name.text))
  {
    assert DefineKey(group, name) == group.text + ['|'] + name.text;
    KeyParts(group.text, name.text);
    var k := DefineKey(group, name);
    assert k[..|group.text|] == group.text && k[|group.text| + 1..] == name.text;
  }

  /** Two groups without '|' never share a key unless both names match. */
  lemma DefineKeyInjective(g1: Token, n1: Token, g2: Token, n2: Token)
    requires '|' !in g1.text && '|' !in g2.text
    ensures DefineKey(g1, n1) == DefineKey(g2, n2) <==> g1.text == g2.text && n1.text == n2.text
  {
    if DefineKey(g1, n1) == DefineKey(g2, n2) {
      DefineKeySplits(g1, n1);
      DefineKeySplits(g2, n2);
    }
  }

  lemma {:induction false} KeyParts(g: string, n: string)
    requires '|' !in g
    ensures IndexOf(g + ['|'] + n, '|') == Some(|g|)
    decreases |g|
  {
    if |g| > 0 {
      assert (g + ['|'] + n)[1..] == g[1..] + ['|'] + n;
      KeyParts(g[1..], n);
    }
  }

  /** `load_item` on values: always stores the new define; reports a
    * duplicate only when the stored one comes from a file kind at least as
    * late and has a value that is not equivalent. */
  function LoadItemF(defines: map<string, Define>, group: Token, name: Token, bv: BV)
    : (r: Checked<map<string, Define>>)
    ensures r.value == defines[DefineKey(group, name) := Define(group, name, bv)]
    ensures |r.reports| <= 1
    ensures |r.reports| == 1 <==>
      var key := DefineKey(group, name);
      key in defines && KindAtLeast(defines[key].name.loc.kind, name.loc.kind)
      && !BVEquivalent(bv, defines[key].bv)
    ensures |r.reports| == 1 ==>
      r.reports[0] == DupError(name, defines[DefineKey(group, name)].name, "define")
  {
    var key := DefineKey(group, name);
    var dup :=
      if key in defines && KindAtLeast(defines[key].name.loc.kind, name.loc.kind)
         && !BVEquivalent(bv, defines[key].bv)
      then [DupError(name, defines[key].name, "define")]
      else [];
    Checked(defines[key := Define(group, name, bv)], dup)
  }

  /** Loading the same value again, even from a later file, is silent. */
  lemma IdenticalRedefinitionSilent(defines: map<string, Define>, group: Token, name: Token, bv: BV,
                                    later: Token)
    requires later.text == name.text
    ensures var first := LoadItemF(defines, group, name, bv);
      LoadItemF(first.value, group, later, bv).reports == []
  {
    BVEquivalentReflexive(bv);
  }

  /** A redefinition with a different value from the same or an earlier
    * file kind is reported. */
  lemma DifferentRedefinitionReported(defines: map<string, Define>, group: Token, name: Token, bv: BV,
                                      later: Token, other: BV)
    requires later.text == name.text && KindAtLeast(name.loc.kind, later.loc.kind)
    requires !BVEquivalent(other, bv)
    ensures var first := LoadItemF(defines, group, name, bv);
      LoadItemF(first.value, group, later, other).reports == [DupError(later, name, "define")]
  {
  }

  /** The `key = value` and `key = { ... }` fields of a group: the
    * fields with `=` or `?=`, with either kind of value. */
  function BVDefinitions(items: seq<BlockItem>): (r: seq<(Token, BV)>)
    ensures |r| <= |items|
  {
    if |items| == 0 then []
    else
      var x := items[|items| - 1];
      BVDefinitions(items[..|items| - 1])
        + (if x.ItemField? && (x.field.cmp == Equals(Single) || x.field.cmp == Equals(Question))
           then [(x.field.key, x.field.bv)] else [])
  }

  /** Loading every (name, value) of one group, in order. */
  function LoadGroupF(defines: map<string, Define>, group: Token, defs: seq<(Token, BV)>)
    : Checked<map<string, Define>>
  {
    if |defs| == 0 then Checked(defines, [])
    else
      var before := LoadGroupF(defines, group, defs[..|defs| - 1]);
      var last := LoadItemF(before.value, group, defs[|defs| - 1].0, defs[|defs| - 1].1);
      Checked(last.value, before.reports + last.reports)
  }

  /** Loading every group of a file, in order. */
  function LoadFileF(defines: map<string, Define>, groups: seq<(Token, Block)>)
    : Checked<map<string, Define>>
  {
    if |groups| == 0 then Checked(defines, [])
    else
      var before := LoadFileF(defines, groups[..|groups| - 1]);
      var (group, block) := groups[|groups| - 1];
      var last := LoadGroupF(before.value, group, BVDefinitions(block.items));
      Checked(last.value, before.reports + last.reports)
  }

  /** After loading a group, every name in it is defined, and anything
    * defined before still is. */
  lemma {:induction false} LoadGroupDefines(defines: map<string, Define>, group: Token, defs: seq<(Token, BV)>)
    ensures var after := LoadGroupF(defines, group, defs).value;
      (forall k :: k in defines ==> k in after)
      && (forall i :: 0 <= i < |defs| ==> DefineKey(group, defs[i].0) in after)
  {
    if |defs| > 0 {
      LoadGroupDefines(defines, group, defs[..|defs| - 1]);
    }
  }

  class Defines {
    var defines: map<string, Define>

    constructor ()
      ensures defines == map[]
    {
      defines := map[];
    }

    method LoadItem(group: Token, name: Token, bv: BV) returns (reports: seq<LogReport>)
      modifies this
      ensures Checked(defines, reports) == LoadItemF(old(defines), group, name, bv)
    {
      var key := DefineKey(group, name);
      reports := [];
      if key in defines {
        var other := defines[key];
        if KindAtLeast(other.name.loc.kind, name.loc.kind) && !BVEquivalent(bv, other.bv) {
          reports := [DupError(name, other.name, "define")];
        }
      }
      defines := defines[key := Define(group, name, bv)];
    }

    predicate Exists(key: string)
      reads this
    {
      key in defines
    }

    /** `get_string`: the stored value when it is a token. */
    function GetString(key: string): (r: Option<Token>)
      reads this
      ensures r.Some? <==> key in defines && defines[key].bv.BVValue?
      ensures r.Some? ==> BVValue(r.value) == defines[key].bv
    {
      if key in defines && defines[key].bv.BVValue? then Some(defines[key].bv.token) else None
    }

    /** Every define is stored under its own `Define::key`. */
    predicate Valid()
      reads this
    {
      forall k :: k in defines ==> defines[k].Key() == k
    }

    method LoadGroup(group: Token, block: Block) returns (reports: seq<LogReport>)
      modifies this
      requires Valid()
      ensures Valid()
      ensures Checked(defines, reports) == LoadGroupF(old(defines), group, BVDefinitions(block.items))
    {
      var defs := BVDefinitions(block.items);
      reports := [];
      var i := 0;
      while i < |defs|
        invariant 0 <= i <= |defs|
        invariant Valid()
        invariant Checked(defines, reports) == LoadGroupF(old(defines), group, defs[..i])
      {
        assert defs[..i + 1][..i] == defs[..i];
        var r := LoadItem(group, defs[i].0, defs[i].1);
        reports := reports + r;
        i := i + 1;
      }
      assert defs[..i] == defs;
    }

    /** `handle_file`: only `.txt` files that could be read; every group
      * definition, and in it every `name = value`, is loaded in order. */
    method HandleFile(filename: string, file: Option<Block>) returns (reports: seq<LogReport>)
      modifies this
      requires Valid()
      ensures Valid()
      ensures !EndsWith(filename, ".txt") || file.None? ==> defines == old(defines) && reports == []
      ensures EndsWith(filename, ".txt") && file.Some? ==>
                Checked(defines, reports) == LoadFileF(old(defines), Definitions(file.value.items))
    {
      reports := [];
      if !EndsWith(filename, ".txt") || file.None? {
        return;
      }
      var groups := Definitions(file.value.items);
      var i := 0;
      while i < |groups|
        invariant 0 <= i <= |groups|
        invariant Valid()
        invariant Checked(defines, reports) == LoadFileF(old(defines), groups[..i])
      {
        assert groups[..i + 1][..i] == groups[..i];
        var r := LoadGroup(groups[i].0, groups[i].1);
        reports := reports + r;
        i := i + 1;
      }
      assert groups[..i] == groups;
    }
  }
}
