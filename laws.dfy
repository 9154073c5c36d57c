/** Law groups and laws (src/data/laws.rs): registering a group's laws and
  * flags, the group's `default`, the naming of `scope:title` in a law's
  * hooks, and the constraints between the fields of `succession`. */
module Laws {
  import opened Base
  import opened Report
  import opened Tree

  /** What law groups add to the database. */
  datatype LawStore = LawStore(laws: seq<(Token, Block)>, groups: seq<(Token, Block)>, flags: set<string>)

  function TokenTexts(ts: seq<Token>): set<string>
  {
    set t | t in ts :: t.text
  }

  /** The `flag` of every `triggered_flag` block that has one. */
  function TriggeredFlags(bs: seq<Block>): set<string>
  {
    if |bs| == 0 then {}
    else
      var last := bs[|bs| - 1];
      TriggeredFlags(bs[..|bs| - 1])
        + (match GetFieldValue(last, "flag") case Some(t) => {t.text} case None => {})
  }

  /** The flags one law declares. */
  function LawFlags(law: Block): set<string>
  {
    TokenTexts(GetFieldValues(law, "flag")) + TriggeredFlags(GetFieldBlocks(law, "triggered_flag"))
  }

  /** The flags of the laws of a group, in order. */
  function LawsFlags(defs: seq<(Token, Block)>): set<string>
  {
    if |defs| == 0 then {} else LawsFlags(defs[..|defs| - 1]) + LawFlags(defs[|defs| - 1].1)
  }

  /** `LawGroup::add` on values. */
  function GroupAdd(s: LawStore, key: Token, block: Block): LawStore
  {
    var defs := Definitions(block.items);
    LawStore(s.laws + defs, s.groups + [(key, block)],
             s.flags + LawsFlags(defs) + TokenTexts(GetFieldValues(block, "flag")))
  }

  lemma {:induction false} TriggeredFlagsMeaning(bs: seq<Block>, flag: string)
    ensures flag in TriggeredFlags(bs) <==>
      exists i :: 0 <= i < |bs| && GetFieldValue(bs[i], "flag").Some? && GetFieldValue(bs[i], "flag").value.text == flag
  {
    if |bs| > 0 {
      var init := bs[..|bs| - 1];
      TriggeredFlagsMeaning(init, flag);
      assert forall i :: 0 <= i < |init| ==> init[i] == bs[i];
    }
  }

  lemma {:induction false} LawsFlagsMeaning(defs: seq<(Token, Block)>, flag: string)
    ensures flag in LawsFlags(defs) <==> exists i :: 0 <= i < |defs| && flag in LawFlags(defs[i].1)
  {
    if |defs| > 0 {
      var init := defs[..|defs| - 1];
      LawsFlagsMeaning(init, flag);
      assert forall i :: 0 <= i < |init| ==> init[i] == defs[i];
    }
  }

  /** A group registers every law it defines and every flag named by a law,
    * by a law's `triggered_flag`, or by the group itself; nothing else. */
  lemma GroupAddMeaning(s: LawStore, key: Token, block: Block, flag: string)
    ensures GroupAdd(s, key, block).laws == s.laws + Definitions(block.items)
    ensures flag in GroupAdd(s, key, block).flags <==>
      flag in s.flags
      || (exists t :: t in GetFieldValues(block, "flag") && t.text == flag)
      || exists i :: 0 <= i < |Definitions(block.items)| &&
           ((exists t :: t in GetFieldValues(Definitions(block.items)[i].1, "flag") && t.text == flag)
            || flag in TriggeredFlags(GetFieldBlocks(Definitions(block.items)[i].1, "triggered_flag")))
  {
    LawsFlagsMeaning(Definitions(block.items), flag);
  }

  class LawDb {
    var laws: seq<(Token, Block)>
    var groups: seq<(Token, Block)>
    var flags: set<string>

    constructor ()
      ensures laws == [] && groups == [] && flags == {}
    {
      laws, groups, flags := [], [], {};
    }

    function Store(): LawStore
      reads this
    {
      LawStore(laws, groups, flags)
    }

    method AddFlags(ts: seq<Token>)
      modifies this`flags
      ensures flags == old(flags) + TokenTexts(ts)
    {
      for i := 0 to |ts|
        invariant flags == old(flags) + TokenTexts(ts[..i])
      {
        assert TokenTexts(ts[..i + 1]) == TokenTexts(ts[..i]) + {ts[i].text} by {
          assert ts[..i + 1] == ts[..i] + [ts[i]];
        }
        flags := flags + {ts[i].text};
      }
      assert ts[..|ts|] == ts;
    }

    /** The flags of `triggered_flag` blocks. */
    method AddTriggeredFlags(bs: seq<Block>)
      modifies this`flags
      ensures flags == old(flags) + TriggeredFlags(bs)
    {
      for j := 0 to |bs|
        invariant flags == old(flags) + TriggeredFlags(bs[..j])
      {
        assert bs[..j + 1][..j] == bs[..j];
        match GetFieldValue(bs[j], "flag") {
          case Some(t) => flags := flags + {t.text};
          case None =>
        }
      }
      assert bs[..|bs|] == bs;
    }

    /** One law of a group: the law and its flags. */
    method AddLaw(key: Token, law: Block)
      modifies this
      ensures laws == old(laws) + [(key, law)] && groups == old(groups)
      ensures flags == old(flags) + LawFlags(law)
    {
      AddFlags(GetFieldValues(law, "flag"));
      AddTriggeredFlags(GetFieldBlocks(law, "triggered_flag"));
      laws := laws + [(key, law)];
    }

    /** `LawGroup::add`. */
    method AddGroup(key: Token, block: Block)
      modifies this
      ensures Store() == GroupAdd(old(Store()), key, block)
    {
      var defs := Definitions(block.items);
      for i := 0 to |defs|
        invariant laws == old(laws) + defs[..i] && groups == old(groups)
        invariant flags == old(flags) + LawsFlags(defs[..i])
      {
        assert defs[..i + 1][..i] == defs[..i];
        AddLaw(defs[i].0, defs[i].1);
      }
      assert defs[..|defs|] == defs;
      AddFlags(GetFieldValues(block, "flag"));
      groups := groups + [(key, block)];
    }
  }

  // ------------------------------------------------------------- validate

  /** `LawGroup::validate`: `default` must name a law of the group. */
  function DefaultCheck(group: Block): (r: seq<LogReport>)
    ensures |r| <= 1
    ensures |r| == 1 <==>
      GetFieldValue(group, "default").Some? && GetFieldBlock(group, GetFieldValue(group, "default").value.text).None?
    ensures |r| == 1 ==> IsReport(r[0], Error, MissingItem, GetFieldValue(group, "default").value.loc)
  {
    match GetFieldValue(group, "default")
    case Some(t) =>
      if GetFieldBlock(group, t.text).None? then [ErrorAt(t.loc, MissingItem, "law not defined in this group")]
      else []
    case None => []
  }

  /** The names a law defines before validating `on_pass` or `on_revoke`. */
  function HookNames(hook: string, titleLaw: bool): seq<string>
  {
    (if titleLaw then ["title"] else []) + (if hook == "on_revoke" then ["title"] else [])
  }

  /** `scope:title` is known in `on_pass` only for a title law (one with
    * `can_title_have`), and always in `on_revoke`. */
  lemma TitleNamed(law: Block)
    ensures "title" in HookNames("on_pass", HasKey(law, "can_title_have")) <==> HasKey(law, "can_title_have")
    ensures "title" in HookNames("on_revoke", HasKey(law, "can_title_have"))
  {
  }

  /** A field the validator bans, with the case it is reserved for. */
  datatype Ban = Ban(field: string, reservedFor: string)

  /** The `order_of_succession` the checks use: "none" when absent. */
  function OrderOfSuccession(succession: Block): (r: string)
    ensures GetFieldValue(succession, "order_of_succession").None? ==> r == "none"
    ensures GetFieldValue(succession, "order_of_succession").Some? ==> r == GetFieldValue(succession, "order_of_succession").value.text
  {
    match GetFieldValue(succession, "order_of_succession")
    case Some(t) => t.text
    case None => "none"
  }

  /** The partition rule: `title_division = partition` needs
    * `traversal_order = children`, checked only when both are given. */
  function PartitionCheck(succession: Block): (r: seq<LogReport>)
    ensures |r| <= 1
    ensures |r| == 1 <==>
      GetFieldValue(succession, "title_division").Some? && GetFieldValue(succession, "traversal_order").Some?
      && GetFieldValue(succession, "title_division").value.Is("partition")
      && !GetFieldValue(succession, "traversal_order").value.Is("children")
    ensures |r| == 1 ==> IsReport(r[0], Error, Validation, GetFieldValue(succession, "title_division").value.loc)
  {
    match GetFieldValue(succession, "title_division")
    case None => []
    case Some(division) =>
      match GetFieldValue(succession, "traversal_order")
      case None => []
      case Some(order) =>
        if division.Is("partition") && !order.Is("children") then
          [ErrorAt(division.loc, Validation, "partition is only for `traversal_order = children`")]
        else []
  }

  /** The fields `succession` bans for its order of succession. */
  function SuccessionBans(succession: Block): (r: seq<Ban>)
    ensures var order := OrderOfSuccession(succession);
      (Ban("pool_character_config", "theocratic, company, or generate succession") in r <==>
        order !in {"theocratic", "company", "generate"})
      && (Ban("election_type", "order_of_succession = election") in r <==> order != "election")
      && |r| <= 2
  {
    var order := OrderOfSuccession(succession);
    (if order == "theocratic" || order == "company" || order == "generate" then []
     else [Ban("pool_character_config", "theocratic, company, or generate succession")])
    + (if order == "election" then [] else [Ban("election_type", "order_of_succession = election")])
  }

  /** A succession without an order bans both reserved fields. */
  lemma NoOrderBansBoth(succession: Block)
    requires GetFieldValue(succession, "order_of_succession").None?
    ensures |SuccessionBans(succession)| == 2
  {
  }
}
