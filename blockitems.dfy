/** The accessors of one block item (src/block/blockitem.rs): a bare value,
  * a nested block or a field. Each `get_` extracts one variant; each
  * `expect_` returns what its `get_` returns and reports once when that is
  * nothing. */
module BlockItems {
  import opened Base
  import opened Report
  import opened Tree
  import Fields

  function GetField(x: BlockItem): (r: Option<Field>)
    ensures r.Some? <==> x.ItemField?
    ensures r.Some? ==> x == ItemField(r.value)
  {
    if x.ItemField? then Some(x.field) else None
  }

  predicate IsField(x: BlockItem) { x.ItemField? }

  function GetValue(x: BlockItem): (r: Option<Token>)
    ensures r.Some? <==> x.ItemValue?
    ensures r.Some? ==> x == ItemValue(r.value)
  {
    if x.ItemValue? then Some(x.token) else None
  }

  function GetBlock(x: BlockItem): (r: Option<Block>)
    ensures r.Some? <==> x.ItemBlock?
    ensures r.Some? ==> x == ItemBlock(r.value)
  {
    if x.ItemBlock? then Some(x.block) else None
  }

  /** `describe`: "value", "block", or what the field is. */
  function Describe(x: BlockItem): (r: string)
    ensures x.ItemValue? ==> r == "value"
    ensures x.ItemBlock? ==> r == "block"
    ensures x.ItemField? ==> r == Fields.Describe(x.field)
  {
    match x
    case ItemValue(_) => "value"
    case ItemBlock(_) => "block"
    case ItemField(f) => Fields.Describe(f)
  }

  /** Exactly one of the three extractions succeeds, the one of the item's
    * variant, and `is_field` agrees with `get_field`. */
  lemma ExactlyOneVariant(x: BlockItem)
    ensures (if GetValue(x).Some? then 1 else 0) + (if GetBlock(x).Some? then 1 else 0)
          + (if GetField(x).Some? then 1 else 0) == 1
    ensures IsField(x) <==> GetField(x).Some?
  {
  }

  /** `expect_field` (and `expect_into_field`). */
  function ExpectField(x: BlockItem): (r: Checked<Option<Field>>)
    ensures r.value == GetField(x)
    ensures |r.reports| == (if r.value.None? then 1 else 0)
    ensures r.value.None? ==>
              IsReport(r.reports[0], Error, Structure, ItemLoc(x))
              && r.reports[0].msg == "unexpected " + Describe(x)
  {
    if x.ItemField? then Checked(Some(x.field), [])
    else Checked(None, [ErrorInfoAt(ItemLoc(x), Structure, "unexpected " + Describe(x), "Did you forget an = ?")])
  }

  /** `expect_value` (and `expect_into_value`). */
  function ExpectValue(x: BlockItem): (r: Checked<Option<Token>>)
    ensures r.value == GetValue(x)
    ensures |r.reports| == (if r.value.None? then 1 else 0)
    ensures r.value.None? ==>
              IsReport(r.reports[0], Error, Structure, ItemLoc(x))
              && r.reports[0].msg == "expected value, found " + Describe(x)
  {
    if x.ItemValue? then Checked(Some(x.token), [])
    else Checked(None, [ErrorAt(ItemLoc(x), Structure, "expected value, found " + Describe(x))])
  }

  /** `expect_block` (and `expect_into_block`). */
  function ExpectBlock(x: BlockItem): (r: Checked<Option<Block>>)
    ensures r.value == GetBlock(x)
    ensures |r.reports| == (if r.value.None? then 1 else 0)
    ensures r.value.None? ==>
              IsReport(r.reports[0], Error, Structure, ItemLoc(x))
              && r.reports[0].msg == "expected block, found " + Describe(x)
  {
    if x.ItemBlock? then Checked(Some(x.block), [])
    else Checked(None, [ErrorAt(ItemLoc(x), Structure, "expected block, found " + Describe(x))])
  }

  /** `get_definition`: nothing for a value or block, the field's definition otherwise. */
  function GetDefinition(x: BlockItem): (r: Option<(Token, Block)>)
    ensures !x.ItemField? ==> r.None?
    ensures x.ItemField? ==> r == Fields.GetDefinition(x.field)
  {
    match GetField(x)
    case Some(f) => Fields.GetDefinition(f)
    case None => None
  }

  /** `expect_definition` (and `expect_into_definition`): the item must be a
    * field and the field a definition; whichever fails is reported, once. */
  function ExpectDefinition(x: BlockItem): (r: Checked<Option<(Token, Block)>>)
    ensures r.value == GetDefinition(x)
    ensures |r.reports| == (if r.value.None? then 1 else 0)
    ensures r.value.None? ==> r.reports[0].key == Structure
  {
    var field := ExpectField(x);
    match field.value
    case Some(f) => Fields.ExpectDefinition(f)
    case None => Checked(None, field.reports)
  }

  /** `get_assignment`: nothing for a value or block, the field's assignment otherwise. */
  function GetAssignment(x: BlockItem): (r: Option<(Token, Token)>)
    ensures !x.ItemField? ==> r.None?
    ensures x.ItemField? ==> r == Fields.GetAssignment(x.field)
  {
    match x
    case ItemField(Field(key, Equals(Single), BVValue(token))) => Some((key, token))
    case ItemField(Field(key, Equals(Question), BVValue(token))) => Some((key, token))
    case _ => None
  }

  /** `expect_assignment`: reports a non-field as `expect_field` does, and a
    * field of the wrong shape as "expected assignment", at the item. */
  function ExpectAssignment(x: BlockItem): (r: Checked<Option<(Token, Token)>>)
    ensures r.value == GetAssignment(x)
    ensures |r.reports| == (if r.value.None? then 1 else 0)
    ensures r.value.None? && x.ItemField? ==>
              IsReport(r.reports[0], Error, Structure, ItemLoc(x))
              && r.reports[0].msg == "expected assignment, found " + Fields.Describe(x.field)
  {
    var field := ExpectField(x);
    match field.value
    case None => Checked(None, field.reports)
    case Some(f) =>
      match f
      case Field(key, Equals(Single), BVValue(token)) => Checked(Some((key, token)), [])
      case Field(key, Equals(Question), BVValue(token)) => Checked(Some((key, token)), [])
      case _ => Checked(None, [ErrorAt(ItemLoc(x), Structure, "expected assignment, found " + Fields.Describe(f))])
  }

  /** `equivalent` is false across variants, and within a variant is token
    * equality, block equivalence or field equivalence. */
  lemma EquivalentByVariant(x: BlockItem, y: BlockItem)
    ensures ItemEquivalent(x, y) ==> Describe(x) == Describe(y) || (x.ItemField? && y.ItemField?)
    ensures x.ItemValue? && y.ItemValue? ==> (ItemEquivalent(x, y) <==> x.token.text == y.token.text)
    ensures x.ItemBlock? && y.ItemBlock? ==> (ItemEquivalent(x, y) <==> BlockEquivalent(x.block, y.block))
    ensures x.ItemField? && y.ItemField? ==> (ItemEquivalent(x, y) <==> FieldEquivalent(x.field, y.field))
    ensures (x.ItemValue? != y.ItemValue?) || (x.ItemBlock? != y.ItemBlock?) ==> !ItemEquivalent(x, y)
  {
  }
}
