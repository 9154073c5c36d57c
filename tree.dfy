/** The parsed script tree: a block is a sequence of items, an item is a bare
  * value, a nested block or a field `key <cmp> value`. Structural
  * equivalence is defined here for all four kinds at once, because it
  * recurses through them. The queries a block answers (its last field of a
  * name, its definitions, its bare values) come from src/block/block.rs,
  * which is not part of this model; they are defined here the way the
  * registries use them: the last field of a name wins. */
module Tree {
  import opened Base

  datatype Eq = Single | Double | Question

  datatype Comparator = Equals(eq: Eq) | NotEquals | LessThan | GreaterThan | AtMost | AtLeast

  function ComparatorText(c: Comparator): string
  {
    match c
    case Equals(Single) => "="
    case Equals(Double) => "=="
    case Equals(Question) => "?="
    case NotEquals => "!="
    case LessThan => "<"
    case GreaterThan => ">"
    case AtMost => "<="
    case AtLeast => ">="
  }

  /** The parameters a macro block was written with. */
  datatype MacroSource = MacroSource(parms: seq<string>)

  datatype Block = Block(items: seq<BlockItem>, tag: Option<Token>, loc: Loc, source: Option<MacroSource>)

  /** The right-hand side of a field. */
  datatype BV = BVValue(token: Token) | BVBlock(block: Block)

  datatype Field = Field(key: Token, cmp: Comparator, bv: BV)

  datatype BlockItem = ItemValue(token: Token) | ItemBlock(block: Block) | ItemField(field: Field)

  /** Where a report about an item points: a field is reported at its key. */
  function ItemLoc(item: BlockItem): Loc
  {
    match item
    case ItemValue(t) => t.loc
    case ItemBlock(b) => b.loc
    case ItemField(f) => f.key.loc
  }

  function BVLoc(bv: BV): Loc
  {
    match bv
    case BVValue(t) => t.loc
    case BVBlock(b) => b.loc
  }

  // ------------------------------------------------------------ equivalence

  /** Tokens compare by their text, wherever they were read. */
  predicate TokenEq(a: Token, b: Token) { a.text == b.text }

  predicate BlockEquivalent(a: Block, b: Block)
    decreases a, 3
  {
    |a.items| == |b.items|
    && forall i :: 0 <= i < |a.items| ==> ItemEquivalent(a.items[i], b.items[i])
  }

  predicate BVEquivalent(a: BV, b: BV)
    decreases a, 2
  {
    match a
    case BVValue(t) => b.BVValue? && TokenEq(t, b.token)
    case BVBlock(x) => b.BVBlock? && BlockEquivalent(x, b.block)
  }

  /** `Field::equivalent`: equal keys, equal comparators, equivalent values. */
  predicate FieldEquivalent(f: Field, g: Field)
    decreases f, 1
  {
    TokenEq(f.key, g.key) && f.cmp == g.cmp && BVEquivalent(f.bv, g.bv)
  }

  /** `BlockItem::equivalent`: the same variant, then token equality, block
    * equivalence or field equivalence. */
  predicate ItemEquivalent(x: BlockItem, y: BlockItem)
    decreases x, 0
  {
    match x
    case ItemValue(t) => y.ItemValue? && TokenEq(t, y.token)
    case ItemBlock(b) => y.ItemBlock? && BlockEquivalent(b, y.block)
    case ItemField(f) => y.ItemField? && FieldEquivalent(f, y.field)
  }

  lemma {:induction false} BlockEquivalentReflexive(b: Block)
    ensures BlockEquivalent(b, b)
    decreases b, 3
  {
    forall i | 0 <= i < |b.items| ensures ItemEquivalent(b.items[i], b.items[i]) {
      ItemEquivalentReflexive(b.items[i]);
    }
  }

  lemma {:induction false} BVEquivalentReflexive(v: BV)
    ensures BVEquivalent(v, v)
    decreases v, 2
  {
    if v.BVBlock? {
      BlockEquivalentReflexive(v.block);
    }
  }

  lemma {:induction false} FieldEquivalentReflexive(f: Field)
    ensures FieldEquivalent(f, f)
    decreases f, 1
  {
    BVEquivalentReflexive(f.bv);
  }

  /** Every item is equivalent to itself. */
  lemma {:induction false} ItemEquivalentReflexive(x: BlockItem)
    ensures ItemEquivalent(x, x)
    decreases x, 0
  {
    match x
    case ItemValue(_) =>
    case ItemBlock(b) => BlockEquivalentReflexive(b);
    case ItemField(f) => FieldEquivalentReflexive(f);
  }

  lemma {:induction false} BlockEquivalentSymmetric(a: Block, b: Block)
    requires BlockEquivalent(a, b)
    ensures BlockEquivalent(b, a)
    decreases a, 3
  {
    forall i | 0 <= i < |b.items| ensures ItemEquivalent(b.items[i], a.items[i]) {
      ItemEquivalentSymmetric(a.items[i], b.items[i]);
    }
  }

  lemma {:induction false} BVEquivalentSymmetric(a: BV, b: BV)
    requires BVEquivalent(a, b)
    ensures BVEquivalent(b, a)
    decreases a, 2
  {
    if a.BVBlock? {
      BlockEquivalentSymmetric(a.block, b.block);
    }
  }

  lemma {:induction false} FieldEquivalentSymmetric(f: Field, g: Field)
    requires FieldEquivalent(f, g)
    ensures FieldEquivalent(g, f)
    decreases f, 1
  {
    BVEquivalentSymmetric(f.bv, g.bv);
  }

  /** Equivalence of items is symmetric. */
  lemma {:induction false} ItemEquivalentSymmetric(x: BlockItem, y: BlockItem)
    requires ItemEquivalent(x, y)
    ensures ItemEquivalent(y, x)
    decreases x, 0
  {
    match x
    case ItemValue(_) =>
    case ItemBlock(b) => BlockEquivalentSymmetric(b, y.block);
    case ItemField(f) => FieldEquivalentSymmetric(f, y.field);
  }

  // ---------------------------------------------------------- block queries

  /** The last field named `name` whose value is a token. */
  function LastValueField(items: seq<BlockItem>, name: string): (r: Option<Token>)
  {
    if |items| == 0 then None
    else
      var x := items[|items| - 1];
      if x.ItemField? && x.field.key.Is(name) && x.field.bv.BVValue? then Some(x.field.bv.token)
      else LastValueField(items[..|items| - 1], name)
  }

  /** The last field named `name` whose value is a block. */
  function LastBlockField(items: seq<BlockItem>, name: string): (r: Option<Block>)
  {
    if |items| == 0 then None
    else
      var x := items[|items| - 1];
      if x.ItemField? && x.field.key.Is(name) && x.field.bv.BVBlock? then Some(x.field.bv.block)
      else LastBlockField(items[..|items| - 1], name)
  }

  /** The last field named `name`, whatever its value. */
  function LastField(items: seq<BlockItem>, name: string): (r: Option<Field>)
  {
    if |items| == 0 then None
    else
      var x := items[|items| - 1];
      if x.ItemField? && x.field.key.Is(name) then Some(x.field)
      else LastField(items[..|items| - 1], name)
  }

  function GetFieldValue(b: Block, name: string): Option<Token> { LastValueField(b.items, name) }

  function GetFieldBlock(b: Block, name: string): Option<Block> { LastBlockField(b.items, name) }

  function GetField(b: Block, name: string): Option<Field> { LastField(b.items, name) }

  /** `get_key`: the key token of the last field of that name. */
  function GetKey(b: Block, name: string): Option<Token>
  {
    match GetField(b, name)
    case None => None
    case Some(f) => Some(f.key)
  }

  predicate HasKey(b: Block, name: string) { GetField(b, name).Some? }

  /** `get_field_bool`: whether the field's value is `yes`. */
  function GetFieldBool(b: Block, name: string): Option<bool>
  {
    match GetFieldValue(b, name)
    case None => None
    case Some(t) => Some(t.Is("yes"))
  }

  /** `get_field_integer`. */
  function GetFieldInteger(b: Block, name: string): Option<int>
  {
    match GetFieldValue(b, name)
    case None => None
    case Some(t) => ParseIsize(t.text)
  }

  /** Every token value of the fields named `name`, in order. */
  function FieldValues(items: seq<BlockItem>, name: string): seq<Token>
  {
    if |items| == 0 then []
    else
      var x := items[|items| - 1];
      FieldValues(items[..|items| - 1], name)
        + (if x.ItemField? && x.field.key.Is(name) && x.field.bv.BVValue? then [x.field.bv.token] else [])
  }

  /** Every block value of the fields named `name`, in order. */
  function FieldBlocks(items: seq<BlockItem>, name: string): seq<Block>
  {
    if |items| == 0 then []
    else
      var x := items[|items| - 1];
      FieldBlocks(items[..|items| - 1], name)
        + (if x.ItemField? && x.field.key.Is(name) && x.field.bv.BVBlock? then [x.field.bv.block] else [])
  }

  function GetFieldValues(b: Block, name: string): seq<Token> { FieldValues(b.items, name) }

  function GetFieldBlocks(b: Block, name: string): seq<Block> { FieldBlocks(b.items, name) }

  /** A field `key = { ... }` or `key ?= { ... }`. */
  predicate IsDefinition(f: Field)
  {
    (f.cmp == Equals(Single) || f.cmp == Equals(Question)) && f.bv.BVBlock?
  }

  /** `iter_definitions`: the key and block of every definition, in order. */
  function Definitions(items: seq<BlockItem>): (r: seq<(Token, Block)>)
  {
    if |items| == 0 then []
    else
      var x := items[|items| - 1];
      Definitions(items[..|items| - 1])
        + (if x.ItemField? && IsDefinition(x.field) then [(x.field.key, x.field.bv.block)] else [])
  }

  /** A field `key = value` or `key ?= value`. */
  predicate IsAssignment(f: Field)
  {
    (f.cmp == Equals(Single) || f.cmp == Equals(Question)) && f.bv.BVValue?
  }

  /** `iter_assignments`: the key and value of every assignment, in order. */
  function Assignments(items: seq<BlockItem>): (r: seq<(Token, Token)>)
  {
    if |items| == 0 then []
    else
      var x := items[|items| - 1];
      Assignments(items[..|items| - 1])
        + (if x.ItemField? && IsAssignment(x.field) then [(x.field.key, x.field.bv.token)] else [])
  }

  /** The bare values of a block, in order (`values()` of the validator). */
  function Values(items: seq<BlockItem>): seq<Token>
  {
    if |items| == 0 then []
    else
      var x := items[|items| - 1];
      Values(items[..|items| - 1]) + (if x.ItemValue? then [x.token] else [])
  }

  /** Every field of a block, in order. */
  function Fields(items: seq<BlockItem>): seq<Field>
  {
    if |items| == 0 then []
    else
      var x := items[|items| - 1];
      Fields(items[..|items| - 1]) + (if x.ItemField? then [x.field] else [])
  }

  lemma {:induction false} LastValueFieldIsLast(items: seq<BlockItem>, name: string)
    ensures LastValueField(items, name).Some? <==> |FieldValues(items, name)| > 0
    ensures LastValueField(items, name).Some? ==>
      LastValueField(items, name).value == FieldValues(items, name)[|FieldValues(items, name)| - 1]
  {
    if |items| > 0 {
      LastValueFieldIsLast(items[..|items| - 1], name);
    }
  }
}
