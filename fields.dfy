/** The accessors of a field `key <cmp> value` (src/block/field.rs): which
  * shape it has, and the `get_`/`expect_` pairs that extract a definition
  * or an assignment, the `expect_` ones reporting when the shape is wrong. */
module Fields {
  import opened Base
  import opened Report
  import opened Tree

  predicate IsEq(f: Field) { f.cmp == Equals(Single) }

  /** `=` or `?=`. */
  predicate IsEqQeq(f: Field) { f.cmp == Equals(Single) || f.cmp == Equals(Question) }

  /** `expect_eq`: true for a plain `=`; anything else is reported once. */
  function ExpectEq(f: Field): (r: Checked<bool>)
    ensures r.value <==> IsEq(f)
    ensures r.value ==> r.reports == []
    ensures !r.value ==> |r.reports| == 1 && IsReport(r.reports[0], Error, Validation, f.key.loc)
  {
    if f.cmp == Equals(Single) then Checked(true, [])
    else
      var msg := "expected `" + f.key.text + " =`, found `" + ComparatorText(f.cmp) + "`";
      Checked(false, [ErrorAt(f.key.loc, Validation, msg)])
  }

  /** `describe`: what kind of field this is, for messages. */
  function Describe(f: Field): (r: string)
    ensures r == "assignment" <==> IsEqQeq(f) && f.bv.BVValue?
    ensures r == "definition" <==> IsEqQeq(f) && f.bv.BVBlock?
    ensures r == "comparison" <==> !IsEqQeq(f)
  {
    if IsEqQeq(f) then
      match f.bv
      case BVValue(_) => "assignment"
      case BVBlock(_) => "definition"
    else "comparison"
  }

  /** `get_definition` (and `into_definition`): the key and block of a
    * `key = { ... }` or `key ?= { ... }` field. */
  function GetDefinition(f: Field): (r: Option<(Token, Block)>)
    ensures r.Some? <==> Describe(f) == "definition"
    ensures r.Some? ==> r.value.0 == f.key && BVBlock(r.value.1) == f.bv
  {
    match f
    case Field(key, Equals(Single), BVBlock(block)) => Some((key, block))
    case Field(key, Equals(Question), BVBlock(block)) => Some((key, block))
    case _ => None
  }

  /** `get_assignment`: the key and value of a `key = value` or `key ?= value` field. */
  function GetAssignment(f: Field): (r: Option<(Token, Token)>)
    ensures r.Some? <==> Describe(f) == "assignment"
    ensures r.Some? ==> r.value.0 == f.key && BVValue(r.value.1) == f.bv
  {
    match f
    case Field(key, Equals(Single), BVValue(token)) => Some((key, token))
    case Field(key, Equals(Question), BVValue(token)) => Some((key, token))
    case _ => None
  }

  /** A field is never both a definition and an assignment, and a plain `=`
    * field is always one of the two. */
  lemma DefinitionOrAssignment(f: Field)
    ensures !(GetDefinition(f).Some? && GetAssignment(f).Some?)
    ensures IsEq(f) ==> IsEqQeq(f) && (GetDefinition(f).Some? || GetAssignment(f).Some?)
  {
  }

  /** `expect_definition` (and `expect_into_definition`): `get_definition`,
    * plus one Structure error naming what was found instead. */
  function ExpectDefinition(f: Field): (r: Checked<Option<(Token, Block)>>)
    ensures r.value == GetDefinition(f)
    ensures |r.reports| == (if r.value.None? then 1 else 0)
    ensures r.value.None? ==>
              IsReport(r.reports[0], Error, Structure, f.key.loc)
              && r.reports[0].msg == "expected definition, found " + Describe(f)
  {
    match f
    case Field(key, Equals(Single), BVBlock(block)) => Checked(Some((key, block)), [])
    case Field(key, Equals(Question), BVBlock(block)) => Checked(Some((key, block)), [])
    case _ => Checked(None, [ErrorAt(f.key.loc, Structure, "expected definition, found " + Describe(f))])
  }

  /** `expect_assignment`: `get_assignment`, plus one Structure error naming
    * what was found instead. */
  function ExpectAssignment(f: Field): (r: Checked<Option<(Token, Token)>>)
    ensures r.value == GetAssignment(f)
    ensures |r.reports| == (if r.value.None? then 1 else 0)
    ensures r.value.None? ==>
              IsReport(r.reports[0], Error, Structure, f.key.loc)
              && r.reports[0].msg == "expected assignment, found " + Describe(f)
  {
    match f
    case Field(key, Equals(Single), BVValue(token)) => Checked(Some((key, token)), [])
    case Field(key, Equals(Question), BVValue(token)) => Checked(Some((key, token)), [])
    case _ => Checked(None, [ErrorAt(f.key.loc, Structure, "expected assignment, found " + Describe(f))])
  }

  /** `equivalent` asks for equal keys, equal comparators and equivalent
    * values, and is reflexive and symmetric. */
  lemma EquivalentMeaning(f: Field, g: Field)
    ensures FieldEquivalent(f, g) <==> TokenEq(f.key, g.key) && f.cmp == g.cmp && BVEquivalent(f.bv, g.bv)
    ensures FieldEquivalent(f, f)
    ensures FieldEquivalent(f, g) ==> FieldEquivalent(g, f)
  {
    FieldEquivalentReflexive(f);
    if FieldEquivalent(f, g) {
      FieldEquivalentSymmetric(f, g);
    }
  }
}
