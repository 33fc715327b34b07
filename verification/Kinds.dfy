/** The transaction kinds and their rules: the one table the services, the scanner and the SQL
    CHECK constraints all have to agree on. */
module Kinds {
  import opened Basics

  datatype Kind = Purchase | Refund | Reimbursement | Income | Transfer

  datatype Direction = Inflow | Outflow

  datatype KindRules = KindRules(
    name: string,
    canonicalDirection: Option<Direction>,
    allowsTaxDeductible: bool,
    canOffset: bool,
    isOffsetTarget: bool,
    usesIncomeCategories: bool,
    scannable: bool)

  const ALL_KINDS: seq<Kind> := [Purchase, Refund, Reimbursement, Income, Transfer]

  const DEFAULT_KIND: Kind := Purchase

  function RulesFor(kind: Kind): KindRules {
    match kind
    case Purchase => KindRules("purchase", Some(Outflow), true, false, true, false, true)
    case Refund => KindRules("refund", Some(Inflow), false, true, false, false, true)
    case Reimbursement => KindRules("reimbursement", Some(Inflow), false, true, false, false, true)
    case Income => KindRules("income", Some(Inflow), false, false, false, true, true)
    case Transfer => KindRules("transfer", None, false, false, false, false, false)
  }

  /** The first of `kinds` called `name`. */
  function FindIn(kinds: seq<Kind>, name: string): Option<Kind> {
    if kinds == [] then None
    else if RulesFor(kinds[0]).name == name then Some(kinds[0])
    else FindIn(kinds[1..], name)
  }

  function FindKind(name: string): Option<Kind> {
    FindIn(ALL_KINDS, name)
  }

  lemma {:induction false} FindInIsFirst(kinds: seq<Kind>, name: string)
    ensures FindIn(kinds, name).None? <==> forall k :: k in kinds ==> RulesFor(k).name != name
    ensures FindIn(kinds, name).Some? ==>
      FindIn(kinds, name).value in kinds && RulesFor(FindIn(kinds, name).value).name == name
  {
    if kinds != [] {
      FindInIsFirst(kinds[1..], name);
      assert forall k :: k in kinds <==> k == kinds[0] || k in kinds[1..];
    }
  }

  lemma NamesAreDistinct(a: Kind, b: Kind)
    requires RulesFor(a).name == RulesFor(b).name
    ensures a == b
  {
    var x, y := RulesFor(a).name, RulesFor(b).name;
    assert |x| == |y| && x[0] == y[0];
    if {a, b} == {Refund, Reimbursement} {
      assert |"refund"| != |"reimbursement"|;
    }
  }

  /** The lookup inverts the table's name column: a name finds a kind exactly when it is that
      kind's own name, so an unknown name finds nothing. */
  lemma FindKindInvertsNames(name: string, kind: Kind)
    ensures FindKind(name) == Some(kind) <==> name == RulesFor(kind).name
  {
    FindInIsFirst(ALL_KINDS, name);
    assert kind in ALL_KINDS by {
      match kind
      case Purchase => assert ALL_KINDS[0] == kind;
      case Refund => assert ALL_KINDS[1] == kind;
      case Reimbursement => assert ALL_KINDS[2] == kind;
      case Income => assert ALL_KINDS[3] == kind;
      case Transfer => assert ALL_KINDS[4] == kind;
    }
    if FindKind(name).Some? && name == RulesFor(kind).name {
      NamesAreDistinct(FindKind(name).value, kind);
    }
  }

  /** chk_direction_by_kind, as the schema spells it. */
  predicate ChkDirectionByKind(kind: Kind, direction: Direction) {
    || (kind == Purchase && direction == Outflow)
    || (kind in {Refund, Reimbursement, Income} && direction == Inflow)
    || kind == Transfer
  }

  /** chk_tax_deductible_purchase_only, as the schema spells it. */
  predicate ChkTaxDeductible(kind: Kind, taxDeductible: bool) {
    !taxDeductible || kind == Purchase
  }

  /** The schema's copy of the rules and the table never drift apart. */
  lemma SchemaAgreesWithTable(kind: Kind, direction: Direction, taxDeductible: bool)
    ensures ChkDirectionByKind(kind, direction) <==>
            RulesFor(kind).canonicalDirection in {None, Some(direction)}
    ensures ChkTaxDeductible(kind, taxDeductible) <==> (taxDeductible ==> RulesFor(kind).allowsTaxDeductible)
    ensures RulesFor(kind).scannable ==> RulesFor(kind).canonicalDirection.Some?
  {
  }

  predicate CategoryFitsKind(categoryIsIncome: bool, kind: Kind) {
    categoryIsIncome == RulesFor(kind).usesIncomeCategories
  }

  /** The table, column by column. */
  lemma TableMeaning(kind: Kind)
    ensures RulesFor(kind).canonicalDirection ==
            match kind
            case Purchase => Some(Outflow)
            case Transfer => None
            case _ => Some(Inflow)
    ensures RulesFor(kind).allowsTaxDeductible <==> kind == Purchase
    ensures RulesFor(kind).canOffset <==> kind == Refund || kind == Reimbursement
    ensures RulesFor(kind).isOffsetTarget <==> kind == Purchase
    ensures RulesFor(kind).usesIncomeCategories <==> kind == Income
    ensures RulesFor(kind).scannable <==> kind != Transfer
    ensures RulesFor(kind).name ==
            match kind
            case Purchase => "purchase"
            case Refund => "refund"
            case Reimbursement => "reimbursement"
            case Income => "income"
            case Transfer => "transfer"
  {
  }
}
