/** The string enums of the API: the operator table a filter's operator name is
    looked up in, the scalar types a filter value can be parsed as, and the
    gender values. Each enum is kept as the list of (name, value) pairs that
    `Object.entries` yields for it, in declaration order. */
module Enums {
  import opened Common

  datatype Gender = M | V | X

  function GenderValue(g: Gender): string
  {
    match g
    case M => "M"
    case V => "V"
    case X => "X"
  }

  const GenderEntries: seq<(string, string)> := [("M", "M"), ("V", "V"), ("X", "X")]

  /** The gender enum has exactly the three values M, V and X, each its own name. */
  lemma GenderHasThreeValues()
    ensures |GenderEntries| == 3
    ensures forall i :: 0 <= i < |GenderEntries| ==> GenderEntries[i].0 == GenderEntries[i].1
    ensures forall g: Gender :: (GenderValue(g), GenderValue(g)) in GenderEntries
    ensures forall e :: e in GenderEntries ==> exists g: Gender :: e.1 == GenderValue(g)
  {
    assert GenderEntries[0].1 == GenderValue(M);
    assert GenderEntries[1].1 == GenderValue(V);
    assert GenderEntries[2].1 == GenderValue(X);
  }

  datatype Operator = Lt | Lte | Gt | Gte | Eq | Neq | ArrContains | In | NotIn

  /** The member name of an operator, as a filter names it. */
  function OperatorName(op: Operator): string
  {
    match op
    case Lt => "lt"
    case Lte => "lte"
    case Gt => "gt"
    case Gte => "gte"
    case Eq => "eq"
    case Neq => "neq"
    case ArrContains => "arr_contains"
    case In => "in"
    case NotIn => "not_in"
  }

  /** The operator string the store understands. */
  function OperatorString(op: Operator): string
  {
    match op
    case Lt => "<"
    case Lte => "<="
    case Gt => ">"
    case Gte => ">="
    case Eq => "=="
    case Neq => "!="
    case ArrContains => "array-contains"
    case In => "in"
    case NotIn => "not-in"
  }

  /** `Object.entries(Operator)`. */
  const OperatorEntries: seq<(string, string)> :=
    [("lt", "<"), ("lte", "<="), ("gt", ">"), ("gte", ">="), ("eq", "=="), ("neq", "!="),
     ("arr_contains", "array-contains"), ("in", "in"), ("not_in", "not-in")]

  /** `entries.filter((pair) => pair[0] == name)`. */
  function EntriesWithKey(entries: seq<(string, string)>, name: string): (r: seq<(string, string)>)
    ensures forall i :: 0 <= i < |r| ==> r[i] in entries && r[i].0 == name
    ensures forall e :: e in entries && e.0 == name ==> e in r
  {
    if entries == [] then []
    else if entries[0].0 == name then [entries[0]] + EntriesWithKey(entries[1..], name)
    else EntriesWithKey(entries[1..], name)
  }

  /** `Object.entries(Operator).filter((pair) => pair[0] == name)[0][1]`:
      None where the code would read a property of `undefined`. */
  function LookupOperator(name: string): Option<string>
  {
    var found := EntriesWithKey(OperatorEntries, name);
    if found == [] then None else Some(found[0].1)
  }

  /** The table lists every operator once, under its name and with its string. */
  lemma OperatorEntriesListEveryOperator()
    ensures forall op: Operator :: (OperatorName(op), OperatorString(op)) in OperatorEntries
    ensures forall e :: e in OperatorEntries ==> exists op: Operator :: e == (OperatorName(op), OperatorString(op))
  {
    var ops := [Lt, Lte, Gt, Gte, Eq, Neq, ArrContains, In, NotIn];
    assert forall i :: 0 <= i < 9 ==> OperatorEntries[i] == (OperatorName(ops[i]), OperatorString(ops[i]));
  }

  /** Looking an operator up by its name yields its store string. */
  lemma {:induction false} LookupOperatorByName(op: Operator)
    ensures LookupOperator(OperatorName(op)) == Some(OperatorString(op))
  {
    var found := EntriesWithKey(OperatorEntries, OperatorName(op));
    OperatorEntriesListEveryOperator();
    assert (OperatorName(op), OperatorString(op)) in found;
    OperatorNamesDistinct();
    assert found[0] in OperatorEntries && found[0].0 == OperatorName(op);
  }

  /** A name that is no operator's name finds nothing. */
  lemma LookupOperatorUnknown(name: string)
    requires forall op: Operator :: OperatorName(op) != name
    ensures LookupOperator(name) == None
  {
    OperatorEntriesListEveryOperator();
  }

  /** Two entries with the same name are the same entry. */
  lemma OperatorNamesDistinct()
    ensures forall e1, e2 :: e1 in OperatorEntries && e2 in OperatorEntries && e1.0 == e2.0 ==> e1 == e2
  {
  }

  /** Different operators have different store strings, so the string the
      lookup yields determines the operator. */
  lemma OperatorStringInjective(a: Operator, b: Operator)
    ensures OperatorString(a) == OperatorString(b) ==> a == b
  {
  }

  datatype FilterType = String | Int | Float | Boolean | Date | DateTime

  function FilterTypeName(t: FilterType): string
  {
    match t
    case String => "String"
    case Int => "Int"
    case Float => "Float"
    case Boolean => "Boolean"
    case Date => "Date"
    case DateTime => "DateTime"
  }

  /** `Object.entries(FilterType)`. */
  const FilterTypeEntries: seq<(string, string)> :=
    [("String", "String"), ("Int", "Int"), ("Float", "Float"), ("Boolean", "Boolean"),
     ("Date", "Date"), ("DateTime", "DateTime")]

  /** Every filter type's value is its own name, and the table lists exactly the six types. */
  lemma FilterTypeValuesAreNames()
    ensures forall i :: 0 <= i < |FilterTypeEntries| ==> FilterTypeEntries[i].0 == FilterTypeEntries[i].1
    ensures forall t: FilterType :: (FilterTypeName(t), FilterTypeName(t)) in FilterTypeEntries
    ensures |FilterTypeEntries| == 6
  {
    var ts := [String, Int, Float, Boolean, Date, DateTime];
    assert forall i :: 0 <= i < 6 ==> FilterTypeEntries[i] == (FilterTypeName(ts[i]), FilterTypeName(ts[i]));
  }
}
