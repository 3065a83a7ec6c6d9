/**
 The simple rule builder (web/src/features/analysis/model.ts): compiling a list
 of conditions to a decision table, and evaluating such a table first hit.
 */
module Builder {
  import opened Common
  import opened Collation
  import opened GraphLogic
  import opened SameLogic
  import opened ZenText

  datatype ColumnType = OfString | OfNumber | OfBoolean

  datatype Column = Column(name: string, kind: ColumnType)

  datatype Condition = Condition(id: string, column: string, operator: string, value: string)

  const OPERATORS := {"eq", "neq", "gt", "gte", "lt", "lte", "empty", "notempty"}

  /** The type of the first column with the name. */
  function TypeOf(columns: seq<Column>, name: string): Option<ColumnType> {
    if columns == [] then None
    else if columns[0].name == name then Some(columns[0].kind)
    else TypeOf(columns[1..], name)
  }

  function PrefixOf(operator: string): string {
    if operator == "neq" then "!= "
    else if operator == "gt" then "> "
    else if operator == "gte" then ">= "
    else if operator == "lt" then "< "
    else if operator == "lte" then "<= "
    else ""
  }

  function Expression(c: Condition, columns: seq<Column>): string {
    if c.operator == "empty" then EMPTY
    else if c.operator == "notempty" then NOT_EMPTY
    else
      PrefixOf(c.operator)
      + if TypeOf(columns, c.column) == Some(OfString) then "(" + ZenString(c.value) + ")" else c.value
  }

  // ----- what a condition means -----

  predicate Valueless(operator: string) {
    operator == "empty" || operator == "notempty"
  }

  /** What the condition form admits, by the type of the column. */
  predicate FormAccepts(c: Condition, columns: seq<Column>) {
    && c.operator in OPERATORS && TypeOf(columns, c.column).Some?
    && (Valueless(c.operator) ||
        match TypeOf(columns, c.column).value
        case OfString => true
        case OfNumber => NumberText(c.value)
        case OfBoolean => c.value == "true" || c.value == "false")
  }

  function Meant(operator: string): Operator {
    if operator == "neq" then Neq
    else if operator == "gt" then Gt
    else if operator == "gte" then Gte
    else if operator == "lt" then Lt
    else if operator == "lte" then Lte
    else Eq
  }

  function OperandOf(c: Condition, columns: seq<Column>): Operand {
    match TypeOf(columns, c.column)
    case Some(OfString) => Literal(c.value)
    case Some(OfBoolean) => Truth(c.value == "true")
    case _ => Number(c.value)
  }

  function TestOf(c: Condition, columns: seq<Column>): Test {
    if c.operator == "empty" then Empty
    else if c.operator == "notempty" then NotEmpty
    else Compare(Meant(c.operator), OperandOf(c, columns))
  }

  lemma {:induction false} OperandReads(c: Condition, columns: seq<Column>)
    requires FormAccepts(c, columns) && !Valueless(c.operator)
    ensures var s := if TypeOf(columns, c.column) == Some(OfString) then "(" + ZenString(c.value) + ")" else c.value;
      OperandStart(s) && ParseOperand(s) == Some(OperandOf(c, columns))
  {
    hide ZenString, TypeOf, ReadConcat;
    match TypeOf(columns, c.column).value {
      case OfString => LiteralReads(c.value);
      case OfNumber => NumberStarts(c.value);
      case OfBoolean => assert "true"[0] == 't' && "false"[0] == 'f';
    }
  }

  /** The cell a condition is compiled to tests what the condition means. */
  lemma {:induction false} ExpressionReads(c: Condition, columns: seq<Column>)
    requires FormAccepts(c, columns)
    ensures ParseTest(Expression(c, columns)) == Some(TestOf(c, columns))
  {
    hide ZenString, TypeOf, ParseOperand, OperandOf, NumberText;
    if Valueless(c.operator) {
      assert EMPTY[0] == 'n' && NOT_EMPTY[0] == '$';
    } else {
      OperandReads(c, columns);
      var s := if TypeOf(columns, c.column) == Some(OfString) then "(" + ZenString(c.value) + ")" else c.value;
      PrefixMeant(c.operator);
      TestReads(Meant(c.operator), s);
    }
  }

  lemma {:induction false} PrefixMeant(operator: string)
    ensures PrefixOf(operator) == Prefix(Meant(operator))
  {
  }

  /** Operator by operator and type by type: the test that a compiled cell makes. */
  lemma {:induction false} CellsMean(c: Condition, columns: seq<Column>)
    requires FormAccepts(c, columns)
    ensures var cell, operand := ParseTest(Expression(c, columns)), OperandOf(c, columns);
      && (c.operator == "eq" ==> cell == Some(Compare(Eq, operand)))
      && (c.operator == "neq" ==> cell == Some(Compare(Neq, operand)))
      && (c.operator == "gt" ==> cell == Some(Compare(Gt, operand)))
      && (c.operator == "gte" ==> cell == Some(Compare(Gte, operand)))
      && (c.operator == "lt" ==> cell == Some(Compare(Lt, operand)))
      && (c.operator == "lte" ==> cell == Some(Compare(Lte, operand)))
      && (c.operator == "empty" ==> cell == Some(Empty))
      && (c.operator == "notempty" ==> cell == Some(NotEmpty))
      && (TypeOf(columns, c.column) == Some(OfString) ==> operand == Literal(c.value))
      && (TypeOf(columns, c.column) == Some(OfNumber) ==> operand == Number(c.value))
      && (TypeOf(columns, c.column) == Some(OfBoolean) ==> operand == Truth(c.value == "true"))
  {
    hide ParseTest, Expression, TypeOf, NumberText;
    ExpressionReads(c, columns);
    OperatorsDiffer();
  }

  lemma {:induction false} OperatorsDiffer()
    ensures "eq" != "neq" && "gt" != "lt" && "gte" != "lte" && "eq" != "gt" && "eq" != "lt" && "neq" != "gte"
    ensures "neq" != "lte" && "empty"[0] != "notempty"[0]
  {
    assert "eq"[0] == 'e' && "gt"[0] == 'g' && "lt"[0] == 'l' && "neq"[0] == 'n' && "gte"[0] == 'g' && "lte"[0] == 'l';
  }

  // ----- the compiled graph -----

  function TextField(key: string, text: string): Field {
    Field(key, Some(RStr(text)))
  }

  function AssignTexts(fs: seq<Field>, conditions: seq<Condition>, cell: Condition -> string): seq<Field> {
    if conditions == [] then fs
    else
      var c := conditions[|conditions| - 1];
      Assign(AssignTexts(fs, conditions[..|conditions| - 1], cell), c.id, RStr(cell(c)))
  }

  function RuleFields(name: string, conditions: seq<Condition>, cell: Condition -> string, flag: string,
      reason: string): seq<Field> {
    Assign(Assign(AssignTexts([TextField("_id", name)], conditions, cell), "flag", RStr(flag)), "reason", RStr(reason))
  }

  function Rule(name: string, conditions: seq<Condition>, cell: Condition -> string, flag: string,
      reason: string): Raw {
    RObj(RuleFields(name, conditions, cell, flag, reason))
  }

  const REASON := "Matches the configured conditions"
  const MATCHES := Quoted(REASON)
  const OTHERWISE := Quoted("No matching condition")

  function MatchRule(columns: seq<Column>, conditions: seq<Condition>): Raw {
    Rule("match", conditions, c => Expression(c, columns), "true", MATCHES)
  }

  function OtherwiseRule(conditions: seq<Condition>): Raw {
    Rule("otherwise", conditions, c => "", "false", OTHERWISE)
  }

  function InputOf(c: Condition): Raw {
    RObj([TextField("id", c.id), TextField("name", c.column), TextField("field", FieldText(c.column))])
  }

  function OutputOf(id: string, name: string): Raw {
    RObj([TextField("id", id), TextField("name", name), TextField("field", id)])
  }

  function Inputs(conditions: seq<Condition>): seq<Raw> {
    seq(|conditions|, i requires 0 <= i < |conditions| => InputOf(conditions[i]))
  }

  function TableFields(columns: seq<Column>, conditions: seq<Condition>): seq<Field> {
    [TextField("hitPolicy", "first"),
     Field("inputs", Some(RArr(Inputs(conditions)))),
     Field("outputs", Some(RArr([OutputOf("flag", "Flag"), OutputOf("reason", "Reason")]))),
     Field("rules", Some(RArr((if conditions != [] then [MatchRule(columns, conditions)] else [])
                              + [OtherwiseRule(conditions)])))]
  }

  function Position(x: string, y: string): Raw {
    RObj([Field("x", Some(RNum(x))), Field("y", Some(RNum(y)))])
  }

  function SchemaContent(schema: string): Option<Raw> {
    Some(RObj([TextField("schema", schema)]))
  }

  /** `makeModel`; the text of the input schema is a parameter. */
  function MakeGraph(columns: seq<Column>, conditions: seq<Condition>, schema: string): Graph {
    Graph([Node("data-input", "Your data", "inputNode", Position("80", "180"), SchemaContent(schema)),
           Node("autodit-rules", "Flag matching rows", TABLE, Position("380", "180"),
             Some(RObj(TableFields(columns, conditions)))),
           Node("data-output", "Results", "outputNode", Position("710", "180"), SchemaContent(""))],
          [Edge("input-rules", "data-input", "autodit-rules", None, None),
           Edge("rules-output", "autodit-rules", "data-output", None, None)])
  }

  // ----- first-hit evaluation -----

  /** A field of a row of the dataset. */
  datatype Value = VNull | VText(text: string) | VNumber(digits: string) | VTruth(truth: bool)

  type Row = map<string, Value>

  function ValueOf(row: Row, column: string): Value {
    if column in row then row[column] else VNull
  }

  function Get(r: Raw, key: string): Raw {
    if r.RObj? then (match Find(r.fields, key) case Some(v) => v case None => RNull) else RNull
  }

  function TextOf(r: Raw): string {
    if r.RStr? then r.s else ""
  }

  function ItemsOf(r: Raw): seq<Raw> {
    if r.RArr? then r.items else []
  }

  /** Whether a rule's cell under an input holds of the row; `holds` is the engine's answer for one test. */
  predicate CellHolds(holds: (Test, Value) -> bool, rule: Raw, input: Raw, row: Row) {
    match ParseTest(TextOf(Get(rule, TextOf(Get(input, "id")))))
    case None => false
    case Some(test) =>
      test.Any? || match FieldColumn(TextOf(Get(input, "field")))
                   case None => holds(test, VNull)
                   case Some(column) => holds(test, ValueOf(row, column))
  }

  predicate RuleHolds(holds: (Test, Value) -> bool, inputs: seq<Raw>, rule: Raw, row: Row) {
    forall i :: 0 <= i < |inputs| ==> CellHolds(holds, rule, inputs[i], row)
  }

  /** The first of the rules that holds. */
  function FirstHit(holds: (Test, Value) -> bool, inputs: seq<Raw>, rules: seq<Raw>, row: Row): Option<Raw> {
    if rules == [] then None
    else if RuleHolds(holds, inputs, rules[0], row) then Some(rules[0])
    else FirstHit(holds, inputs, rules[1..], row)
  }

  /** A first-hit table flags the row. */
  predicate Flags(holds: (Test, Value) -> bool, table: Raw, row: Row) {
    && TextOf(Get(table, "hitPolicy")) == "first"
    && var hit := FirstHit(holds, ItemsOf(Get(table, "inputs")), ItemsOf(Get(table, "rules")), row);
      hit.Some? && TextOf(Get(hit.value, "flag")) == "true"
  }

  /** Some decision table of the graph flags the row. */
  predicate GraphFlags(holds: (Test, Value) -> bool, g: Graph, row: Row) {
    exists i :: 0 <= i < |g.nodes| && g.nodes[i].kind == TABLE && ContentOf(g.nodes[i]).Some?
                && Flags(holds, ContentOf(g.nodes[i]).value, row)
  }

  predicate ConditionHolds(holds: (Test, Value) -> bool, c: Condition, columns: seq<Column>, row: Row) {
    holds(TestOf(c, columns), ValueOf(row, c.column))
  }

  // ----- saved analyses -----

  /** The builder's own record of its conditions in a saved model. */
  datatype Metadata = Metadata(mode: string, conditions: seq<Condition>)

  datatype Model = Model(metadata: Option<Metadata>, graph: Graph)

  predicate Restorable(c: Condition, columns: seq<Column>) {
    TypeOf(columns, c.column).Some? && c.operator in OPERATORS
  }

  function SimpleConditions(le: Order, m: Model, columns: seq<Column>, schema: string): Option<seq<Condition>> {
    if m.metadata.None? || m.metadata.value.mode != "simple" then None
    else
      var cs := m.metadata.value.conditions;
      if exists i :: 0 <= i < |cs| && !Restorable(cs[i], columns) then None
      else if SameGraphLogic(le, m.graph, MakeGraph(columns, cs, schema)) then Some(cs)
      else None
  }
}
