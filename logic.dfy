/** Generators for the logic blocks (generators/c/logic.js). */
module Logic {
  import opened Blocks
  import opened Decimal

  // --------------------------------------------------------- controls_if

  /** Condition n of a conditional: input IFn, `False` when it is empty. */
  function Condition(b: Block, n: nat): string
  {
    OrDefault(b.valueToCode("IF" + NatToString(n), NoneOrder), "False")
  }

  /** A branch: the statements of `slot`, `  pass\n` when there are none. */
  function Branch(b: Block, slot: string): string
  {
    OrDefault(b.statementToCode(slot), "  pass\n")
  }

  function IfClause(b: Block): string
  {
    "if " + Condition(b, 0) + ":\n" + Branch(b, "DO0")
  }

  function ElifClause(b: Block, n: nat): string
  {
    "elif " + Condition(b, n) + ":\n" + Branch(b, "DO" + NatToString(n))
  }

  function ElseClause(b: Block): string
  {
    "else:\n" + Branch(b, "ELSE")
  }

  /** The `elif` clauses for n = 1 .. m, in order. */
  function ElifClauses(b: Block, m: nat): (cs: seq<string>)
    ensures |cs| == m
    ensures forall k :: 0 <= k < m ==> cs[k] == ElifClause(b, k + 1)
  {
    if m == 0 then [] else ElifClauses(b, m - 1) + [ElifClause(b, m)]
  }

  /** The clauses of the conditional a block describes: one `if`, one `elif`
      per else-if counted by the block, and an `else` iff its else count is
      nonzero. */
  function Clauses(b: Block): seq<string>
  {
    [IfClause(b)] + ElifClauses(b, b.elseifCount) + (if b.elseCount != 0 then [ElseClause(b)] else [])
  }

  /** The clause list has the shape of one cascading conditional. */
  lemma ClausesShape(b: Block)
    ensures var cs := Clauses(b);
      && |cs| == 1 + b.elseifCount + (if b.elseCount != 0 then 1 else 0)
      && cs[0] == "if " + Condition(b, 0) + ":\n" + Branch(b, "DO0")
      && (forall n :: 1 <= n <= b.elseifCount ==>
            cs[n] == "elif " + Condition(b, n) + ":\n" + Branch(b, "DO" + NatToString(n)))
      && (b.elseCount != 0 ==> cs[|cs| - 1] == "else:\n" + Branch(b, "ELSE"))
  {
  }

  /** An empty condition reads `False` and an empty branch `  pass\n`. */
  lemma ControlsIfDefaults(b: Block, n: nat, slot: string)
    ensures b.valueToCode("IF" + NatToString(n), NoneOrder) == "" ==> Condition(b, n) == "False"
    ensures b.valueToCode("IF" + NatToString(n), NoneOrder) != "" ==>
      Condition(b, n) == b.valueToCode("IF" + NatToString(n), NoneOrder)
    ensures b.statementToCode(slot) == "" ==> Branch(b, slot) == "  pass\n"
    ensures b.statementToCode(slot) != "" ==> Branch(b, slot) == b.statementToCode(slot)
  {
  }

  /** The loop of `controls_if`: the `if` clause, then the `elif` clauses
      accumulated in order. */
  method IfElifChain(b: Block) returns (code: string)
    ensures code == Join([IfClause(b)] + ElifClauses(b, b.elseifCount), "")
  {
    var n := 0;
    var argument := Condition(b, n);
    var branch := Branch(b, "DO0");
    code := "if " + argument + ":\n" + branch;
    assert [IfClause(b)] + ElifClauses(b, 0) == [IfClause(b)];
    n := 1;
    while n <= b.elseifCount
      invariant 1 <= n <= b.elseifCount + 1
      invariant code == Join([IfClause(b)] + ElifClauses(b, n - 1), "")
    {
      argument := Condition(b, n);
      branch := Branch(b, "DO" + NatToString(n));
      var clause := "elif " + argument + ":\n" + branch;
      assert clause == ElifClause(b, n);
      ChainGrows(b, n);
      code := code + clause;
      n := n + 1;
    }
  }

  /** Each turn of that loop appends the next `elif` clause. */
  lemma ChainGrows(b: Block, n: nat)
    requires n >= 1
    ensures Join([IfClause(b)] + ElifClauses(b, n), "")
         == Join([IfClause(b)] + ElifClauses(b, n - 1), "") + ElifClause(b, n)
  {
    var before := [IfClause(b)] + ElifClauses(b, n - 1);
    assert [IfClause(b)] + ElifClauses(b, n) == before + [ElifClause(b, n)];
    JoinAppend(before, ElifClause(b, n), "");
  }

  /** `controls_if`: the `if` and `elif` clauses, then the `else` clause
      when the block has one. */
  method ControlsIf(b: Block) returns (code: string)
    ensures code == Join(Clauses(b), "")
  {
    code := IfElifChain(b);
    ghost var clauses := [IfClause(b)] + ElifClauses(b, b.elseifCount);
    if b.elseCount != 0 {
      var branch := Branch(b, "ELSE");
      JoinAppend(clauses, ElseClause(b), "");
      code := code + ("else:\n" + branch);
      assert Clauses(b) == clauses + [ElseClause(b)];
    } else {
      assert Clauses(b) == clauses;
    }
  }

  // ------------------------------------------------------- logic_compare

  /** The OP table of `logic_compare`. */
  const CompareOperators: map<string, string> :=
    map["EQ" := "==", "NEQ" := "!=", "LT" := "<", "LTE" := "<=", "GT" := ">", "GTE" := ">="]

  /** A comparison operand: asked at relational precedence, `0` when empty. */
  function CompareOperand(b: Block, name: string): string
  {
    OrDefault(b.valueToCode(name, Relational), "0")
  }

  /** `logic_compare`: `a op b` with the operator OP names, at relational
      precedence. */
  function LogicCompare(b: Block): (r: Fragment)
    requires Field(b, "OP") in CompareOperators
    ensures r.order == Relational
    ensures r.code == CompareOperand(b, "A") + " " + CompareOperators[Field(b, "OP")] + " " + CompareOperand(b, "B")
  {
    var operator := CompareOperators[Field(b, "OP")];
    var order := Relational;
    var argument0 := CompareOperand(b, "A");
    var argument1 := CompareOperand(b, "B");
    Fragment(argument0 + " " + operator + " " + argument1, order)
  }

  /** The emitted code determines the comparison: two blocks that differ
      only in their OP emit different code. */
  lemma CompareKeepsOperator(b: Block, k1: string, k2: string)
    requires k1 in CompareOperators && k2 in CompareOperators && k1 != k2
    ensures LogicCompare(b.(fields := b.fields["OP" := k1])).code
         != LogicCompare(b.(fields := b.fields["OP" := k2])).code
  {
    var x := CompareOperand(b, "A") + " ";
    var y := " " + CompareOperand(b, "B");
    var o1 := CompareOperators[k1];
    var o2 := CompareOperators[k2];
    assert LogicCompare(b.(fields := b.fields["OP" := k1])).code == x + (o1 + y);
    assert LogicCompare(b.(fields := b.fields["OP" := k2])).code == x + (o2 + y);
    PrefixCancels(x, o1 + y, o2 + y);
    SuffixCancels(o1, o2, y);
  }

  // ----------------------------------------------------- logic_operation

  /** The operator `logic_operation` emits: `and` for AND, `or` otherwise. */
  function LogicOperator(b: Block): string
  {
    if Field(b, "OP") == "AND" then "and" else "or"
  }

  /** The precedence of that operator. */
  function LogicOrder(operator: string): Order
  {
    if operator == "and" then LogicalAnd else LogicalOr
  }

  /** The literal standing in for a single missing operand: the operator's
      identity element. */
  function DefaultOperand(operator: string): string
  {
    if operator == "and" then "True" else "False"
  }

  /** `logic_operation`. Both operands missing: both become `False`. One
      missing: it becomes the operator's identity and the other is kept. */
  function LogicOperation(b: Block): (r: Fragment)
    ensures var operator := LogicOperator(b);
            var a := b.valueToCode("A", LogicOrder(operator));
            var c := b.valueToCode("B", LogicOrder(operator));
      && r.order == LogicOrder(operator)
      && (a == "" && c == "" ==> r.code == "False " + operator + " False")
      && (a != "" && c != "" ==> r.code == a + " " + operator + " " + c)
      && (a == "" && c != "" ==> r.code == DefaultOperand(operator) + " " + operator + " " + c)
      && (a != "" && c == "" ==> r.code == a + " " + operator + " " + DefaultOperand(operator))
  {
    var operator := LogicOperator(b);
    var order := LogicOrder(operator);
    var argument0 := b.valueToCode("A", order);
    var argument1 := b.valueToCode("B", order);
    var operands :=
      if argument0 == "" && argument1 == "" then ("False", "False")
      else (OrDefault(argument0, DefaultOperand(operator)), OrDefault(argument1, DefaultOperand(operator)));
    Fragment(operands.0 + " " + operator + " " + operands.1, order)
  }

  /** The operator is `and` exactly when OP is AND, and the precedence tag
      always matches the operator emitted. */
  lemma LogicOperatorChoice(b: Block)
    ensures LogicOperator(b) == "and" <==> Field(b, "OP") == "AND"
    ensures LogicOperator(b) == "or" <==> Field(b, "OP") != "AND"
    ensures LogicOperation(b).order == LogicalAnd <==> Field(b, "OP") == "AND"
  {
  }

  /** Python's truth value of a boolean literal. */
  function Truth(literal: string): bool
  {
    literal == "True"
  }

  /** What a Python `and`/`or` between two booleans evaluates to. */
  function Apply(operator: string, x: bool, y: bool): bool
  {
    if operator == "and" then x && y else x || y
  }

  /** A single missing operand has no effect on the result: its default is
      the identity of the operator emitted, on either side. Both missing
      yields false whatever the operator. */
  lemma MissingOperandsMeaning(b: Block, x: bool)
    ensures Apply(LogicOperator(b), Truth(DefaultOperand(LogicOperator(b))), x) == x
    ensures Apply(LogicOperator(b), x, Truth(DefaultOperand(LogicOperator(b)))) == x
    ensures !Apply(LogicOperator(b), Truth("False"), Truth("False"))
  {
  }

  // ---------------------------------------- negate, boolean, null, ternary

  /** `logic_negate`: `not` before BOOL, which defaults to `True`. */
  function LogicNegate(b: Block): (r: Fragment)
    ensures r.order == LogicalNot
    ensures b.valueToCode("BOOL", LogicalNot) == "" ==> r.code == "not True"
    ensures b.valueToCode("BOOL", LogicalNot) != "" ==> r.code == "not " + b.valueToCode("BOOL", LogicalNot)
  {
    Fragment("not " + OrDefault(b.valueToCode("BOOL", LogicalNot), "True"), LogicalNot)
  }

  /** `logic_boolean`: `True` exactly when BOOL is TRUE, else `False`. */
  function LogicBoolean(b: Block): (r: Fragment)
    ensures r.order == Atomic
    ensures r.code == "True" <==> Field(b, "BOOL") == "TRUE"
    ensures r.code == "False" <==> Field(b, "BOOL") != "TRUE"
  {
    Fragment(if Field(b, "BOOL") == "TRUE" then "True" else "False", Atomic)
  }

  /** `logic_null`: the atom `None`. */
  function LogicNull(b: Block): (r: Fragment)
    ensures r == Fragment("None", Atomic)
  {
    Fragment("None", Atomic)
  }

  /** `logic_ternary`: `then if cond else else`, with defaults `None`,
      `False` and `None`, at conditional precedence. */
  function LogicTernary(b: Block): (r: Fragment)
    ensures r.order == Conditional
    ensures r.code == OrDefault(b.valueToCode("THEN", Conditional), "None")
                      + " if " + OrDefault(b.valueToCode("IF", Conditional), "False")
                      + " else " + OrDefault(b.valueToCode("ELSE", Conditional), "None")
  {
    var valueIf := OrDefault(b.valueToCode("IF", Conditional), "False");
    var valueThen := OrDefault(b.valueToCode("THEN", Conditional), "None");
    var valueElse := OrDefault(b.valueToCode("ELSE", Conditional), "None");
    Fragment(valueThen + " if " + valueIf + " else " + valueElse, Conditional)
  }
}
