/** Generators for the procedure blocks (generators/c/procedures.js). */
module Procedures {
  import opened Blocks
  import opened Decimal

  // ------------------------------------------------- procedures_defreturn

  /** The `global` names of a procedure: every variable that is not one of
      its parameters, sanitised by `name`, in the variables' order. */
  function Globals(name: string -> string, vars: seq<string>, params: seq<string>): seq<string>
  {
    if vars == [] then []
    else (if vars[0] in params then [] else [name(vars[0])]) + Globals(name, vars[1..], params)
  }

  /** The loop that walks the variable list backwards, replacing each
      variable by its sanitised name or splicing out a parameter. */
  method GlobalNames(h: Host, b: Block) returns (globals: seq<string>)
    ensures globals == Globals(h.variableName, h.allVariables(b), b.arguments)
  {
    var vars := h.allVariables(b);
    globals := vars;
    var i := |globals| - 1;
    while i >= 0
      invariant -1 <= i < |vars|
      invariant globals == vars[..i + 1] + Globals(h.variableName, vars[i + 1..], b.arguments)
    {
      var varName := globals[i];
      assert varName == vars[i];
      assert vars[i..][1..] == vars[i + 1..];
      assert vars[..i + 1] == vars[..i] + [vars[i]];
      if varName !in b.arguments {
        globals := globals[i := h.variableName(varName)];
      } else {
        globals := globals[..i] + globals[i + 1..];
      }
      i := i - 1;
    }
  }

  /** A name is global exactly when it sanitises some variable that is not a
      parameter. */
  lemma {:induction false} GlobalsMembers(name: string -> string, vars: seq<string>, params: seq<string>, x: string)
    ensures x in Globals(name, vars, params) <==> exists v :: v in vars && v !in params && name(v) == x
  {
    if vars != [] {
      GlobalsMembers(name, vars[1..], params, x);
      assert forall v :: v in vars <==> v == vars[0] || v in vars[1..];
    }
  }

  /** Filtering keeps the relative order: the globals of two lists in a row
      are the globals of the first followed by those of the second. */
  lemma {:induction false} GlobalsAppend(name: string -> string, vs: seq<string>, ws: seq<string>, params: seq<string>)
    ensures Globals(name, vs + ws, params) == Globals(name, vs, params) + Globals(name, ws, params)
  {
    if vs == [] {
      assert vs + ws == ws;
    } else {
      assert (vs + ws)[1..] == vs[1..] + ws;
      GlobalsAppend(name, vs[1..], ws, params);
    }
  }

  /** With a sanitiser that never merges two names, no parameter's name is
      ever declared global. */
  lemma GlobalsExcludeParameters(name: string -> string, vars: seq<string>, params: seq<string>, p: string)
    requires forall u, v :: name(u) == name(v) ==> u == v
    requires p in params
    ensures name(p) !in Globals(name, vars, params)
  {
  }

  /** The `global` line: emitted exactly when there are globals. */
  function GlobalsLine(globals: seq<string>): (line: string)
    ensures line == "" <==> globals == []
    ensures globals != [] ==> line == "  global " + Join(globals, ", ") + "\n"
  {
    if |globals| > 0 then "  global " + Join(globals, ", ") + "\n" else ""
  }

  /** The sanitised parameters, in declared order. */
  function Parameters(h: Host, b: Block): (args: seq<string>)
    ensures |args| == |b.arguments|
    ensures forall x :: 0 <= x < |args| ==> args[x] == h.variableName(b.arguments[x])
  {
    seq(|b.arguments|, x requires 0 <= x < |b.arguments| => h.variableName(b.arguments[x]))
  }

  /** The loop that sanitises the parameters. */
  method ParameterNames(h: Host, b: Block) returns (args: seq<string>)
    ensures args == Parameters(h, b)
  {
    args := [];
    var x := 0;
    while x < |b.arguments|
      invariant 0 <= x <= |b.arguments|
      invariant |args| == x
      invariant forall k :: 0 <= k < x ==> args[k] == h.variableName(b.arguments[k])
    {
      args := args + [h.variableName(b.arguments[x])];
      x := x + 1;
    }
  }

  /** A parameter is never also declared global, when sanitising keeps
      distinct names distinct. */
  lemma ParametersNeverGlobal(h: Host, b: Block, x: nat)
    requires forall u, v :: h.variableName(u) == h.variableName(v) ==> u == v
    requires x < |b.arguments|
    ensures Parameters(h, b)[x] !in Globals(h.variableName, h.allVariables(b), b.arguments)
  {
    GlobalsExcludeParameters(h.variableName, h.allVariables(b), b.arguments, b.arguments[x]);
  }

  /** The body: the STACK statements, or `  pass` (no newline) when there
      are none and no return value either. */
  function ProcedureBody(b: Block): (branch: string)
    ensures b.valueToCode("RETURN", NoneOrder) == "" && b.statementToCode("STACK") == "" ==> branch == "  pass"
    ensures b.valueToCode("RETURN", NoneOrder) != "" || b.statementToCode("STACK") != "" ==>
      branch == b.statementToCode("STACK")
  {
    if b.valueToCode("RETURN", NoneOrder) == "" && b.statementToCode("STACK") == "" then "  pass"
    else b.statementToCode("STACK")
  }

  /** The return line: present exactly when RETURN has code. */
  function ReturnLine(b: Block): (line: string)
    ensures line != "" <==> b.valueToCode("RETURN", NoneOrder) != ""
    ensures line != "" ==> line == "  return " + b.valueToCode("RETURN", NoneOrder) + "\n"
  {
    var returnValue := b.valueToCode("RETURN", NoneOrder);
    if returnValue != "" then "  return " + returnValue + "\n" else ""
  }

  /** The definition before scrubbing: header, globals, body, return. */
  function DefinitionText(h: Host, b: Block): string
  {
    "def " + h.procedureName(Field(b, "NAME")) + "(" + Join(Parameters(h, b), ", ") + "):\n"
    + GlobalsLine(Globals(h.variableName, h.allVariables(b), b.arguments))
    + ProcedureBody(b) + ReturnLine(b)
  }

  /** `procedures_defreturn`, also used for `procedures_defnoreturn`: the
      scrubbed definition is stored under the procedure's sanitised name and
      nothing is returned as code. */
  method DefineProcedure(h: Host, b: Block, defs: Definitions)
    modifies defs
    ensures defs.entries
         == old(defs.entries)[h.procedureName(Field(b, "NAME")) := h.scrub(b, DefinitionText(h, b))]
  {
    var globals := GlobalNames(h, b);
    var globalsLine := if |globals| > 0 then "  global " + Join(globals, ", ") + "\n" else "";
    var funcName := h.procedureName(Field(b, "NAME"));
    var branch := b.statementToCode("STACK");
    var returnValue := OrDefault(b.valueToCode("RETURN", NoneOrder), "");
    if returnValue != "" {
      returnValue := "  return " + returnValue + "\n";
    } else if branch == "" {
      branch := "  pass";
    }
    var args := ParameterNames(h, b);
    var code := "def " + funcName + "(" + Join(args, ", ") + "):\n" + globalsLine + branch + returnValue;
    code := h.scrub(b, code);
    defs.Put(funcName, code);
  }

  // ------------------------------------------------------ procedure calls

  /** Argument x of a call: input ARGx, `None` when it is empty. */
  function CallArgument(b: Block, x: nat): string
  {
    OrDefault(b.valueToCode("ARG" + NatToString(x), NoneOrder), "None")
  }

  /** One argument per parameter of the called procedure, in order. */
  function CallArguments(b: Block): (args: seq<string>)
    ensures |args| == |b.arguments|
    ensures forall x :: 0 <= x < |args| ==> args[x] == CallArgument(b, x)
  {
    seq(|b.arguments|, x requires 0 <= x < |b.arguments| => CallArgument(b, x))
  }

  /** The loop that collects the arguments of a call. */
  method CollectArguments(b: Block) returns (args: seq<string>)
    ensures args == CallArguments(b)
  {
    args := [];
    var x := 0;
    while x < |b.arguments|
      invariant 0 <= x <= |b.arguments|
      invariant |args| == x
      invariant forall k :: 0 <= k < x ==> args[k] == CallArgument(b, k)
    {
      args := args + [CallArgument(b, x)];
      x := x + 1;
    }
  }

  /** The call expression both call generators emit. */
  function CallCode(h: Host, b: Block): string
  {
    h.procedureName(Field(b, "NAME")) + "(" + Join(CallArguments(b), ", ") + ")"
  }

  /** `procedures_callreturn`: the call, as an expression. */
  method CallReturn(h: Host, b: Block) returns (r: Fragment)
    ensures r == Fragment(CallCode(h, b), FunctionCall)
  {
    var funcName := h.procedureName(Field(b, "NAME"));
    var args := CollectArguments(b);
    r := Fragment(funcName + "(" + Join(args, ", ") + ")", FunctionCall);
  }

  /** `procedures_callnoreturn`: the same call, as a statement line. */
  method CallNoReturn(h: Host, b: Block) returns (code: string)
    ensures code == CallCode(h, b) + "\n"
  {
    var funcName := h.procedureName(Field(b, "NAME"));
    var args := CollectArguments(b);
    code := funcName + "(" + Join(args, ", ") + ")\n";
  }

  // --------------------------------------------------- procedures_ifreturn

  /** `procedures_ifreturn`: `if cond:` (cond defaults to `False`), then
      `return v` (v defaults to `None`) when the procedure has a return value
      and a bare `return` otherwise. */
  function IfReturn(b: Block): (code: string)
    ensures var head := "if " + OrDefault(b.valueToCode("CONDITION", NoneOrder), "False") + ":\n";
      && (b.hasReturnValue ==>
            code == head + "  return " + OrDefault(b.valueToCode("VALUE", NoneOrder), "None") + "\n")
      && (!b.hasReturnValue ==> code == head + "  return\n")
  {
    var condition := OrDefault(b.valueToCode("CONDITION", NoneOrder), "False");
    var code := "if " + condition + ":\n";
    if b.hasReturnValue then
      code + "  return " + OrDefault(b.valueToCode("VALUE", NoneOrder), "None") + "\n"
    else
      code + "  return\n"
  }
}
