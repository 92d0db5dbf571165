/** The shared vocabulary of the "c" code generator (whose output is Python
    text): precedence tags, generated fragments, the block a generator reads,
    the host primitives it calls, and the definitions table it writes. */
module Blocks {

  datatype Option<T> = None | Some(value: T)

  datatype Result<T> = Ok(value: T) | Err(message: string)

  /** The precedence tags (Blockly.c.ORDER_*) that these generators use.
      Their numeric ranks belong to the host and are not modelled. */
  datatype Order =
    | Atomic | Member | FunctionCall | UnarySign | Additive | Relational
    | LogicalNot | LogicalAnd | LogicalOr | Conditional | NoneOrder

  /** An expression generator's result: the code and its precedence tag. */
  datatype Fragment = Fragment(code: string, order: Order)

  /** What a generator reads of one block. `valueToCode(name, order)` is the
      code the host produced for the value input `name` when asked at
      precedence `order`, and "" when that input is empty; `statementToCode`
      likewise for statement inputs. The counters and lists are the block's
      `itemCount_`, `elseifCount_`, `elseCount_`, `arguments_` and
      `hasReturnValue_`. */
  datatype Block = Block(
    id: string,
    fields: map<string, string>,
    valueToCode: (string, Order) -> string,
    statementToCode: string -> string,
    itemCount: nat,
    elseifCount: nat,
    elseCount: nat,
    arguments: seq<string>,
    hasReturnValue: bool)

  /** `block.getTitleValue(name)`; an absent field reads as "". */
  function Field(b: Block, name: string): string
  {
    if name in b.fields then b.fields[name] else ""
  }

  /** The host primitives the generators call, fixed for one generation pass:
      `variableDB_.getName` for variables and for procedures,
      `variableDB_.getDistinctName`, `quote_`, `provideFunction_` (given the
      desired name and the helper's lines, it answers the helper's name),
      `FUNCTION_NAME_PLACEHOLDER_`, `scrub_` and
      `Blockly.Variables.allVariables`. */
  datatype Host = Host(
    variableName: string -> string,
    procedureName: string -> string,
    distinctName: string -> string,
    quote: string -> string,
    provideFunction: (string, seq<string>) -> string,
    functionNamePlaceholder: string,
    scrub: (Block, string) -> string,
    allVariables: Block -> seq<string>)

  /** JavaScript's `code || fallback` on a child fragment: an empty fragment
      means an empty input and is replaced, any other is kept as it is. */
  function OrDefault(code: string, fallback: string): (r: string)
    ensures code != "" ==> r == code
    ensures code == "" ==> r == fallback
    ensures fallback != "" ==> r != ""
  {
    if code == "" then fallback else code
  }

  /** `Array.prototype.join`: the parts in order, `sep` between neighbours. */
  function Join(parts: seq<string>, sep: string): string
  {
    if |parts| == 0 then ""
    else if |parts| == 1 then parts[0]
    else parts[0] + sep + Join(parts[1..], sep)
  }

  /** Joining one more part adds exactly one separator and that part at the
      end, so a joined list of n parts holds them in order with n - 1
      separators. */
  lemma {:induction false} JoinAppend(parts: seq<string>, p: string, sep: string)
    requires parts != []
    ensures Join(parts + [p], sep) == Join(parts, sep) + sep + p
  {
    if |parts| > 1 {
      assert (parts + [p])[1..] == parts[1..] + [p];
      JoinAppend(parts[1..], p, sep);
    }
  }

  /** Code built around a fixed prefix or suffix differs exactly where the
      middle part does. */
  lemma PrefixCancels(x: string, s1: string, s2: string)
    ensures x + s1 == x + s2 ==> s1 == s2
  {
    if x + s1 == x + s2 {
      assert s1 == (x + s1)[|x|..];
    }
  }

  lemma SuffixCancels(s1: string, s2: string, y: string)
    ensures s1 + y == s2 + y ==> s1 == s2
  {
    if s1 + y == s2 + y {
      assert s1 == (s1 + y)[..|s1|];
    }
  }

  /** `Blockly.c.definitions_`: helper imports and procedure definitions
      collected during one pass, keyed by name. */
  class Definitions {
    var entries: map<string, string>

    constructor ()
      ensures entries == map[]
    {
      entries := map[];
    }

    /** `definitions_[key] = value`. */
    method Put(key: string, value: string)
      modifies this
      ensures entries == old(entries)[key := value]
    {
      entries := entries[key := value];
    }
  }
}
