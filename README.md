# Blockly "c" code generators, modelled in Dafny

This project models the code generators that a Blockly-based editor registers
for its "c" target. Despite the name, the generators emit Python text. Each
generator receives one block. It reads the block's fields and the code the
host already produced for the block's value and statement inputs. It returns
one of two things:

- a statement string, or
- an expression fragment: code plus a precedence tag (`ORDER_*`).

A few generators also write entries into the shared definitions table
(`Blockly.c.definitions_`).

Modules:

- `Blocks` (blocks.dfy) holds the shared vocabulary:
  - the `Order` tags and the `Fragment` result;
  - the `Block` record: fields, `valueToCode` / `statementToCode` results, `itemCount_`, `elseifCount_`, `elseCount_`, `arguments_`, `hasReturnValue_`;
  - the `Host` record of host primitives: `getName`, `getDistinctName`, `quote_`, `provideFunction_`, `scrub_`, `allVariables`;
  - JavaScript's `x || default` as `OrDefault`, and `Array.join` as `Join`;
  - the definitions table as the class `Definitions`, whose `entries` map the generators update in place.
- `Decimal` (decimal.dfy) covers `Blockly.isNumber` and `parseInt` on integer literals, and the printing of integers into code.
- `Python` (python.dfy) gives the meaning of `s[i]` and `s[lo : hi]` with integer bounds. The index conversions are checked against it.
- `Text`, `Logic` and `Procedures` (text.dfy, logic.dfy, procedures.dfy) hold one generator per block type of generators/c/text.js, logic.js and procedures.js.

Generators that only build a string are functions. Generators whose source uses a counting loop are methods that change no state:

- `TextJoin`
- `ControlsIf`
- `CallReturn`
- `CallNoReturn`

Each loop is also a method of its own: `JoinItems`, `IfElifChain` (the `elif` loop of `controls_if`), `GlobalNames`, `ParameterNames` and `CollectArguments`. Each is proved against a specification function. The two if-chains of `text_getSubstring` are the methods `ConvertStartStep` and `ConvertEndStep`.

Generators that write the definitions table are methods with `modifies defs`: `TextCharAt`, `TextGetSubstring` (with its step `ConvertEndStep` and its corrected variant `TextGetSubstringCorrected`) and `DefineProcedure`.

## Model

| member | source | states |
|---|---|---|
| Blocks.OrDefault | generators/c/text.js:44-45 | a non-empty child fragment is kept unchanged; an empty one becomes the default; a non-empty default never yields empty code |
| Blocks.JoinAppend | generators/c/text.js:63-64 | joining one more part appends exactly one separator and that part, so a joined list holds its parts in order |
| Decimal.IntToStringRoundTrip | generators/c/text.js:122-124 | an integer computed at generation time is printed as a literal that `isNumber` accepts and `parseInt` reads back as the same integer |
| Decimal.NatToStringValue | generators/c/text.js:122-124 | the printed digits of a natural number have exactly its value |
| Decimal.NatToStringInjective | generators/c/text.js:57-58 | numbered input names (ADD0, ADD1, ..., IF1, ARG0, ...) are distinct for distinct numbers; no other member relies on it, since `valueToCode` is an arbitrary function, but it documents that each slot number reads its own input |
| Text.TextLiteral | generators/c/text.js:31-35 | `text` is the host-quoted TEXT field, an atom |
| Text.JoinedItems | generators/c/text.js:57-60 | a join has exactly itemCount_ items, item n being input ADDn or `''` when that input is empty |
| Text.JoinItems | generators/c/text.js:56-60 | the counting loop produces exactly the item list above |
| Text.TextJoin | generators/c/text.js:37-67 | 0 items: `''` at ATOMIC; 1 item: `str(a0)` at FUNCTION_CALL; 2 items: `str(a0) + str(a1)` at UNARY_SIGN; 3 or more: `''.join([str(t) for t in [...]])` over all items in slot order, through one temporary from getDistinctName, at FUNCTION_CALL |
| Text.JoinListGrows | generators/c/text.js:55-65 | the bracketed list of n items is the list of the first n - 1, then `, `, then item n - 1 |
| Text.TextAppend | generators/c/text.js:69-76 | `v = str(v) + str(x)` followed by a newline, with x defaulting to `''` |
| Text.TextLength | generators/c/text.js:78-83 | `len(x)` at FUNCTION_CALL, x defaulting to `''` |
| Text.TextIsEmpty | generators/c/text.js:85-91 | `not` before the length expression, at LOGICAL_NOT |
| Text.TextIndexOf | generators/c/text.js:93-103 | `find` exactly when END is FIRST, `rfind` otherwise; always ends in ` + 1`; at MEMBER |
| Text.TextCharAt | generators/c/text.js:105-145 | FIRST emits `[0]`, LAST `[-1]`, FROM_START the zero-based index, FROM_END `[-at]`, all at MEMBER and without touching the table; RANDOM records `import random` and calls the random-letter helper at FUNCTION_CALL; any other WHERE fails with `Unhandled option (text_charAt).` and leaves the table unchanged |
| Text.CharAtDefaults | generators/c/text.js:108-130 | an empty WHERE reads as FROM_START and an empty AT as 1, so the subscript is `0` |
| Text.CharAtSelects | generators/c/text.js:113-133 | for a literal index n within the text, each direct mode's subscript is a literal selecting the character at the addressed one-based position (FIRST 1, LAST the length, FROM_START n, FROM_END length - n + 1) |
| Text.TextGetSubstring | generators/c/text.js:147-199 | as written: always `text[at1 : at2]` at MEMBER; the start bound converted by WHERE1; the end bound emptied for LAST or FROM_END `1` and otherwise converted by WHERE1, the start's mode; the table gains `import sys` exactly when WHERE1 is FROM_END, the end bound is not emptied and AT2 is not a literal (see Findings) |
| Text.ConvertStartStep | generators/c/text.js:157-174 | the first if-chain yields exactly the start bound `StartBound` |
| Text.ConvertEndStep | generators/c/text.js:175-196 | the second if-chain yields exactly `ConvertEnd` for the mode that keys it, and records `import sys` exactly in the dynamic FROM_END case, changing nothing else |
| Text.TextGetSubstringCorrected | generators/c/text.js:147-199 | the corrected generator: the same slice and start bound, with the end bound and the `sys` import keyed by WHERE2 (see Findings) |
| Text.StartBoundEmpty | generators/c/text.js:157-174 | the start bound is empty exactly for FIRST, or FROM_START with index text `1` |
| Text.ConvertEndCases | generators/c/text.js:175-196 | the end bound is empty for LAST and FROM_END `1`; otherwise, by the mode that keys the conversion: FROM_START keeps a literal n and wraps a dynamic x as `int(x)`; FROM_END turns a literal n into 1 - n (empty exactly when n is 1) and a dynamic x into `int(1 - x) or sys.maxsize` (with the `sys` import); any other mode leaves the index code |
| Text.StartBoundLands | generators/c/text.js:157-174 | for a literal start index within the text, the slice starts at the addressed position |
| Text.EndBoundLands | generators/c/text.js:175-196 | for a literal end index within the text, the corrected end bound stops the slice just after the addressed position |
| Text.SubstringSelects | generators/c/text.js:157-197 | with the corrected end bound (see Findings), for literal indices, every combination of modes selects exactly the one-based inclusive range from the start position to the end position |
| Text.SubstringWholeText | generators/c/text.js:157-176 | FIRST to LAST omits both bounds, in the generator as written and in the corrected one, so the slice is the whole text |
| Text.EndBoundAsWrittenStopsEarly | generators/c/text.js:175-183 | as written, from a FROM_START start to a literal FROM_END end j >= 2, in a text of any length len >= j, the end bound is the literal j, so the slice stops after position j rather than after the addressed position len - j + 1; the two agree exactly when j is the middle position |
| Text.EndBoundAsWrittenMisaddresses | generators/c/text.js:175-183 | as written, FROM_START 1 to FROM_END 2 of "hello" emits the end bound `2` and selects "he", though the addressed range is "hell" |
| Text.TextChangeCase | generators/c/text.js:201-213 | TEXT followed by `.upper()`, `.lower()` or `.title()` as CASE says, at MEMBER |
| Text.TextTrim | generators/c/text.js:215-227 | TEXT followed by `.lstrip()`, `.rstrip()` or `.strip()` as MODE says, at MEMBER |
| Text.ChangeCaseAndTrimKeepMode | generators/c/text.js:203-221 | two blocks that differ only in CASE (or only in MODE) emit different code, so the chosen mode can be read back from the generated call |
| Text.TextPrint | generators/c/text.js:229-234 | `print(x)` followed by a newline, with x defaulting to `''` |
| Text.TextPrompt | generators/c/text.js:236-252 | a call of the prompt helper (raw_input with a fallback to input) on the quoted TEXT field, wrapped in `float(...)` exactly when TYPE is NUMBER, at FUNCTION_CALL |
| Logic.ElifClauses | generators/c/logic.js:38-43 | m `elif` clauses, clause k being the one for else-if number k + 1 |
| Logic.IfElifChain | generators/c/logic.js:33-43 | the accumulating loop yields exactly the `if` clause followed by the elseifCount_ `elif` clauses, joined |
| Logic.ChainGrows | generators/c/logic.js:38-43 | each turn of the loop appends exactly the next `elif` clause |
| Logic.ControlsIf | generators/c/logic.js:31-49 | the code is the clauses in order: the `if` clause, the `elif` clauses accumulated by the loop, and the `else` clause |
| Logic.ClausesShape | generators/c/logic.js:33-48 | the clause list starts with `if c0:` and branch 0, has exactly elseifCount_ `elif` clauses for n = 1..elseifCount_ in order, and ends with `else:` exactly when elseCount_ is nonzero |
| Logic.ControlsIfDefaults | generators/c/logic.js:34-45 | a missing condition becomes `False` and an empty branch `  pass` with a newline; present ones are kept unchanged |
| Logic.LogicCompare | generators/c/logic.js:51-67 | `a op b` with op from the EQ/NEQ/LT/LTE/GT/GTE table, operands defaulting to `0`, at RELATIONAL |
| Logic.CompareKeepsOperator | generators/c/logic.js:53-66 | two blocks that differ only in OP emit different code, so the comparison can be read back from the generated expression |
| Logic.LogicOperation | generators/c/logic.js:69-92 | both operands missing gives `False op False`; exactly one missing is replaced by `True` for `and` and `False` for `or`, and the other operand is kept unchanged; the tag is the operator's |
| Logic.LogicOperatorChoice | generators/c/logic.js:71-73 | the operator is `and` exactly when OP is AND and `or` otherwise; the tag is LOGICAL_AND exactly when OP is AND |
| Logic.MissingOperandsMeaning | generators/c/logic.js:76-89 | the single-missing default is the operator's identity on either side, so it does not change the result; both missing evaluates to false for either operator |
| Logic.LogicNegate | generators/c/logic.js:94-100 | `not x` at LOGICAL_NOT, x defaulting to `True` |
| Logic.LogicBoolean | generators/c/logic.js:102-106 | `True` exactly when BOOL is TRUE, `False` otherwise, as an atom |
| Logic.LogicNull | generators/c/logic.js:108-111 | the atom `None` |
| Logic.LogicTernary | generators/c/logic.js:113-123 | `then if cond else else` with defaults `None`, `False`, `None`, at CONDITIONAL |
| Procedures.GlobalNames | generators/c/procedures.js:34-45 | the backward walk with overwrite and splice yields exactly the sanitised non-parameter variables, in order |
| Procedures.GlobalsMembers | generators/c/procedures.js:34-45 | a name is global exactly when it sanitises some variable that is not a parameter |
| Procedures.GlobalsAppend | generators/c/procedures.js:35-45 | filtering keeps relative order: the globals of two lists in a row are those of the first followed by those of the second |
| Procedures.GlobalsExcludeParameters | generators/c/procedures.js:37-44 | with an injective sanitiser, no parameter's name is ever declared global |
| Procedures.GlobalsLine | generators/c/procedures.js:46 | the `  global a, b` line is emitted exactly when there are globals |
| Procedures.Parameters | generators/c/procedures.js:61-65 | one sanitised name per declared parameter, in declared order |
| Procedures.ParameterNames | generators/c/procedures.js:61-65 | the loop yields exactly those names |
| Procedures.ParametersNeverGlobal | generators/c/procedures.js:34-65 | with an injective sanitiser, no name in the header's parameter list appears in the `global` list |
| Procedures.ProcedureBody | generators/c/procedures.js:49-60 | with no return value and no statements the body is `  pass` without a newline; otherwise it is the STACK statements |
| Procedures.ReturnLine | generators/c/procedures.js:54-58 | `  return v` with a newline exactly when RETURN has code |
| Procedures.DefineProcedure | generators/c/procedures.js:31-76 | the table gains, under the sanitised procedure name, the scrubbed text: `def name(p1, p2):` header, globals line, body, return line, in that order; nothing else changes; used for both defreturn and defnoreturn |
| Procedures.CallArguments | generators/c/procedures.js:82-86 | one argument per entry of arguments_, in order, each being input ARGx or `None` when it is empty |
| Procedures.CollectArguments | generators/c/procedures.js:82-86 | the loop yields exactly those arguments |
| Procedures.CallReturn | generators/c/procedures.js:78-89 | the call `name(args)` at FUNCTION_CALL |
| Procedures.CallNoReturn | generators/c/procedures.js:91-102 | the same call text followed by a newline, as a statement |
| Procedures.IfReturn | generators/c/procedures.js:104-117 | `if cond:` (cond defaulting to `False`), then `  return v` (v defaulting to `None`) exactly when hasReturnValue_, else a bare `  return`, each line ending in a newline |

## Findings

| source | as written | input that shows it | evidently intended | confidence | as-written member | corrected member |
|---|---|---|---|---|---|---|
| generators/c/text.js:177-196 | the end bound of `text_getSubstring` is converted according to WHERE1, the start's mode, rather than WHERE2 | "hello", WHERE1 FROM_START, AT1 1, WHERE2 FROM_END, AT2 2: the end bound is `2` and the slice is "he". Also WHERE1 FIRST with WHERE2 FROM_END 2 leaves `2`, and WHERE1 FROM_END 5 with WHERE2 FROM_START 2 gives `-1` | convert by WHERE2: `[ : -1]`, which selects "hell", the characters from position 1 through the second from the end | not executed | Text.TextGetSubstring | Text.TextGetSubstringCorrected |

Both conversions are one function, `Text.ConvertEnd`, and they differ only in the mode that chooses the conversion. `Text.EndBoundAsWritten` passes WHERE1; `Text.EndBound` passes WHERE2.

- As written: `Text.TextGetSubstring` follows the code and emits `Text.EndBoundAsWritten`. `Text.EndBoundAsWrittenStopsEarly` shows, for every text length, that a FROM_START-to-FROM_END slice stops at the wrong place, except when the end index is the middle position; `Text.EndBoundAsWrittenMisaddresses` is the "hello" instance.
- Corrected: `Text.TextGetSubstringCorrected` emits `Text.EndBound`, and `Text.SubstringSelects` proves that its slice selects the addressed range for every combination of modes.

## Left out

- Parenthesisation: the host's `valueToCode` adds parentheses according to the precedence ranks. That host code and the numeric `ORDER_*` values are not part of this model. Each generator's request for a precedence is kept as the `Order` argument it passes to `valueToCode`.
- Host primitives are inputs, fixed for one pass. These are `getName`, `getDistinctName`, `quote_`, `provideFunction_`, `scrub_`, `allVariables` and the function-name placeholder. The name database's state is not modelled. Neither is `provideFunction_`'s own registration of a helper in the definitions table. The model keeps the name it returns and the helper lines the generators pass to it.
- `Blockly.c.INFINITE_LOOP_TRAP` (procedures.js:50-53) is not modelled. The model is a pass with no trap configured.
- `Decimal.IsNumber`: it accepts only integer literals. `Blockly.isNumber` also accepts surrounding spaces and decimals such as `2.5`, which `parseInt` then truncates. Integers are unbounded, so JavaScript's loss of precision on very large literals is not modelled either.
- Text.TextChangeCase: requires CASE to be one of the three table keys. For another key JavaScript would append `undefined`, which the editor's dropdown never produces.
- Text.TextTrim: requires MODE to be one of the three table keys, for the same reason.
- Logic.LogicCompare: requires OP to be one of the six table keys, for the same reason.
- Procedures.DefineProcedure: the generator's `null` return value is not modelled; the method returns nothing.
- The runtime meaning of the emitted Python is not modelled: `find`/`rfind`, `random.random()`, `raw_input`/`input`, `str`, `len`. The exceptions are integer-literal subscripts and slices, which `Python` models to state what the index conversions select.
- Global names: the code takes them from `allVariables` of the whole definition block. It does not look only at variables assigned in the body, and the model follows the code.
- blocks/custom.js (editor metadata) and generators/javascript/custom.js (a stub returning a constant) are not part of this model.
