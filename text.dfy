/** Generators for the text blocks (generators/c/text.js). */
module Text {
  import opened Blocks
  import opened Decimal
  import Python

  /** The code of value input `name`, asked at precedence `order`, with an
      empty input read as the empty-string literal `''`. */
  function TextValue(b: Block, name: string, order: Order): (code: string)
    ensures b.valueToCode(name, order) != "" ==> code == b.valueToCode(name, order)
    ensures b.valueToCode(name, order) == "" ==> code == "''"
  {
    OrDefault(b.valueToCode(name, order), "''")
  }

  // ---------------------------------------------------------------- text

  /** `text`: the TEXT field, quoted by the host, is an atom. */
  function TextLiteral(h: Host, b: Block): (r: Fragment)
    ensures r.order == Atomic
    ensures r.code == h.quote(Field(b, "TEXT"))
  {
    Fragment(h.quote(Field(b, "TEXT")), Atomic)
  }

  // ----------------------------------------------------------- text_join

  /** Item `n` of a join: input ADDn, or `''` when it is empty. */
  function JoinItem(b: Block, n: nat): string
  {
    TextValue(b, "ADD" + NatToString(n), NoneOrder)
  }

  /** The items of a join, one per slot ADD0 .. ADD(itemCount - 1), in order. */
  function JoinedItems(b: Block): (items: seq<string>)
    ensures |items| == b.itemCount
    ensures forall n :: 0 <= n < b.itemCount ==> items[n] == JoinItem(b, n)
  {
    seq(b.itemCount, n requires 0 <= n < b.itemCount => JoinItem(b, n))
  }

  /** The counting loop that fills the item list of a join of three or more. */
  method JoinItems(b: Block) returns (items: seq<string>)
    ensures items == JoinedItems(b)
  {
    items := [];
    var n := 0;
    while n < b.itemCount
      invariant 0 <= n <= b.itemCount
      invariant |items| == n
      invariant forall k :: 0 <= k < n ==> items[k] == JoinItem(b, k)
    {
      items := items + [JoinItem(b, n)];
      n := n + 1;
    }
  }

  /** The code of a join of three or more items: a comprehension that
      stringifies each item of the bracketed list through one temporary. */
  function JoinComprehension(temp: string, items: seq<string>): string
  {
    "''.join([str(" + temp + ") for " + temp + " in [" + Join(items, ", ") + "]])"
  }

  /** `text_join`: no item is the empty literal, one item is stringified,
      two items are stringified and added, and three or more are joined by
      a comprehension over all items in slot order. */
  method TextJoin(h: Host, b: Block) returns (r: Fragment)
    ensures b.itemCount == 0 ==> r == Fragment("''", Atomic)
    ensures b.itemCount == 1 ==> r == Fragment("str(" + JoinItem(b, 0) + ")", FunctionCall)
    ensures b.itemCount == 2 ==>
      r == Fragment("str(" + JoinItem(b, 0) + ") + str(" + JoinItem(b, 1) + ")", UnarySign)
    ensures b.itemCount >= 3 ==>
      r == Fragment(JoinComprehension(h.distinctName("temp_value"), JoinedItems(b)), FunctionCall)
  {
    if b.itemCount == 0 {
      r := Fragment("''", Atomic);
    } else if b.itemCount == 1 {
      var argument0 := JoinItem(b, 0);
      r := Fragment("str(" + argument0 + ")", FunctionCall);
    } else if b.itemCount == 2 {
      var argument0 := JoinItem(b, 0);
      var argument1 := JoinItem(b, 1);
      r := Fragment("str(" + argument0 + ") + str(" + argument1 + ")", UnarySign);
    } else {
      var items := JoinItems(b);
      var tempVar := h.distinctName("temp_value");
      r := Fragment(JoinComprehension(tempVar, items), FunctionCall);
    }
  }

  /** The bracketed list of a join grows by exactly one separator and the
      next slot's item with each slot: its entries are ADD0, ADD1, ... in
      order, separated by `, `. */
  lemma JoinListGrows(b: Block)
    requires b.itemCount >= 2
    ensures Join(JoinedItems(b), ", ")
         == Join(JoinedItems(b.(itemCount := b.itemCount - 1)), ", ") + ", " + JoinItem(b, b.itemCount - 1)
  {
    var shorter := b.(itemCount := b.itemCount - 1);
    assert JoinedItems(b) == JoinedItems(shorter) + [JoinItem(b, b.itemCount - 1)];
    JoinAppend(JoinedItems(shorter), JoinItem(b, b.itemCount - 1), ", ");
  }

  // --------------------------------------------------------- text_append

  /** `text_append`: the statement that reassigns VAR to its text followed by
      the text of input TEXT (`''` when empty). */
  function TextAppend(h: Host, b: Block): (code: string)
    ensures var v := h.variableName(Field(b, "VAR"));
      code == v + " = str(" + v + ") + str(" + TextValue(b, "TEXT", NoneOrder) + ")\n"
  {
    var varName := h.variableName(Field(b, "VAR"));
    varName + " = str(" + varName + ") + str(" + TextValue(b, "TEXT", NoneOrder) + ")\n"
  }

  // ------------------------------------------------ text_length, isEmpty

  /** `text_length`: `len` of input VALUE, a function call. */
  function TextLength(b: Block): (r: Fragment)
    ensures r == Fragment("len(" + TextValue(b, "VALUE", NoneOrder) + ")", FunctionCall)
  {
    Fragment("len(" + TextValue(b, "VALUE", NoneOrder) + ")", FunctionCall)
  }

  /** `text_isEmpty`: the negated length, a logical `not`. */
  function TextIsEmpty(b: Block): (r: Fragment)
    ensures r == Fragment("not " + TextLength(b).code, LogicalNot)
  {
    Fragment("not len(" + TextValue(b, "VALUE", NoneOrder) + ")", LogicalNot)
  }

  // -------------------------------------------------------- text_indexOf

  /** `text_indexOf`: `find` when END is FIRST and `rfind` otherwise, on
      VALUE (asked at member precedence) for FIND, shifted to one-based by
      adding 1. */
  function TextIndexOf(b: Block): (r: Fragment)
    ensures r.order == Member
    ensures Field(b, "END") == "FIRST" ==>
      r.code == TextValue(b, "VALUE", Member) + ".find(" + TextValue(b, "FIND", NoneOrder) + ") + 1"
    ensures Field(b, "END") != "FIRST" ==>
      r.code == TextValue(b, "VALUE", Member) + ".rfind(" + TextValue(b, "FIND", NoneOrder) + ") + 1"
  {
    var operator := if Field(b, "END") == "FIRST" then "find" else "rfind";
    var argument0 := TextValue(b, "FIND", NoneOrder);
    var argument1 := TextValue(b, "VALUE", Member);
    Fragment(argument1 + "." + operator + "(" + argument0 + ") + 1", Member)
  }

  // --------------------------------------------------------- text_charAt

  const UnhandledCharAt := "Unhandled option (text_charAt)."

  /** The addressing modes that index the text directly. */
  const IndexModes: set<string> := {"FIRST", "LAST", "FROM_START", "FROM_END"}

  /** The one-based position a mode addresses in a text of length `len`. */
  function Position(where: string, n: nat, len: nat): int
  {
    if where == "FIRST" then 1
    else if where == "LAST" then len
    else if where == "FROM_START" then n
    else len - n + 1
  }

  /** A one-based index made zero-based: a literal is decremented now, any
      other index in the emitted code. */
  function FromStartIndex(at: string): string
  {
    if IsNumber(at) then IntToString(ParseInt(at) - 1) else "int(" + at + " - 1)"
  }

  /** The subscript `text_charAt` emits for a direct mode. */
  function CharAtIndex(where: string, at: string): string
    requires where in IndexModes
  {
    if where == "FIRST" then "0"
    else if where == "LAST" then "-1"
    else if where == "FROM_START" then FromStartIndex(at)
    else "-" + at
  }

  function CharAtWhere(b: Block): string
  {
    OrDefault(Field(b, "WHERE"), "FROM_START")
  }

  function CharAtAt(b: Block): string
  {
    OrDefault(b.valueToCode("AT", UnarySign), "1")
  }

  /** The helper that picks a random letter, with the host's name placeholder. */
  function RandomLetterHelper(placeholder: string): seq<string>
  {
    ["def " + placeholder + "(text):",
     "  x = int(random.random() * len(text))",
     "  return text[x];"]
  }

  /** `text_charAt`. WHERE defaults to FROM_START and AT to 1. The direct
      modes subscript VALUE; RANDOM records the `random` import and calls
      the helper; any other mode fails with the generator's message. */
  method TextCharAt(h: Host, b: Block, defs: Definitions) returns (r: Result<Fragment>)
    modifies defs
    ensures CharAtWhere(b) in IndexModes ==>
      r == Ok(Fragment(TextValue(b, "VALUE", Member) + "[" + CharAtIndex(CharAtWhere(b), CharAtAt(b)) + "]", Member))
      && defs.entries == old(defs.entries)
    ensures CharAtWhere(b) == "RANDOM" ==>
      r == Ok(Fragment(h.provideFunction("text_random_letter", RandomLetterHelper(h.functionNamePlaceholder))
                       + "(" + TextValue(b, "VALUE", Member) + ")", FunctionCall))
      && defs.entries == old(defs.entries)["import_random" := "import random"]
    ensures CharAtWhere(b) !in IndexModes && CharAtWhere(b) != "RANDOM" ==>
      r == Err(UnhandledCharAt) && defs.entries == old(defs.entries)
  {
    var where := CharAtWhere(b);
    var at := CharAtAt(b);
    var text := TextValue(b, "VALUE", Member);
    if where == "FIRST" {
      r := Ok(Fragment(text + "[0]", Member));
      assert text + "[0]" == text + "[" + "0" + "]";
    } else if where == "LAST" {
      r := Ok(Fragment(text + "[-1]", Member));
      assert text + "[-1]" == text + "[" + "-1" + "]";
    } else if where == "FROM_START" {
      var index := if IsNumber(at) then IntToString(ParseInt(at) - 1) else "int(" + at + " - 1)";
      r := Ok(Fragment(text + "[" + index + "]", Member));
    } else if where == "FROM_END" {
      r := Ok(Fragment(text + "[-" + at + "]", Member));
      assert text + "[-" + at + "]" == text + "[" + ("-" + at) + "]";
    } else if where == "RANDOM" {
      defs.Put("import_random", "import random");
      var functionName := h.provideFunction("text_random_letter", RandomLetterHelper(h.functionNamePlaceholder));
      r := Ok(Fragment(functionName + "(" + text + ")", FunctionCall));
    } else {
      r := Err(UnhandledCharAt);
    }
  }

  /** With an empty WHERE and an empty AT the generator reads the first
      character: `text[0]`. */
  lemma CharAtDefaults(b: Block)
    requires Field(b, "WHERE") == "" && b.valueToCode("AT", UnarySign) == ""
    ensures CharAtWhere(b) == "FROM_START"
    ensures CharAtIndex(CharAtWhere(b), CharAtAt(b)) == "0"
  {
  }

  /** For a literal index n within the text, every direct mode's subscript is
      a literal that Python reads as the character at the one-based position
      the mode addresses. */
  lemma {:induction false} CharAtSelects(s: string, where: string, n: nat)
    requires where in IndexModes
    requires 1 <= n <= |s|
    ensures IsNumber(CharAtIndex(where, NatToString(n)))
    ensures Python.Index(s, ParseInt(CharAtIndex(where, NatToString(n))))
         == Some(s[Position(where, n, |s|) - 1])
  {
    var at := NatToString(n);
    NatToStringValue(n);
    if where == "FIRST" {
      assert CharAtIndex(where, at) == "0";
      assert DigitsValue("0") == 0 by { assert "0"[..0] == ""; }
    } else if where == "LAST" {
      assert CharAtIndex(where, at) == "-1";
      assert "-1"[1..] == "1";
      assert DigitsValue("1") == 1 by { assert "1"[..0] == ""; }
    } else if where == "FROM_START" {
      assert IsNumber(at);
      IntToStringRoundTrip(n - 1);
    } else {
      var index := "-" + at;
      assert index[1..] == at;
    }
  }

  // --------------------------------------------------- text_getSubstring

  /** The start bound of a substring: empty for FIRST and for FROM_START 1,
      made zero-based for FROM_START, negated for FROM_END, and left as the
      index's code for any other mode. */
  function StartBound(where1: string, at1: string): string
  {
    if where1 == "FIRST" || (where1 == "FROM_START" && at1 == "1") then ""
    else if where1 == "FROM_START" then FromStartIndex(at1)
    else if where1 == "FROM_END" then
      (if IsNumber(at1) then IntToString(-ParseInt(at1)) else "-int(" + at1 + ")")
    else at1
  }

  /** The end bound of a substring when its conversion is chosen by `key`.
      The bound is empty for LAST and for FROM_END 1. A FROM_START index is
      already the exclusive end; a FROM_END index n becomes 1 - n (empty when
      that is 0), or, in the emitted code, `int(1 - x) or sys.maxsize` so that
      -0 stands for the end. Any other key leaves the index's code. */
  function ConvertEnd(key: string, where2: string, at2: string): string
  {
    if where2 == "LAST" || (where2 == "FROM_END" && at2 == "1") then ""
    else if key == "FROM_START" then
      (if IsNumber(at2) then IntToString(ParseInt(at2)) else "int(" + at2 + ")")
    else if key == "FROM_END" then
      (if IsNumber(at2) then (if 1 - ParseInt(at2) == 0 then "" else IntToString(1 - ParseInt(at2)))
       else "int(1 - " + at2 + ") or sys.maxsize")
    else at2
  }

  /** Whether the end bound's conversion needs the `sys` import. */
  predicate ConvertEndNeedsSys(key: string, where2: string, at2: string)
  {
    !(where2 == "LAST" || (where2 == "FROM_END" && at2 == "1"))
    && key == "FROM_END" && !IsNumber(at2)
  }

  /** The end bound as text.js writes it: converted by the START mode WHERE1. */
  function EndBoundAsWritten(where1: string, where2: string, at2: string): string
  {
    ConvertEnd(where1, where2, at2)
  }

  /** The end bound converted by its own mode WHERE2. */
  function EndBound(where2: string, at2: string): string
  {
    ConvertEnd(where2, where2, at2)
  }

  function SubstringWhere1(b: Block): string { Field(b, "WHERE1") }
  function SubstringWhere2(b: Block): string { Field(b, "WHERE2") }
  function SubstringAt1(b: Block): string { OrDefault(b.valueToCode("AT1", Additive), "1") }
  function SubstringAt2(b: Block): string { OrDefault(b.valueToCode("AT2", Additive), "1") }

  /** `text_getSubstring` as written: always the slice `text[at1 : at2]` of
      STRING, with the bounds converted step by step. The end bound's
      conversion, and with it the `sys` import for a dynamic index, is chosen
      by the START mode WHERE1 (see EndBoundAsWritten). */
  method TextGetSubstring(b: Block, defs: Definitions) returns (r: Fragment)
    modifies defs
    ensures r == Fragment(TextValue(b, "STRING", Member)
                          + "[" + StartBound(SubstringWhere1(b), SubstringAt1(b))
                          + " : " + EndBoundAsWritten(SubstringWhere1(b), SubstringWhere2(b), SubstringAt2(b))
                          + "]", Member)
    ensures defs.entries
         == if ConvertEndNeedsSys(SubstringWhere1(b), SubstringWhere2(b), SubstringAt2(b))
            then old(defs.entries)["import_sys" := "import sys"]
            else old(defs.entries)
  {
    var text := TextValue(b, "STRING", Member);
    var where1 := Field(b, "WHERE1");
    var where2 := Field(b, "WHERE2");
    var at1 := ConvertStartStep(where1, SubstringAt1(b));
    var at2 := ConvertEndStep(where1, where2, SubstringAt2(b), defs);
    r := Fragment(text + "[" + at1 + " : " + at2 + "]", Member);
  }

  /** The first if-chain of `text_getSubstring`, on the start index. */
  method ConvertStartStep(where1: string, at1: string) returns (t: string)
    ensures t == StartBound(where1, at1)
  {
    t := at1;
    if where1 == "FIRST" || (where1 == "FROM_START" && at1 == "1") {
      t := "";
    } else if where1 == "FROM_START" {
      if IsNumber(at1) {
        t := IntToString(ParseInt(at1) - 1);
      } else {
        t := "int(" + at1 + " - 1)";
      }
    } else if where1 == "FROM_END" {
      if IsNumber(at1) {
        t := IntToString(-ParseInt(at1));
      } else {
        t := "-int(" + at1 + ")";
      }
    }
  }

  /** The second if-chain of `text_getSubstring`, on the end index, with its
      conversion chosen by `key`; a dynamic FROM_END conversion records the
      `sys` import. */
  method ConvertEndStep(key: string, where2: string, at2: string, defs: Definitions) returns (t: string)
    modifies defs
    ensures t == ConvertEnd(key, where2, at2)
    ensures defs.entries
         == if ConvertEndNeedsSys(key, where2, at2)
            then old(defs.entries)["import_sys" := "import sys"]
            else old(defs.entries)
  {
    t := at2;
    if where2 == "LAST" || (where2 == "FROM_END" && at2 == "1") {
      t := "";
    } else if key == "FROM_START" {
      if IsNumber(at2) {
        t := IntToString(ParseInt(at2));
      } else {
        t := "int(" + at2 + ")";
      }
    } else if key == "FROM_END" {
      if IsNumber(at2) {
        var end := 1 - ParseInt(at2);
        t := if end == 0 then "" else IntToString(end);
      } else {
        defs.Put("import_sys", "import sys");
        t := "int(1 - " + at2 + ") or sys.maxsize";
      }
    }
  }

  /** `text_getSubstring` with the end bound converted by its own mode
      WHERE2, as the two independent bound selectors intend; SubstringSelects
      proves what its slice selects. */
  method TextGetSubstringCorrected(b: Block, defs: Definitions) returns (r: Fragment)
    modifies defs
    ensures r == Fragment(TextValue(b, "STRING", Member)
                          + "[" + StartBound(SubstringWhere1(b), SubstringAt1(b))
                          + " : " + EndBound(SubstringWhere2(b), SubstringAt2(b)) + "]", Member)
    ensures defs.entries
         == if ConvertEndNeedsSys(SubstringWhere2(b), SubstringWhere2(b), SubstringAt2(b))
            then old(defs.entries)["import_sys" := "import sys"]
            else old(defs.entries)
  {
    var text := TextValue(b, "STRING", Member);
    var where2 := Field(b, "WHERE2");
    var at1 := ConvertStartStep(Field(b, "WHERE1"), SubstringAt1(b));
    var at2 := ConvertEndStep(where2, where2, SubstringAt2(b), defs);
    r := Fragment(text + "[" + at1 + " : " + at2 + "]", Member);
  }

  /** The start bound is omitted exactly for FIRST and for FROM_START 1. */
  lemma StartBoundEmpty(where1: string, at1: string)
    requires at1 != ""
    ensures StartBound(where1, at1) == "" <==> (where1 == "FIRST" || (where1 == "FROM_START" && at1 == "1"))
  {
  }

  /** The end bound is omitted for LAST and FROM_END 1 whatever the key;
      otherwise a FROM_START key keeps a literal and wraps a dynamic index in
      `int`, a FROM_END key turns a literal n into 1 - n (omitted when that
      is 0) and a dynamic one into `int(1 - x) or sys.maxsize`, and any other
      key leaves the index's code. */
  lemma ConvertEndCases(key: string, where2: string, at2: string)
    ensures where2 == "LAST" || (where2 == "FROM_END" && at2 == "1") ==> ConvertEnd(key, where2, at2) == ""
    ensures !(where2 == "LAST" || (where2 == "FROM_END" && at2 == "1")) && key == "FROM_START" && IsNumber(at2)
      ==> ConvertEnd(key, where2, at2) == IntToString(ParseInt(at2))
    ensures !(where2 == "LAST" || (where2 == "FROM_END" && at2 == "1")) && key == "FROM_START" && !IsNumber(at2)
      ==> ConvertEnd(key, where2, at2) == "int(" + at2 + ")"
    ensures !(where2 == "LAST" || (where2 == "FROM_END" && at2 == "1")) && key == "FROM_END" && IsNumber(at2)
            && ParseInt(at2) != 1
      ==> ConvertEnd(key, where2, at2) == IntToString(1 - ParseInt(at2))
    ensures !(where2 == "LAST" || (where2 == "FROM_END" && at2 == "1")) && key == "FROM_END" && IsNumber(at2)
      ==> (ConvertEnd(key, where2, at2) == "" <==> ParseInt(at2) == 1)
    ensures !(where2 == "LAST" || (where2 == "FROM_END" && at2 == "1")) && key == "FROM_END" && !IsNumber(at2)
      ==> ConvertEnd(key, where2, at2) == "int(1 - " + at2 + ") or sys.maxsize"
          && ConvertEndNeedsSys(key, where2, at2)
    ensures key != "FROM_START" && key != "FROM_END" && !(where2 == "LAST" || (where2 == "FROM_END" && at2 == "1"))
      ==> ConvertEnd(key, where2, at2) == at2
  {
  }

  /** The value of a bound the slice names: omitted, or an integer literal. */
  function BoundValue(t: string): Option<int>
    requires t == "" || IsNumber(t)
  {
    if t == "" then None else Some(ParseInt(t))
  }

  lemma DigitsOfOne(n: nat)
    ensures NatToString(n) == "1" <==> n == 1
  {
  }

  /** For a literal start index within the text, the start bound is a
      literal or omitted, and the slice starts at the addressed position. */
  lemma StartBoundLands(len: nat, where1: string, i: nat)
    requires where1 in {"FIRST", "FROM_START", "FROM_END"}
    requires 1 <= i <= len
    ensures var t := StartBound(where1, NatToString(i));
      (t == "" || IsNumber(t)) && Python.Lower(len, BoundValue(t)) == Position(where1, i, len) - 1
  {
    var at := NatToString(i);
    if where1 == "FIRST" {
      assert StartBound(where1, at) == "";
    } else if where1 == "FROM_START" {
      DigitsOfOne(i);
      if i == 1 {
        assert StartBound(where1, at) == "";
      } else {
        NatToStringValue(i);
        assert IsNumber(at) && ParseInt(at) == i;
        IntToStringRoundTrip(i - 1);
        assert StartBound(where1, at) == IntToString(i - 1);
      }
    } else {
      NatToStringValue(i);
      assert IsNumber(at) && ParseInt(at) == i;
      IntToStringRoundTrip(-(i as int));
      assert StartBound(where1, at) == IntToString(-(i as int));
    }
  }

  /** For a literal end index within the text, the corrected end bound is a
      literal or omitted, and the slice stops just after the addressed
      position. */
  lemma EndBoundLands(len: nat, where2: string, j: nat)
    requires where2 in {"LAST", "FROM_START", "FROM_END"}
    requires 1 <= j <= len
    ensures var t := EndBound(where2, NatToString(j));
      (t == "" || IsNumber(t)) && Python.Upper(len, BoundValue(t)) == Position(where2, j, len)
  {
    var at := NatToString(j);
    if where2 == "LAST" {
      assert EndBound(where2, at) == "";
    } else if where2 == "FROM_START" {
      NatToStringValue(j);
      assert IsNumber(at) && ParseInt(at) == j;
      IntToStringRoundTrip(j);
      assert EndBound(where2, at) == IntToString(j);
    } else {
      DigitsOfOne(j);
      if j == 1 {
        assert EndBound(where2, at) == "";
      } else {
        NatToStringValue(j);
        assert IsNumber(at) && ParseInt(at) == j;
        IntToStringRoundTrip(1 - j);
        assert EndBound(where2, at) == IntToString(1 - j);
      }
    }
  }

  /** The slice emitted for literal indices selects exactly the characters
      from the start position through the end position, both one-based and
      inclusive, in every combination of modes. */
  lemma SubstringSelects(s: string, where1: string, where2: string, i: nat, j: nat)
    requires where1 in {"FIRST", "FROM_START", "FROM_END"}
    requires where2 in {"LAST", "FROM_START", "FROM_END"}
    requires 1 <= i <= |s| && 1 <= j <= |s|
    requires Position(where1, i, |s|) <= Position(where2, j, |s|) + 1
    ensures var t1 := StartBound(where1, NatToString(i));
            var t2 := EndBound(where2, NatToString(j));
      (t1 == "" || IsNumber(t1)) && (t2 == "" || IsNumber(t2))
      && Python.Slice(s, BoundValue(t1), BoundValue(t2))
         == s[Position(where1, i, |s|) - 1 .. Position(where2, j, |s|)]
  {
    StartBoundLands(|s|, where1, i);
    EndBoundLands(|s|, where2, j);
    var t1 := StartBound(where1, NatToString(i));
    var t2 := EndBound(where2, NatToString(j));
    assert Python.Lower(|s|, BoundValue(t1)) == Position(where1, i, |s|) - 1;
    assert Python.Upper(|s|, BoundValue(t2)) == Position(where2, j, |s|);
  }

  /** FIRST to LAST omits both bounds, as written and corrected alike (the
      LAST test comes before the keyed conversions), so the slice is the
      whole text. */
  lemma SubstringWholeText(s: string, at1: string, at2: string)
    ensures StartBound("FIRST", at1) == "" && EndBound("LAST", at2) == ""
    ensures EndBoundAsWritten("FIRST", "LAST", at2) == ""
    ensures Python.Slice(s, BoundValue(StartBound("FIRST", at1)), BoundValue(EndBound("LAST", at2))) == s
  {
  }

  /** The end bound as written misaddresses, for every text: from a
      FROM_START index to a literal FROM_END index j >= 2, the end bound is
      converted as a FROM_START index, so the slice stops after position j
      instead of after the addressed position len - j + 1; the two agree only
      when j is the middle position. */
  lemma EndBoundAsWrittenStopsEarly(len: nat, j: nat)
    requires 2 <= j <= len
    ensures var t := EndBoundAsWritten("FROM_START", "FROM_END", NatToString(j));
      && IsNumber(t)
      && Python.Upper(len, BoundValue(t)) == j
      && Position("FROM_END", j, len) == len - j + 1
      && (Python.Upper(len, BoundValue(t)) == Position("FROM_END", j, len) <==> 2 * j == len + 1)
  {
    var at := NatToString(j);
    DigitsOfOne(j);
    NatToStringValue(j);
    assert IsNumber(at) && ParseInt(at) == j;
    IntToStringRoundTrip(j);
    assert EndBoundAsWritten("FROM_START", "FROM_END", at) == IntToString(j);
  }

  /** One instance: FROM_START 1 to FROM_END 2 of "hello" addresses "hell",
      but the slice as written, `[ : 2]`, yields "he"; the corrected end
      bound is `-1`. */
  lemma EndBoundAsWrittenMisaddresses()
    ensures EndBoundAsWritten("FROM_START", "FROM_END", "2") == "2"
    ensures EndBound("FROM_END", "2") == "-1"
    ensures Python.Slice("hello", BoundValue(StartBound("FROM_START", "1")),
                         BoundValue(EndBoundAsWritten("FROM_START", "FROM_END", "2"))) == "he"
    ensures "hello"[Position("FROM_START", 1, 5) - 1 .. Position("FROM_END", 2, 5)] == "hell"
  {
  }

  // ------------------------------------------------- changeCase and trim

  /** The CASE table of `text_changeCase`. */
  const CaseOperators: map<string, string> :=
    map["UPPERCASE" := ".upper()", "LOWERCASE" := ".lower()", "TITLECASE" := ".title()"]

  /** The MODE table of `text_trim`. */
  const TrimOperators: map<string, string> :=
    map["LEFT" := ".lstrip()", "RIGHT" := ".rstrip()", "BOTH" := ".strip()"]

  /** `text_changeCase`: TEXT followed by the method call its CASE names. */
  function TextChangeCase(b: Block): (r: Fragment)
    requires Field(b, "CASE") in CaseOperators
    ensures r == Fragment(TextValue(b, "TEXT", Member) + CaseOperators[Field(b, "CASE")], Member)
  {
    Fragment(TextValue(b, "TEXT", Member) + CaseOperators[Field(b, "CASE")], Member)
  }

  /** `text_trim`: TEXT followed by the method call its MODE names. */
  function TextTrim(b: Block): (r: Fragment)
    requires Field(b, "MODE") in TrimOperators
    ensures r == Fragment(TextValue(b, "TEXT", Member) + TrimOperators[Field(b, "MODE")], Member)
  {
    Fragment(TextValue(b, "TEXT", Member) + TrimOperators[Field(b, "MODE")], Member)
  }

  /** The emitted code determines the mode: two blocks that differ only in
      their CASE (or only in their MODE) emit different code, since each
      table gives every mode its own method call. */
  lemma ChangeCaseAndTrimKeepMode(b: Block, k1: string, k2: string)
    ensures k1 in CaseOperators && k2 in CaseOperators && k1 != k2 ==>
      TextChangeCase(b.(fields := b.fields["CASE" := k1])).code
      != TextChangeCase(b.(fields := b.fields["CASE" := k2])).code
    ensures k1 in TrimOperators && k2 in TrimOperators && k1 != k2 ==>
      TextTrim(b.(fields := b.fields["MODE" := k1])).code
      != TextTrim(b.(fields := b.fields["MODE" := k2])).code
  {
    var x := TextValue(b, "TEXT", Member);
    if k1 in CaseOperators && k2 in CaseOperators && k1 != k2 {
      PrefixCancels(x, CaseOperators[k1], CaseOperators[k2]);
    }
    if k1 in TrimOperators && k2 in TrimOperators && k1 != k2 {
      PrefixCancels(x, TrimOperators[k1], TrimOperators[k2]);
    }
  }

  // ------------------------------------------------- text_print, prompt

  /** `text_print`: a print statement of TEXT. */
  function TextPrint(b: Block): (code: string)
    ensures code == "print(" + TextValue(b, "TEXT", NoneOrder) + ")\n"
  {
    "print(" + TextValue(b, "TEXT", NoneOrder) + ")\n"
  }

  /** The prompt helper: `raw_input`, falling back to `input`. */
  function PromptHelper(placeholder: string): seq<string>
  {
    ["def " + placeholder + "(msg):",
     "  try:",
     "    return raw_input(msg)",
     "  except NameError:",
     "    return input(msg)"]
  }

  /** `text_prompt`: a call of the prompt helper on the quoted TEXT field,
      wrapped in `float` when TYPE is NUMBER. */
  function TextPrompt(h: Host, b: Block): (r: Fragment)
    ensures var call := h.provideFunction("text_prompt", PromptHelper(h.functionNamePlaceholder))
                        + "(" + h.quote(Field(b, "TEXT")) + ")";
      && r.order == FunctionCall
      && (Field(b, "TYPE") == "NUMBER" ==> r.code == "float(" + call + ")")
      && (Field(b, "TYPE") != "NUMBER" ==> r.code == call)
  {
    var functionName := h.provideFunction("text_prompt", PromptHelper(h.functionNamePlaceholder));
    var msg := h.quote(Field(b, "TEXT"));
    var code := functionName + "(" + msg + ")";
    Fragment(if Field(b, "TYPE") == "NUMBER" then "float(" + code + ")" else code, FunctionCall)
  }
}
