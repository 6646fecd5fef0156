/** The language handlers: the file names and commands of a language, and
    `wrapCode`, which turns the user's `Solution` class into a whole
    program that reads the parameters from standard input, calls the
    function and prints the marker followed by the result. Only C++ is
    registered; the Python handler exists but no language name reaches it. */
module Handlers {
  import opened Wrappers
  import opened Strings
  import opened Numbers
  import opened JsonText
  import opened Validator
  import opened Results
  import opened Execute

  datatype Lang = Cpp | Python

  /** A `LanguageHandler` record; `lang` selects its `wrapCode`. */
  datatype LanguageHandler = LanguageHandler(
    lang: Lang,
    sourceFile: string,
    binaryFile: Option<string>,
    compileCommand: Option<seq<string>>,
    runCommand: seq<string>)

  /** `createCppHandler(filename)`. */
  function CreateCppHandler(filename: string): (h: LanguageHandler)
    ensures h.lang == Cpp && h.compileCommand.Some? && h.binaryFile == Some(filename)
  {
    LanguageHandler(Cpp, filename + ".cpp", Some(filename),
      Some(["/usr/bin/g++", "-std=c++17", "-O2", filename + ".cpp", "-o", filename]),
      ["./" + filename])
  }

  /** `createPythonHandler(filename)`. */
  function CreatePythonHandler(filename: string): (h: LanguageHandler)
    ensures h.lang == Python && h.compileCommand.None? && h.binaryFile.None?
  {
    LanguageHandler(Python, filename + ".py", None, None, ["/usr/bin/python3", filename + ".py"])
  }

  /** The compiler reads the handler's source file and writes its binary,
      which is what the run command starts; Python runs its source file
      directly, with nothing to compile. */
  lemma HandlerFilesAgree(filename: string)
    ensures var h := CreateCppHandler(filename);
      h.compileCommand.value[3] == h.sourceFile && h.compileCommand.value[5] == h.binaryFile.value &&
      h.runCommand == ["./" + h.binaryFile.value] && EndsWith(h.sourceFile, ".cpp")
    ensures var h := CreatePythonHandler(filename);
      h.compileCommand.None? && h.runCommand[1] == h.sourceFile && EndsWith(h.sourceFile, ".py")
  {
  }

  /** `languageHandlers[language]?.(filename)`: the registry holds only
      `CPP`; any other name finds nothing. */
  function LookupHandler(language: string, filename: string): (r: Option<LanguageHandler>)
    ensures r.Some? <==> language == "CPP"
    ensures r.Some? ==> r.value == CreateCppHandler(filename)
  {
    if language == "CPP" then Some(CreateCppHandler(filename)) else None
  }

  /** No name in the registry gives a handler without a compile command, so
      every registered language is compiled before it runs. */
  lemma RegisteredHandlersCompile(language: string, filename: string)
    requires LookupHandler(language, filename).Some?
    ensures LookupHandler(language, filename).value.compileCommand.Some?
    ensures LookupHandler(language, filename).value.lang != Python
  {
  }

  // ---------------------------------------------------------------------
  // the parameter-reading code

  function Spaces(n: nat): (s: string)
    ensures |s| == n && forall k :: 0 <= k < n ==> s[k] == ' '
  {
    seq(n, k => ' ')
  }

  /** The C++ code reading parameter `d` of a scalar type `ty` with `cin >>`. */
  function CppScalarRead(ty: string, d: string): string {
    ScalarHead(ty, d) + CinRead(d) + SnippetEnd()
  }

  function SnippetEnd(): string {
    "\n" + Spaces(24)
  }

  function ScalarHead(ty: string, d: string): string {
    "\n" + Spaces(28) + ty + " param" + d + ";\n" + Spaces(28)
  }

  function CinRead(d: string): string {
    "cin >> param" + d + ";"
  }

  /** The C++ code reading parameter `d` of an array type: one whole line,
      split on white space into elements of type `elem` through `v`. */
  function CppLineRead(elem: string, v: string, d: string): string {
    LineHead(elem, d) + GetlineRead(d) + LineTail(elem, v, d)
  }

  function LineHead(elem: string, d: string): string {
    "\n" + Spaces(28) + "vector<" + elem + "> param" + d + ";\n" +
    Spaces(28) + "string line" + d + ";\n" + Spaces(28)
  }

  function GetlineRead(d: string): string {
    "getline(cin, line" + d + ");"
  }

  function LineTail(elem: string, v: string, d: string): string {
    "\n" + Spaces(28) + "istringstream iss" + d + "(line" + d + ");\n" +
    Spaces(28) + elem + " " + v + d + ";\n" +
    Spaces(28) + "while (iss" + d + " >> " + v + d + ") param" + d + ".push_back(" + v + d + ");\n" +
    Spaces(24)
  }

  predicate IsArrayTag(t: TypeTag) {
    t == IntegerArray || t == StringArray || t == CharacterArray
  }

  /** The C++ type of a scalar parameter, or of an array's elements. */
  function CppElementType(t: TypeTag): string {
    match t
    case Integer | IntegerArray => "int"
    case Str | StringArray => "string"
    case Character | CharacterArray => "char"
  }

  /** The variable an array's elements are read through. */
  function CppElementVar(t: TypeTag): string {
    match t
    case Integer | IntegerArray => "x"
    case Str | StringArray => "s"
    case Character | CharacterArray => "c"
  }

  function CppSnippet(t: TypeTag, d: string): string {
    if IsArrayTag(t) then CppLineRead(CppElementType(t), CppElementVar(t), d)
    else CppScalarRead(CppElementType(t), d)
  }

  /** The Python line reading parameter `d`. */
  function PythonSnippet(t: TypeTag, d: string): string {
    match t
    case IntegerArray => "param" + d + " = list(map(int, input().strip().split()))\n"
    case Integer => "param" + d + " = int(input())\n"
    case Str => "param" + d + " = input().strip()\n"
    case StringArray => "param" + d + " = input().strip().split()\n"
    case Character => "param" + d + " = input().strip()[0]\n"
    case CharacterArray => "param" + d + " = list(input().strip().replace(\" \", \"\"))\n"
  }

  /** The code reading the parameter at index `i`, of tag `t`. */
  function Snippet(lang: Lang, t: TypeTag, i: nat): string {
    if lang == Cpp then CppSnippet(t, NatToDecimal(i)) else PythonSnippet(t, NatToDecimal(i))
  }

  /** The tags of `paramTypes`, in order, or the error thrown at the first
      type without a reader. */
  function ParamTags(paramTypes: seq<string>): (r: Result<seq<TypeTag>, string>)
    ensures r.Ok? ==> |r.value| == |paramTypes|
    decreases |paramTypes|
  {
    if |paramTypes| == 0 then Ok([])
    else
      var i := |paramTypes| - 1;
      match ParamTags(paramTypes[..i])
      case Err(e) => Err(e)
      case Ok(ts) =>
        match ParseTag(paramTypes[i])
        case None => Err("Unsupported type: " + paramTypes[i])
        case Some(t) => Ok(ts + [t])
  }

  /** The readers of parameters `0` to `|tags| - 1`, in order. */
  function Readers(lang: Lang, tags: seq<TypeTag>): string
    decreases |tags|
  {
    if |tags| == 0 then ""
    else Readers(lang, tags[..|tags| - 1]) + Snippet(lang, tags[|tags| - 1], |tags| - 1)
  }

  /** The reading code for `paramTypes`, or the error thrown. */
  function InputCode(lang: Lang, paramTypes: seq<string>): Result<string, string> {
    match ParamTags(paramTypes)
    case Err(e) => Err(e)
    case Ok(ts) => Ok(Readers(lang, ts))
  }

  /** The variable names passed to the function: `param0` to `param<n-1>`. */
  function Params(n: nat): (ps: seq<string>)
    ensures |ps| == n
  {
    if n == 0 then [] else Params(n - 1) + ["param" + NatToDecimal(n - 1)]
  }

  /** Once reading fails on a prefix, it fails the same way on the whole
      list. */
  lemma {:induction false} ParamTagsErrorSticks(paramTypes: seq<string>, i: nat)
    requires i <= |paramTypes| && ParamTags(paramTypes[..i]).Err?
    ensures ParamTags(paramTypes) == ParamTags(paramTypes[..i])
    decreases |paramTypes| - i
  {
    if i < |paramTypes| {
      var n := |paramTypes|;
      assert paramTypes[..n - 1][..i] == paramTypes[..i];
      ParamTagsErrorSticks(paramTypes[..n - 1], i);
    } else {
      assert paramTypes[..i] == paramTypes;
    }
  }

  /** Every type has a reader exactly when every type is one of the six
      tags, and then the tags are the types read in order. */
  lemma {:induction false} ParamTagsOkIff(paramTypes: seq<string>)
    ensures ParamTags(paramTypes).Ok? <==> forall j :: 0 <= j < |paramTypes| ==> ParseTag(paramTypes[j]).Some?
    ensures ParamTags(paramTypes).Ok? ==>
      forall j :: 0 <= j < |paramTypes| ==> ParseTag(paramTypes[j]) == Some(ParamTags(paramTypes).value[j])
    decreases |paramTypes|
  {
    if |paramTypes| > 0 {
      var i := |paramTypes| - 1;
      var init := paramTypes[..i];
      ParamTagsOkIff(init);
      if ParamTags(init).Err? {
        var j :| 0 <= j < i && ParseTag(init[j]).None?;
        assert paramTypes[j] == init[j];
      } else if ParseTag(paramTypes[i]).Some? {
        assert forall j :: 0 <= j < i ==> init[j] == paramTypes[j];
      }
    }
  }

  /** Reading code exists exactly when every type is one of the six tags. */
  lemma InputCodeOkIff(lang: Lang, paramTypes: seq<string>)
    ensures InputCode(lang, paramTypes).Ok? <==> forall j :: 0 <= j < |paramTypes| ==> ParseTag(paramTypes[j]).Some?
  {
    ParamTagsOkIff(paramTypes);
  }

  /** The error names the first type that is not one of the six tags. */
  lemma InputCodeRejects(lang: Lang, paramTypes: seq<string>, j: nat)
    requires j < |paramTypes| && ParseTag(paramTypes[j]).None?
    requires forall j2 :: 0 <= j2 < j ==> ParseTag(paramTypes[j2]).Some?
    ensures InputCode(lang, paramTypes) == Err("Unsupported type: " + paramTypes[j])
  {
    var upTo := paramTypes[..j + 1];
    assert upTo[..j] == paramTypes[..j];
    ParamTagsOkIff(paramTypes[..j]);
    assert ParamTags(upTo) == Err("Unsupported type: " + paramTypes[j]);
    ParamTagsErrorSticks(paramTypes, j + 1);
  }

  lemma {:induction false} ParamsNamed(n: nat)
    ensures forall k :: 0 <= k < n ==> Params(n)[k] == "param" + NatToDecimal(k)
  {
    if n > 0 {
      ParamsNamed(n - 1);
      assert forall k :: 0 <= k < n - 1 ==> Params(n)[k] == Params(n - 1)[k];
    }
  }

  lemma DecimalInjective(a: nat, b: nat)
    requires NatToDecimal(a) == NatToDecimal(b)
    ensures a == b
  {
    ParseIntOfDecimal(a);
    ParseIntOfDecimal(b);
  }

  /** Parameter `k` is passed as `param<k>`, and no two parameters share a
      name. */
  lemma ParamsInOrder(n: nat)
    ensures forall k :: 0 <= k < n ==> Params(n)[k] == "param" + NatToDecimal(k)
    ensures forall k, k2 :: 0 <= k < k2 < n ==> Params(n)[k] != Params(n)[k2]
  {
    ParamsNamed(n);
    forall k, k2 | 0 <= k < k2 < n ensures Params(n)[k] != Params(n)[k2] {
      var a := NatToDecimal(k);
      var b := NatToDecimal(k2);
      if Params(n)[k] == Params(n)[k2] {
        assert ("param" + a)[5..] == a;
        assert ("param" + b)[5..] == b;
        DecimalInjective(k, k2);
      }
    }
  }

  // ---------------------------------------------------------------------
  // the printing code

  /** The text the C++ program prints before its result. */
  const CppMarker: string := "-->"

  /** The C++ printing code, printing `marker` and then the result: an
      array-like result (a return type ending in `[]`) as a bracketed,
      comma-separated list, anything else with `cout << result`. */
  function CppOutputCodeWith(marker: string, returnType: string): string {
    "cout << \"" + marker + "\";" +
    (if EndsWith(returnType, "[]") then
       "\n" + Spaces(20) + "cout << \"[\";\n" +
       Spaces(20) + "bool first = true;\n" +
       Spaces(20) + "for (auto i : result) {\n" +
       Spaces(24) + "if (!first) cout << \",\";\n" +
       Spaces(24) + "cout << i;\n" +
       Spaces(24) + "first = false;\n" +
       Spaces(24) + "}\n" +
       Spaces(20) + "cout << \"]\";\n" + Spaces(16)
     else "cout << result;")
  }

  /** The printing code as the C++ handler writes it. */
  function CppOutputCode(returnType: string): string {
    CppOutputCodeWith(CppMarker, returnType)
  }

  /** The line printing the marker, with no newline after it. */
  const PythonMarkerLine: string := "print(\"{{CODE_ANSWER}}\", end=\"\")\n"

  lemma PythonMarkerLineHasMarker()
    ensures PythonMarkerLine == "print(\"" + Marker + "\", end=\"\")\n"
  {
  }

  /** The Python printing code for a return type, or the error for a
      return type it does not know. */
  function PythonOutputCode(returnType: string): (r: Result<string, string>)
    ensures r.Err? <==> returnType !in {"integer[]", "string[]", "character[]", "integer", "string", "character"}
    ensures r.Ok? ==> |PythonMarkerLine| <= |r.value| && r.value[..|PythonMarkerLine|] == PythonMarkerLine
  {
    var line :=
      if returnType == "integer[]" then Some("print(f\"[{result[0]},{result[1]}]\")\n")
      else if returnType == "string[]" then Some("print(f\"[{','.join(result)}]\")\n")
      else if returnType == "character[]" then Some("print(f\"[{','.join(f'\\'{c}\\'' for c in result)}]\")\n")
      else if returnType == "integer" || returnType == "string" then Some("print(result)\n")
      else if returnType == "character" then Some("print(f\"'{result}'\")\n")
      else None;
    if line.None? then Err("Unsupported return type: " + returnType) else Ok(PythonMarkerLine + line.value)
  }

  /** The Python program prints the very marker `executeTestCase` splits on,
      first and with no newline after it. */
  lemma PythonPrintsMarker(returnType: string)
    requires PythonOutputCode(returnType).Ok?
    ensures var code := PythonOutputCode(returnType).value;
      var line := "print(\"" + Marker + "\", end=\"\")\n";
      |line| <= |code| && code[..|line|] == line
  {
    PythonMarkerLineHasMarker();
  }

  // ---------------------------------------------------------------------
  // the Python indentation rule

  function IndentLine(line: string): string {
    if Trim(line) != "" then "    " + Trim(line) else ""
  }

  function IndentEach(lines: seq<string>): (r: seq<string>)
    ensures |r| == |lines| && forall k :: 0 <= k < |lines| ==> r[k] == IndentLine(lines[k])
  {
    seq(|lines|, k requires 0 <= k < |lines| => IndentLine(lines[k]))
  }

  /** `text.split("\n").map(line => line.trim() ? "    " + line.trim() : "").join("\n")`. */
  function Indent(text: string): string {
    Join(IndentEach(Split(text, "\n")), "\n")
  }

  /** No line of a split on newlines holds a newline. */
  lemma LinesHaveNoNewline(text: string)
    ensures forall k :: 0 <= k < |Split(text, "\n")| ==> '\n' !in Split(text, "\n")[k]
  {
    var ls := Split(text, "\n");
    SplitPiecesFree(text, "\n");
    forall k, j | 0 <= k < |ls| && 0 <= j < |ls[k]| ensures ls[k][j] != '\n' {
      assert !OccursAt(ls[k], "\n", j);
      assert ls[k][j..j + 1] == [ls[k][j]];
    }
  }

  /** One indented line: empty for a blank line, else four spaces and the
      trimmed line, which starts with no white space. */
  lemma IndentLineShape(line: string)
    ensures IsBlank(line) ==> IndentLine(line) == ""
    ensures !IsBlank(line) ==>
      var out := IndentLine(line);
      |out| > 4 && out[..4] == "    " && !IsJsWhitespace(out[4]) && out[4..] == Trim(line)
    ensures '\n' !in line ==> '\n' !in IndentLine(line)
  {
    if '\n' !in line {
      TrimKeepsOut(line, '\n');
    }
  }

  /** Indenting keeps the lines and their order: line `k` of the result is
      empty when line `k` of the text is blank, and otherwise exactly four
      spaces followed by that line trimmed, which starts with no white
      space. */
  lemma IndentLines(text: string)
    ensures var ls := Split(text, "\n"); var out := Split(Indent(text), "\n");
      |out| == |ls| &&
      forall k :: 0 <= k < |ls| ==>
        (IsBlank(ls[k]) ==> out[k] == "") &&
        (!IsBlank(ls[k]) ==> |out[k]| > 4 && out[k][..4] == "    " && !IsJsWhitespace(out[k][4]) &&
                             out[k][4..] == Trim(ls[k]))
  {
    var ls := Split(text, "\n");
    var each := IndentEach(ls);
    LinesHaveNoNewline(text);
    forall k | 0 <= k < |ls| ensures '\n' !in each[k] {
      IndentLineShape(ls[k]);
    }
    SplitJoinChar(each, '\n');
    assert Split(Indent(text), "\n") == each;
    forall k | 0 <= k < |ls| ensures
      (IsBlank(ls[k]) ==> each[k] == "") &&
      (!IsBlank(ls[k]) ==> |each[k]| > 4 && each[k][..4] == "    " && !IsJsWhitespace(each[k][4]) &&
                           each[k][4..] == Trim(ls[k]))
    {
      IndentLineShape(ls[k]);
    }
  }

  // ---------------------------------------------------------------------
  // the programs

  /** The C++ program up to the user's code. */
  function CppPrelude(): string {
    "\n" + Spaces(16) + "#include <iostream>\n" +
    Spaces(16) + "#include <bits/stdc++.h>\n" +
    Spaces(16) + "using namespace std;\n" + Spaces(16)
  }

  /** The line calling the user's function on the parameters. */
  function CallLine(functionName: string, args: string): string {
    "auto result = sol." + functionName + "(" + args + ");"
  }

  /** The C++ program after the user's code. */
  function CppMain(functionName: string, input: string, args: string, output: string): string {
    MainHead(input) + CallLine(functionName, args) + MainTail(output)
  }

  function MainHead(input: string): string {
    "\n" + Spaces(16) + "int main() {\n" +
    Spaces(20) + input + "\n" +
    Spaces(20) + "Solution sol;\n" + Spaces(20)
  }

  function MainTail(output: string): string {
    "\n" + Spaces(20) + output + "   \n" +
    Spaces(20) + "return 0;\n" +
    Spaces(16) + "}\n" + Spaces(12)
  }

  function PythonProgram(code: string, functionName: string, input: string, args: string, output: string): string {
    Trim(code) + PythonMain(functionName, input, args, output)
  }

  /** The Python program after the user's code. */
  function PythonMain(functionName: string, input: string, args: string, output: string): string {
    "\n\nif __name__ == \"__main__\":\n" + Indent(input) +
    "\n    sol = Solution()\n    result = sol." + functionName + "(" + args + ")\n" +
    Indent(output) + "\n"
  }

  /** What `handler.wrapCode(code, functionName, paramTypes, returnType)`
      returns, or the message it throws. */
  function WrapProgram(lang: Lang, code: string, functionName: string, paramTypes: seq<string>, returnType: string): Result<string, string> {
    match InputCode(lang, paramTypes)
    case Err(e) => Err(e)
    case Ok(input) =>
      var args := Join(Params(|paramTypes|), ", ");
      if lang == Cpp then Ok(CppPrelude() + code + CppMain(functionName, input, args, CppOutputCode(returnType)))
      else
        match PythonOutputCode(returnType)
        case Err(e) => Err(e)
        case Ok(output) => Ok(PythonProgram(code, functionName, input, args, output))
  }

  /** The `forEach` over the parameter types in `wrapCode`: it appends
      each reader to the input code and each name to the variable list,
      and throws at the first type it cannot read. */
  method ReadParams(lang: Lang, paramTypes: seq<string>) returns (r: Result<string, string>, variables: seq<string>)
    ensures r == InputCode(lang, paramTypes)
    ensures r.Ok? ==> variables == Params(|paramTypes|)
  {
    hide Snippet, NatToDecimal, ParseTag;
    var inputCode := "";
    variables := [];
    ghost var tags: seq<TypeTag> := [];
    var i := 0;
    while i < |paramTypes|
      invariant 0 <= i <= |paramTypes|
      invariant ParamTags(paramTypes[..i]) == Ok(tags)
      invariant inputCode == Readers(lang, tags)
      invariant variables == Params(i)
    {
      assert paramTypes[..i + 1][..i] == paramTypes[..i];
      var tag := ParseTag(paramTypes[i]);
      if tag.None? {
        ParamTagsErrorSticks(paramTypes, i + 1);
        return Err("Unsupported type: " + paramTypes[i]), variables;
      }
      assert (tags + [tag.value])[..i] == tags;
      inputCode := inputCode + Snippet(lang, tag.value, i);
      tags := tags + [tag.value];
      variables := variables + ["param" + NatToDecimal(i)];
      i := i + 1;
    }
    assert paramTypes[..i] == paramTypes;
    r := Ok(inputCode);
  }

  /** `handler.wrapCode(code, functionName, paramTypes, returnType)`. */
  method WrapCode(lang: Lang, code: string, functionName: string, paramTypes: seq<string>, returnType: string)
    returns (r: Result<string, string>)
    ensures r == WrapProgram(lang, code, functionName, paramTypes, returnType)
  {
    var input, variables := ReadParams(lang, paramTypes);
    if input.Err? {
      return Err(input.error);
    }
    var args := Join(variables, ", ");
    if lang == Cpp {
      r := Ok(CppPrelude() + code + CppMain(functionName, input.value, args, CppOutputCode(returnType)));
    } else {
      var output := PythonOutputCode(returnType);
      if output.Err? {
        return Err(output.error);
      }
      r := Ok(PythonProgram(code, functionName, input.value, args, output.value));
    }
  }

  /** An unknown parameter type is reported, naming the first one, before
      the return type is looked at. */
  lemma WrapRejectsParamType(lang: Lang, code: string, functionName: string, paramTypes: seq<string>, returnType: string, j: nat)
    requires j < |paramTypes| && ParseTag(paramTypes[j]).None?
    requires forall j2 :: 0 <= j2 < j ==> ParseTag(paramTypes[j2]).Some?
    ensures WrapProgram(lang, code, functionName, paramTypes, returnType) == Err("Unsupported type: " + paramTypes[j])
  {
    InputCodeRejects(lang, paramTypes, j);
  }

  /** With known parameter types, C++ wraps any return type. */
  lemma CppWrapsAnyReturnType(code: string, functionName: string, paramTypes: seq<string>, returnType: string)
    requires forall j :: 0 <= j < |paramTypes| ==> ParseTag(paramTypes[j]).Some?
    ensures WrapProgram(Cpp, code, functionName, paramTypes, returnType).Ok?
  {
    InputCodeOkIff(Cpp, paramTypes);
  }

  /** With known parameter types, Python wraps exactly the six tags as
      return types, and reports any other return type by name. */
  lemma PythonReturnTypes(code: string, functionName: string, paramTypes: seq<string>, returnType: string)
    requires forall j :: 0 <= j < |paramTypes| ==> ParseTag(paramTypes[j]).Some?
    ensures WrapProgram(Python, code, functionName, paramTypes, returnType).Ok? <==> ParseTag(returnType).Some?
    ensures ParseTag(returnType).None? ==>
      WrapProgram(Python, code, functionName, paramTypes, returnType) == Err("Unsupported return type: " + returnType)
  {
    InputCodeOkIff(Python, paramTypes);
    assert ParseTag(returnType).Some? <==>
      returnType in {"integer[]", "string[]", "character[]", "integer", "string", "character"};
  }

  /** The user's code appears verbatim in the C++ program, right after the
      includes; the Python program starts with it, trimmed. */
  lemma WrapEmbedsCode(lang: Lang, code: string, functionName: string, paramTypes: seq<string>, returnType: string)
    requires WrapProgram(lang, code, functionName, paramTypes, returnType).Ok?
    ensures var p := WrapProgram(lang, code, functionName, paramTypes, returnType).value;
      lang == Cpp ==> |CppPrelude()| + |code| <= |p| && p[|CppPrelude()|..|CppPrelude()| + |code|] == code
    ensures var p := WrapProgram(lang, code, functionName, paramTypes, returnType).value;
      lang == Python ==> |Trim(code)| <= |p| && p[..|Trim(code)|] == Trim(code)
  {
    hide InputCode, Params, Join, CppMain, PythonMain, CppOutputCode, PythonOutputCode, CppPrelude, Trim;
    var input := InputCode(lang, paramTypes).value;
    var args := Join(Params(|paramTypes|), ", ");
    if lang == Cpp {
      MiddleSlice(CppPrelude(), code, CppMain(functionName, input, args, CppOutputCode(returnType)));
    } else {
      var rest := PythonMain(functionName, input, args, PythonOutputCode(returnType).value);
      assert (Trim(code) + rest)[..|Trim(code)|] == Trim(code);
    }
  }

  /** The C++ program calls the user's function on `param0` to
      `param<n-1>`, in the declared order. */
  lemma CppCallsFunction(code: string, functionName: string, paramTypes: seq<string>, returnType: string)
    requires WrapProgram(Cpp, code, functionName, paramTypes, returnType).Ok?
    ensures exists k :: OccursAt(WrapProgram(Cpp, code, functionName, paramTypes, returnType).value,
      CallLine(functionName, Join(Params(|paramTypes|), ", ")), k)
  {
    hide InputCode, Params, Join, CppPrelude, MainHead, MainTail, CallLine, CppOutputCode, PythonOutputCode;
    var p := WrapProgram(Cpp, code, functionName, paramTypes, returnType).value;
    var input := InputCode(Cpp, paramTypes).value;
    var call := CallLine(functionName, Join(Params(|paramTypes|), ", "));
    var head := CppPrelude() + code + MainHead(input);
    var tail := MainTail(CppOutputCode(returnType));
    assert p == CppPrelude() + code + CppMain(functionName, input, Join(Params(|paramTypes|), ", "), CppOutputCode(returnType));
    Regroup3(CppPrelude(), code, MainHead(input), call, tail);
    OccursInMiddle(head, call, tail);
  }

  lemma Regroup3(a: string, b: string, c: string, d: string, e: string)
    ensures a + b + (c + d + e) == (a + b + c) + d + e
  {
  }

  lemma OccursInMiddle(a: string, m: string, b: string)
    ensures OccursAt(a + m + b, m, |a|)
  {
    assert (a + m + b)[|a|..|a| + |m|] == m;
  }

  /** A C++ array parameter is read as one whole line, a scalar with
      `cin >>`. */
  lemma CppSnippetReads(t: TypeTag, d: string)
    ensures IsArrayTag(t) ==> OccursAt(CppSnippet(t, d), GetlineRead(d), |LineHead(CppElementType(t), d)|)
    ensures !IsArrayTag(t) ==> OccursAt(CppSnippet(t, d), CinRead(d), |ScalarHead(CppElementType(t), d)|)
  {
    if IsArrayTag(t) {
      OccursInMiddle(LineHead(CppElementType(t), d), GetlineRead(d), LineTail(CppElementType(t), CppElementVar(t), d));
    } else {
      OccursInMiddle(ScalarHead(CppElementType(t), d), CinRead(d), SnippetEnd());
    }
  }

  // ---------------------------------------------------------------------
  // the C++ marker

  /** The C++ printing code prints its marker before anything else. */
  lemma CppPrintsMarkerFirst(marker: string, returnType: string)
    ensures var first := "cout << \"" + marker + "\";";
      var code := CppOutputCodeWith(marker, returnType);
      |first| <= |code| && code[..|first|] == first
  {
  }

  /** As the C++ handler is written, a program that prints `-->` and then
      a result in which `{{CODE_ANSWER}}` does not occur is rejected by
      `executeTestCase` as "Invalid output format", whatever it computed. */
  lemma CppRunRejected(out: CodeOutput, n: nat, input: string, result: string)
    requires out.status == Success && out.output == CppMarker + result
    requires forall j :: !OccursAt(result, Marker, j)
    ensures RunOutcome(out, n, input) == TestRun("", Some(ExecutionError(Error, "Invalid output format", n, input)))
  {
    var s := out.output;
    forall j ensures !OccursAt(s, Marker, j) {
      if 0 <= j < 3 && j + |Marker| <= |s| {
        assert s[j] == CppMarker[j] != Marker[0];
        assert s[j..j + |Marker|][0] == s[j];
      } else if 3 <= j && j + |Marker| <= |s| {
        WindowInRight(CppMarker, result, j, |Marker|);
        assert !OccursAt(result, Marker, j - 3);
      }
    }
    MarkerNoSelfOverlap();
    SplitTwoIffOnce(s, Marker);
  }

  /** The printing code the evidently intended C++ handler writes: the
      marker `executeTestCase` looks for. */
  function CppOutputCodeFixed(returnType: string): string {
    CppOutputCodeWith(Marker, returnType)
  }

  /** A window of `a + b` that starts inside `a` and is as long as `a`
      begins with the rest of `a`. */
  lemma WindowOverlapsLeft(a: string, b: string, j: nat)
    requires 0 < j < |a| && j + |a| <= |a + b|
    ensures (a + b)[j..j + |a|][..|a| - j] == a[j..]
  {
    var w := (a + b)[j..j + |a|];
    forall k | 0 <= k < |a| - j ensures w[k] == a[j + k] {
      assert (a + b)[j + k] == a[j + k];
    }
  }

  /** A window of `a + b` that starts after `a` lies in `b`. */
  lemma WindowInRight(a: string, b: string, j: nat, m: nat)
    requires |a| <= j && j + m <= |a + b|
    ensures (a + b)[j..j + m] == b[j - |a|..j - |a| + m]
  {
    var w := (a + b)[j..j + m];
    forall k | 0 <= k < m ensures w[k] == b[j - |a| + k] {
      assert (a + b)[j + k] == b[j - |a| + k];
    }
  }

  /** In the marker followed by text free of it, the marker occurs only at
      the start. */
  lemma OnlyLeadingMarker(result: string)
    requires forall j :: !OccursAt(result, Marker, j)
    ensures OccursOnce(Marker + result, Marker)
  {
    var s := Marker + result;
    var m := |Marker|;
    MarkerNoSelfOverlap();
    assert s[..m] == Marker;
    forall j ensures OccursAt(s, Marker, j) ==> j == 0 {
      if 0 < j < m && j + m <= |s| {
        WindowOverlapsLeft(Marker, result, j);
        assert Marker[j..] != Marker[..m - j];
      } else if m <= j && j + m <= |s| {
        WindowInRight(Marker, result, j, m);
        assert !OccursAt(result, Marker, j - m);
      }
    }
    assert OccursAt(s, Marker, 0);
  }

  /** With the intended marker, the same program is accepted and its answer
      is the trimmed result. */
  lemma CppFixedRunAccepted(out: CodeOutput, n: nat, input: string, result: string)
    requires out.status == Success && out.output == Marker + result
    requires forall j :: !OccursAt(result, Marker, j)
    ensures RunOutcome(out, n, input) == TestRun(Trim(result), None)
  {
    var s := out.output;
    var m := |Marker|;
    OnlyLeadingMarker(result);
    MarkerNoSelfOverlap();
    SplitTwoIffOnce(s, Marker);
    var k :| OccursAt(s, Marker, k) && Split(s, Marker) == [s[..k], s[k + m..]];
    assert OccursAt(s, Marker, 0);
    assert k == 0;
    assert s[m..] == result;
  }

  // ---------------------------------------------------------------------
  // the Python integer[] result

  /** What `print(f"[{result[0]},{result[1]}]")` prints for a list of
      integers: its first two elements only; a shorter list raises. */
  function PythonIntListPrinted(xs: seq<int>): (r: Option<string>)
    ensures r.Some? <==> |xs| >= 2
  {
    if |xs| < 2 then None else Some("[" + IntToDecimal(xs[0]) + "," + IntToDecimal(xs[1]) + "]\n")
  }

  function IntegerValues(xs: seq<int>): (vs: seq<JsonValue>)
    ensures |vs| == |xs| && forall k :: 0 <= k < |xs| ==> vs[k] == JNumber(xs[k], 0)
  {
    seq(|xs|, k requires 0 <= k < |xs| => JNumber(xs[k], 0))
  }

  /** A list of three or more integers comes back, after the judge trims the
      answer and reads it as JSON, as its first two elements only. */
  lemma PythonIntListTruncates(xs: seq<int>)
    requires |xs| >= 3
    ensures Parse(Trim(PythonIntListPrinted(xs).value)) == Some(JArray(IntegerValues(xs[..2])))
    ensures IntegerValues(xs[..2]) != IntegerValues(xs)
  {
    var printed := PythonIntListPrinted(xs).value;
    var text := RenderArray(IntegerValues(xs[..2]));
    var rs := Renderings(IntegerValues(xs[..2]));
    assert Join(rs, ",") == rs[0] + "," + rs[1] by {
      assert rs[1..] == [rs[1]];
    }
    assert printed == text + "\n";
    TrimOfNewlineEnded(text);
    ParseRenderedArray(IntegerValues(xs[..2]));
  }

  /** Trimming drops the newline `print` adds after text that neither
      starts nor ends with white space. */
  lemma TrimOfNewlineEnded(text: string)
    requires |text| >= 2 && text[0] == '[' && text[|text| - 1] == ']'
    ensures Trim(text + "\n") == text
  {
    var s := text + "\n";
    assert s[0] == '[' && !IsJsWhitespace(s[0]);
    assert TrimStart(s) == s;
    assert s[|s| - 1] == '\n' && s[..|s| - 1] == text;
    assert TrimEnd(s) == TrimEnd(text);
    assert !IsJsWhitespace(text[|text| - 1]);
    assert TrimEnd(text) == text;
  }

  /** The evidently intended Python line for an `integer[]` result, and what
      it prints: every element, comma-separated in brackets. */
  const PythonIntListLineFixed: string := "print(f\"[{','.join(map(str, result))}]\")\n"

  function PythonIntListPrintedFixed(xs: seq<int>): string {
    RenderArray(IntegerValues(xs)) + "\n"
  }

  /** With the intended line the judge reads back the whole list. */
  lemma PythonIntListFixedRoundTrip(xs: seq<int>)
    ensures Parse(Trim(PythonIntListPrintedFixed(xs))) == Some(JArray(IntegerValues(xs)))
  {
    TrimOfNewlineEnded(RenderArray(IntegerValues(xs)));
    ParseRenderedArray(IntegerValues(xs));
  }
}
