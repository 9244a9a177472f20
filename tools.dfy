/**
 * The tool registry of tools.py: tool declarations, the capability text
 * injected into the system prompt, the consistency check run when the agent
 * starts, argument validation, and dispatch.
 *
 * The tool implementations (file I/O, code execution, chart files) are not
 * modelled; dispatch receives them as arbitrary functions that either return
 * a text or raise with a message.
 */
module Tools {
  import opened Wrappers
  import opened Strings
  import opened Json

  const TOOLS_VERSION := "1.0.0"

  /** A tool declaration (`ToolDefinition.__init__`); `optionalParams` maps a name to its description. */
  datatype ToolDefinition = ToolDefinition(
    name: string,
    description: string,
    requiredParams: seq<string>,
    optionalParams: seq<(string, string)>)

  /** The description a required parameter gets when the optional map does not describe it. */
  function RequiredDefault(p: string): string {
    "必需参数: " + p
  }

  /** `dict(pairs)`: a later binding of a key replaces an earlier one. */
  function ToMap(pairs: seq<(string, string)>): (m: map<string, string>)
    ensures m.Keys == set i | 0 <= i < |pairs| :: pairs[i].0
  {
    if |pairs| == 0 then map[]
    else
      var init := pairs[..|pairs| - 1];
      var m := ToMap(init)[pairs[|pairs| - 1].0 := pairs[|pairs| - 1].1];
      assert forall i :: 0 <= i < |pairs| - 1 ==> init[i] == pairs[i];
      m
  }

  /** With distinct keys every item survives in the map. */
  lemma {:induction false} ToMapHasItems(pairs: seq<(string, string)>, i: nat)
    requires DistinctKeys(pairs) && i < |pairs|
    ensures ToMap(pairs)[pairs[i].0] == pairs[i].1
  {
    if i < |pairs| - 1 {
      var init := pairs[..|pairs| - 1];
      assert init[i] == pairs[i];
      ToMapHasItems(init, i);
    }
  }

  /** `all_params`: each required name with its default description, then the optional map over it. */
  function AllParams(t: ToolDefinition): map<string, string> {
    (map p | p in t.requiredParams :: RequiredDefault(p)) + ToMap(t.optionalParams)
  }

  /**
   * The names of `all_params` are the required names together with the
   * optional ones; a required name keeps its default description unless
   * the optional map describes it.
   */
  lemma AllParamsSpec(t: ToolDefinition)
    requires DistinctKeys(t.optionalParams)
    ensures AllParams(t).Keys == (set p | p in t.requiredParams) + (set i | 0 <= i < |t.optionalParams| :: t.optionalParams[i].0)
    ensures forall i :: 0 <= i < |t.optionalParams| ==> AllParams(t)[t.optionalParams[i].0] == t.optionalParams[i].1
    ensures forall p :: p in t.requiredParams && p !in ToMap(t.optionalParams) ==> AllParams(t)[p] == RequiredDefault(p)
  {
    forall i | 0 <= i < |t.optionalParams| ensures AllParams(t)[t.optionalParams[i].0] == t.optionalParams[i].1 {
      ToMapHasItems(t.optionalParams, i);
    }
  }

  /** The entry `to_dict` makes for the `TOOLS` dictionary. */
  datatype ToolInfo = ToolInfo(description: string, requiredParameters: seq<string>, parameters: map<string, string>)

  function ToDict(t: ToolDefinition): ToolInfo {
    ToolInfo(t.description, t.requiredParams, AllParams(t))
  }

  /** `TOOLS`: each definition's entry under its name; a repeated name keeps the last definition. */
  function Registry(defs: seq<ToolDefinition>): (m: map<string, ToolInfo>)
    ensures m.Keys == set i | 0 <= i < |defs| :: defs[i].name
  {
    if |defs| == 0 then map[]
    else
      var init := defs[..|defs| - 1];
      var m := Registry(init)[defs[|defs| - 1].name := ToDict(defs[|defs| - 1])];
      assert forall i :: 0 <= i < |defs| - 1 ==> init[i] == defs[i];
      m
  }

  predicate DistinctNames(defs: seq<ToolDefinition>) {
    forall i, j :: 0 <= i < j < |defs| ==> defs[i].name != defs[j].name
  }

  /** With distinct names, the registry holds every definition's own entry. */
  lemma {:induction false} RegistryHoldsEachDefinition(defs: seq<ToolDefinition>, i: nat)
    requires DistinctNames(defs) && i < |defs|
    ensures Registry(defs)[defs[i].name] == ToDict(defs[i])
  {
    if i < |defs| - 1 {
      var init := defs[..|defs| - 1];
      assert init[i] == defs[i];
      RegistryHoldsEachDefinition(init, i);
    }
  }

  /** `_TOOL_DEFINITIONS`. */
  const TOOL_DEFINITIONS: seq<ToolDefinition> := [
    ToolDefinition("write_file", "将内容写入文件", ["file_path", "content"],
      [("file_path", "文件路径（相对于工作区）"), ("content", "要写入的文件内容")]),
    ToolDefinition("read_file", "读取文件内容", ["file_path"],
      [("file_path", "文件路径（相对于工作区）")]),
    ToolDefinition("list_files", "列出目录中的文件", [],
      [("directory", "目录路径（可选，默认为工作区根目录）")]),
    ToolDefinition("execute_code", "执行Python代码", ["code"],
      [("code", "要执行的Python代码")]),
    ToolDefinition("final_answer", "提供最终答案并结束任务", ["answer"],
      [("answer", "最终答案内容")]),
    ToolDefinition("create_echarts_visualization", "根据输入数据和图表类型快速创建ECharts可视化HTML文件",
      ["data", "chart_type", "output_filename"],
      [("data", "图表数据，支持多种格式：列表、字典、JSON字符串等"),
       ("chart_type", "图表类型：bar(柱状图)、line(折线图)、pie(饼图)、scatter(散点图)、radar(雷达图)、funnel(漏斗图)等"),
       ("output_filename", "输出HTML文件名（相对于工作区）"),
       ("title", "图表标题（可选）"),
       ("x_axis_name", "X轴名称（可选）"),
       ("y_axis_name", "Y轴名称（可选）"),
       ("theme", "图表主题：light、dark、vintage、roma、shine、infographic等（可选，默认light）")])
  ]

  // ---------------------------------------------------------------------
  // The capability text (`to_prompt_format`, `get_tools_description`)

  const REQUIRED_HEADING := "  必需参数:"
  const OPTIONAL_HEADING := "  可选参数:"
  const HEADER := "# 可用工具 (版本: " + TOOLS_VERSION + ")\n"
  const FOOTER := "\n\n注意：所有文件操作都相对于工作区目录进行。"

  function TitleLine(t: ToolDefinition): string {
    "- **" + t.name + "**: " + t.description
  }

  function ParamLine(p: string, desc: string): string {
    "    - " + p + ": " + desc
  }

  /** The description line of the `i`-th required parameter, looked up in `all_params`. */
  function RequiredLine(t: ToolDefinition, i: nat): string
    requires i < |t.requiredParams|
  {
    var p := t.requiredParams[i];
    var all := AllParams(t);
    ParamLine(p, if p in all then all[p] else RequiredDefault(p))
  }

  function RequiredLines(t: ToolDefinition): seq<string> {
    seq(|t.requiredParams|, i requires 0 <= i < |t.requiredParams| => RequiredLine(t, i))
  }

  function OptionalLines(t: ToolDefinition): seq<string> {
    seq(|t.optionalParams|, i requires 0 <= i < |t.optionalParams| => ParamLine(t.optionalParams[i].0, t.optionalParams[i].1))
  }

  /** The lines of one tool's block: a title, then a section for each non-empty parameter group. */
  function PromptLines(t: ToolDefinition): seq<string> {
    [TitleLine(t)]
    + (if |t.requiredParams| > 0 then [REQUIRED_HEADING] + RequiredLines(t) else [])
    + (if |t.optionalParams| > 0 then [OPTIONAL_HEADING] + OptionalLines(t) else [])
  }

  function PromptFormat(t: ToolDefinition): string {
    Join(PromptLines(t), "\n")
  }

  /** `ToolDefinition.to_prompt_format`: the block's lines are appended one by one, then joined. */
  method ToPromptFormat(t: ToolDefinition) returns (text: string)
    ensures text == PromptFormat(t)
  {
    var lines := [TitleLine(t)];
    if |t.requiredParams| > 0 {
      lines := lines + [REQUIRED_HEADING];
      lines := AppendRequiredLines(t, lines);
      assert lines == [TitleLine(t)] + ([REQUIRED_HEADING] + RequiredLines(t));
    }
    ghost var afterRequired := lines;
    if |t.optionalParams| > 0 {
      lines := lines + [OPTIONAL_HEADING];
      lines := AppendOptionalLines(t, lines);
      assert lines == afterRequired + ([OPTIONAL_HEADING] + OptionalLines(t));
    }
    assert lines == PromptLines(t);
    text := Join(lines, "\n");
  }

  /** The loop over `required_params`: one line per parameter, its description looked up in `all_params`. */
  method AppendRequiredLines(t: ToolDefinition, lines: seq<string>) returns (out: seq<string>)
    ensures out == lines + RequiredLines(t)
  {
    out := lines;
    var all := AllParams(t);
    for i := 0 to |t.requiredParams|
      invariant out == lines + RequiredLines(t)[..i]
    {
      var p := t.requiredParams[i];
      var desc := if p in all then all[p] else RequiredDefault(p);
      assert RequiredLines(t)[..i + 1] == RequiredLines(t)[..i] + [RequiredLine(t, i)];
      out := out + [ParamLine(p, desc)];
    }
    assert RequiredLines(t)[..|t.requiredParams|] == RequiredLines(t);
  }

  /** The loop over `optional_params`: one line per parameter with its description. */
  method AppendOptionalLines(t: ToolDefinition, lines: seq<string>) returns (out: seq<string>)
    ensures out == lines + OptionalLines(t)
  {
    out := lines;
    for i := 0 to |t.optionalParams|
      invariant out == lines + OptionalLines(t)[..i]
    {
      var (p, desc) := t.optionalParams[i];
      out := out + [ParamLine(p, desc)];
    }
    assert OptionalLines(t)[..|t.optionalParams|] == OptionalLines(t);
  }

  /** A block has its required-parameter section exactly when the tool has required parameters. */
  lemma RequiredSectionIffRequiredParams(t: ToolDefinition)
    ensures REQUIRED_HEADING in PromptLines(t) <==> |t.requiredParams| > 0
  {
    HeadingsAreNotParamLines(t);
    if |t.requiredParams| == 0 {
      assert PromptLines(t) == [TitleLine(t)] + (if |t.optionalParams| > 0 then [OPTIONAL_HEADING] + OptionalLines(t) else []);
    }
  }

  /** A block has its optional-parameter section exactly when the tool has optional parameters. */
  lemma OptionalSectionIffOptionalParams(t: ToolDefinition)
    ensures OPTIONAL_HEADING in PromptLines(t) <==> |t.optionalParams| > 0
  {
    HeadingsAreNotParamLines(t);
    if |t.optionalParams| == 0 {
      assert PromptLines(t) == [TitleLine(t)] + (if |t.requiredParams| > 0 then [REQUIRED_HEADING] + RequiredLines(t) else []);
    }
  }

  /** No title or parameter line can be mistaken for a section heading. */
  lemma HeadingsAreNotParamLines(t: ToolDefinition)
    ensures TitleLine(t) != REQUIRED_HEADING && TitleLine(t) != OPTIONAL_HEADING
    ensures forall l :: l in RequiredLines(t) ==> l != REQUIRED_HEADING && l != OPTIONAL_HEADING
    ensures forall l :: l in OptionalLines(t) ==> l != REQUIRED_HEADING && l != OPTIONAL_HEADING
    ensures REQUIRED_HEADING != OPTIONAL_HEADING
  {
    assert TitleLine(t)[0] == '-' && REQUIRED_HEADING[0] == ' ' && OPTIONAL_HEADING[0] == ' ';
    forall p, d ensures ParamLine(p, d) != REQUIRED_HEADING && ParamLine(p, d) != OPTIONAL_HEADING {
      assert ParamLine(p, d)[2] == ' ';
      assert REQUIRED_HEADING[2] == '必' && OPTIONAL_HEADING[2] == '可';
    }
    assert REQUIRED_HEADING[2] != OPTIONAL_HEADING[2];
  }

  /**
   * Each required parameter is listed under its own name, with the optional
   * map's description when there is one and the default description otherwise.
   */
  lemma RequiredLineDescribes(t: ToolDefinition, i: nat)
    requires i < |t.requiredParams|
    ensures var p := t.requiredParams[i];
      RequiredLines(t)[i] == ParamLine(p, if p in ToMap(t.optionalParams) then ToMap(t.optionalParams)[p] else RequiredDefault(p))
  {
  }

  /** `get_tools_description`: the header, the blocks in declaration order, the footer. */
  function Description(defs: seq<ToolDefinition>): string {
    HEADER + Join(seq(|defs|, i requires 0 <= i < |defs| => PromptFormat(defs[i])), "\n\n") + FOOTER
  }

  /** `get_tools_description`: the blocks are rendered and collected in a loop, then joined. */
  method GetToolsDescription(defs: seq<ToolDefinition>) returns (text: string)
    ensures text == Description(defs)
  {
    var descriptions: seq<string> := [];
    for i := 0 to |defs|
      invariant descriptions == seq(i, k requires 0 <= k < i => PromptFormat(defs[k]))
    {
      var block := ToPromptFormat(defs[i]);
      descriptions := descriptions + [block];
    }
    text := HEADER + Join(descriptions, "\n\n") + FOOTER;
  }

  /** The capability text names every declared tool with its description. */
  lemma DescriptionListsEveryTool(defs: seq<ToolDefinition>, i: nat)
    requires i < |defs|
    ensures Contains(Description(defs), TitleLine(defs[i]))
  {
    var blocks := seq(|defs|, k requires 0 <= k < |defs| => PromptFormat(defs[k]));
    var lines := PromptLines(defs[i]);
    JoinContainsPart(lines, "\n", 0);
    JoinContainsPart(blocks, "\n\n", i);
    ContainsWithin(Join(blocks, "\n\n"), blocks[i], TitleLine(defs[i]));
    ContainsInMiddle(HEADER, Join(blocks, "\n\n"), FOOTER, TitleLine(defs[i]));
  }

  // ---------------------------------------------------------------------
  // The consistency check (`validate_tools_consistency`)

  datatype Verdict = Verdict(ok: bool, message: string)

  const DUPLICATE_MESSAGE := "工具名称存在重复"
  const CONSISTENT_MESSAGE := "工具定义一致性检查通过"

  function IncompleteMessage(name: string): string {
    "工具 " + name + " 缺少必要信息"
  }

  function UndeclaredMessage(name: string, p: string): string {
    "工具 " + name + " 的必需参数 " + p + " 未在参数列表中定义"
  }

  function NameSet(defs: seq<ToolDefinition>): set<string> {
    set i | 0 <= i < |defs| :: defs[i].name
  }

  /** The names of all definitions are those of the earlier ones and the last one's. */
  lemma NameSetSnoc(defs: seq<ToolDefinition>)
    requires |defs| > 0
    ensures NameSet(defs) == NameSet(defs[..|defs| - 1]) + {defs[|defs| - 1].name}
  {
    var init := defs[..|defs| - 1];
    assert forall i :: 0 <= i < |defs| - 1 ==> init[i] == defs[i];
  }

  /** The names are distinct exactly when the earlier ones are and the last name is new. */
  lemma DistinctNamesSnoc(defs: seq<ToolDefinition>)
    requires |defs| > 0
    ensures DistinctNames(defs) <==> DistinctNames(defs[..|defs| - 1]) && defs[|defs| - 1].name !in NameSet(defs[..|defs| - 1])
  {
    var init := defs[..|defs| - 1];
    var last := defs[|defs| - 1];
    assert forall i :: 0 <= i < |defs| - 1 ==> init[i] == defs[i];
    if last.name in NameSet(init) {
      var k :| 0 <= k < |init| && init[k].name == last.name;
      assert defs[k].name == defs[|defs| - 1].name;
    }
  }

  /** `len(tool_names) != len(set(tool_names))` is exactly a repeated name. */
  lemma {:induction false} NameSetSize(defs: seq<ToolDefinition>)
    ensures |NameSet(defs)| <= |defs|
    ensures |NameSet(defs)| == |defs| <==> DistinctNames(defs)
  {
    if |defs| > 0 {
      var init := defs[..|defs| - 1];
      NameSetSize(init);
      NameSetSnoc(defs);
      DistinctNamesSnoc(defs);
    }
  }

  /** The first required parameter of `t`, from index `j` on, missing from `all_params`. */
  function FirstUndeclared(t: ToolDefinition, j: nat): Option<string>
    requires j <= |t.requiredParams|
    decreases |t.requiredParams| - j
  {
    if j == |t.requiredParams| then None
    else if t.requiredParams[j] !in AllParams(t) then Some(t.requiredParams[j])
    else FirstUndeclared(t, j + 1)
  }

  /** The verdict of the per-definition checks, from definition `i` on. */
  function DefectFrom(defs: seq<ToolDefinition>, i: nat): Verdict
    requires i <= |defs|
    decreases |defs| - i
  {
    if i == |defs| then Verdict(true, CONSISTENT_MESSAGE)
    else if defs[i].name == "" || defs[i].description == "" then Verdict(false, IncompleteMessage(defs[i].name))
    else match FirstUndeclared(defs[i], 0)
      case Some(p) => Verdict(false, UndeclaredMessage(defs[i].name, p))
      case None => DefectFrom(defs, i + 1)
  }

  function ConsistencyVerdict(defs: seq<ToolDefinition>): Verdict {
    if |NameSet(defs)| != |defs| then Verdict(false, DUPLICATE_MESSAGE) else DefectFrom(defs, 0)
  }

  /** `validate_tools_consistency`: the set-size test, then a scan with early returns. */
  method ValidateToolsConsistency(defs: seq<ToolDefinition>) returns (ok: bool, message: string)
    ensures Verdict(ok, message) == ConsistencyVerdict(defs)
  {
    var toolNames := seq(|defs|, i requires 0 <= i < |defs| => defs[i].name);
    var nameSet := set n | n in toolNames;
    assert nameSet == NameSet(defs) by {
      forall n | n in NameSet(defs) ensures n in nameSet {
        var i :| 0 <= i < |defs| && defs[i].name == n;
        assert toolNames[i] == n;
      }
    }
    if |toolNames| != |nameSet| {
      return false, DUPLICATE_MESSAGE;
    }
    for i := 0 to |defs|
      invariant DefectFrom(defs, 0) == DefectFrom(defs, i)
    {
      var t := defs[i];
      if t.name == "" || t.description == "" {
        return false, IncompleteMessage(t.name);
      }
      var all := AllParams(t);
      for j := 0 to |t.requiredParams|
        invariant FirstUndeclared(t, 0) == FirstUndeclared(t, j)
      {
        var p := t.requiredParams[j];
        if p !in all {
          return false, UndeclaredMessage(t.name, p);
        }
      }
    }
    return true, CONSISTENT_MESSAGE;
  }

  /** Every required parameter is in `all_params`, so the third check of the scan never fails. */
  lemma {:induction false} RequiredAlwaysDeclared(t: ToolDefinition, j: nat)
    requires j <= |t.requiredParams|
    ensures FirstUndeclared(t, j) == None
    decreases |t.requiredParams| - j
  {
    if j < |t.requiredParams| {
      RequiredAlwaysDeclared(t, j + 1);
    }
  }

  /** The scan from `i` passes exactly when every later definition has a name and a description. */
  lemma {:induction false} DefectFromIff(defs: seq<ToolDefinition>, i: nat)
    requires i <= |defs|
    ensures DefectFrom(defs, i).ok <==> forall k :: i <= k < |defs| ==> defs[k].name != "" && defs[k].description != ""
    ensures !DefectFrom(defs, i).ok ==> exists k :: i <= k < |defs| && DefectFrom(defs, i).message == IncompleteMessage(defs[k].name)
    decreases |defs| - i
  {
    if i < |defs| {
      RequiredAlwaysDeclared(defs[i], 0);
      DefectFromIff(defs, i + 1);
    }
  }

  /**
   * The check passes exactly when names are distinct and every definition
   * has a name and a description; a failure reports a repeated name or the
   * first incomplete definition, never an undeclared required parameter.
   */
  lemma ConsistencyIff(defs: seq<ToolDefinition>)
    ensures ConsistencyVerdict(defs).ok <==>
      DistinctNames(defs) && forall k :: 0 <= k < |defs| ==> defs[k].name != "" && defs[k].description != ""
    ensures !ConsistencyVerdict(defs).ok ==>
      || ConsistencyVerdict(defs).message == DUPLICATE_MESSAGE
      || exists k :: 0 <= k < |defs| && ConsistencyVerdict(defs).message == IncompleteMessage(defs[k].name)
  {
    NameSetSize(defs);
    DefectFromIff(defs, 0);
  }

  /** The declared tools pass the check, so the agent's constructor never raises. */
  lemma DefinitionsAreConsistent()
    ensures ConsistencyVerdict(TOOL_DEFINITIONS) == Verdict(true, CONSISTENT_MESSAGE)
  {
    DefinitionNames();
    DefinitionsComplete();
    ConsistentWhenComplete(TOOL_DEFINITIONS);
  }

  /** Every declared tool has a name and a description. */
  lemma DefinitionsComplete()
    ensures forall k :: 0 <= k < |TOOL_DEFINITIONS| ==> TOOL_DEFINITIONS[k].name != "" && TOOL_DEFINITIONS[k].description != ""
  {
    var defs := TOOL_DEFINITIONS;
    assert |defs| == 6;
    assert forall k :: 0 <= k < 6 ==> |defs[k].name| > 0 && |defs[k].description| > 0;
  }

  /** Distinct, complete definitions pass the check with the consistent message. */
  lemma ConsistentWhenComplete(defs: seq<ToolDefinition>)
    requires DistinctNames(defs)
    requires forall k :: 0 <= k < |defs| ==> defs[k].name != "" && defs[k].description != ""
    ensures ConsistencyVerdict(defs) == Verdict(true, CONSISTENT_MESSAGE)
  {
    ConsistencyIff(defs);
    DefectFromOk(defs);
  }

  /** The declared names, in order; no two are equal. */
  lemma DefinitionNames()
    ensures |TOOL_DEFINITIONS| == 6
    ensures TOOL_DEFINITIONS[0].name == "write_file" && TOOL_DEFINITIONS[1].name == "read_file"
    ensures TOOL_DEFINITIONS[2].name == "list_files" && TOOL_DEFINITIONS[3].name == "execute_code"
    ensures TOOL_DEFINITIONS[4].name == "final_answer" && TOOL_DEFINITIONS[5].name == "create_echarts_visualization"
    ensures DistinctNames(TOOL_DEFINITIONS)
  {
    var defs := TOOL_DEFINITIONS;
    assert defs[0].name[0] == 'w' && defs[1].name[0] == 'r' && defs[2].name[0] == 'l';
    assert defs[3].name[0] == 'e' && defs[4].name[0] == 'f' && defs[5].name[0] == 'c';
  }

  /** A passing verdict from the scan is the consistent message. */
  lemma {:induction false} DefectFromOk(defs: seq<ToolDefinition>)
    ensures DefectFrom(defs, 0).ok ==> DefectFrom(defs, 0).message == CONSISTENT_MESSAGE
  {
    DefectFromOkFrom(defs, 0);
  }

  lemma {:induction false} DefectFromOkFrom(defs: seq<ToolDefinition>, i: nat)
    requires i <= |defs|
    ensures DefectFrom(defs, i).ok ==> DefectFrom(defs, i).message == CONSISTENT_MESSAGE
    decreases |defs| - i
  {
    if i < |defs| {
      DefectFromOkFrom(defs, i + 1);
    }
  }

  // ---------------------------------------------------------------------
  // Argument validation (`validate_tool_arguments`)

  const ARGUMENTS_VALID := "参数验证通过"

  function UnknownToolMessage(name: Value): string {
    "未知工具: " + PyStr(name)
  }

  function MissingMessage(p: string): string {
    "缺少必需参数: " + p
  }

  /** The required-parameter loop: the first name not `in` the arguments; `None` when `in` raises. */
  function CheckRequired(required: seq<string>, args: Value): Option<Verdict> {
    if |required| == 0 then Some(Verdict(true, ARGUMENTS_VALID))
    else match PyIn(required[0], args)
      case None => None
      case Some(false) => Some(Verdict(false, MissingMessage(required[0])))
      case Some(true) => CheckRequired(required[1..], args)
  }

  /**
   * `validate_tool_arguments`. `None` stands for the `TypeError` raised when
   * the name cannot be a dict key or the arguments do not support `in`.
   */
  function ArgumentVerdict(defs: seq<ToolDefinition>, name: Value, args: Value): (r: Option<Verdict>)
    ensures r.Some? && r.value.ok ==> name.Str? && name.text in Registry(defs)
  {
    if !PyHashable(name) then None
    else if !(name.Str? && name.text in Registry(defs)) then Some(Verdict(false, UnknownToolMessage(name)))
    else
      var r := CheckRequired(Registry(defs)[name.text].requiredParameters, args);
      r
  }

  /** `validate_tool_arguments`: the lookup, then a loop over the required names with an early return. */
  method ValidateToolArguments(defs: seq<ToolDefinition>, name: Value, args: Value) returns (r: Option<Verdict>)
    ensures r == ArgumentVerdict(defs, name, args)
  {
    if !PyHashable(name) {
      return None;
    }
    var tools := Registry(defs);
    if !(name.Str? && name.text in tools) {
      return Some(Verdict(false, UnknownToolMessage(name)));
    }
    var required := tools[name.text].requiredParameters;
    for i := 0 to |required|
      invariant CheckRequired(required, args) == CheckRequired(required[i..], args)
    {
      var present := PyIn(required[i], args);
      if present.None? {
        return None;
      }
      if !present.value {
        return Some(Verdict(false, MissingMessage(required[i])));
      }
    }
    return Some(Verdict(true, ARGUMENTS_VALID));
  }

  /**
   * For arguments that support `in`, validation passes exactly when every
   * required name is present; otherwise it names the first missing one.
   */
  lemma {:induction false} CheckRequiredIff(required: seq<string>, args: Value)
    requires args.Obj? || args.Arr? || args.Str?
    ensures CheckRequired(required, args).Some?
    ensures CheckRequired(required, args).value.ok <==> forall i :: 0 <= i < |required| ==> PyIn(required[i], args) == Some(true)
    ensures !CheckRequired(required, args).value.ok ==>
      exists i :: 0 <= i < |required| && PyIn(required[i], args) == Some(false)
        && CheckRequired(required, args).value.message == MissingMessage(required[i])
        && forall j :: 0 <= j < i ==> PyIn(required[j], args) == Some(true)
    ensures CheckRequired(required, args).value.ok ==> CheckRequired(required, args).value.message == ARGUMENTS_VALID
  {
    if |required| > 0 && PyIn(required[0], args) == Some(true) {
      CheckRequiredIff(required[1..], args);
      var r := CheckRequired(required, args);
      if !r.value.ok {
        var i :| 0 <= i < |required[1..]| && PyIn(required[1..][i], args) == Some(false)
          && r.value.message == MissingMessage(required[1..][i])
          && forall j :: 0 <= j < i ==> PyIn(required[1..][j], args) == Some(true);
        assert PyIn(required[i + 1], args) == Some(false);
        assert forall j :: 0 <= j < i + 1 ==> PyIn(required[j], args) == Some(true) by {
          assert forall j :: 1 <= j < i + 1 ==> required[j] == required[1..][j - 1];
        }
      }
    }
  }

  /**
   * Validation looks only at which required names the arguments hold: two
   * argument dicts that agree on those get the same verdict, whatever else
   * they contain.
   */
  lemma {:induction false} ExtraArgumentsIgnored(required: seq<string>, a1: Value, a2: Value)
    requires a1.Obj? && a2.Obj?
    requires forall i :: 0 <= i < |required| ==> HasKey(a1, required[i]) == HasKey(a2, required[i])
    ensures CheckRequired(required, a1) == CheckRequired(required, a2)
  {
    if |required| > 0 {
      ExtraArgumentsIgnored(required[1..], a1, a2);
    }
  }

  // ---------------------------------------------------------------------
  // Dispatch (`execute_tool`)

  /** What a tool implementation does with its arguments: return a text or raise with a message. */
  datatype Outcome = Returned(text: string) | Raised(message: string)

  /** The implementations of the file, code and chart tools, which are not modelled. */
  datatype Implementations = Implementations(
    writeFile: (Value, Value) -> Outcome,
    readFile: Value -> Outcome,
    listFiles: Value -> Outcome,
    executeCode: Value -> Outcome,
    createChart: seq<Value> -> Outcome)

  const VALIDATION_FAILED := "参数验证失败: "

  function ErrorText(name: string, message: string): string {
    "工具执行错误 [" + name + "]: " + message
  }

  /** `arguments.get(key, default)`; meaningful only when the arguments are a dict. */
  function Arg(args: Value, key: string, default: Value): Value {
    if args.Obj? then GetOr(args, key, default) else default
  }

  /**
   * The `try` around an implementation call: arguments that are not a dict
   * fail at `.get`, and an exception becomes an error text naming the tool.
   */
  function Invoke(name: string, args: Value, call: Outcome): string {
    if !args.Obj? then ErrorText(name, NoAttributeMessage(args, "get"))
    else match call
      case Returned(text) => text
      case Raised(message) => ErrorText(name, message)
  }

  /**
   * The branch of the `if`/`elif` chain of `execute_tool` that `name`
   * selects: what the implementation it calls gives back, or `None` when no
   * branch matches. Only the five implementations can raise; `final_answer`
   * formats its answer itself.
   */
  function ToolCall(name: string, args: Value, impls: Implementations): (r: Option<Outcome>)
    ensures r.Some? <==> name in {"write_file", "read_file", "list_files", "execute_code", "final_answer", "create_echarts_visualization"}
    ensures name == "final_answer" ==> r.Some? && r.value.Returned?
  {
    if name == "write_file" then
      Some(impls.writeFile(Arg(args, "file_path", Str("")), Arg(args, "content", Str(""))))
    else if name == "read_file" then
      Some(impls.readFile(Arg(args, "file_path", Str(""))))
    else if name == "list_files" then
      Some(impls.listFiles(Arg(args, "directory", Str(""))))
    else if name == "execute_code" then
      Some(impls.executeCode(Arg(args, "code", Str(""))))
    else if name == "final_answer" then
      Some(Returned("任务完成: " + PyStr(Arg(args, "answer", Str("")))))
    else if name == "create_echarts_visualization" then
      Some(impls.createChart([
        Arg(args, "data", Obj([])),
        Arg(args, "chart_type", Str("bar")),
        Arg(args, "output_filename", Str("")),
        Arg(args, "title", Str("")),
        Arg(args, "x_axis_name", Str("")),
        Arg(args, "y_axis_name", Str("")),
        Arg(args, "theme", Str("light"))]))
    else None
  }

  /** The `try` around the `if`/`elif` chain of `execute_tool`, after validation has passed. */
  function Dispatch(name: string, args: Value, impls: Implementations): string {
    match ToolCall(name, args, impls)
    case Some(call) => Invoke(name, args, call)
    case None => "未知工具: " + name
  }

  /**
   * `execute_tool`: validate, then dispatch. `None` stands for the
   * `TypeError` of validation, the one exception that is not caught here.
   */
  function ExecuteTool(defs: seq<ToolDefinition>, name: Value, args: Value, impls: Implementations): Option<string> {
    match ArgumentVerdict(defs, name, args)
    case None => None
    case Some(v) =>
      if !v.ok then Some(VALIDATION_FAILED + v.message)
      else Some(Dispatch(name.text, args, impls))
  }

  /**
   * A failed validation is reported as such and no implementation is
   * consulted: the result is the same whatever the implementations do.
   */
  lemma ValidationFailureCallsNothing(defs: seq<ToolDefinition>, name: Value, args: Value, impls1: Implementations, impls2: Implementations)
    requires ArgumentVerdict(defs, name, args).Some? && !ArgumentVerdict(defs, name, args).value.ok
    ensures ExecuteTool(defs, name, args, impls1) == ExecuteTool(defs, name, args, impls2)
      == Some(VALIDATION_FAILED + ArgumentVerdict(defs, name, args).value.message)
  {
  }

  /** An unregistered name is rejected with its own text, before any implementation. */
  lemma UnknownToolRejected(defs: seq<ToolDefinition>, name: Value, args: Value, impls: Implementations)
    requires PyHashable(name) && !(name.Str? && name.text in Registry(defs))
    ensures ExecuteTool(defs, name, args, impls) == Some(VALIDATION_FAILED + UnknownToolMessage(name))
  {
  }

  /**
   * With dict arguments and a name that can be a dict key, `execute_tool`
   * always returns a text: validation and implementation failures alike
   * come back as data.
   */
  lemma NeverRaisesOnDictArguments(defs: seq<ToolDefinition>, name: Value, args: Value, impls: Implementations)
    requires PyHashable(name) && args.Obj?
    ensures ExecuteTool(defs, name, args, impls).Some?
  {
    if name.Str? && name.text in Registry(defs) {
      CheckRequiredIff(Registry(defs)[name.text].requiredParameters, args);
    }
  }

  /** The declared tools and what each requires. */
  lemma RegistryOfDefinitions()
    ensures Registry(TOOL_DEFINITIONS).Keys == {"write_file", "read_file", "list_files", "execute_code", "final_answer", "create_echarts_visualization"}
  {
    DefinitionNames();
    var defs := TOOL_DEFINITIONS;
    assert (set i | 0 <= i < |defs| :: defs[i].name) == {defs[0].name, defs[1].name, defs[2].name, defs[3].name, defs[4].name, defs[5].name};
  }

  /** What the declared tools require, as the registry records it. */
  lemma RegistryRequirements()
    ensures "write_file" in Registry(TOOL_DEFINITIONS) && Registry(TOOL_DEFINITIONS)["write_file"].requiredParameters == ["file_path", "content"]
    ensures "list_files" in Registry(TOOL_DEFINITIONS) && Registry(TOOL_DEFINITIONS)["list_files"].requiredParameters == []
    ensures "final_answer" in Registry(TOOL_DEFINITIONS) && Registry(TOOL_DEFINITIONS)["final_answer"].requiredParameters == ["answer"]
  {
    DefinitionNames();
    RegistryHoldsEachDefinition(TOOL_DEFINITIONS, 0);
    RegistryHoldsEachDefinition(TOOL_DEFINITIONS, 2);
    RegistryHoldsEachDefinition(TOOL_DEFINITIONS, 4);
  }

  /** Dispatching `final_answer` with an answer gives `任务完成: ` and the answer as text. */
  lemma FinalAnswerDispatch(defs: seq<ToolDefinition>, args: Value, answer: Value, impls: Implementations)
    requires "final_answer" in Registry(defs) && Registry(defs)["final_answer"].requiredParameters == ["answer"]
    requires args.Obj? && Lookup(args.fields, "answer") == Some(answer)
    ensures ExecuteTool(defs, Str("final_answer"), args, impls) == Some("任务完成: " + PyStr(answer))
  {
    assert CheckRequired(["answer"], args) == Some(Verdict(true, ARGUMENTS_VALID));
  }

  /**
   * Once validation has passed, an implementation that raises comes back as
   * an error text naming the tool, and one that returns gives its text.
   */
  lemma ImplementationFailureIsReported(defs: seq<ToolDefinition>, name: string, args: Value, impls: Implementations, message: string)
    requires ArgumentVerdict(defs, Str(name), args).Some? && ArgumentVerdict(defs, Str(name), args).value.ok
    requires args.Obj?
    ensures ToolCall(name, args, impls) == Some(Raised(message)) ==> ExecuteTool(defs, Str(name), args, impls) == Some(ErrorText(name, message))
    ensures ToolCall(name, args, impls) == Some(Returned(message)) ==> ExecuteTool(defs, Str(name), args, impls) == Some(message)
  {
  }

  /**
   * Arguments that are not a dict but pass validation (a tool with no
   * required parameters, or a list or text holding the required names) fail
   * at `.get`, and that too comes back as an error text naming the tool.
   */
  lemma NonDictArgumentsReported(defs: seq<ToolDefinition>, name: string, args: Value, impls: Implementations)
    requires ArgumentVerdict(defs, Str(name), args).Some? && ArgumentVerdict(defs, Str(name), args).value.ok
    requires !args.Obj?
    requires ToolCall(name, args, impls).Some?
    ensures ExecuteTool(defs, Str(name), args, impls) == Some(ErrorText(name, NoAttributeMessage(args, "get")))
  {
  }

  /** With the declared requirements, a raising `write_file` given both its arguments comes back as an error text. */
  lemma WriteFileFailureIsReported(defs: seq<ToolDefinition>, args: Value, impls: Implementations, message: string)
    requires "write_file" in Registry(defs) && Registry(defs)["write_file"].requiredParameters == ["file_path", "content"]
    requires HasKey(args, "file_path") && HasKey(args, "content")
    requires impls.writeFile(GetOr(args, "file_path", Str("")), GetOr(args, "content", Str(""))) == Raised(message)
    ensures ExecuteTool(defs, Str("write_file"), args, impls) == Some(ErrorText("write_file", message))
  {
    assert CheckRequired(["file_path", "content"], args) == Some(Verdict(true, ARGUMENTS_VALID)) by {
      var req := ["file_path", "content"];
      assert req[0] == "file_path" && req[1..] == ["content"];
      assert PyIn("file_path", args) == Some(true) && PyIn("content", args) == Some(true);
      assert CheckRequired(["content"], args) == Some(Verdict(true, ARGUMENTS_VALID)) by {
        assert ["content"][1..] == [];
      }
    }
  }

  /** The declared tools meet the conditions of the two lemmas above. */
  lemma DeclaredToolsDispatch(args: Value, answer: Value, impls: Implementations)
    requires args.Obj? && Lookup(args.fields, "answer") == Some(answer)
    ensures ExecuteTool(TOOL_DEFINITIONS, Str("final_answer"), args, impls) == Some("任务完成: " + PyStr(answer))
  {
    RegistryRequirements();
    FinalAnswerDispatch(TOOL_DEFINITIONS, args, answer, impls);
  }
}
