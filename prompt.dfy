/** The prompts and tool declarations given to the conversational agent and
    to the per-task observing agents. Pure data and string templates. */
module Prompt {
  import opened JsValues

  /** A string-typed parameter of a tool. */
  datatype Property = Property(name: string, description: string)

  datatype Parameters = Parameters(properties: seq<Property>, required: seq<string>)

  datatype FunctionDeclaration = FunctionDeclaration(name: string, description: string, parameters: Option<Parameters>)

  // ---------------------------------------------------------------------
  // The conversational agent

  const SystemPrefix: string := "あなたは私のアシスタントです。日本語で会話してください。\nあらゆるジャンルの依頼にに全般的に対応してください。\nデバイスのリストの初期値は["
  const SystemSuffix: string := "]" + SystemSuffixText
  const SystemSuffixText: string := "です。\nユーザーはデバイスのリストからデバイスを指定してタスクを実行することができます。タスクを実行する際にはset_taskファンクションを使用してください。\nデバイスのリストを更新する際にはdevice_listファンクションを使用してください。\nユーザーが実行中のタスクについて確認する際にはtask_listファンクションを使用してください。\nユーザーがタスクを終了させる際にはabort_taskファンクションを使用してください。\nタスクのIDを読み上げないでください。\nスピーカーの音声がマイクにループバックしているようなときは返答しないでください（問いかけと返答のセットが繰り返されないようにしてください）"

  /** `names.join(sep)`. */
  function Join(names: seq<string>, sep: char): string
  {
    if names == [] then ""
    else if |names| == 1 then names[0]
    else names[0] + [sep] + Join(names[1..], sep)
  }

  /** `s.split(sep)`: the pieces between separators, always at least one. */
  function Split(s: string, sep: char): (pieces: seq<string>)
    ensures |pieces| >= 1
    decreases |s|
  {
    if s == [] then [""]
    else
      var rest := Split(s[1..], sep);
      if s[0] == sep then [""] + rest else [[s[0]] + rest[0]] + rest[1..]
  }

  /** The system instruction lists the known device names, comma separated,
      between square brackets. */
  function SystemInstruction(deviceNames: seq<string>): string
  {
    SystemPrefix + Join(deviceNames, ',') + SystemSuffix
  }

  const DeviceListDeclaration := FunctionDeclaration(
    "device_list",
    "デバイスのリストを更新します。\n結果はdevicesプロパティに配列で返されます。\nデバイス名の文字数が10文字を超える場合は10文字に省略してください",
    None)

  const SetTaskDeclaration := FunctionDeclaration(
    "set_task",
    "選択中したデバイスでタスクを実行します。タスクのIDを返します。タスクの内容とタスクのIDを紐付けてください",
    Some(Parameters(
      [ Property("task", "タスクの内容。例:映像の気温計に表示されている温度が20度以下かどうか教えて"),
        Property("device", "タスクを実行する対象のデバイス名。\nデバイス名は長さが完全なもの。\nデバイスのリストに存在しない場合はエラーを返す。") ],
      ["task", "device"])))

  const TaskListDeclaration := FunctionDeclaration(
    "task_list",
    "実行中のタスクのリストを取得します。結果をユーザに伝える際にはタスクの内容を簡潔にまとめて下さい",
    None)

  const AbortTaskDeclaration := FunctionDeclaration(
    "abort_task",
    "実行中のタスクを中止します。ユーザーの指定したタスクの内容と一致するタスクのIDを引数に渡してください",
    Some(Parameters(
      [ Property("id", "ユーザはタスクの内容で指定するので、タスクの内容と紐付いたタスクのIDを入力してください") ],
      ["id"])))

  const FrontDeclarations: seq<FunctionDeclaration> :=
    [DeviceListDeclaration, SetTaskDeclaration, TaskListDeclaration, AbortTaskDeclaration]

  const CompleteTaskPrefix: string := "タスクとその結果を報告します。タスクの内容と結果を簡潔にまとめてユーザに報告してください。\n"

  /** The report injected into the conversation when a task completes. */
  function CompleteTask(task: string, result: string): string
  {
    CompleteTaskPrefix + "タスク:" + task + "\n結果:" + result
  }

  // ---------------------------------------------------------------------
  // The observing agent of a task

  const MultimodalSystemInstruction: string := "あなたは依頼されたタスクに基づき、映像と音の解析を行うAIです。それ以外のことは行わないでください。\n映像もしくは音がタスクの終了条件もしくは要求を満たしている場合にcompleteファンクションを使用してください。進捗の報告でcompleteを使用しないでください。\nタスクに期間や時間の長さの指定が含まれている場合はget_timeファンクションを使用してタスクの経過時間を取得してください。経過時間が指定した長さを上回っている場合はcompleteファンクションを使用してタスクを終了してください。\n解析結果は日本語で返してください。"

  const CompleteDeclaration := FunctionDeclaration(
    "complete",
    "タスクの終了条件もしくは要求を満たしていたら解析結果を返します",
    Some(Parameters([ Property("result", "解析結果") ], ["result"])))

  const GetTimeDeclaration := FunctionDeclaration(
    "get_time",
    "タスクの経過時間を取得します。経過時間を返します。単位は秒です",
    None)

  const MultimodalDeclarations: seq<FunctionDeclaration> := [CompleteDeclaration, GetTimeDeclaration]

  const WatchTaskPrefix: string := "見えている映像もしくは聞こえている音について次のタスクを実行してください。映像もしくは音がタスクの終了条件もしくは要求を満たしていない場合はそう答えてください。"

  /** The reminder text of a task: a fixed instruction, a newline, the task. */
  function WatchTask(task: string): (r: string)
    ensures |r| == |WatchTaskPrefix| + 1 + |task|
    ensures r[..|WatchTaskPrefix|] == WatchTaskPrefix && r[|WatchTaskPrefix|] == '\n'
    ensures r[|WatchTaskPrefix| + 1..] == task
  {
    WatchTaskPrefix + "\n" + task
  }

  function DeclarationNames(ds: seq<FunctionDeclaration>): (names: seq<string>)
    ensures |names| == |ds|
    ensures forall i :: 0 <= i < |ds| ==> names[i] == ds[i].name
  {
    if ds == [] then [] else [ds[0].name] + DeclarationNames(ds[1..])
  }

  /** The parameters a declaration marks as required, none when it has none. */
  function Required(d: FunctionDeclaration): seq<string> {
    match d.parameters
    case None => []
    case Some(p) => p.required
  }

  /** Each required argument of a declaration is one of its declared properties. */
  predicate RequiredAreDeclared(d: FunctionDeclaration) {
    d.parameters.Some? ==>
      forall r :: r in d.parameters.value.required ==>
        exists i :: 0 <= i < |d.parameters.value.properties| && d.parameters.value.properties[i].name == r
  }

  // ---------------------------------------------------------------------
  // Properties

  /** The conversational agent is offered exactly four tools, in this order,
      and the required arguments are `task` and `device` for set_task and
      `id` for abort_task. Every required argument is a declared property. */
  lemma FrontDeclarationTable()
    ensures DeclarationNames(FrontDeclarations) == ["device_list", "set_task", "task_list", "abort_task"]
    ensures Required(SetTaskDeclaration) == ["task", "device"]
    ensures Required(AbortTaskDeclaration) == ["id"]
    ensures Required(DeviceListDeclaration) == [] && Required(TaskListDeclaration) == []
    ensures forall d :: d in FrontDeclarations ==> RequiredAreDeclared(d)
  {
    assert SetTaskDeclaration.parameters.value.properties[0].name == "task";
    assert SetTaskDeclaration.parameters.value.properties[1].name == "device";
    assert AbortTaskDeclaration.parameters.value.properties[0].name == "id";
  }

  /** The observing agent is offered `complete` (requiring `result`) and `get_time`. */
  lemma MultimodalDeclarationTable()
    ensures DeclarationNames(MultimodalDeclarations) == ["complete", "get_time"]
    ensures Required(CompleteDeclaration) == ["result"]
    ensures Required(GetTimeDeclaration) == []
    ensures forall d :: d in MultimodalDeclarations ==> RequiredAreDeclared(d)
  {
    assert CompleteDeclaration.parameters.value.properties[0].name == "result";
  }

  /** The report ends with the task and the result on their own labelled lines. */
  lemma CompleteTaskEndsWithReport(task: string, result: string)
    ensures var r := CompleteTask(task, result);
      var tail := "タスク:" + task + "\n結果:" + result;
      |r| >= |tail| && r[|r| - |tail|..] == tail
  {
    var r := CompleteTask(task, result);
    var tail := "タスク:" + task + "\n結果:" + result;
    assert r == CompleteTaskPrefix + tail;
  }

  /** The device list sits between the bracket-terminated prefix and the
      suffix, and splitting it at the commas gives the names back, provided
      there is at least one and none contains a comma. */
  lemma SystemInstructionListsDevices(names: seq<string>)
    requires names != []
    requires forall i :: 0 <= i < |names| ==> ',' !in names[i]
    ensures var r := SystemInstruction(names);
      && |r| >= |SystemPrefix| + |SystemSuffix|
      && r[..|SystemPrefix|] == SystemPrefix && r[|SystemPrefix| - 1] == '['
      && r[|r| - |SystemSuffix|..] == SystemSuffix && r[|r| - |SystemSuffix|] == ']'
      && Split(r[|SystemPrefix|..|r| - |SystemSuffix|], ',') == names
  {
    var r := SystemInstruction(names);
    var j := Join(names, ',');
    assert r == SystemPrefix + j + SystemSuffix;
    assert r[|SystemPrefix|..|r| - |SystemSuffix|] == j;
    assert r[|r| - |SystemSuffix|..] == SystemSuffix;
    SplitJoin(names, ',');
  }

  /** The reminder text determines the task it was made from. */
  lemma {:induction false} WatchTaskInjective(a: string, b: string)
    requires WatchTask(a) == WatchTask(b)
    ensures a == b
  {
    var n := |WatchTaskPrefix| + 1;
    assert a == WatchTask(a)[n..];
    assert b == WatchTask(b)[n..];
  }

  lemma {:induction false} SplitAfterSeparator(rest: string, sep: char)
    ensures Split([sep] + rest, sep) == [""] + Split(rest, sep)
  {
    assert ([sep] + rest)[1..] == rest;
  }

  /** Splitting a separator-free prefix glued to `s` glues it to the first piece. */
  lemma {:induction false} SplitPrefix(a: string, s: string, sep: char)
    requires sep !in a
    ensures Split(a + s, sep) == [a + Split(s, sep)[0]] + Split(s, sep)[1..]
    decreases |a|
  {
    if a == [] {
      var p := Split(s, sep);
      assert a + s == s && a + p[0] == p[0];
      assert [p[0]] + p[1..] == p;
    } else {
      SplitPrefix(a[1..], s, sep);
      assert (a + s)[1..] == a[1..] + s;
      assert [a[0]] + (a[1..] + Split(s, sep)[0]) == a + Split(s, sep)[0];
    }
  }

  /** The device list embedded in the system instruction can be read back:
      splitting the joined names at the commas gives the names, provided
      there is at least one and none contains a comma. */
  lemma {:induction false} SplitJoin(names: seq<string>, sep: char)
    requires names != []
    requires forall i :: 0 <= i < |names| ==> sep !in names[i]
    ensures Split(Join(names, sep), sep) == names
    decreases |names|
  {
    if |names| == 1 {
      SplitPrefix(names[0], "", sep);
      assert names[0] + "" == names[0];
    } else {
      var tail := Join(names[1..], sep);
      SplitJoin(names[1..], sep);
      SplitPrefix(names[0], [sep] + tail, sep);
      SplitAfterSeparator(tail, sep);
      assert names[0] + [sep] + tail == names[0] + ([sep] + tail);
      assert names[0] + "" == names[0];
      assert [names[0]] + names[1..] == names;
    }
  }
}
