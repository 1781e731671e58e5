/** The core session: the sensors, the running tasks, the conversational
    agent and its front device, and the dispatch of the conversational
    agent's tool calls onto the task and sensor lists.

    The conversational agent's events reach the session through the methods
    named after them (`HandleFrontToolCall`, `OnFrontCompleteText`,
    `OnFrontAgentAudio`); a task agent's tool calls through `OnTaskToolCall`.
    Unique ids, the start of an agent and the setup of sensors are opaque and
    passed in. */
module CoreSession {
  import opened JsValues
  import opened LlmAgent
  import opened MultiModal
  import opened Accessory
  import Prompt

  datatype FrontKind = WhipFront | AlexaFront

  /** A front device; `instance` numbers the devices this session created. */
  datatype FrontDevice = FrontDevice(kind: FrontKind, instance: nat)

  datatype WhipCredential = WhipCredential(id: string, offer: string)

  /** The sensors to add: Nest credentials, Ring credentials (each `undefined`
      when absent), WHIP credentials. */
  datatype SensorInit = SensorInit(nest: JsValue, ring: JsValue, whip: Option<seq<WhipCredential>>)

  datatype SensorAddResponse = SensorAddResponse(sensorId: string, negotiation: JsValue)

  const WHIP_FRONT_NAME: string := "whip"
  const ALEXA_FRONT_NAME: string := "alexa"

  /** The tool names the conversational agent's tool calls are dispatched on. */
  const FrontToolNames: seq<string> := ["device_list", "set_task", "task_list", "abort_task"]

  const NotOk: JsValue := Obj(map["ok" := Bool(false)])
  const Ok: JsValue := Obj(map["ok" := Bool(true)])

  /** The error `whip[0]` raises when the WHIP credential list is empty. */
  const NoWhipCredentialError: string := "Cannot destructure property 'offer' of 'undefined' as it is undefined."

  /** `sensors.map((d) => d.name)`. */
  function SensorNames(sensors: seq<Sensor>): (names: seq<string>)
    ensures |names| == |sensors|
    ensures forall i :: 0 <= i < |sensors| ==> names[i] == sensors[i].name
  {
    seq(|sensors|, i requires 0 <= i < |sensors| => sensors[i].name)
  }

  function NameValues(names: seq<string>): (vs: seq<JsValue>)
    ensures |vs| == |names|
    ensures forall i :: 0 <= i < |names| ==> vs[i] == Str(names[i])
  {
    if names == [] then [] else [Str(names[0])] + NameValues(names[1..])
  }

  /** The `device_list` reply: the sensor names in list order. */
  function DeviceListReply(sensors: seq<Sensor>): (r: JsValue)
    ensures r.Obj? && r.fields.Keys == {"devices"} && r.fields["devices"].Arr?
    ensures |r.fields["devices"].items| == |sensors|
    ensures forall i :: 0 <= i < |sensors| ==> r.fields["devices"].items[i] == Str(sensors[i].name)
  {
    Obj(map["devices" := Arr(NameValues(SensorNames(sensors)))])
  }

  /** A task description as it goes over the wire: an absent one becomes null. */
  function DescriptionValue(d: Option<string>): JsValue {
    if d.Some? then Str(d.value) else Null
  }

  function Descriptions(tasks: seq<MultiModalLLM>): (vs: seq<JsValue>)
    ensures |vs| == |tasks|
    ensures forall i :: 0 <= i < |tasks| ==> vs[i] == DescriptionValue(tasks[i].task)
  {
    if tasks == [] then [] else [DescriptionValue(tasks[0].task)] + Descriptions(tasks[1..])
  }

  /** The `task_list` reply: the task descriptions in list order, without ids. */
  function TaskListReply(tasks: seq<MultiModalLLM>): (r: JsValue)
    ensures r.Obj? && r.fields.Keys == {"list"} && r.fields["list"].Arr?
    ensures |r.fields["list"].items| == |tasks|
    ensures forall i :: 0 <= i < |tasks| ==> r.fields["list"].items[i] == DescriptionValue(tasks[i].task)
  {
    Obj(map["list" := Arr(Descriptions(tasks))])
  }

  /** The first sensor whose name is exactly `name`. */
  function FindSensor(sensors: seq<Sensor>, name: Option<string>): (i: Option<nat>)
    ensures i.Some? ==> i.value < |sensors| && Some(sensors[i.value].name) == name
    ensures i.Some? ==> forall j :: 0 <= j < i.value ==> Some(sensors[j].name) != name
    ensures i.None? ==> forall j :: 0 <= j < |sensors| ==> Some(sensors[j].name) != name
  {
    if sensors == [] then None
    else if Some(sensors[0].name) == name then Some(0)
    else
      var r := FindSensor(sensors[1..], name);
      if r.Some? then Some(r.value + 1) else None
  }

  /** A task matches a key when its id or its description equals it (an
      absent key matches a task without a description). */
  predicate Matches(t: MultiModalLLM, key: Option<string>) {
    Some(t.id) == key || t.task == key
  }

  /** The first task matching `key`. */
  function FindTask(tasks: seq<MultiModalLLM>, key: Option<string>): (i: Option<nat>)
    ensures i.Some? ==> i.value < |tasks| && Matches(tasks[i.value], key)
    ensures i.Some? ==> forall j :: 0 <= j < i.value ==> !Matches(tasks[j], key)
    ensures i.None? ==> forall j :: 0 <= j < |tasks| ==> !Matches(tasks[j], key)
  {
    if tasks == [] then None
    else if Matches(tasks[0], key) then Some(0)
    else
      var r := FindTask(tasks[1..], key);
      if r.Some? then Some(r.value + 1) else None
  }

  /** `u` is the task `abort_task` with `key` closes. */
  predicate IsMatch(tasks: seq<MultiModalLLM>, key: Option<string>, u: MultiModalLLM) {
    FindTask(tasks, key).Some? && tasks[FindTask(tasks, key).value] == u
  }

  /** The tasks whose id differs from `key`, in order. */
  function WithoutId(tasks: seq<MultiModalLLM>, key: Option<string>): (r: seq<MultiModalLLM>)
    ensures |r| <= |tasks|
    ensures forall i :: 0 <= i < |r| ==> r[i] in tasks && Some(r[i].id) != key
    ensures forall i :: 0 <= i < |tasks| && Some(tasks[i].id) != key ==> tasks[i] in r
  {
    if tasks == [] then []
    else if Some(tasks[0].id) != key then [tasks[0]] + WithoutId(tasks[1..], key)
    else WithoutId(tasks[1..], key)
  }

  function AddResponses(sensors: seq<Sensor>): (r: seq<SensorAddResponse>)
    ensures |r| == |sensors|
    ensures forall i :: 0 <= i < |sensors| ==> r[i] == SensorAddResponse(sensors[i].id, sensors[i].negotiation)
  {
    if sensors == [] then [] else [SensorAddResponse(sensors[0].id, sensors[0].negotiation)] + AddResponses(sensors[1..])
  }

  /** The devices an `addSensor` call sets up: Nest when given (truthy),
      else Ring when given, else a WHIP sensor for the first WHIP credential
      only (which fails on an empty list), else an error. */
  function SetupSensors(init: SensorInit,
                        nestSetup: JsValue -> Result<seq<Sensor>, string>,
                        ringSetup: JsValue -> Result<seq<Sensor>, string>,
                        whipSetup: WhipCredential -> Result<JsValue, string>): Result<seq<Sensor>, string>
  {
    if Truthy(init.nest) then nestSetup(init.nest)
    else if Truthy(init.ring) then ringSetup(init.ring)
    else if init.whip.Some? then
      if init.whip.value == [] then Failure(NoWhipCredentialError)
      else
        var c := init.whip.value[0];
        match whipSetup(c)
        case Success(negotiation) => Success([WhipSensor(c.id, negotiation)])
        case Failure(e) => Failure(e)
    else Failure("sensor not found")
  }

  class Session {
    const id: string
    var frontDevice: Option<FrontDevice>
    /** How many front devices this session has created; each of them keeps
        forwarding its audio to the conversational agent. */
    var frontInstances: nat
    var frontLLM: LLMAgent?
    var tasks: seq<MultiModalLLM>
    var sensors: seq<Sensor>
    /** The agent audio packets handed to front devices. */
    var frontAudio: seq<(FrontDevice, RtpPacket)>
    /** Every task this session created, listed or not. */
    ghost var created: set<MultiModalLLM>

    ghost function TaskAgents(): set<LLMAgent>
      reads this
    {
      set t | t in created :: t.llm
    }

    /** Listed tasks were created here; each created task has its own agent,
        distinct from the conversational agent, keeps its invariant, and was
        started at most once. */
    ghost predicate Valid()
      reads this, created, TaskAgents()
    {
      && (forall t :: t in tasks ==> t in created)
      && (forall t1, t2 :: t1 in created && t2 in created && t1 != t2 ==> t1.llm != t2.llm)
      && (frontLLM != null ==> frontLLM !in TaskAgents())
      && (forall t :: t in created ==> t.Valid())
      && (forall t :: t in created ==> t.starts <= 1)
    }

    /** `props.id ?? randomUUID()`, `props.sensors ?? []`. */
    constructor(id: Option<string>, generatedId: string, sensors: Option<seq<Sensor>>)
      ensures this.id == (if id.Some? then id.value else generatedId)
      ensures this.sensors == (if sensors.Some? then sensors.value else [])
      ensures frontDevice.None? && frontInstances == 0 && frontLLM == null
      ensures tasks == [] && frontAudio == [] && created == {}
      ensures Valid()
    {
      this.id := if id.Some? then id.value else generatedId;
      this.sensors := if sensors.Some? then sensors.value else [];
      frontDevice := None;
      frontInstances := 0;
      frontLLM := null;
      tasks := [];
      frontAudio := [];
      created := {};
    }

    /** Creates the conversational agent, told the current sensor names, and starts it. */
    method Init(proxyOk: bool, negotiationOk: bool) returns (ok: bool)
      requires Valid()
      modifies this
      ensures Valid()
      ensures fresh(frontLLM)
      ensures frontLLM.systemInstruction == Prompt.SystemInstruction(SensorNames(sensors))
      ensures frontLLM.declarations == Prompt.FrontDeclarations
      ensures ok == (proxyOk && negotiationOk) && frontLLM.proxyCreated == proxyOk
      ensures frontLLM.Tasks() == NoTask && frontLLM.Mute() == MuteState(false, None) && frontLLM.outbox == []
      ensures tasks == old(tasks) && sensors == old(sensors) && created == old(created)
      ensures frontDevice == old(frontDevice) && frontInstances == old(frontInstances) && frontAudio == old(frontAudio)
    {
      var agent := new LLMAgent(Prompt.SystemInstruction(SensorNames(sensors)), Prompt.FrontDeclarations);
      frontLLM := agent;
      ok := agent.Start(proxyOk, negotiationOk);
    }

    /** Binds a new front device by name; any earlier one is replaced. */
    method SetFrontDevice(name: string) returns (r: Result<FrontDevice, string>)
      modifies this`frontDevice, this`frontInstances
      ensures name == WHIP_FRONT_NAME ==> r == Success(FrontDevice(WhipFront, old(frontInstances)))
      ensures name == ALEXA_FRONT_NAME ==> r == Success(FrontDevice(AlexaFront, old(frontInstances)))
      ensures name != WHIP_FRONT_NAME && name != ALEXA_FRONT_NAME ==> r == Failure("Unknown front device: " + name)
      ensures r.Success? ==> frontDevice == Some(r.value) && frontInstances == old(frontInstances) + 1
      ensures r.Failure? ==> frontDevice == old(frontDevice) && frontInstances == old(frontInstances)
    {
      var kind;
      if name == WHIP_FRONT_NAME {
        kind := WhipFront;
      } else if name == ALEXA_FRONT_NAME {
        kind := AlexaFront;
      } else {
        return Failure("Unknown front device: " + name);
      }
      var device := FrontDevice(kind, frontInstances);
      frontInstances := frontInstances + 1;
      frontDevice := Some(device);
      r := Success(device);
    }

    /** Audio from any front device this session created goes to the
        conversational agent; before `Init` there is none and this throws. */
    method OnFrontDeviceAudio(device: FrontDevice, p: RtpPacket) returns (threw: bool)
      requires device.instance < frontInstances
      modifies (if frontLLM == null then {} else {frontLLM})`audioSent
      ensures threw == (frontLLM == null)
      ensures !threw ==> frontLLM.audioSent == old(frontLLM.audioSent) + [p.payload]
    {
      if frontLLM == null {
        return true;
      }
      threw := false;
      frontLLM.SendAudio(p);
    }

    /** Agent audio reaches the front device only while one is bound. */
    method OnFrontAgentAudio(p: RtpPacket)
      modifies this`frontAudio
      ensures frontDevice.Some? ==> frontAudio == old(frontAudio) + [(frontDevice.value, p)]
      ensures frontDevice.None? ==> frontAudio == old(frontAudio)
    {
      if frontDevice.Some? {
        frontAudio := frontAudio + [(frontDevice.value, p)];
      }
    }

    /** Any complete text of the conversational agent unmutes its input. */
    method OnFrontCompleteText(now: int)
      requires frontLLM != null
      modifies frontLLM`muteInputAudio, frontLLM`unmuteAt
      ensures frontLLM.Mute() == MuteState(false, Some(now))
      ensures frontLLM.Tasks() == old(frontLLM.Tasks()) && frontLLM.outbox == old(frontLLM.outbox)
    {
      frontLLM.muteInputAudio := false;
      frontLLM.unmuteAt := Some(now);
    }

    /** Sets up and appends the sensors `init` describes. */
    method AddSensor(init: SensorInit,
                     nestSetup: JsValue -> Result<seq<Sensor>, string>,
                     ringSetup: JsValue -> Result<seq<Sensor>, string>,
                     whipSetup: WhipCredential -> Result<JsValue, string>)
      returns (r: Result<seq<SensorAddResponse>, string>)
      modifies this`sensors
      ensures var s := SetupSensors(init, nestSetup, ringSetup, whipSetup);
        && (s.Failure? ==> r == Failure(s.error) && sensors == old(sensors))
        && (s.Success? ==> r == Success(AddResponses(s.value)) && sensors == old(sensors) + s.value)
    {
      var s := SetupSensors(init, nestSetup, ringSetup, whipSetup);
      if s.Failure? {
        return Failure(s.error);
      }
      sensors := sensors + s.value;
      r := Success(AddResponses(s.value));
    }

    method ReplyDeviceList(callId: string)
      requires frontLLM != null
      modifies frontLLM`outbox
      ensures frontLLM.outbox == old(frontLLM.outbox) + [ToolResponseMsg(callId, DeviceListReply(sensors))]
    {
      frontLLM.SendToolCallResponse(callId, DeviceListReply(sensors));
    }

    method ReplyTaskList(callId: string)
      requires frontLLM != null
      modifies frontLLM`outbox
      ensures frontLLM.outbox == old(frontLLM.outbox) + [ToolResponseMsg(callId, TaskListReply(tasks))]
    {
      frontLLM.SendToolCallResponse(callId, TaskListReply(tasks));
    }

    /** `set_task`: the first sensor named `device`, a new task for it that
        is listed before its agent starts, and the task's id as the reply;
        `{ok: false}` when no sensor has that name or the start failed. */
    method SetTask(callId: string, device: Option<string>, description: Option<string>,
                   newTaskId: string, proxyOk: bool, negotiationOk: bool)
      requires Valid() && frontLLM != null
      modifies this`tasks, this`created, frontLLM`outbox
      ensures Valid()
      ensures FindSensor(sensors, device).None? ==>
        && tasks == old(tasks) && created == old(created)
        && frontLLM.outbox == old(frontLLM.outbox) + [ToolResponseMsg(callId, NotOk)]
      ensures FindSensor(sensors, device).Some? ==>
        && |tasks| == |old(tasks)| + 1 && tasks[..|old(tasks)|] == old(tasks)
        && var t := tasks[|old(tasks)|];
        && fresh(t) && fresh(t.llm) && created == old(created) + {t}
        && t.id == newTaskId && t.task == description
        && t.device == sensors[FindSensor(sensors, device).value]
        && t.llm.proxyCreated == proxyOk && t.awaitingImage == (proxyOk && negotiationOk)
        && t.starts == 1 && t.completions == 0 && t.recordings == []
        && t.llm.Tasks() == NoTask && t.llm.outbox == [] && !t.llm.closed
        && frontLLM.outbox == old(frontLLM.outbox) +
             [ToolResponseMsg(callId, if proxyOk && negotiationOk then Obj(map["id" := Str(newTaskId)]) else NotOk)]
    {
      var found := FindSensor(sensors, device);
      if found.None? {
        frontLLM.SendToolCallResponse(callId, NotOk);
        return;
      }
      var t := new MultiModalLLM(newTaskId, description, sensors[found.value]);
      tasks := tasks + [t];
      created := created + {t};
      var started := t.Start(proxyOk, negotiationOk);
      if started {
        frontLLM.SendToolCallResponse(callId, Obj(map["id" := Str(newTaskId)]));
      } else {
        frontLLM.SendToolCallResponse(callId, NotOk);
      }
    }

    /** `abort_task`: the first task whose id or description is `key` is
        closed, the tasks whose id is `key` are dropped, and the reply says
        whether closing succeeded; `{ok: false}` when no task matches. Every
        other task's agent is left as it was. */
    method AbortTask(callId: string, key: Option<string>)
      requires Valid() && frontLLM != null
      modifies this`tasks, frontLLM`outbox, TaskAgents()
      ensures Valid()
      ensures created == old(created)
      ensures FindTask(old(tasks), key).None? ==>
        tasks == old(tasks) && frontLLM.outbox == old(frontLLM.outbox) + [ToolResponseMsg(callId, NotOk)]
      ensures FindTask(old(tasks), key).Some? ==>
        var t := old(tasks)[FindTask(old(tasks), key).value];
        && tasks == WithoutId(old(tasks), key)
        && t.llm.closed == (old(t.llm.closed) || old(t.llm.proxyCreated))
        && (old(t.llm.proxyCreated) ==> t.llm.Tasks() == NoTask)
        && (!old(t.llm.proxyCreated) ==> t.llm.Tasks() == old(t.llm.Tasks()))
        && t.llm.outbox == old(t.llm.outbox)
        && t.llm.Mute() == old(t.llm.Mute()) && t.llm.proxyCreated == old(t.llm.proxyCreated)
        && t.llm.audioSent == old(t.llm.audioSent) && t.llm.videoSent == old(t.llm.videoSent)
        && t.recordings == old(t.recordings) && t.awaitingImage == old(t.awaitingImage)
        && frontLLM.outbox == old(frontLLM.outbox) + [ToolResponseMsg(callId, if old(t.llm.proxyCreated) then Ok else NotOk)]
      ensures forall u :: u in created && !IsMatch(old(tasks), key, u) ==> unchanged(u.llm)
    {
      var found := FindTask(tasks, key);
      if found.None? {
        frontLLM.SendToolCallResponse(callId, NotOk);
        return;
      }
      var t := tasks[found.value];
      tasks := WithoutId(tasks, key);
      var threw := t.Close();
      frontLLM.SendToolCallResponse(callId, if threw then NotOk else Ok);
    }

    /** A tool call of the conversational agent, dispatched on its name.
        `newTaskId` is the id a task created by this call gets; `proxyOk`
        and `negotiationOk` decide whether starting its agent succeeds. */
    method HandleFrontToolCall(call: ToolCall, newTaskId: string, proxyOk: bool, negotiationOk: bool)
      requires Valid() && frontLLM != null
      modifies this`tasks, this`created, frontLLM`outbox, TaskAgents()
      ensures Valid()
      ensures call.name !in FrontToolNames ==> tasks == old(tasks) && frontLLM.outbox == old(frontLLM.outbox)
      ensures call.name != "set_task" ==> created == old(created)
      ensures call.name == "device_list" ==>
        tasks == old(tasks) && frontLLM.outbox == old(frontLLM.outbox) + [ToolResponseMsg(call.id, DeviceListReply(sensors))]
      ensures call.name == "task_list" ==>
        tasks == old(tasks) && frontLLM.outbox == old(frontLLM.outbox) + [ToolResponseMsg(call.id, TaskListReply(tasks))]
      ensures call.name == "set_task" && FindSensor(sensors, Lookup(call.args, "device")).None? ==>
        && tasks == old(tasks) && created == old(created)
        && frontLLM.outbox == old(frontLLM.outbox) + [ToolResponseMsg(call.id, NotOk)]
      ensures call.name == "set_task" && FindSensor(sensors, Lookup(call.args, "device")).Some? ==>
        && |tasks| == |old(tasks)| + 1 && tasks[..|old(tasks)|] == old(tasks)
        && var t := tasks[|old(tasks)|];
        && fresh(t) && fresh(t.llm) && created == old(created) + {t}
        && t.id == newTaskId && t.task == Lookup(call.args, "task")
        && t.device == sensors[FindSensor(sensors, Lookup(call.args, "device")).value]
        && t.llm.proxyCreated == proxyOk && t.awaitingImage == (proxyOk && negotiationOk)
        && t.starts == 1 && t.completions == 0 && t.recordings == []
        && t.llm.Tasks() == NoTask && t.llm.outbox == [] && !t.llm.closed
        && frontLLM.outbox == old(frontLLM.outbox) +
             [ToolResponseMsg(call.id, if proxyOk && negotiationOk then Obj(map["id" := Str(newTaskId)]) else NotOk)]
      ensures call.name == "abort_task" && FindTask(old(tasks), Lookup(call.args, "id")).None? ==>
        tasks == old(tasks) && frontLLM.outbox == old(frontLLM.outbox) + [ToolResponseMsg(call.id, NotOk)]
      ensures call.name == "abort_task" && FindTask(old(tasks), Lookup(call.args, "id")).Some? ==>
        var t := old(tasks)[FindTask(old(tasks), Lookup(call.args, "id")).value];
        && tasks == WithoutId(old(tasks), Lookup(call.args, "id"))
        && t.llm.closed == (old(t.llm.closed) || old(t.llm.proxyCreated))
        && (old(t.llm.proxyCreated) ==> t.llm.Tasks() == NoTask)
        && (!old(t.llm.proxyCreated) ==> t.llm.Tasks() == old(t.llm.Tasks()))
        && t.llm.outbox == old(t.llm.outbox)
        && t.llm.Mute() == old(t.llm.Mute()) && t.llm.proxyCreated == old(t.llm.proxyCreated)
        && t.llm.audioSent == old(t.llm.audioSent) && t.llm.videoSent == old(t.llm.videoSent)
        && t.recordings == old(t.recordings) && t.awaitingImage == old(t.awaitingImage)
        && frontLLM.outbox == old(frontLLM.outbox) + [ToolResponseMsg(call.id, if old(t.llm.proxyCreated) then Ok else NotOk)]
      ensures forall u :: u in old(created) && !(call.name == "abort_task" && IsMatch(old(tasks), Lookup(call.args, "id"), u)) ==>
        unchanged(u.llm)
    {
      if call.name == "device_list" {
        ReplyDeviceList(call.id);
      } else if call.name == "set_task" {
        SetTask(call.id, Lookup(call.args, "device"), Lookup(call.args, "task"), newTaskId, proxyOk, negotiationOk);
      } else if call.name == "task_list" {
        ReplyTaskList(call.id);
      } else if call.name == "abort_task" {
        AbortTask(call.id, Lookup(call.args, "id"));
      }
    }

    /** A tool call of task `t`'s agent. On completion the session reports
        it to the conversational agent and drops the task from its list. */
    method OnTaskToolCall(t: MultiModalLLM, call: ToolCall, now: int) returns (effects: seq<Effect>)
      requires Valid() && frontLLM != null && t in created
      modifies this`tasks, t, t.llm, frontLLM`outbox
      ensures Valid()
      ensures effects == ToolCallEffects(call, old(t.llm.task), old(t.llm.taskStartTime), now)
      ensures frontLLM == old(frontLLM) && sensors == old(sensors) && frontDevice == old(frontDevice)
      ensures frontInstances == old(frontInstances) && frontAudio == old(frontAudio) && created == old(created)
      ensures frontLLM.Tasks() == old(frontLLM.Tasks()) && frontLLM.Mute() == old(frontLLM.Mute())
      ensures frontLLM.closed == old(frontLLM.closed) && frontLLM.proxyCreated == old(frontLLM.proxyCreated)
      ensures frontLLM.audioSent == old(frontLLM.audioSent) && frontLLM.videoSent == old(frontLLM.videoSent)
      ensures frontLLM.systemInstruction == old(frontLLM.systemInstruction)
      ensures t.llm.outbox == old(t.llm.outbox) + (if effects == [] then [] else [ToolResponseMsg(effects[0].id, effects[0].response)])
      ensures StoppedTask in effects ==> t.llm.Tasks() == NoTask
      ensures StoppedTask !in effects ==> t.llm.Tasks() == old(t.llm.Tasks())
      ensures t.llm.closed == (old(t.llm.closed) || (ClosedAgent in effects && old(t.llm.proxyCreated)))
      ensures t.recordings == old(t.recordings) + (if StoppedTask in effects then [RecordingRequest(RECORDING_MS, now)] else [])
      ensures t.awaitingImage == old(t.awaitingImage)
      ensures forall u :: u in created && u != t ==> unchanged(u) && unchanged(u.llm)
      ensures CompletionOf(effects).None? ==> tasks == old(tasks) && frontLLM.outbox == old(frontLLM.outbox)
      ensures CompletionOf(effects).Some? ==>
        var c := CompletionOf(effects).value;
        && tasks == WithoutId(old(tasks), Some(t.id))
        && frontLLM.outbox == old(frontLLM.outbox) + [CompleteTextMsg(Prompt.CompleteTask(c.task, Interpolate(c.result)))]
    {
      effects := t.HandleToolCall(call, now);
      var c := CompletionOf(effects);
      if c.Some? {
        frontLLM.SendCompleteText(Prompt.CompleteTask(c.value.task, Interpolate(c.value.result)));
        tasks := WithoutId(tasks, Some(t.id));
      }
    }
  }

  // ---------------------------------------------------------------------
  // Properties

  /** Every task a session created reports at most one completion, so the
      list filter that the source subscribes with `once` runs at most once
      per task. */
  lemma TaskCompletesAtMostOnce(session: Session, t: MultiModalLLM)
    requires session.Valid() && t in session.created
    ensures t.completions <= 1
  {
    AtMostOneCompletion(t);
  }

  /** The tools the conversational agent is offered are exactly the ones
      the session dispatches, in the same order. */
  lemma DeclaredToolsAreDispatched()
    ensures Prompt.DeclarationNames(Prompt.FrontDeclarations) == FrontToolNames
  {
    Prompt.FrontDeclarationTable();
  }

  /** Aborting by id drops every task with that id. */
  lemma AbortByIdRemoves(tasks: seq<MultiModalLLM>, key: Option<string>)
    requires FindTask(tasks, key).Some? && Some(tasks[FindTask(tasks, key).value].id) == key
    ensures tasks[FindTask(tasks, key).value] !in WithoutId(tasks, key)
    ensures forall i :: 0 <= i < |WithoutId(tasks, key)| ==> Some(WithoutId(tasks, key)[i].id) != key
  {
  }

  /** Aborting by description closes the matched task but leaves it listed:
      the list is filtered by id only. */
  lemma AbortByDescriptionKeepsTask(tasks: seq<MultiModalLLM>, key: Option<string>)
    requires FindTask(tasks, key).Some? && Some(tasks[FindTask(tasks, key).value].id) != key
    ensures tasks[FindTask(tasks, key).value] in WithoutId(tasks, key)
  {
  }

  /** WithoutId keeps the order of the tasks it keeps. */
  lemma {:induction false} WithoutIdKeepsOrder(tasks: seq<MultiModalLLM>, key: Option<string>)
    ensures WithoutId(tasks, key) == if tasks == [] then []
      else (if Some(tasks[0].id) != key then [tasks[0]] else []) + WithoutId(tasks[1..], key)
  {
  }

  /** Which credentials `addSensor` uses: Nest before Ring before WHIP, and
      of the WHIP credentials only the first. */
  lemma SensorSetupPriority(init: SensorInit,
                            nestSetup: JsValue -> Result<seq<Sensor>, string>,
                            ringSetup: JsValue -> Result<seq<Sensor>, string>,
                            whipSetup: WhipCredential -> Result<JsValue, string>)
    ensures var s := SetupSensors(init, nestSetup, ringSetup, whipSetup);
      && (Truthy(init.nest) ==> s == nestSetup(init.nest))
      && (!Truthy(init.nest) && Truthy(init.ring) ==> s == ringSetup(init.ring))
      && (!Truthy(init.nest) && !Truthy(init.ring) && init.whip.Some? && init.whip.value != [] ==>
            var c := init.whip.value[0];
            && (whipSetup(c).Success? ==> s == Success([WhipSensor(c.id, whipSetup(c).value)]))
            && (whipSetup(c).Failure? ==> s == Failure(whipSetup(c).error)))
      && (!Truthy(init.nest) && !Truthy(init.ring) && init.whip == Some([]) ==> s == Failure(NoWhipCredentialError))
      && (!Truthy(init.nest) && !Truthy(init.ring) && init.whip.None? ==> s == Failure("sensor not found"))
  {
  }
}
