/** The observing agent of one task: an LLM agent watching one sensor,
    reminded of the task every two seconds once the first image reached the
    model, and reporting completion once.

    Each tool call's effects are returned in the order they happen, besides
    being applied to the agent and to the device's recording log. */
module MultiModal {
  import opened JsValues
  import opened LlmAgent
  import opened Accessory
  import Prompt

  /** A completed task: the agent's reminder text and the reported result
      (`None` when the call carried no `result`). */
  datatype Completion = Completion(task: string, result: Option<string>)

  datatype Effect =
    | Replied(id: string, response: JsValue)
    | StoppedTask
    | Recorded(request: RecordingRequest)
    | Completed(completion: Completion)
    | ClosedAgent

  const RECORDING_MS: int := 5000

  const Acknowledgement: JsValue := Obj(map["ok" := Bool(true)])

  /** The `get_time` reply: whole seconds since the task started, rounded
      down; `null` (what JSON makes of NaN) when no task has started. */
  function ElapsedReply(startTime: Option<int>, now: int): (r: JsValue)
    ensures startTime.None? ==> r == Obj(map["time" := Null])
    ensures startTime.Some? ==>
      (&& r.Obj? && "time" in r.fields && r.fields["time"].Num?
       && r.fields["time"].n * 1000 <= now - startTime.value < (r.fields["time"].n + 1) * 1000)
  {
    match startTime
    case None => Obj(map["time" := Null])
    case Some(s) => Obj(map["time" := Num((now - s) / 1000)])
  }

  /** The effects of one tool call, given the agent's task and start time
      when it arrives. */
  function ToolCallEffects(call: ToolCall, agentTask: Option<string>, startTime: Option<int>, now: int): (effects: seq<Effect>)
    ensures effects != [] <==> call.name == "complete" || call.name == "get_time"
    ensures effects != [] ==> effects[0].Replied? && effects[0].id == call.id
    ensures forall k :: 1 <= k < |effects| ==> !effects[k].Replied?
    ensures ClosedAgent in effects <==> StoppedTask in effects
  {
    if call.name == "complete" then
      if agentTask.None? || agentTask.value == "" then [Replied(call.id, Acknowledgement)]
      else
        [ Replied(call.id, Acknowledgement), StoppedTask, Recorded(RecordingRequest(RECORDING_MS, now)),
          Completed(Completion(agentTask.value, Lookup(call.args, "result"))), ClosedAgent ]
    else if call.name == "get_time" then [Replied(call.id, ElapsedReply(startTime, now))]
    else []
  }

  function CompletionOf(effects: seq<Effect>): Option<Completion> {
    if effects == [] then None
    else if effects[0].Completed? then Some(effects[0].completion)
    else CompletionOf(effects[1..])
  }

  class MultiModalLLM {
    const id: string
    /** The description the task was set with (`None` when the call gave none). */
    const task: Option<string>
    const device: Sensor
    const llm: LLMAgent
    /** The one-shot image handler is subscribed and has not fired. */
    var awaitingImage: bool
    /** The recordings asked of the device. */
    var recordings: seq<RecordingRequest>
    ghost var starts: nat
    ghost var completions: nat

    /** A completion, a pending image handler and a running task each use
        up one start. */
    ghost predicate Valid()
      reads this, llm
    {
      completions + (if awaitingImage then 1 else 0) + (if llm.task.Some? then 1 else 0) <= starts
    }

    constructor(id: string, task: Option<string>, device: Sensor)
      ensures this.id == id && this.task == task && this.device == device
      ensures fresh(llm)
      ensures llm.systemInstruction == Prompt.MultimodalSystemInstruction
      ensures llm.declarations == Prompt.MultimodalDeclarations
      ensures llm.Tasks() == NoTask && !llm.proxyCreated && !llm.closed && llm.outbox == []
      ensures !awaitingImage && recordings == [] && starts == 0 && completions == 0
      ensures Valid()
    {
      this.id := id;
      this.task := task;
      this.device := device;
      llm := new LLMAgent(Prompt.MultimodalSystemInstruction, Prompt.MultimodalDeclarations);
      awaitingImage := false;
      recordings := [];
      starts := 0;
      completions := 0;
    }

    /** Starts the agent; once that succeeded, subscribes the one-shot handler
        that sets the reminder when the first image has been sent. */
    method Start(proxyOk: bool, negotiationOk: bool) returns (ok: bool)
      requires Valid()
      modifies this, llm
      ensures Valid()
      ensures ok == (proxyOk && negotiationOk)
      ensures llm.proxyCreated == (old(llm.proxyCreated) || proxyOk)
      ensures awaitingImage == (old(awaitingImage) || ok)
      ensures starts == old(starts) + 1 && completions == old(completions)
      ensures llm.Tasks() == old(llm.Tasks()) && llm.outbox == old(llm.outbox) && llm.closed == old(llm.closed)
      ensures recordings == old(recordings)
    {
      starts := starts + 1;
      ok := llm.Start(proxyOk, negotiationOk);
      if ok {
        awaitingImage := true;
      }
    }

    /** The agent reports that an image reached the model. */
    method OnImageSent(now: int)
      requires Valid()
      modifies this, llm
      ensures Valid()
      ensures !awaitingImage
      ensures old(awaitingImage) ==>
        var watch := Prompt.WatchTask(Interpolate(task));
        && llm.Tasks() == ApplyTaskOp(old(llm.Tasks()), Update(watch, now)).0
        && llm.outbox == old(llm.outbox) + [CompleteTextMsg(watch)]
      ensures !old(awaitingImage) ==> llm.Tasks() == old(llm.Tasks()) && llm.outbox == old(llm.outbox)
      ensures llm.closed == old(llm.closed) && llm.proxyCreated == old(llm.proxyCreated)
      ensures recordings == old(recordings) && starts == old(starts) && completions == old(completions)
    {
      if awaitingImage {
        awaitingImage := false;
        llm.UpdateTask(Prompt.WatchTask(Interpolate(task)), now);
      }
    }

    /** A tool call from the agent. */
    method HandleToolCall(call: ToolCall, now: int) returns (effects: seq<Effect>)
      requires Valid()
      modifies this, llm
      ensures Valid()
      ensures effects == ToolCallEffects(call, old(llm.task), old(llm.taskStartTime), now)
      ensures llm.outbox == old(llm.outbox) + (if effects == [] then [] else [ToolResponseMsg(effects[0].id, effects[0].response)])
      ensures StoppedTask in effects ==> llm.Tasks() == NoTask
      ensures StoppedTask !in effects ==> llm.Tasks() == old(llm.Tasks())
      ensures llm.closed == (old(llm.closed) || (ClosedAgent in effects && old(llm.proxyCreated)))
      ensures recordings == old(recordings) + (if StoppedTask in effects then [RecordingRequest(RECORDING_MS, now)] else [])
      ensures completions == old(completions) + (if CompletionOf(effects).Some? then 1 else 0)
      ensures awaitingImage == old(awaitingImage) && starts == old(starts)
    {
      effects := ToolCallEffects(call, llm.task, llm.taskStartTime, now);
      if call.name == "complete" {
        CompleteSequence(call, llm.task, llm.taskStartTime, now);
      } else {
        OnlyCompleteCompletes(call, llm.task, llm.taskStartTime, now);
      }
      if call.name == "complete" {
        llm.SendToolCallResponse(call.id, Acknowledgement);
        var agentTask := llm.task;
        if agentTask.None? || agentTask.value == "" {
          return;
        }
        llm.StopTask();
        recordings := recordings + [RecordingRequest(RECORDING_MS, now)];
        completions := completions + 1;
        var _ := llm.Close();
      } else if call.name == "get_time" {
        llm.SendToolCallResponse(call.id, ElapsedReply(llm.taskStartTime, now));
      }
    }

    /** Device media is forwarded to the agent, also after close. */
    method OnDeviceAudio(p: RtpPacket)
      modifies llm
      ensures llm.audioSent == old(llm.audioSent) + [p.payload]
      ensures llm.Tasks() == old(llm.Tasks()) && llm.outbox == old(llm.outbox) && llm.closed == old(llm.closed)
    {
      llm.SendAudio(p);
    }

    method OnDeviceVideo(p: RtpPacket)
      modifies llm
      ensures llm.videoSent == old(llm.videoSent) + [p]
      ensures llm.Tasks() == old(llm.Tasks()) && llm.outbox == old(llm.outbox) && llm.closed == old(llm.closed)
    {
      llm.SendVideo(p);
    }

    method Close() returns (threw: bool)
      requires Valid()
      modifies llm`closed, llm`task, llm`taskStartTime, llm`reminderArmed
      ensures Valid()
      ensures threw == !old(llm.proxyCreated)
      ensures !threw ==> llm.closed && llm.Tasks() == NoTask
      ensures threw ==> llm.closed == old(llm.closed) && llm.Tasks() == old(llm.Tasks())
      ensures llm.outbox == old(llm.outbox)
    {
      threw := llm.Close();
    }
  }

  // ---------------------------------------------------------------------
  // Properties

  /** Every `complete` call is answered with `{ok: true}` under its id, and
      that reply comes before any other effect. */
  lemma CompleteAcknowledgedFirst(call: ToolCall, agentTask: Option<string>, startTime: Option<int>, now: int)
    requires call.name == "complete"
    ensures var effects := ToolCallEffects(call, agentTask, startTime, now);
      effects != [] && effects[0] == Replied(call.id, Acknowledgement)
      && forall k :: 1 <= k < |effects| ==> !effects[k].Replied?
  {
  }

  /** Without a current task `complete` does nothing beyond the reply; with
      one it stops the reminder, asks for a 5000 ms recording, reports the
      agent's task text with the call's result, and closes, in that order. */
  lemma CompleteSequence(call: ToolCall, agentTask: Option<string>, startTime: Option<int>, now: int)
    requires call.name == "complete"
    ensures var effects := ToolCallEffects(call, agentTask, startTime, now);
      && (agentTask.None? || agentTask == Some("") ==> |effects| == 1 && CompletionOf(effects).None?)
      && (agentTask.Some? && agentTask.value != "" ==>
            effects[1..] == [StoppedTask, Recorded(RecordingRequest(5000, now)),
                             Completed(Completion(agentTask.value, Lookup(call.args, "result"))), ClosedAgent]
            && CompletionOf(effects) == Some(Completion(agentTask.value, Lookup(call.args, "result"))))
  {
    var effects := ToolCallEffects(call, agentTask, startTime, now);
    if agentTask.Some? && agentTask.value != "" {
      assert effects[1..][1..] == effects[2..];
      assert effects[2..][1..] == effects[3..];
      assert CompletionOf(effects) == CompletionOf(effects[1..]);
      assert CompletionOf(effects[1..]) == CompletionOf(effects[2..]);
      assert CompletionOf(effects[2..]) == CompletionOf(effects[3..]);
    }
  }

  /** Only `complete` can report a completion, and `get_time` only replies. */
  lemma OnlyCompleteCompletes(call: ToolCall, agentTask: Option<string>, startTime: Option<int>, now: int)
    requires call.name != "complete"
    ensures var effects := ToolCallEffects(call, agentTask, startTime, now);
      && CompletionOf(effects).None?
      && (call.name == "get_time" ==> effects == [Replied(call.id, ElapsedReply(startTime, now))])
      && (call.name != "get_time" ==> effects == [])
  {
  }

  /** The reported task is the reminder text the agent was given, which
      embeds the description rather than being it. */
  lemma ReportedTaskIsReminderText(description: string, result: Option<string>, call: ToolCall, start: int, now: int)
    requires call.name == "complete"
    ensures var watch := Prompt.WatchTask(description);
      CompletionOf(ToolCallEffects(call, Some(watch), Some(start), now)) == Some(Completion(watch, Lookup(call.args, "result")))
      && watch != description
  {
    var watch := Prompt.WatchTask(description);
    assert |watch| > |description|;
    CompleteSequence(call, Some(watch), Some(start), now);
  }

  /** An instance started once reports at most one completion: the count of
      completions never exceeds the count of starts. */
  lemma AtMostOneCompletion(m: MultiModalLLM)
    requires m.Valid() && m.starts <= 1
    ensures m.completions <= 1
  {
  }
}
