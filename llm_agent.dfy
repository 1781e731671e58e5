/** The realtime LLM agent: the task and reminder state every agent keeps,
    and the Gemini agent's handling of its peer connection (the mute re-arm
    rule on received audio, the fan-out of data-channel messages, sending
    text and tool replies, closing).

    The abstract base class and its only subclass are merged into one class.
    Everything the agent hands to its data channel is recorded, in order, in
    `outbox`; what it writes to its outgoing audio and video tracks is
    recorded in `audioSent` and `videoSent`. Events it emits are returned to
    the caller in emission order. */
module LlmAgent {
  import opened JsValues
  import Prompt

  /** A media packet; only its payload is modelled. */
  datatype RtpPacket = RtpPacket(payload: seq<bv8>)

  /** A tool call as the Gemini proxy delivers it: the tool name, its string
      arguments, and the call id to answer under. */
  datatype ToolCall = ToolCall(name: string, args: map<string, string>, id: string)

  /** A parsed data-channel message; each member is absent when null or undefined. */
  datatype RecvMessage = RecvMessage(streamingText: Option<string>, completeText: Option<string>, call: Option<ToolCall>)

  /** What arrives on the data channel: binary data, or text that parses to
      a message (`None` when parsing or destructuring throws). */
  datatype ChannelData = Binary | Text(parsed: Option<RecvMessage>)

  datatype AgentEvent = StreamingText(text: string) | CompleteText(text: string) | ToolCallEvent(call: ToolCall)

  /** What the agent sends on its data channel. */
  datatype DcMessage = CompleteTextMsg(text: string) | ToolResponseMsg(id: string, response: JsValue)

  datatype MuteState = MuteState(muted: bool, unmuteAt: Option<int>)

  /** The task fields; `reminder` says whether the reminder interval is armed. */
  datatype TaskState = TaskState(task: Option<string>, startTime: Option<int>, reminder: bool)

  /** Received agent audio re-mutes the input once this long has passed since the unmute. */
  const REMUTE_AFTER_MS: int := 2000

  /** The reminder interval. */
  const REMINDER_INTERVAL_MS: int := 2000

  const NoTask: TaskState := TaskState(None, None, false)

  /** A task, its start time and its reminder exist together or not at all. */
  predicate TaskConsistent(t: TaskState) {
    t.task.Some? == t.startTime.Some? && t.task.Some? == t.reminder
  }

  // ---------------------------------------------------------------------
  // The mute rule

  /** A received agent audio packet: mute when never unmuted or unmuted too long ago. */
  function AfterAgentAudio(m: MuteState, now: int): MuteState {
    if m.unmuteAt.None? || now - m.unmuteAt.value > REMUTE_AFTER_MS then MuteState(true, m.unmuteAt) else m
  }

  /** A received complete text: the empty text marks the end of a turn and unmutes. */
  function AfterCompleteText(m: MuteState, text: string, now: int): MuteState {
    if text == "" then MuteState(false, Some(now)) else m
  }

  function AfterChannelData(m: MuteState, data: ChannelData, now: int): MuteState {
    match data
    case Text(Some(msg)) =>
      if msg.completeText.Some? then AfterCompleteText(m, msg.completeText.value, now) else m
    case _ => m
  }

  // ---------------------------------------------------------------------
  // The fan-out of data-channel messages

  function Rank(e: AgentEvent): int {
    match e
    case StreamingText(_) => 0
    case CompleteText(_) => 1
    case ToolCallEvent(_) => 2
  }

  /** The events of one message: each present member once, streaming text
      before complete text before the tool call. */
  function Fanout(msg: RecvMessage): (events: seq<AgentEvent>)
    ensures forall s :: StreamingText(s) in events <==> msg.streamingText == Some(s)
    ensures forall s :: CompleteText(s) in events <==> msg.completeText == Some(s)
    ensures forall c :: ToolCallEvent(c) in events <==> msg.call == Some(c)
    ensures forall i, j :: 0 <= i < j < |events| ==> Rank(events[i]) < Rank(events[j])
  {
    (if msg.streamingText.Some? then [StreamingText(msg.streamingText.value)] else [])
    + (if msg.completeText.Some? then [CompleteText(msg.completeText.value)] else [])
    + (if msg.call.Some? then [ToolCallEvent(msg.call.value)] else [])
  }

  /** Binary data and text that does not parse emit nothing. */
  function ChannelEvents(data: ChannelData): (events: seq<AgentEvent>)
    ensures data.Binary? || data.parsed.None? ==> events == []
  {
    match data
    case Text(Some(msg)) => Fanout(msg)
    case _ => []
  }

  // ---------------------------------------------------------------------
  // Task and reminder

  datatype TaskOp = Update(task: string, now: int) | Stop | Tick

  /** One task operation: the new task fields and what it sends. `Update`
      stops any previous task, starts the new one and sends it at once;
      `Stop` clears everything; `Tick` is one firing of the reminder
      interval, which resends the task when it is a non-empty string. */
  function ApplyTaskOp(t: TaskState, op: TaskOp): (TaskState, seq<DcMessage>) {
    match op
    case Update(task, now) => (TaskState(Some(task), Some(now), true), [CompleteTextMsg(task)])
    case Stop => (NoTask, [])
    case Tick =>
      (t, if t.reminder && t.task.Some? && t.task.value != "" then [CompleteTextMsg(t.task.value)] else [])
  }

  function RunTaskOps(t: TaskState, ops: seq<TaskOp>): (TaskState, seq<DcMessage>)
    decreases |ops|
  {
    if ops == [] then (t, [])
    else
      var (t1, sent1) := ApplyTaskOp(t, ops[0]);
      var (t2, sent2) := RunTaskOps(t1, ops[1..]);
      (t2, sent1 + sent2)
  }

  /** The agent. */
  class LLMAgent {
    const systemInstruction: string
    const declarations: seq<Prompt.FunctionDeclaration>
    var muteInputAudio: bool
    var unmuteAt: Option<int>
    var task: Option<string>
    var taskStartTime: Option<int>
    var reminderArmed: bool
    /** The Gemini proxy has been created (`start` got that far). */
    var proxyCreated: bool
    var closed: bool
    var outbox: seq<DcMessage>
    var audioSent: seq<seq<bv8>>
    var videoSent: seq<RtpPacket>

    function Mute(): MuteState
      reads this
    {
      MuteState(muteInputAudio, unmuteAt)
    }

    function Tasks(): TaskState
      reads this
    {
      TaskState(task, taskStartTime, reminderArmed)
    }

    /** A fresh agent is unmuted, has no task, no start time and no reminder. */
    constructor(systemInstruction: string, declarations: seq<Prompt.FunctionDeclaration>)
      ensures this.systemInstruction == systemInstruction && this.declarations == declarations
      ensures Mute() == MuteState(false, None) && Tasks() == NoTask
      ensures !proxyCreated && !closed
      ensures outbox == [] && audioSent == [] && videoSent == []
    {
      this.systemInstruction := systemInstruction;
      this.declarations := declarations;
      muteInputAudio := false;
      unmuteAt := None;
      task := None;
      taskStartTime := None;
      reminderArmed := false;
      proxyCreated := false;
      closed := false;
      outbox := [];
      audioSent := [];
      videoSent := [];
    }

    /** `start`: creating the proxy and the offer/answer exchange are opaque;
        they succeed as `proxyOk` and `negotiationOk` say. A failed
        negotiation leaves the proxy created. */
    method Start(proxyOk: bool, negotiationOk: bool) returns (ok: bool)
      modifies this`proxyCreated
      ensures ok == (proxyOk && negotiationOk)
      ensures proxyCreated == (old(proxyCreated) || proxyOk)
    {
      if !proxyOk {
        return false;
      }
      proxyCreated := true;
      ok := negotiationOk;
    }

    /** The payload is repacketised onto the outgoing audio track. */
    method SendAudio(p: RtpPacket)
      modifies this`audioSent
      ensures audioSent == old(audioSent) + [p.payload]
    {
      audioSent := audioSent + [p.payload];
    }

    method SendVideo(p: RtpPacket)
      modifies this`videoSent
      ensures videoSent == old(videoSent) + [p]
    {
      videoSent := videoSent + [p];
    }

    method SendCompleteText(text: string)
      modifies this`outbox
      ensures outbox == old(outbox) + [CompleteTextMsg(text)]
    {
      outbox := outbox + [CompleteTextMsg(text)];
    }

    method SendToolCallResponse(id: string, response: JsValue)
      modifies this`outbox
      ensures outbox == old(outbox) + [ToolResponseMsg(id, response)]
    {
      outbox := outbox + [ToolResponseMsg(id, response)];
    }

    method StopTask()
      modifies this`task, this`taskStartTime, this`reminderArmed
      ensures Tasks() == ApplyTaskOp(old(Tasks()), Stop).0
    {
      reminderArmed := false;
      task := None;
      taskStartTime := None;
    }

    method UpdateTask(t: string, now: int)
      modifies this`task, this`taskStartTime, this`reminderArmed, this`outbox
      ensures Tasks() == ApplyTaskOp(old(Tasks()), Update(t, now)).0
      ensures outbox == old(outbox) + ApplyTaskOp(old(Tasks()), Update(t, now)).1
    {
      StopTask();
      task := Some(t);
      taskStartTime := Some(now);
      SendCompleteText(t);
      reminderArmed := true;
    }

    /** One firing of the reminder interval. */
    method ReminderTick()
      modifies this`outbox
      ensures outbox == old(outbox) + ApplyTaskOp(Tasks(), Tick).1
    {
      if reminderArmed && task.Some? && task.value != "" {
        SendCompleteText(task.value);
      }
    }

    /** A packet on the agent's incoming audio track: the mute rule, then the
        packet is re-emitted unconditionally. */
    method ReceiveAudio(p: RtpPacket, now: int) returns (forwarded: RtpPacket)
      modifies this`muteInputAudio
      ensures forwarded == p
      ensures Mute() == AfterAgentAudio(old(Mute()), now)
    {
      if unmuteAt.None? || now - unmuteAt.value > REMUTE_AFTER_MS {
        muteInputAudio := true;
      }
      forwarded := p;
    }

    /** A data-channel message. */
    method ReceiveChannelData(data: ChannelData, now: int) returns (events: seq<AgentEvent>)
      modifies this`muteInputAudio, this`unmuteAt
      ensures events == ChannelEvents(data)
      ensures Mute() == AfterChannelData(old(Mute()), data, now)
    {
      events := [];
      if data.Text? && data.parsed.Some? {
        var msg := data.parsed.value;
        if msg.streamingText.Some? {
          events := events + [StreamingText(msg.streamingText.value)];
        }
        if msg.completeText.Some? {
          if msg.completeText.value == "" {
            muteInputAudio := false;
            unmuteAt := Some(now);
          }
          events := events + [CompleteText(msg.completeText.value)];
        }
        if msg.call.Some? {
          events := events + [ToolCallEvent(msg.call.value)];
        }
      }
    }

    /** Closing the proxy throws when it was never created, before anything
        else happens; otherwise the task is stopped and the agent closed. */
    method Close() returns (threw: bool)
      modifies this`closed, this`task, this`taskStartTime, this`reminderArmed
      ensures threw == !old(proxyCreated)
      ensures threw ==> closed == old(closed) && Tasks() == old(Tasks())
      ensures !threw ==> closed && Tasks() == NoTask
    {
      if !proxyCreated {
        return true;
      }
      threw := false;
      StopTask();
      closed := true;
    }
  }

  // ---------------------------------------------------------------------
  // Properties

  /** After an empty complete text unmutes at `u`, received agent audio
      leaves the input unmuted for 2000 ms and re-mutes it afterwards. */
  lemma UnmuteWindow(m: MuteState, u: int, now: int)
    ensures var m1 := AfterCompleteText(m, "", u);
      && !m1.muted && m1.unmuteAt == Some(u)
      && (AfterAgentAudio(m1, now).muted <==> now - u > REMUTE_AFTER_MS)
  {
  }

  /** Received audio never unmutes and never moves the unmute time. */
  lemma AudioOnlyMutes(m: MuteState, now: int)
    ensures m.muted ==> AfterAgentAudio(m, now).muted
    ensures AfterAgentAudio(m, now).unmuteAt == m.unmuteAt
  {
  }

  /** A non-empty complete text leaves the mute state alone, but is emitted all the same. */
  lemma NonEmptyCompleteText(m: MuteState, msg: RecvMessage, now: int)
    requires msg.completeText.Some? && msg.completeText.value != ""
    ensures AfterChannelData(m, Text(Some(msg)), now) == m
    ensures CompleteText(msg.completeText.value) in ChannelEvents(Text(Some(msg)))
  {
  }

  /** Stopping twice is stopping once, and a stopped agent's reminder sends nothing. */
  lemma StopIdempotent(t: TaskState)
    ensures ApplyTaskOp(ApplyTaskOp(t, Stop).0, Stop) == ApplyTaskOp(t, Stop)
    ensures ApplyTaskOp(ApplyTaskOp(t, Stop).0, Tick).1 == []
  {
  }

  /** Updating replaces the task, whatever it was, sends the new task once,
      and the reminder then resends exactly that task (when non-empty). */
  lemma UpdateReplaces(t: TaskState, task: string, now: int)
    ensures var (t1, sent) := ApplyTaskOp(t, Update(task, now));
      && t1.task == Some(task) && t1.startTime == Some(now) && t1.reminder
      && sent == [CompleteTextMsg(task)]
      && ApplyTaskOp(t1, Tick).1 == (if task != "" then [CompleteTextMsg(task)] else [])
  {
  }

  /** Over any run of updates, stops and reminder ticks: the task fields stay
      consistent (one task, one start time, one reminder, or none of them),
      and every text sent is a task some update in the run set. */
  lemma {:induction false} RunTaskOpsSendsOnlySetTasks(t: TaskState, ops: seq<TaskOp>)
    requires TaskConsistent(t) && t.task.None?
    ensures TaskConsistent(RunTaskOps(t, ops).0)
    ensures forall m :: m in RunTaskOps(t, ops).1 ==>
      exists i :: 0 <= i < |ops| && ops[i].Update? && m == CompleteTextMsg(ops[i].task)
    ensures RunTaskOps(t, ops).0.task.Some? ==>
      exists i :: 0 <= i < |ops| && ops[i].Update? && RunTaskOps(t, ops).0.task == Some(ops[i].task)
    decreases |ops|
  {
    if ops != [] {
      var (t1, sent1) := ApplyTaskOp(t, ops[0]);
      if ops[0].Update? {
        RunFromSetTask(t1, ops[1..], ops[0].task);
        var (t2, sent2) := RunTaskOps(t1, ops[1..]);
        forall m | m in RunTaskOps(t, ops).1
          ensures exists i :: 0 <= i < |ops| && ops[i].Update? && m == CompleteTextMsg(ops[i].task)
        {
          if m in sent1 {
            assert ops[0].Update? && m == CompleteTextMsg(ops[0].task);
          } else {
            assert m in sent2;
            if m != CompleteTextMsg(ops[0].task) {
              var i :| 0 <= i < |ops[1..]| && ops[1..][i].Update? && m == CompleteTextMsg(ops[1..][i].task);
              assert ops[i + 1] == ops[1..][i];
            }
          }
        }
        if t2.task.Some? && t2.task != Some(ops[0].task) {
          var i :| 0 <= i < |ops[1..]| && ops[1..][i].Update? && t2.task == Some(ops[1..][i].task);
          assert ops[i + 1] == ops[1..][i];
        }
      } else {
        assert t1 == NoTask && sent1 == [];
        RunTaskOpsSendsOnlySetTasks(t1, ops[1..]);
        var (t2, sent2) := RunTaskOps(t1, ops[1..]);
        assert RunTaskOps(t, ops).1 == sent2;
        forall m | m in sent2
          ensures exists i :: 0 <= i < |ops| && ops[i].Update? && m == CompleteTextMsg(ops[i].task)
        {
          var i :| 0 <= i < |ops[1..]| && ops[1..][i].Update? && m == CompleteTextMsg(ops[1..][i].task);
          assert ops[i + 1] == ops[1..][i];
        }
        if t2.task.Some? {
          var i :| 0 <= i < |ops[1..]| && ops[1..][i].Update? && t2.task == Some(ops[1..][i].task);
          assert ops[i + 1] == ops[1..][i];
        }
      }
    }
  }

  /** The same run, from a state whose task (if any) is `set`: what is sent
      and what is left are `set` or a task of a later update. */
  lemma {:induction false} RunFromSetTask(t: TaskState, ops: seq<TaskOp>, current: string)
    requires TaskConsistent(t) && (t.task.Some? ==> t.task == Some(current))
    ensures TaskConsistent(RunTaskOps(t, ops).0)
    ensures forall m :: m in RunTaskOps(t, ops).1 ==>
      m == CompleteTextMsg(current) || exists i :: 0 <= i < |ops| && ops[i].Update? && m == CompleteTextMsg(ops[i].task)
    ensures RunTaskOps(t, ops).0.task.Some? ==>
      RunTaskOps(t, ops).0.task == Some(current) ||
      exists i :: 0 <= i < |ops| && ops[i].Update? && RunTaskOps(t, ops).0.task == Some(ops[i].task)
    decreases |ops|
  {
    if ops != [] {
      var (t1, sent1) := ApplyTaskOp(t, ops[0]);
      var (t2, sent2) := RunTaskOps(t1, ops[1..]);
      var current1 := if ops[0].Update? then ops[0].task else current;
      RunFromSetTask(t1, ops[1..], current1);
      forall m | m in RunTaskOps(t, ops).1
        ensures m == CompleteTextMsg(current) || exists i :: 0 <= i < |ops| && ops[i].Update? && m == CompleteTextMsg(ops[i].task)
      {
        if m in sent1 {
          if ops[0].Update? {
            assert m == CompleteTextMsg(ops[0].task);
          }
        } else {
          assert m in sent2;
          if m != CompleteTextMsg(current1) {
            var i :| 0 <= i < |ops[1..]| && ops[1..][i].Update? && m == CompleteTextMsg(ops[1..][i].task);
            assert ops[i + 1] == ops[1..][i];
          }
        }
      }
      if t2.task.Some? && t2.task != Some(current1) {
        var i :| 0 <= i < |ops[1..]| && ops[1..][i].Update? && t2.task == Some(ops[1..][i].task);
        assert ops[i + 1] == ops[1..][i];
      }
    }
  }
}
