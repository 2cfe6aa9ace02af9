/** The AI agent's worker-thread consumer: it receives events on the worker
    thread and answers the owning component thread.

    Sending an event to the component thread becomes the returned list of
    events. `Step` is the specification of one `processEvent` call on the
    consumer's state as a value; the class `Processor` holds that state and
    its `ProcessEvent` is proved against `Step`.
 */
module AgentProcessor {
  import opened Common
  import opened AgentEvents

  const TEXT_LIMIT: nat := 512
  const TOKEN_LIMIT: nat := 2048

  /** Identity of the component thread that owns the worker thread. */
  type ThreadRef = nat

  /** The part of the consumer `processEvent` reads and writes. */
  datatype ProcessorState = ProcessorState(registered: bool, current: EventValue, modelPath: string)

  /** The state after one event and the events sent back. */
  datatype StepResult = StepResult(state: ProcessorState, sent: seq<EventValue>)

  /** Text generation for a prompt. The generation loop is not part of this
      code: the reply is always empty. */
  function ProcessText(prompt: string): (reply: string)
    ensures reply == ""
  {
    ""
  }

  /** Model activation. Loading is not part of this code: the requested
      path is reported as the active one. */
  function ActivateModel(modelPath: string): (active: string)
    ensures active == modelPath
  {
    modelPath
  }

  /** One `processEvent` call. Unregistered, nothing happens. A text
      request becomes the current event and is answered by one reply on its
      session; a model activation records the activated path and is
      answered by one activation report; every other action is ignored. */
  function Step(s: ProcessorState, data: EventValue): (r: StepResult)
    ensures r.state.registered == s.registered
    ensures |r.sent| == (if s.registered && data.action in {ActionProcessText, ActionActivateModel} then 1 else 0)
    ensures !(s.registered && data.action in {ActionProcessText, ActionActivateModel}) ==> r.state == s
    ensures s.registered && data.action == ActionProcessText ==>
      r.state.current == data && r.state.modelPath == s.modelPath
      && r.sent[0].action == ActionReplyText && r.sent[0].sessionId == data.sessionId
      && r.sent[0].prompt == ProcessText(data.prompt) && r.sent[0].modelPath == ""
      && r.sent[0].video == VideoInvalid
    ensures s.registered && data.action == ActionActivateModel ==>
      r.state.current == s.current && r.state.modelPath == ActivateModel(data.modelPath)
      && r.sent[0].action == ActionModelActivated && r.sent[0].sessionId == NO_SESSION
      && r.sent[0].modelPath == r.state.modelPath && r.sent[0].prompt == ""
      && r.sent[0].video == VideoInvalid
  {
    if !s.registered then StepResult(s, [])
    else if data.action == ActionProcessText then
      StepResult(s.(current := data),
                 [PromptEvent(ActionReplyText, data.sessionId, ProcessText(data.prompt), VideoInvalid)])
    else if data.action == ActionActivateModel then
      var active := ActivateModel(data.modelPath);
      StepResult(s.(modelPath := active), [ModelEvent(ActionModelActivated, active)])
    else StepResult(s, [])
  }

  /** The events of `events` that a registered consumer answers. */
  function Answered(events: seq<EventValue>): (n: nat)
    ensures n <= |events|
  {
    if events == [] then 0
    else
      Answered(events[..|events| - 1])
      + (if events[|events| - 1].action in {ActionProcessText, ActionActivateModel} then 1 else 0)
  }

  /** `processEvent` applied to each of `events` in order; the sent events
      are collected in order. */
  function Drive(s: ProcessorState, events: seq<EventValue>): StepResult
  {
    if events == [] then StepResult(s, [])
    else
      var before := Drive(s, events[..|events| - 1]);
      var r := Step(before.state, events[|events| - 1]);
      StepResult(r.state, before.sent + r.sent)
  }

  /** Over any sequence of events, a registered consumer sends exactly one
      event per text request or model activation and an unregistered one
      sends nothing and keeps its state. */
  lemma {:induction false} DriveSendsOnePerRequest(s: ProcessorState, events: seq<EventValue>)
    ensures Drive(s, events).state.registered == s.registered
    ensures s.registered ==> |Drive(s, events).sent| == Answered(events)
    ensures !s.registered ==> Drive(s, events) == StepResult(s, [])
  {
    if events != [] {
      DriveSendsOnePerRequest(s, events[..|events| - 1]);
    }
  }

  class Processor {
    var compThread: Option<ThreadRef>
    const currentEvent: EventData
    var modelPath: string
    var textLimit: nat
    var tokenLimit: nat

    function State(): ProcessorState
      reads this, currentEvent
    {
      ProcessorState(compThread.Some?, currentEvent.Value(), modelPath)
    }

    /** A new consumer: no component thread, a default current event, no
      model path, and the default text and token limits. */
    constructor ()
      ensures compThread == None && fresh(currentEvent)
      ensures currentEvent.Value() == DEFAULT_EVENT && modelPath == ""
      ensures textLimit == TEXT_LIMIT && tokenLimit == TOKEN_LIMIT
    {
      compThread := None;
      currentEvent := new EventData();
      modelPath := "";
      textLimit := TEXT_LIMIT;
      tokenLimit := TOKEN_LIMIT;
    }

    /** The worker thread started: remember the owning component thread. */
    method RegisterEventConsumers(masterThread: ThreadRef)
      modifies this`compThread
      ensures compThread == Some(masterThread)
    {
      compThread := Some(masterThread);
    }

    /** The worker thread stops: forget the component thread. */
    method UnregisterEventConsumers()
      modifies this`compThread
      ensures compThread == None
    {
      compThread := None;
    }

    /** Handles one event and returns the events sent to the component
      thread. */
    method ProcessEvent(data: EventData) returns (sent: seq<EventValue>)
      modifies this`modelPath, currentEvent
      ensures State() == Step(old(State()), old(data.Value())).state
      ensures sent == Step(old(State()), old(data.Value())).sent
    {
      if compThread == None {
        return [];
      }
      if data.GetAction() == ActionProcessText {
        currentEvent.Assign(data);
        var response := ProcessText(data.GetPrompt());
        sent := [PromptEvent(ActionReplyText, data.GetSessionId(), response, VideoInvalid)];
      } else if data.GetAction() == ActionActivateModel {
        modelPath := ActivateModel(data.GetModelPath());
        sent := [ModelEvent(ActionModelActivated, modelPath)];
      } else {
        sent := [];
      }
    }
  }
}
