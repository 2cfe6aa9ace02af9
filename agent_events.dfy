/** The message record the AI agent exchanges with its worker thread: an
    action tag, a session id, a prompt, a model path and a video buffer.

    The record is updated in place by its assignment operators and by
    `reset`, so it is a class; `Value()` is its content as a datatype value,
    which is also what an emitted event carries.
 */
module AgentEvents {
  import opened Common

  /** What an event asks for or reports. The first five tags are those of
      the declared enumeration; the last two are the model activation
      request and its answer. */
  datatype Action =
    | ActionUnknown
    | ActionProcessText
    | ActionProcessVideo
    | ActionReplyText
    | ActionReplyVideo
    | ActionActivateModel
    | ActionModelActivated

  /** A shared video buffer, opaque apart from whether it holds data. */
  datatype Video = VideoInvalid | VideoBuffer(bytes: seq<bv8>)

  /** The session id carried by model activation events. */
  const NO_SESSION: uint32 := 0xFFFF_FFFF

  /** The content of an event. */
  datatype EventValue = EventValue(
    action: Action,
    sessionId: uint32,
    prompt: string,
    modelPath: string,
    video: Video)

  /** A default-constructed event. */
  const DEFAULT_EVENT: EventValue := EventValue(ActionUnknown, 0, "", "", VideoInvalid)

  /** An event built from an action and a model path: no session, no
      prompt, no video. */
  function ModelEvent(action: Action, modelPath: string): (e: EventValue)
    ensures e.action == action && e.modelPath == modelPath
    ensures e.sessionId == NO_SESSION && e.prompt == "" && e.video == VideoInvalid
  {
    EventValue(action, NO_SESSION, "", modelPath, VideoInvalid)
  }

  /** An event built from an action, a session and a prompt, with or
      without a video; the model path stays empty. */
  function PromptEvent(action: Action, sessionId: uint32, prompt: string, video: Video): (e: EventValue)
    ensures e.action == action && e.sessionId == sessionId && e.prompt == prompt
    ensures e.modelPath == "" && e.video == video
  {
    EventValue(action, sessionId, prompt, "", video)
  }

  /** `reset`: back to the default action, session, prompt and video; the
      model path is kept. */
  function ResetValue(e: EventValue): (r: EventValue)
    ensures r.action == ActionUnknown && r.sessionId == 0
    ensures r.prompt == "" && r.video == VideoInvalid
    ensures r.modelPath == e.modelPath
  {
    e.(action := ActionUnknown, sessionId := 0, prompt := "", video := VideoInvalid)
  }

  /** Resetting twice is resetting once, and a reset event differs from a
      default one only in its model path. */
  lemma ResetIdempotent(e: EventValue)
    ensures ResetValue(ResetValue(e)) == ResetValue(e)
    ensures ResetValue(e) == DEFAULT_EVENT.(modelPath := e.modelPath)
  {
  }

  /** What is left in an event whose strings and buffer were moved out:
      the action and session stay, the moved members are empty. */
  function MovedFrom(e: EventValue): (r: EventValue)
    ensures r.action == e.action && r.sessionId == e.sessionId
    ensures r.prompt == "" && r.modelPath == "" && r.video == VideoInvalid
  {
    e.(prompt := "", modelPath := "", video := VideoInvalid)
  }

  class EventData {
    var action: Action
    var sessionId: uint32
    var prompt: string
    var modelPath: string
    var video: Video

    function Value(): EventValue
      reads this
    {
      EventValue(action, sessionId, prompt, modelPath, video)
    }

    /** The default event: unknown action, session 0, everything empty. */
    constructor ()
      ensures Value() == DEFAULT_EVENT
    {
      action, sessionId, prompt, modelPath, video := ActionUnknown, 0, "", "", VideoInvalid;
    }

    /** A model event: session 0xFFFFFFFF, the given path, empty prompt. */
    constructor ForModel(action: Action, modelPath: string)
      ensures Value() == ModelEvent(action, modelPath)
    {
      this.action, sessionId, prompt, this.modelPath, video := action, NO_SESSION, "", modelPath, VideoInvalid;
    }

    /** A text event: the given session and prompt, no model path. */
    constructor ForPrompt(action: Action, sessionId: uint32, prompt: string)
      ensures Value() == PromptEvent(action, sessionId, prompt, VideoInvalid)
    {
      this.action, this.sessionId, this.prompt, modelPath, video := action, sessionId, prompt, "", VideoInvalid;
    }

    /** A video event: the given session, prompt and video, no model path. */
    constructor ForVideo(action: Action, sessionId: uint32, prompt: string, video: Video)
      ensures Value() == PromptEvent(action, sessionId, prompt, video)
    {
      this.action, this.sessionId, this.prompt, modelPath, this.video := action, sessionId, prompt, "", video;
    }

    /** Copy construction: a field-wise equal event. */
    constructor Copy(other: EventData)
      ensures Value() == other.Value()
    {
      action, sessionId, prompt, modelPath, video :=
        other.action, other.sessionId, other.prompt, other.modelPath, other.video;
    }

    /** Move construction: this event takes the content, the source keeps
      only its action and session. */
    constructor Move(other: EventData)
      modifies other
      ensures Value() == old(other.Value())
      ensures other.Value() == MovedFrom(old(other.Value()))
    {
      action, sessionId, prompt, modelPath, video :=
        other.action, other.sessionId, other.prompt, other.modelPath, other.video;
      other.prompt, other.modelPath, other.video := "", "", VideoInvalid;
    }

    /** Copy assignment; assigning an event to itself changes nothing. */
    method Assign(other: EventData)
      modifies this
      ensures Value() == old(other.Value())
      ensures other == this ==> Value() == old(Value())
    {
      if this != other {
        action, sessionId, prompt, modelPath, video :=
          other.action, other.sessionId, other.prompt, other.modelPath, other.video;
      }
    }

    /** Move assignment; moving an event into itself changes nothing. */
    method MoveAssign(other: EventData)
      modifies this, other
      ensures other != this ==> Value() == old(other.Value())
      ensures other != this ==> other.Value() == MovedFrom(old(other.Value()))
      ensures other == this ==> Value() == old(Value())
    {
      if this != other {
        action, sessionId, prompt, modelPath, video :=
          other.action, other.sessionId, other.prompt, other.modelPath, other.video;
        other.prompt, other.modelPath, other.video := "", "", VideoInvalid;
      }
    }

    /** Clears action, session, prompt and video in place. */
    method Reset()
      modifies this
      ensures Value() == ResetValue(old(Value()))
    {
      action, sessionId, prompt, video := ActionUnknown, 0, "", VideoInvalid;
    }

    function GetAction(): (a: Action)
      reads this
      ensures a == Value().action
    {
      action
    }

    function GetPrompt(): (p: string)
      reads this
      ensures p == Value().prompt
    {
      prompt
    }

    function GetVideo(): (v: Video)
      reads this
      ensures v == Value().video
    {
      video
    }

    function GetSessionId(): (id: uint32)
      reads this
      ensures id == Value().sessionId
    {
      sessionId
    }

    function GetModelPath(): (path: string)
      reads this
      ensures path == Value().modelPath
    {
      modelPath
    }
  }
}
