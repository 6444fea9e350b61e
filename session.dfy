/** The per-session state `st.session_state` and its transitions (app.py:151-195, 225-227, 335-357). */
module Session {
  import opened Wrappers
  import opened Chat
  import Prompts

  const DefaultTemperature: real := 0.5

  /** The four session keys the script uses; a key that has not been set yet is `None`. */
  datatype State = State(
    messages: Option<seq<Message>>,
    systemPrompt: Option<string>,
    temperature: Option<real>,
    draft: Option<string>)
  {
    /** Every key is present, as it is after initialisation. */
    predicate Ready()
    {
      messages.Some? && systemPrompt.Some? && temperature.Some? && draft.Some?
    }

    /** The conversation, when present, is one the session itself could have built. */
    predicate WellFormed()
    {
      messages.Some? ==> ChatOnly(messages.value) && RepliesFollowPrompts(messages.value)
    }
  }

  /** Lines 151-173: fill in each absent key and keep every present one. The draft defaults
      to the system prompt as it stands after its own initialisation. */
  function Initialized(s: State): (r: State)
    ensures r.Ready()
    ensures s.messages.Some? ==> r.messages == s.messages
    ensures s.messages.None? ==> r.messages == Some([])
    ensures s.systemPrompt.Some? ==> r.systemPrompt == s.systemPrompt
    ensures s.systemPrompt.None? ==> r.systemPrompt == Some(Prompts.DefaultSystemPrompt)
    ensures s.temperature.Some? ==> r.temperature == s.temperature
    ensures s.temperature.None? ==> r.temperature == Some(DefaultTemperature)
    ensures s.draft.Some? ==> r.draft == s.draft
    ensures s.draft.None? ==> r.draft == r.systemPrompt
  {
    var messages := if s.messages.None? then Some([]) else s.messages;
    var systemPrompt := if s.systemPrompt.None? then Some(Prompts.DefaultSystemPrompt) else s.systemPrompt;
    var temperature := if s.temperature.None? then Some(DefaultTemperature) else s.temperature;
    var draft := if s.draft.None? then systemPrompt else s.draft;
    State(messages, systemPrompt, temperature, draft)
  }

  /** Initialisation is idempotent: a second pass (every rerun makes one) changes nothing. */
  lemma InitializedIdempotent(s: State)
    ensures Initialized(Initialized(s)) == Initialized(s)
  {
  }

  /** A state whose keys are all present is left exactly as it is. */
  lemma InitializedKeepsReadyState(s: State)
    requires s.Ready()
    ensures Initialized(s) == s
  {
  }

  /** Line 190: the "등록" button copies the draft into the applied system prompt. */
  function DraftApplied(s: State): (r: State)
    requires s.draft.Some?
    ensures r.systemPrompt == s.draft
    ensures r.messages == s.messages && r.temperature == s.temperature && r.draft == s.draft
  {
    s.(systemPrompt := s.draft)
  }

  /** Applying the draft twice is the same as applying it once. */
  lemma DraftAppliedIdempotent(s: State)
    requires s.draft.Some?
    ensures DraftApplied(DraftApplied(s)) == DraftApplied(s)
  {
  }

  /** After applying, the effective prompt for every mode is built from the draft. */
  lemma DraftAppliedDrivesEffectivePrompt(s: State, mode: string)
    requires s.Ready()
    ensures Prompts.EffectivePrompt(DraftApplied(s).systemPrompt.value, mode) == s.draft.value + Prompts.ModeSuffix(mode)
  {
  }

  /** The text area bound to the draft key (lines 182-187) overwrites the draft and nothing else. */
  function DraftEdited(s: State, text: string): (r: State)
    ensures r.draft == Some(text)
    ensures r.messages == s.messages && r.systemPrompt == s.systemPrompt && r.temperature == s.temperature
  {
    s.(draft := Some(text))
  }

  /** Editing the draft without applying it leaves the effective prompt unchanged for every mode. */
  lemma DraftEditKeepsEffectivePrompt(s: State, text: string, mode: string)
    requires s.systemPrompt.Some?
    ensures DraftEdited(s, text).systemPrompt.Some?
    ensures Prompts.EffectivePrompt(DraftEdited(s, text).systemPrompt.value, mode) == Prompts.EffectivePrompt(s.systemPrompt.value, mode)
  {
  }

  /** Line 195: the slider's value is stored as the temperature. */
  function TemperatureSet(s: State, t: real): (r: State)
    ensures r.temperature == Some(t)
    ensures r.messages == s.messages && r.systemPrompt == s.systemPrompt && r.draft == s.draft
  {
    s.(temperature := Some(t))
  }

  /** Line 226: reset empties the conversation and keeps the prompt, draft and temperature. */
  function Cleared(s: State): (r: State)
    ensures r.messages == Some([])
    ensures r.systemPrompt == s.systemPrompt && r.draft == s.draft && r.temperature == s.temperature
  {
    s.(messages := Some([]))
  }

  /** What one turn did: nothing, a request that was answered, or a request whose call failed. */
  datatype TurnResult = NoTurn | Answered(request: Request, reply: string) | Failed(request: Request)
  {
    /** The request that was sent, when there was one. */
    function Sent(): Option<Request>
    {
      if NoTurn? then None else Some(request)
    }
  }

  /** The conversation after a turn, and what the turn did. */
  datatype Turned = Turned(history: seq<Message>, result: TurnResult)

  /** Lines 335-357: with a truthy prompt, append the user message, send the effective system
      prompt followed by the whole history, and append the reply once the call returns; a
      failed call leaves the user message in place and appends nothing more. */
  function TakeTurn(history: seq<Message>, prompt: Option<string>, model: string, effectivePrompt: string,
                    temperature: real, complete: Request -> Completion): (r: Turned)
    ensures !Truthy(prompt) ==> r == Turned(history, NoTurn)
    ensures Truthy(prompt) ==> r.result.Sent().Some?
    ensures Truthy(prompt) ==> var request := r.result.request;
      && request.model == model && request.temperature == temperature
      && |request.messages| == |history| + 2
      && request.messages[0] == Message(System, effectivePrompt)
      && request.messages[1..|history| + 1] == history
      && request.messages[|history| + 1] == Message(User, prompt.value)
    ensures Truthy(prompt) && complete(r.result.request).Reply? ==>
      r == Turned(history + [Message(User, prompt.value), Message(Assistant, complete(r.result.request).text)],
                  Answered(r.result.request, complete(r.result.request).text))
    ensures Truthy(prompt) && complete(r.result.request).TransportFailure? ==>
      r == Turned(history + [Message(User, prompt.value)], Failed(r.result.request))
  {
    if !Truthy(prompt) then Turned(history, NoTurn)
    else
      var withUser := history + [Message(User, prompt.value)];
      var request := Request(model, ApiMessages(effectivePrompt, withUser), temperature);
      match complete(request)
      case Reply(text) => Turned(withUser + [Message(Assistant, text)], Answered(request, text))
      case TransportFailure => Turned(withUser, Failed(request))
  }

  /** A turn only ever appends to the conversation, one or two messages at a time. */
  lemma TakeTurnAppends(history: seq<Message>, prompt: Option<string>, model: string, effectivePrompt: string,
                        temperature: real, complete: Request -> Completion)
    ensures var h := TakeTurn(history, prompt, model, effectivePrompt, temperature, complete).history;
      history <= h && |h| <= |history| + 2
  {
  }

  /** A turn keeps the conversation well formed: no system message enters it, and every reply
      sits directly after a user message. The request it sends carries exactly one system message. */
  lemma TakeTurnPreservesShape(history: seq<Message>, prompt: Option<string>, model: string,
                                 effectivePrompt: string, temperature: real, complete: Request -> Completion)
    requires ChatOnly(history) && RepliesFollowPrompts(history)
    ensures var t := TakeTurn(history, prompt, model, effectivePrompt, temperature, complete);
      ChatOnly(t.history) && RepliesFollowPrompts(t.history)
    ensures var t := TakeTurn(history, prompt, model, effectivePrompt, temperature, complete);
      t.result.Sent().Some? ==> forall i :: 0 <= i < |t.result.request.messages| ==>
        (t.result.request.messages[i].role == System <==> i == 0)
  {
  }

  /** A completion answering "R1" to a first question leaves the question and the answer. */
  lemma FirstTurnAnswered(model: string, effectivePrompt: string, temperature: real)
    ensures TakeTurn([], Some("입지선정 논문 추천해줘"), model, effectivePrompt, temperature, _ => Reply("R1")).history
      == [Message(User, "입지선정 논문 추천해줘"), Message(Assistant, "R1")]
  {
  }

  /** A completion that fails leaves only the question: the conversation has length 1. */
  lemma FirstTurnFailed(model: string, effectivePrompt: string, temperature: real)
    ensures TakeTurn([], Some("입지선정 논문 추천해줘"), model, effectivePrompt, temperature, _ => TransportFailure)
      == Turned([Message(User, "입지선정 논문 추천해줘")],
                Failed(Request(model, [Message(System, effectivePrompt), Message(User, "입지선정 논문 추천해줘")], temperature)))
  {
  }

  /** The session object: one field per session key, overwritten in place by the script. */
  class Session {
    var messages: Option<seq<Message>>
    var systemPrompt: Option<string>
    var temperature: Option<real>
    var draft: Option<string>

    /** The session's keys as a value. */
    function Snapshot(): State
      reads this
    {
      State(messages, systemPrompt, temperature, draft)
    }

    /** A new browser session starts with no keys at all. */
    constructor ()
      ensures Snapshot() == State(None, None, None, None)
    {
      messages, systemPrompt, temperature, draft := None, None, None, None;
    }

    /** Lines 151-173. */
    method Init()
      modifies this
      ensures Snapshot() == Initialized(old(Snapshot()))
    {
      if messages.None? {
        messages := Some([]);
      }
      if systemPrompt.None? {
        systemPrompt := Some(Prompts.DefaultSystemPrompt);
      }
      if temperature.None? {
        temperature := Some(DefaultTemperature);
      }
      if draft.None? {
        draft := systemPrompt;
      }
    }

    /** Lines 189-190. */
    method ApplyDraft()
      requires draft.Some?
      modifies this
      ensures Snapshot() == DraftApplied(old(Snapshot()))
    {
      systemPrompt := draft;
    }

    /** The draft text area writing its key (lines 182-187). */
    method EditDraft(text: string)
      modifies this
      ensures Snapshot() == DraftEdited(old(Snapshot()), text)
    {
      draft := Some(text);
    }

    /** Line 195. */
    method SetTemperature(t: real)
      modifies this
      ensures Snapshot() == TemperatureSet(old(Snapshot()), t)
    {
      temperature := Some(t);
    }

    /** Lines 225-226. */
    method Reset()
      modifies this
      ensures Snapshot() == Cleared(old(Snapshot()))
    {
      messages := Some([]);
    }

    /** Lines 335-357: two appends to the conversation around the remote call. */
    method Turn(prompt: Option<string>, model: string, effectivePrompt: string, complete: Request -> Completion)
      returns (result: TurnResult)
      requires messages.Some? && temperature.Some?
      modifies this
      ensures var t := TakeTurn(old(messages.value), prompt, model, effectivePrompt, old(temperature.value), complete);
        messages == Some(t.history) && result == t.result
      ensures systemPrompt == old(systemPrompt) && temperature == old(temperature) && draft == old(draft)
    {
      if !Truthy(prompt) {
        return NoTurn;
      }
      messages := Some(messages.value + [Message(User, prompt.value)]);
      var request := Request(model, ApiMessages(effectivePrompt, messages.value), temperature.value);
      var outcome := complete(request);
      match outcome {
        case Reply(text) =>
          messages := Some(messages.value + [Message(Assistant, text)]);
          result := Answered(request, text);
        case TransportFailure =>
          result := Failed(request);
      }
    }
  }
}
