/** One rerun of the whole script against a session (app.py:34-46, 151-227, 260-357), and
    sequences of reruns. */
module Script {
  import opened Wrappers
  import opened Chat
  import Config
  import Prompts
  import opened Session

  /** What the user did in the widgets before this rerun. */
  datatype Events = Events(
    applyClicked: bool,       // "등록" (line 189)
    slider: real,             // the temperature slider's value (line 194)
    mode: string,             // the search-mode radio (line 199)
    resetClicked: bool,       // "대화 초기화" (line 225)
    siting: bool,             // preset card buttons (lines 274, 291, 308)
    capacity: bool,
    acceptance: bool,
    chatInput: Option<string>) // `st.chat_input` (line 326)

  /** How a rerun ended: stopped at the credential gate, cut short by the reset's
      `experimental_rerun`, or run to the end with the turn it made. */
  datatype RunOutcome = Stopped | Restarted | Finished(turn: TurnResult)

  datatype Ran = Ran(state: State, outcome: RunOutcome)

  /** The script from top to bottom, as a function of the configuration stores, the session
      before the rerun, the widget events and the remote completion. */
  function Run(env: Config.Store, secrets: Config.Store, s: State, ev: Events, complete: Request -> Completion): (r: Ran)
    ensures Config.Startup(env, secrets).Err? ==> r == Ran(s, Stopped)
    ensures Config.Startup(env, secrets).Ok? ==> r.state.Ready() && r.outcome != Stopped
    ensures ev.resetClicked && Config.Startup(env, secrets).Ok? ==> r.state.messages == Some([]) && r.outcome == Restarted
  {
    match Config.Startup(env, secrets)
    case Err(_) => Ran(s, Stopped)
    case Ok(settings) =>
      var s1 := Initialized(s);
      var s2 := if ev.applyClicked then DraftApplied(s1) else s1;
      var s3 := TemperatureSet(s2, ev.slider);
      var effectivePrompt := Prompts.EffectivePrompt(s3.systemPrompt.value, ev.mode);
      if ev.resetClicked then Ran(Cleared(s3), Restarted)
      else
        var prompt := Prompts.SelectPrompt(ev.chatInput, Prompts.PressedPreset(ev.siting, ev.capacity, ev.acceptance));
        var t := TakeTurn(s3.messages.value, prompt, settings.deployment, effectivePrompt, s3.temperature.value, complete);
        Ran(s3.(messages := Some(t.history)), Finished(t.result))
  }

  /** The rerun as it happens: each step changes the session object in place. */
  method Rerun(session: Session, env: Config.Store, secrets: Config.Store, ev: Events, complete: Request -> Completion)
    returns (outcome: RunOutcome)
    modifies session
    ensures Ran(session.Snapshot(), outcome) == Run(env, secrets, old(session.Snapshot()), ev, complete)
  {
    var settings := Config.Startup(env, secrets);
    if settings.Err? {
      return Stopped;
    }
    session.Init();
    if ev.applyClicked {
      session.ApplyDraft();
    }
    session.SetTemperature(ev.slider);
    var effectivePrompt := Prompts.EffectivePrompt(session.systemPrompt.value, ev.mode);
    if ev.resetClicked {
      session.Reset();
      return Restarted;
    }
    var preset := Prompts.PressedPreset(ev.siting, ev.capacity, ev.acceptance);
    var prompt := Prompts.SelectPrompt(ev.chatInput, preset);
    var turn := session.Turn(prompt, settings.value.deployment, effectivePrompt, complete);
    outcome := Finished(turn);
  }

  /** Outside a reset, a rerun that passes the gate keeps the prompt, the draft and the history
      it found (after initialisation), stores the slider's temperature, and sends the history
      followed by the chosen prompt under the effective system prompt. */
  lemma RunTurn(env: Config.Store, secrets: Config.Store, s: State, ev: Events, complete: Request -> Completion)
    requires Config.Startup(env, secrets).Ok?
    requires !ev.resetClicked
    ensures var r := Run(env, secrets, s, ev, complete);
      var s1 := Initialized(s);
      var applied := if ev.applyClicked then s1.draft else s1.systemPrompt;
      && r.state.systemPrompt == applied
      && r.state.draft == s1.draft
      && r.state.temperature == Some(ev.slider)
      && r.outcome.Finished?
      && s1.messages.value <= r.state.messages.value
      && (r.outcome.turn.Sent().Some? ==>
            r.outcome.turn.request.messages[0] == Message(System, applied.value + Prompts.ModeSuffix(ev.mode))
            && r.outcome.turn.request.temperature == ev.slider
            && r.outcome.turn.request.model == Config.Startup(env, secrets).value.deployment)
  {
  }

  /** Typing in the chat box wins over a preset card; with neither, the rerun makes no turn and
      leaves the history as it was. */
  lemma RunPromptChoice(env: Config.Store, secrets: Config.Store, s: State, ev: Events, complete: Request -> Completion)
    requires Config.Startup(env, secrets).Ok?
    requires !ev.resetClicked
    ensures var r := Run(env, secrets, s, ev, complete);
      var preset := Prompts.PressedPreset(ev.siting, ev.capacity, ev.acceptance);
      && (Truthy(ev.chatInput) ==> r.outcome.turn.Sent().Some? && Last(r.outcome.turn.request.messages) == Message(User, ev.chatInput.value))
      && (!Truthy(ev.chatInput) && preset.Some? ==> r.outcome.turn.Sent().Some? && Last(r.outcome.turn.request.messages) == Message(User, preset.value))
      && (!Truthy(ev.chatInput) && preset.None? ==> r.outcome == Finished(NoTurn) && r.state.messages == Initialized(s).messages)
  {
  }

  /** The last element of a non-empty sequence. */
  function Last(m: seq<Message>): Message
    requires |m| > 0
  {
    m[|m| - 1]
  }

  /** Editing the draft and not applying it changes nothing a rerun sends or stores in the history. */
  lemma DraftEditWithoutApplyChangesNoRequest(env: Config.Store, secrets: Config.Store, s: State, text: string,
                                              ev: Events, complete: Request -> Completion)
    requires !ev.applyClicked
    ensures Run(env, secrets, DraftEdited(s, text), ev, complete).outcome == Run(env, secrets, s, ev, complete).outcome
    ensures Run(env, secrets, DraftEdited(s, text), ev, complete).state.messages == Run(env, secrets, s, ev, complete).state.messages
  {
  }

  /** Reset keeps the configuration: prompt and draft as initialisation (and an apply in the same
      rerun) left them, temperature from the slider. */
  lemma ResetKeepsConfiguration(env: Config.Store, secrets: Config.Store, s: State, ev: Events, complete: Request -> Completion)
    requires Config.Startup(env, secrets).Ok?
    requires ev.resetClicked && !ev.applyClicked
    requires s.Ready()
    ensures Run(env, secrets, s, ev, complete) == Ran(State(Some([]), s.systemPrompt, Some(ev.slider), s.draft), Restarted)
  {
  }

  /** A rerun keeps a session's conversation well formed, and every request it sends carries
      exactly one system message, in front. */
  lemma {:induction false} RunPreservesWellFormed(env: Config.Store, secrets: Config.Store, s: State, ev: Events,
                                                  complete: Request -> Completion)
    requires s.WellFormed()
    ensures Run(env, secrets, s, ev, complete).state.WellFormed()
    ensures var r := Run(env, secrets, s, ev, complete);
      r.outcome.Finished? && r.outcome.turn.Sent().Some? ==>
        forall i :: 0 <= i < |r.outcome.turn.request.messages| ==> (r.outcome.turn.request.messages[i].role == System <==> i == 0)
  {
    if Config.Startup(env, secrets).Ok? {
      var s1 := Initialized(s);
      assert s1.WellFormed();
      var s3 := TemperatureSet(if ev.applyClicked then DraftApplied(s1) else s1, ev.slider);
      assert s3.messages == s1.messages;
      if !ev.resetClicked {
        var prompt := Prompts.SelectPrompt(ev.chatInput, Prompts.PressedPreset(ev.siting, ev.capacity, ev.acceptance));
        TakeTurnPreservesShape(s3.messages.value, prompt, Config.Startup(env, secrets).value.deployment,
                               Prompts.EffectivePrompt(s3.systemPrompt.value, ev.mode), s3.temperature.value, complete);
      }
    }
  }

  /** A sequence of reruns against one session with the same configuration stores. Each rerun
      has its own completion: the remote endpoint may answer the same request differently, or
      fail once and succeed later. */
  function RunAll(env: Config.Store, secrets: Config.Store, s: State, evs: seq<Events>,
                  cs: seq<Request -> Completion>): State
    requires |cs| == |evs|
    decreases |evs|
  {
    if evs == [] then s
    else RunAll(env, secrets, Run(env, secrets, s, evs[0], cs[0]).state, evs[1..], cs[1..])
  }

  /** With the credential gate closed, no sequence of reruns touches the session. */
  lemma {:induction false} GateClosedLeavesSessionAlone(env: Config.Store, secrets: Config.Store, s: State,
                                                        evs: seq<Events>, cs: seq<Request -> Completion>)
    requires |cs| == |evs|
    requires Config.Startup(env, secrets).Err?
    ensures RunAll(env, secrets, s, evs, cs) == s
    decreases |evs|
  {
    if evs != [] {
      GateClosedLeavesSessionAlone(env, secrets, s, evs[1..], cs[1..]);
    }
  }

  /** Every sequence of reruns keeps the conversation well formed, whatever each rerun's
      completion answers. */
  lemma {:induction false} RunAllPreservesWellFormed(env: Config.Store, secrets: Config.Store, s: State,
                                                     evs: seq<Events>, cs: seq<Request -> Completion>)
    requires |cs| == |evs|
    requires s.WellFormed()
    ensures RunAll(env, secrets, s, evs, cs).WellFormed()
    decreases |evs|
  {
    if evs != [] {
      RunPreservesWellFormed(env, secrets, s, evs[0], cs[0]);
      RunAllPreservesWellFormed(env, secrets, Run(env, secrets, s, evs[0], cs[0]).state, evs[1..], cs[1..]);
    }
  }

  /** Without a reset the conversation is append-only: what was there stays, in order, and each
      rerun adds at most a user message and its reply. */
  lemma {:induction false} RunAllAppendOnly(env: Config.Store, secrets: Config.Store, s: State,
                                            evs: seq<Events>, cs: seq<Request -> Completion>)
    requires |cs| == |evs|
    requires s.messages.Some?
    requires forall k :: 0 <= k < |evs| ==> !evs[k].resetClicked
    ensures RunAll(env, secrets, s, evs, cs).messages.Some?
    ensures s.messages.value <= RunAll(env, secrets, s, evs, cs).messages.value
    ensures |RunAll(env, secrets, s, evs, cs).messages.value| <= |s.messages.value| + 2 * |evs|
    decreases |evs|
  {
    if evs != [] {
      var next := Run(env, secrets, s, evs[0], cs[0]).state;
      if Config.Startup(env, secrets).Ok? {
        RunTurn(env, secrets, s, evs[0], cs[0]);
        var s1 := Initialized(s);
        var s3 := TemperatureSet(if evs[0].applyClicked then DraftApplied(s1) else s1, evs[0].slider);
        var prompt := Prompts.SelectPrompt(evs[0].chatInput, Prompts.PressedPreset(evs[0].siting, evs[0].capacity, evs[0].acceptance));
        TakeTurnAppends(s3.messages.value, prompt, Config.Startup(env, secrets).value.deployment,
                        Prompts.EffectivePrompt(s3.systemPrompt.value, evs[0].mode), s3.temperature.value, cs[0]);
      }
      assert next.messages.Some? && s.messages.value <= next.messages.value && |next.messages.value| <= |s.messages.value| + 2;
      RunAllAppendOnly(env, secrets, next, evs[1..], cs[1..]);
    }
  }
}
