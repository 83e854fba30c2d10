/**
  The conversation state behind `talk`: one chat history, the conversation
  style and the active (character, game) pair, all module globals in the
  source and fields of `Session` here. A call parses nothing and calls no
  model itself: it receives the parsed object and the outcome of the chat
  completion.
*/
module Conversation {
  import opened Wrappers
  import opened PyText
  import opened Parser

  const WindowSize: nat := 10
  const TokenBudget: nat := 12000
  const StylePrefix := "set style "
  const ErrorMessage := "An error occurred."

  /** The four fixed behavioural lines that follow the identity line of the system prompt. */
  const RespondRule := "Respond fully in character and keep the tone natural, using knowledge and voice appropriate to the character.\n"
  const FactRule := "If the user asks for a specific fact or game-related detail (such as item locations, codes, puzzle solutions, or mechanics), always give the exact, correct answer as clearly as possible.\n"
  const LoreRule := "If the user is asking for a lore opinion, emotional reflection, or casual dialogue, stay immersive and in character.\n"
  const ConciseRule := "Keep responses concise (2\U{00E2}\U{20AC}\U{201C}4 sentences), but prioritize clarity and usefulness when giving game-related answers.\n"
  const Guidance := RespondRule + FactRule + LoreRule + ConciseRule

  /** A chat message; assistant turns also record the style in force when they were made. */
  datatype Message =
    | SystemMsg(content: string)
    | UserMsg(content: string)
    | AssistantMsg(content: string, style: Option<string>)

  /** The `{"success": ..., "message": ...}` object written back to the host. */
  datatype Response = Response(success: bool, message: string)

  /** The chat completion: it raised, or it answered with this text. */
  datatype ModelOutcome = ModelError | ModelReply(content: string)

  /**
    How a call ends: a dict returned to the caller, a reply that `talk`
    wrote and queued for speech itself (returning `None`), or a `KeyError`
    for a field missing from the parsed object.
  */
  datatype TalkOutcome =
    | Returned(resp: Response)
    | Answered(reply: string, female: bool)
    | KeyMissing(key: string)

  datatype SessionState = SessionState(
    history: seq<Message>,
    style: Option<string>,
    character: Option<string>,
    game: Option<string>)

  /** The new state, the outcome and the messages sent to the model (empty when none were). */
  datatype Step = Step(state: SessionState, outcome: TalkOutcome, sent: seq<Message>)

  const Initial := SessionState([], None, None, None)

  /** The history only ever holds user and assistant turns. */
  predicate Conversational(h: seq<Message>) {
    forall i :: 0 <= i < |h| ==> !h[i].SystemMsg?
  }

  /** An empty style counts as no style, as Python's truthiness has it. */
  function StylePrompt(style: Option<string>): string {
    if style.Some? && style.value != "" then " Speak in a " + style.value + " style." else ""
  }

  function SystemPrompt(character: string, game: string, style: Option<string>): string {
    "\nYou are " + character + " from " + game + "." + StylePrompt(style) + "\n" + Guidance
  }

  /** `history[-10:]`. */
  function Window(h: seq<Message>): seq<Message> {
    if |h| <= WindowSize then h else h[|h| - WindowSize..]
  }

  /** `[{"role": "system", ...}] + history[-10:]`. */
  function Messages(prompt: string, h: seq<Message>): seq<Message> {
    [SystemMsg(prompt)] + Window(h)
  }

  /** `sum(len(m['content']) for m in msgs)`. */
  function TotalLength(msgs: seq<Message>): nat {
    if msgs == [] then 0 else TotalLength(msgs[..|msgs| - 1]) + |msgs[|msgs| - 1].content|
  }

  /** The token estimate: total length integer-divided by 4. */
  function Estimate(msgs: seq<Message>): nat {
    TotalLength(msgs) / 4
  }

  /** The history after the one eviction check: halved once when the window is over budget. */
  function Kept(prompt: string, h: seq<Message>): seq<Message> {
    if Estimate(Messages(prompt, h)) > TokenBudget then h[|h| / 2..] else h
  }

  /** Lines 231-269 of `talk`, once the persona is settled in `s` and its system prompt built. */
  function Converse(s: SessionState, prompt: string, msg: string, female: bool, model: ModelOutcome): Step
  {
    var h := Kept(prompt, s.history + [UserMsg(msg)]);
    var sent := Messages(prompt, h);
    match model
    case ModelError => Step(s.(history := h), Returned(Response(false, ErrorMessage)), sent)
    case ModelReply(content) =>
      var reply := Strip(content);
      Step(s.(history := h + [AssistantMsg(reply, s.style)]), Answered(reply, female), sent)
  }

  /**
    The persona check of `talk`: a different character or game empties the
    history and makes the parsed pair the active one; the same pair changes
    nothing.
  */
  function Switched(s: SessionState, character: string, game: string): SessionState {
    if Some(character) != s.character || Some(game) != s.game then
      s.(history := [], character := Some(character), game := Some(game))
    else s
  }

  /** One call of `talk` on the parsed object, as a function of the state before it. */
  function TalkStep(s: SessionState, parsed: Dict, model: ModelOutcome): Step {
    if "message" !in parsed then Step(s, KeyMissing("message"), [])
    else
      var msg := parsed["message"];
      if StartsWith(Lower(msg), StylePrefix) then
        var style := Strip(msg[|StylePrefix|..]);
        Step(s.(style := Some(style)), Returned(Response(true, "Style set to '" + style + "'")), [])
      else if "character" !in parsed then Step(s, KeyMissing("character"), [])
      else if "game" !in parsed then
        // `parsed["game"]` is read in the comparison of line 225 or, when the
        // character differs, in the log line 226, before any global is assigned
        Step(s, KeyMissing("game"), [])
      else
        var character := parsed["character"];
        var game := parsed["game"];
        Converse(Switched(s, character, game), SystemPrompt(character, game, s.style), msg, SpeaksFemale(parsed), model)
  }

  /** The fields of a well-formed parsed object that is not a style command. */
  predicate IsTurn(parsed: Dict) {
    "message" in parsed && "character" in parsed && "game" in parsed
    && !StartsWith(Lower(parsed["message"]), StylePrefix)
  }

  /**
    Eviction keeps the most recent turns in order: the history is unchanged
    under the budget, and over it exactly the turns from index `len // 2`
    on are kept, never fewer than half and always the newest one.
  */
  lemma EvictionKeepsRecentTurns(prompt: string, h: seq<Message>)
    ensures var k := Kept(prompt, h);
      |k| <= |h| && k == h[|h| - |k|..]
      && (Estimate(Messages(prompt, h)) <= TokenBudget ==> k == h)
      && (Estimate(Messages(prompt, h)) > TokenBudget ==> |k| == |h| - |h| / 2)
      && (h != [] ==> k != [] && k[|k| - 1] == h[|h| - 1])
  {
  }

  /** `history[-10:]` is the newest `min(len, 10)` turns, in order. */
  lemma WindowIsRecentSuffix(h: seq<Message>)
    ensures |Window(h)| == if |h| < WindowSize then |h| else WindowSize
    ensures forall i :: 0 <= i < |Window(h)| ==> Window(h)[i] == h[|h| - |Window(h)| + i]
  {
  }

  /**
    The shape of one conversational turn on a settled persona, given the
    history `kept` that survived the eviction check: the persona and style
    are unchanged, the kept history ends with the user's turn, the model is
    sent the system prompt and the window of `kept`, and the reply (if any)
    is appended as one assistant turn.
  */
  predicate TurnShape(r: Step, s: SessionState, kept: seq<Message>, prompt: string, msg: string,
                      female: bool, model: ModelOutcome)
  {
    r.state.character == s.character && r.state.game == s.game && r.state.style == s.style
    && kept != [] && kept[|kept| - 1] == UserMsg(msg)
    && r.sent == Messages(prompt, kept)
    && match model
       case ModelReply(content) =>
         r.state.history == kept + [AssistantMsg(Strip(content), s.style)]
         && r.outcome == Answered(Strip(content), female)
       case ModelError =>
         r.state.history == kept && r.outcome == Returned(Response(false, ErrorMessage))
  }

  /**
    One conversational turn: the user's turn is appended, the history goes
    through the one eviction check, and the turn has the shape above.
  */
  lemma ConverseAppendsTurns(s: SessionState, prompt: string, msg: string, female: bool, model: ModelOutcome)
    ensures TurnShape(Converse(s, prompt, msg, female, model), s,
                      Kept(prompt, s.history + [UserMsg(msg)]), prompt, msg, female, model)
  {
    EvictionKeepsRecentTurns(prompt, s.history + [UserMsg(msg)]);
  }

  /** A well-formed turn is the conversation step on the switched state. */
  lemma TalkStepIsConverse(s: SessionState, parsed: Dict, model: ModelOutcome)
    requires IsTurn(parsed)
    ensures TalkStep(s, parsed, model)
      == Converse(Switched(s, parsed["character"], parsed["game"]),
                  SystemPrompt(parsed["character"], parsed["game"], s.style),
                  parsed["message"], SpeaksFemale(parsed), model)
  {
  }

  /**
    What the model is sent on a turn whose history after the eviction check
    is `kept`: the system prompt first, then the newest `min(len, 10)` turns
    of `kept` in order, ending with the user's turn; never more than eleven.
  */
  predicate SentWindow(sent: seq<Message>, prompt: string, kept: seq<Message>, msg: string) {
    |sent| == 1 + (if |kept| < WindowSize then |kept| else WindowSize)
    && sent[0] == SystemMsg(prompt)
    && (forall i :: 1 <= i < |sent| ==> sent[i] == kept[|kept| - |sent| + i])
    && sent[|sent| - 1] == UserMsg(msg)
  }

  /** The messages built from a history ending with the user's turn. */
  lemma MessagesAreWindow(prompt: string, kept: seq<Message>, msg: string)
    requires kept != [] && kept[|kept| - 1] == UserMsg(msg)
    ensures SentWindow(Messages(prompt, kept), prompt, kept, msg)
  {
    var sent := Messages(prompt, kept);
    var w := if |kept| <= WindowSize then kept else kept[|kept| - WindowSize..];
    assert sent == [SystemMsg(prompt)] + w;
    forall i | 1 <= i < |sent| ensures sent[i] == kept[|kept| - |sent| + i] {
      assert sent[i] == w[i - 1];
    }
  }

  /**
    The messages of a turn: the system prompt naming the parsed persona,
    then the last ten turns (or all, if fewer) of the history after the
    eviction check, in order, ending with the user's turn.
  */
  lemma SentIsPromptThenRecentTurns(s: SessionState, parsed: Dict, model: ModelOutcome)
    requires IsTurn(parsed)
    ensures var c, g, m := parsed["character"], parsed["game"], parsed["message"];
      var prompt := SystemPrompt(c, g, s.style);
      SentWindow(TalkStep(s, parsed, model).sent, prompt,
                 Kept(prompt, Switched(s, c, g).history + [UserMsg(m)]), m)
  {
    var c, g, m, f := parsed["character"], parsed["game"], parsed["message"], SpeaksFemale(parsed);
    var s' := Switched(s, c, g);
    var prompt := SystemPrompt(c, g, s.style);
    var kept := Kept(prompt, s'.history + [UserMsg(m)]);
    TalkStepIsConverse(s, parsed, model);
    ConverseAppendsTurns(s', prompt, m, f, model);
    MessagesAreWindow(prompt, kept, m);
  }

  /** On an empty history a turn leaves only itself and the reply, if any. */
  lemma FreshConverse(s: SessionState, prompt: string, msg: string, female: bool, model: ModelOutcome)
    requires s.history == []
    ensures var r := Converse(s, prompt, msg, female, model);
      r.state.character == s.character && r.state.game == s.game && r.state.style == s.style
      && r.state.history == [UserMsg(msg)]
           + (if model.ModelReply? then [AssistantMsg(Strip(model.content), s.style)] else [])
  {
    var h := s.history + [UserMsg(msg)];
    assert h == [UserMsg(msg)];
    assert Kept(prompt, h) == h by {
      if Estimate(Messages(prompt, h)) > TokenBudget {
        assert |h| / 2 == 0 && h[0..] == h;
      }
    }
    ConverseAppendsTurns(s, prompt, msg, female, model);
  }

  /**
    A different character or game discards the history: afterwards the
    active pair is exactly the parsed one and the history holds only this
    turn, followed by the reply when the model answered.
  */
  lemma SwitchDiscardsHistory(s: SessionState, parsed: Dict, model: ModelOutcome)
    requires IsTurn(parsed)
    requires Some(parsed["character"]) != s.character || Some(parsed["game"]) != s.game
    ensures var r := TalkStep(s, parsed, model);
      r.state.character == Some(parsed["character"]) && r.state.game == Some(parsed["game"])
      && r.state.style == s.style
      && r.state.history == [UserMsg(parsed["message"])]
           + (if model.ModelReply? then [AssistantMsg(Strip(model.content), s.style)] else [])
  {
    var c, g, m, f := parsed["character"], parsed["game"], parsed["message"], SpeaksFemale(parsed);
    var s' := Switched(s, c, g);
    assert s' == s.(history := [], character := Some(c), game := Some(g));
    TalkStepIsConverse(s, parsed, model);
    FreshConverse(s', SystemPrompt(c, g, s.style), m, f, model);
  }

  /**
    The same character and game keep the history: the user's turn is
    appended to it, then the one eviction check runs, then the reply (if any)
    is appended.
  */
  lemma SamePersonaAppendsTurn(s: SessionState, parsed: Dict, model: ModelOutcome)
    requires IsTurn(parsed)
    requires Some(parsed["character"]) == s.character && Some(parsed["game"]) == s.game
    ensures var r := TalkStep(s, parsed, model);
      var prompt := SystemPrompt(parsed["character"], parsed["game"], s.style);
      var h := s.history + [UserMsg(parsed["message"])];
      r.state.character == s.character && r.state.game == s.game && r.state.style == s.style
      && r.state.history == Kept(prompt, h)
           + (if model.ModelReply? then [AssistantMsg(Strip(model.content), s.style)] else [])
      && (Estimate(Messages(prompt, h)) <= TokenBudget ==> r.state.history[..|h|] == h)
  {
    var c, g, m := parsed["character"], parsed["game"], parsed["message"];
    var prompt := SystemPrompt(c, g, s.style);
    assert Switched(s, c, g) == s;
    TalkStepIsConverse(s, parsed, model);
    ConverseAppendsTurns(s, prompt, m, SpeaksFemale(parsed), model);
    EvictionKeepsRecentTurns(prompt, s.history + [UserMsg(m)]);
  }

  /** The end of the history after a turn of that shape, and what the turn reports. */
  predicate EndsTurn(r: Step, style: Option<string>, msg: string, female: bool, model: ModelOutcome) {
    var n := |r.state.history|;
    match model
    case ModelReply(content) =>
      n >= 2 && r.state.history[n - 1] == AssistantMsg(Strip(content), style)
      && r.state.history[n - 2] == UserMsg(msg)
      && r.outcome == Answered(Strip(content), female)
    case ModelError =>
      n >= 1 && r.state.history[n - 1] == UserMsg(msg)
      && r.outcome == Returned(Response(false, ErrorMessage))
  }

  lemma ShapeEndsTurn(r: Step, s: SessionState, kept: seq<Message>, prompt: string,
                      msg: string, female: bool, model: ModelOutcome)
    requires TurnShape(r, s, kept, prompt, msg, female, model)
    ensures EndsTurn(r, s.style, msg, female, model)
  {
    match model {
      case ModelError =>
      case ModelReply(content) =>
        var h := r.state.history;
        assert h[|h| - 2] == kept[|kept| - 1];
    }
  }

  /**
    The model's answer adds exactly one assistant turn after the user's
    turn and is reported as the reply; a failed call leaves the user's turn
    last, adds nothing, and returns the error object.
  */
  lemma ReplyOrError(s: SessionState, parsed: Dict, model: ModelOutcome)
    requires IsTurn(parsed)
    ensures EndsTurn(TalkStep(s, parsed, model), s.style, parsed["message"], SpeaksFemale(parsed), model)
  {
    var c, g, m, f := parsed["character"], parsed["game"], parsed["message"], SpeaksFemale(parsed);
    var s' := Switched(s, c, g);
    var prompt := SystemPrompt(c, g, s.style);
    TalkStepIsConverse(s, parsed, model);
    ConverseAppendsTurns(s', prompt, m, f, model);
    ShapeEndsTurn(Converse(s', prompt, m, f, model), s', Kept(prompt, s'.history + [UserMsg(m)]), prompt, m, f, model);
  }

  /**
    A message starting with "set style " in any letter case sets the style
    to the stripped rest of the message and answers at once; history and
    persona are untouched and no model is called.
  */
  lemma StyleCommandSetsOnlyStyle(s: SessionState, parsed: Dict, model: ModelOutcome)
    requires "message" in parsed
    requires |parsed["message"]| >= |StylePrefix|
    requires forall i :: 0 <= i < |StylePrefix| ==> LowerChar(parsed["message"][i]) == StylePrefix[i]
    ensures var r := TalkStep(s, parsed, model);
      var style := Strip(parsed["message"][|StylePrefix|..]);
      r.state == s.(style := Some(style)) && r.sent == []
      && r.outcome == Returned(Response(true, "Style set to '" + style + "'"))
  {
    LowerFolds(parsed["message"]);
    assert StartsWith(Lower(parsed["message"]), StylePrefix);
  }

  /**
    When the parse failed, the "Unknown"/"Unknown" fallback is a persona of
    its own: following any other persona, it discards that history.
  */
  lemma FallbackAfterPersonaDiscardsHistory(s: SessionState, input: string, model: ModelOutcome)
    requires s.character != Some("Unknown") || s.game != Some("Unknown")
    requires !StartsWith(Lower(input), StylePrefix)
    ensures var r := TalkStep(s, Fallback(input), model);
      r.state.character == Some("Unknown") && r.state.game == Some("Unknown")
      && r.state.history[0] == UserMsg(input) && |r.state.history| <= 2
  {
    SwitchDiscardsHistory(s, Fallback(input), model);
  }

  /**
    A parsed object with a character but no game raises `KeyError("game")`
    before the persona check assigns anything, whether or not the character
    is new: every global is left as it was and no model is called.
  */
  lemma MissingGameChangesNothing(s: SessionState, parsed: Dict, model: ModelOutcome)
    requires "message" in parsed && "character" in parsed && "game" !in parsed
    requires !StartsWith(Lower(parsed["message"]), StylePrefix)
    ensures var r := TalkStep(s, parsed, model);
      r.outcome == KeyMissing("game") && r.state == s && r.sent == []
  {
  }

  /** A turn of that shape adds only user and assistant messages. */
  lemma ShapeKeepsHistoryConversational(r: Step, s: SessionState, kept: seq<Message>, prompt: string,
                                        msg: string, female: bool, model: ModelOutcome)
    requires TurnShape(r, s, kept, prompt, msg, female, model)
    requires Conversational(kept)
    ensures Conversational(r.state.history)
  {
    match model {
      case ModelError =>
      case ModelReply(content) =>
        AppendConversational(kept, AssistantMsg(Strip(content), s.style));
    }
  }

  lemma AppendConversational(h: seq<Message>, m: Message)
    requires Conversational(h) && !m.SystemMsg?
    ensures Conversational(h + [m])
  {
    forall i | 0 <= i < |h| + 1 ensures !(h + [m])[i].SystemMsg? {
      if i < |h| { assert (h + [m])[i] == h[i]; }
    }
  }

  lemma SuffixConversational(h: seq<Message>, n: nat)
    requires Conversational(h) && n <= |h|
    ensures Conversational(h[n..])
  {
    forall i | 0 <= i < |h| - n ensures !h[n..][i].SystemMsg? {
      assert h[n..][i] == h[n + i];
    }
  }

  /** A conversational turn adds only user and assistant messages. */
  lemma ConverseKeepsHistoryConversational(s: SessionState, prompt: string, msg: string,
                                           female: bool, model: ModelOutcome)
    requires Conversational(s.history)
    ensures Conversational(Converse(s, prompt, msg, female, model).state.history)
  {
    var h := s.history + [UserMsg(msg)];
    ConverseAppendsTurns(s, prompt, msg, female, model);
    EvictionKeepsRecentTurns(prompt, h);
    var k := Kept(prompt, h);
    AppendConversational(s.history, UserMsg(msg));
    SuffixConversational(h, |h| - |k|);
    ShapeKeepsHistoryConversational(Converse(s, prompt, msg, female, model), s, k, prompt, msg, female, model);
  }

  /** No call puts a system message into the history. */
  lemma TalkKeepsHistoryConversational(s: SessionState, parsed: Dict, model: ModelOutcome)
    requires Conversational(s.history)
    ensures Conversational(TalkStep(s, parsed, model).state.history)
  {
    var r := TalkStep(s, parsed, model);
    if IsTurn(parsed) {
      var c, g, m, f := parsed["character"], parsed["game"], parsed["message"], SpeaksFemale(parsed);
      var s' := Switched(s, c, g);
      TalkStepIsConverse(s, parsed, model);
      assert Conversational(s'.history);
      ConverseKeepsHistoryConversational(s', SystemPrompt(c, g, s.style), m, f, model);
    } else {
      assert r.state.history == s.history || r.state.history == [];
    }
  }

  /** The module globals of the plugin, updated in place by `talk`. */
  class Session {
    var history: seq<Message>
    var style: Option<string>
    var activeCharacter: Option<string>
    var activeGame: Option<string>

    function State(): SessionState
      reads this
    {
      SessionState(history, style, activeCharacter, activeGame)
    }

    /** The state at import time: no history, no style, no persona. */
    constructor ()
      ensures State() == Initial
    {
      history := [];
      style := None;
      activeCharacter := None;
      activeGame := None;
    }

    /** `talk` after parsing, with the chat completion's outcome given. */
    method Talk(parsed: Dict, model: ModelOutcome) returns (outcome: TalkOutcome, sent: seq<Message>)
      modifies this
      ensures Step(State(), outcome, sent) == TalkStep(old(State()), parsed, model)
    {
      sent := [];
      if "message" !in parsed {
        outcome := KeyMissing("message");
        return;
      }
      var msg := parsed["message"];
      if StartsWith(Lower(msg), StylePrefix) {
        var newStyle := Strip(msg[|StylePrefix|..]);
        style := Some(newStyle);
        outcome := Returned(Response(true, "Style set to '" + newStyle + "'"));
        return;
      }
      if "character" !in parsed {
        outcome := KeyMissing("character");
        return;
      }
      var character := parsed["character"];
      if "game" !in parsed {
        // raised at line 225 or 226, before the reset of lines 227-229
        outcome := KeyMissing("game");
        return;
      }
      var game := parsed["game"];
      if Some(character) != activeCharacter || Some(game) != activeGame {
        history := [];
        activeCharacter := Some(character);
        activeGame := Some(game);
      }
      assert State() == Switched(old(State()), character, game);
      outcome, sent := Respond(SystemPrompt(character, game, style), msg, SpeaksFemale(parsed), model);
    }

    /** Lines 231-269 of `talk`: append, window, evict once, and record the model's outcome. */
    method Respond(prompt: string, msg: string, female: bool, model: ModelOutcome)
      returns (outcome: TalkOutcome, sent: seq<Message>)
      modifies this
      ensures Step(State(), outcome, sent) == Converse(old(State()), prompt, msg, female, model)
    {
      history := history + [UserMsg(msg)];
      sent := Messages(prompt, history);
      if Estimate(sent) > TokenBudget {
        history := history[|history| / 2..];
        sent := Messages(prompt, history);
      }
      match model {
        case ModelError =>
          outcome := Returned(Response(false, ErrorMessage));
        case ModelReply(content) =>
          var reply := Strip(content);
          history := history + [AssistantMsg(reply, style)];
          outcome := Answered(reply, female);
      }
    }
  }
}
