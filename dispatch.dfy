/**
  `main`: the command loop. Every inbound command carries a list of tool
  calls routed on their `func` field: "talk" runs a conversation turn,
  "initialize" answers with a fixed greeting, "shutdown" ends the process,
  and any other name is skipped. A `KeyError` that escapes (a call without
  `func`, a talk call without `params`, a parsed object without a needed
  field) ends the process too.

  The external services a talk call uses are parameters: `services(n)` gives
  the parser's reply and the chat completion's outcome for the n-th talk
  call, and `decode` stands for `json.loads`. An inbound command is `None`
  when `read_command` returned nothing; the loop then reads again.
*/
module Dispatch {
  import opened Wrappers
  import opened Parser
  import opened Conversation

  datatype ToolCall = ToolCall(func: Option<string>, params: Option<Dict>)

  /** A decoded command: `cmd.get("tool_calls", [])`. */
  datatype Command = Command(toolCalls: seq<ToolCall>)

  datatype TalkServices = TalkServices(parserReply: Option<string>, model: ModelOutcome)

  /** An entry of the speech queue: the text and whether a female voice is wanted. */
  datatype SpeechRequest = SpeechRequest(text: string, female: bool)

  /** `sys.exit(0)` on shutdown, or an uncaught `KeyError` naming the missing key. */
  datatype Exit = Shutdown | Crashed(key: string)

  /**
    The observable course of a run: the session state, the responses written
    to the pipe in order, the speech requests queued in order, the number of
    talk calls made so far, and how the process ended (`None` while it runs).
  */
  datatype Run = Run(
    state: SessionState,
    written: seq<Response>,
    spoken: seq<SpeechRequest>,
    talks: nat,
    exit: Option<Exit>)

  const InitializeMessage := "LoreMaster plugin initialized successfully"

  function Start(state: SessionState): Run {
    Run(state, [], [], 0, None)
  }

  /** `params.get("input", "")`. */
  function TalkInput(params: Dict): string {
    Get(params, "input", "")
  }

  /** A talk call: parse, run the turn, and write or queue what `talk` produced. */
  function TalkCall(r: Run, params: Dict, services: nat -> TalkServices,
                    decode: string -> Option<Dict>): Run
  {
    var svc := services(r.talks);
    var parsed := ParseMessage(TalkInput(params), svc.parserReply, decode);
    var step := TalkStep(r.state, parsed, svc.model);
    var next := r.(state := step.state, talks := r.talks + 1);
    match step.outcome
    case KeyMissing(key) => next.(exit := Some(Crashed(key)))
    case Returned(resp) => next.(written := r.written + [resp])
    case Answered(reply, female) =>
      next.(written := r.written + [Response(true, reply)],
            spoken := r.spoken + [SpeechRequest(reply, female)])
  }

  /** One iteration of `for call in tool_calls`; nothing happens once the process has ended. */
  function CallStep(r: Run, call: ToolCall, services: nat -> TalkServices,
                    decode: string -> Option<Dict>): Run
  {
    if r.exit.Some? then r
    else match call.func
      case None => r.(exit := Some(Crashed("func")))
      case Some(f) =>
        if f == "talk" then
          match call.params
          case None => r.(exit := Some(Crashed("params")))
          case Some(params) => TalkCall(r, params, services, decode)
        else if f == "initialize" then r.(written := r.written + [Response(true, InitializeMessage)])
        else if f == "shutdown" then r.(exit := Some(Shutdown))
        else r
  }

  function RunCalls(r: Run, calls: seq<ToolCall>, services: nat -> TalkServices,
                    decode: string -> Option<Dict>): Run
    decreases |calls|
  {
    if calls == [] then r else RunCalls(CallStep(r, calls[0], services, decode), calls[1..], services, decode)
  }

  /** A missing command, or one without tool calls, is skipped. */
  function RunInbound(r: Run, inbound: seq<Option<Command>>, services: nat -> TalkServices,
                      decode: string -> Option<Dict>): Run
    decreases |inbound|
  {
    if inbound == [] then r
    else
      var next := match inbound[0]
        case None => r
        case Some(cmd) => RunCalls(r, cmd.toolCalls, services, decode);
      RunInbound(next, inbound[1..], services, decode)
  }

  /** After shutdown or a crash, later calls change nothing. */
  lemma {:induction false} ExitIsFinal(r: Run, calls: seq<ToolCall>, services: nat -> TalkServices,
                                       decode: string -> Option<Dict>)
    requires r.exit.Some?
    ensures RunCalls(r, calls, services, decode) == r
    decreases |calls|
  {
    if calls != [] {
      ExitIsFinal(CallStep(r, calls[0], services, decode), calls[1..], services, decode);
    }
  }

  /** After shutdown or a crash, later commands change nothing. */
  lemma {:induction false} ExitIsFinalInbound(r: Run, inbound: seq<Option<Command>>,
                                              services: nat -> TalkServices, decode: string -> Option<Dict>)
    requires r.exit.Some?
    ensures RunInbound(r, inbound, services, decode) == r
    decreases |inbound|
  {
    if inbound != [] {
      if inbound[0].Some? {
        ExitIsFinal(r, inbound[0].value.toolCalls, services, decode);
      }
      ExitIsFinalInbound(r, inbound[1..], services, decode);
    }
  }

  predicate Responds(call: ToolCall) {
    call.func == Some("talk") || call.func == Some("initialize")
  }

  function CountResponding(calls: seq<ToolCall>): nat {
    if calls == [] then 0 else (if Responds(calls[0]) then 1 else 0) + CountResponding(calls[1..])
  }

  /**
    Every talk and initialize call writes exactly one response (a talk call
    either writes its reply itself or has its returned object written), and a
    list of calls that ran to its end held no shutdown.
  */
  lemma {:induction false} OneResponsePerCall(r: Run, calls: seq<ToolCall>, services: nat -> TalkServices,
                                              decode: string -> Option<Dict>)
    requires r.exit.None?
    ensures var end := RunCalls(r, calls, services, decode);
      end.exit.None? ==>
        |end.written| == |r.written| + CountResponding(calls)
        && forall i :: 0 <= i < |calls| ==> calls[i].func != Some("shutdown")
    decreases |calls|
  {
    if calls != [] {
      var next := CallStep(r, calls[0], services, decode);
      if next.exit.Some? {
        ExitIsFinal(next, calls[1..], services, decode);
      } else {
        OneResponsePerCall(next, calls[1..], services, decode);
        var end := RunCalls(r, calls, services, decode);
        if end.exit.None? {
          forall i | 0 <= i < |calls| ensures calls[i].func != Some("shutdown") {
            if i > 0 { assert calls[i] == calls[1..][i - 1]; }
          }
        }
      }
    }
  }

  /**
    A shutdown call ends the loop where it stands: the run equals the run of
    the calls before it, marked as shut down, and nothing after it is done.
  */
  lemma {:induction false} ShutdownStopsDispatch(r: Run, calls: seq<ToolCall>, k: nat,
                                                 services: nat -> TalkServices, decode: string -> Option<Dict>)
    requires k < |calls| && calls[k].func == Some("shutdown")
    requires RunCalls(r, calls[..k], services, decode).exit.None?
    ensures RunCalls(r, calls, services, decode)
      == RunCalls(r, calls[..k], services, decode).(exit := Some(Shutdown))
    decreases k
  {
    if k == 0 {
      assert calls[..0] == [];
      ExitIsFinal(CallStep(r, calls[0], services, decode), calls[1..], services, decode);
    } else {
      var next := CallStep(r, calls[0], services, decode);
      assert calls[..k][1..] == calls[1..][..k - 1];
      if next.exit.Some? {
        ExitIsFinal(next, calls[..k][1..], services, decode);
        assert false;
      }
      ShutdownStopsDispatch(next, calls[1..], k - 1, services, decode);
    }
  }

  /** Every queued utterance was also written to the host as a successful reply. */
  predicate SpeechWasWritten(r: Run) {
    forall i :: 0 <= i < |r.spoken| ==> Response(true, r.spoken[i].text) in r.written
  }

  lemma {:induction false} SpeechFollowsWrittenReply(r: Run, calls: seq<ToolCall>, services: nat -> TalkServices,
                                                     decode: string -> Option<Dict>)
    requires SpeechWasWritten(r)
    ensures SpeechWasWritten(RunCalls(r, calls, services, decode))
    decreases |calls|
  {
    if calls != [] {
      var next := CallStep(r, calls[0], services, decode);
      assert SpeechWasWritten(next) by {
        assert forall x :: x in r.written ==> x in next.written;
        if next.spoken != r.spoken {
          assert next.spoken == r.spoken + [next.spoken[|r.spoken|]];
          assert Response(true, next.spoken[|r.spoken|].text) == next.written[|next.written| - 1];
        }
      }
      SpeechFollowsWrittenReply(next, calls[1..], services, decode);
    }
  }

  /** The inner `for call in tool_calls` loop of `main`. */
  method DispatchCalls(session: Session, start: Run, calls: seq<ToolCall>, services: nat -> TalkServices,
                       decode: string -> Option<Dict>) returns (run: Run)
    requires session.State() == start.state
    modifies session
    ensures run == RunCalls(start, calls, services, decode)
    ensures session.State() == run.state
  {
    run := start;
    if run.exit.Some? {
      ExitIsFinal(run, calls, services, decode);
      return;
    }
    var i := 0;
    while i < |calls|
      invariant 0 <= i <= |calls|
      invariant run.exit.None?
      invariant session.State() == run.state
      invariant RunCalls(start, calls, services, decode) == RunCalls(run, calls[i..], services, decode)
    {
      var call := calls[i];
      ghost var before := run;
      match call.func {
        case None =>
          run := run.(exit := Some(Crashed("func")));
        case Some(f) =>
          if f == "talk" {
            match call.params {
              case None =>
                run := run.(exit := Some(Crashed("params")));
              case Some(params) =>
                var svc := services(run.talks);
                var parsed := ParseMessage(TalkInput(params), svc.parserReply, decode);
                var outcome, sent := session.Talk(parsed, svc.model);
                run := run.(state := session.State(), talks := run.talks + 1);
                match outcome {
                  case KeyMissing(key) =>
                    run := run.(exit := Some(Crashed(key)));
                  case Returned(resp) =>
                    run := run.(written := run.written + [resp]);
                  case Answered(reply, female) =>
                    run := run.(written := run.written + [Response(true, reply)],
                                spoken := run.spoken + [SpeechRequest(reply, female)]);
                }
            }
          } else if f == "initialize" {
            run := run.(written := run.written + [Response(true, InitializeMessage)]);
          } else if f == "shutdown" {
            run := run.(exit := Some(Shutdown));
          }
      }
      assert run == CallStep(before, call, services, decode);
      assert calls[i..][1..] == calls[i + 1..];
      i := i + 1;
      if run.exit.Some? {
        ExitIsFinal(run, calls[i..], services, decode);
        return;
      }
    }
  }

  /**
    `main` over a finite stream of inbound commands: it stops at shutdown or
    at an escaping `KeyError`, and otherwise when the stream is used up.
  */
  method Serve(session: Session, inbound: seq<Option<Command>>, services: nat -> TalkServices,
               decode: string -> Option<Dict>) returns (run: Run)
    modifies session
    ensures run == RunInbound(Start(old(session.State())), inbound, services, decode)
    ensures session.State() == run.state
  {
    run := Start(session.State());
    var i := 0;
    while i < |inbound|
      invariant 0 <= i <= |inbound|
      invariant run.exit.None?
      invariant session.State() == run.state
      invariant RunInbound(Start(old(session.State())), inbound, services, decode)
        == RunInbound(run, inbound[i..], services, decode)
    {
      assert inbound[i..][1..] == inbound[i + 1..];
      match inbound[i] {
        case None =>
        case Some(cmd) =>
          run := DispatchCalls(session, run, cmd.toolCalls, services, decode);
      }
      i := i + 1;
      if run.exit.Some? {
        ExitIsFinalInbound(run, inbound[i..], services, decode);
        return;
      }
    }
  }
}
