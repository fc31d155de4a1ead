/**
 * The tool-calling conversation loop of `MCPClient.process_query`
 * (mcp-client/client.py). The completion endpoint and the tool server are
 * oracles: `gateway` maps a request body to the assistant reply (or `None`
 * when the HTTP call or the response shape fails), `invoke` maps a tool name
 * and parsed arguments to the text of the result (or `None` when `call_tool`
 * raises, e.g. for an unknown tool), and `render` is the text Python prints
 * for the parsed arguments. `Process` is the reference definition of one
 * query; `ProcessQuery` is the loop itself, proved equal to it; the lemmas
 * state what every run looks like.
 */
module Conversation {
  import opened Wrappers
  import opened Json
  import opened Text
  import opened Client

  type Gateway = Dict<BodyValue> -> Option<Reply>
  type Invoker = (string, Json) -> Option<string>
  type Renderer = Json -> string

  /** `"tool_calls" in m and m["tool_calls"]`. */
  predicate HasToolCalls(r: Reply)
  {
    r.toolCalls.Some? && r.toolCalls.value != []
  }

  function Calls(r: Reply): seq<ToolCall>
  {
    if r.toolCalls.Some? then r.toolCalls.value else []
  }

  /** What `final_text` receives from a reply: its content, when present and non-empty. */
  function ContentLines(r: Reply): seq<string>
  {
    if r.content.Some? && r.content.value != "" then [r.content.value] else []
  }

  /** The observability line added before each tool invocation. */
  function Marker(c: ToolCall, render: Renderer): string
  {
    "\n[Calling tool " + c.name + " with args " + render(c.args) + "]"
  }

  function Markers(calls: seq<ToolCall>, render: Renderer): (r: seq<string>)
    ensures |r| == |calls|
  {
    seq(|calls|, i requires 0 <= i < |calls| => Marker(calls[i], render))
  }

  /** One call of the completion endpoint with the whole transcript. */
  function Ask(gateway: Gateway, transcript: seq<Message>, tools: seq<Json>): Option<Reply>
  {
    gateway(RequestBody(transcript, tools))
  }

  /** Index of the first call whose invocation fails, or the number of calls if none does. */
  function FirstFailing(calls: seq<ToolCall>, invoke: Invoker): (k: nat)
    ensures k <= |calls|
    ensures forall j :: 0 <= j < k ==> invoke(calls[j].name, calls[j].args).Some?
    ensures k < |calls| ==> invoke(calls[k].name, calls[k].args).None?
  {
    if calls == [] then 0
    else if invoke(calls[0].name, calls[0].args).None? then 0
    else 1 + FirstFailing(calls[1..], invoke)
  }

  /**
   * The inner `for` loop: invoke every call in order, producing one `tool`
   * message and one marker line per call, or stop at the first call that fails.
   */
  function RunCalls(calls: seq<ToolCall>, invoke: Invoker, render: Renderer)
    : Result<(seq<Message>, seq<string>), string>
    decreases |calls|
  {
    if calls == [] then Ok(([], []))
    else
      var init := calls[..|calls| - 1];
      var c := calls[|calls| - 1];
      match RunCalls(init, invoke, render)
      case Err(n) => Err(n)
      case Ok((results, markers)) =>
        match invoke(c.name, c.args)
        case None => Err(c.name)
        case Some(out) => Ok((results + [ToolResult(c.id, out)], markers + [Marker(c, render)]))
  }

  /**
   * The inner loop invokes the calls in list order: it fails exactly when some
   * call fails, and then with the name of the first failing call; otherwise
   * the k-th `tool` message answers the k-th call (same correlation id, the
   * invoker's result) and the k-th marker names the k-th call.
   */
  lemma {:induction false} RunCallsSpec(calls: seq<ToolCall>, invoke: Invoker, render: Renderer)
    ensures var r := RunCalls(calls, invoke, render);
      && (r.Ok? <==> FirstFailing(calls, invoke) == |calls|)
      && (r.Err? ==> r.error == calls[FirstFailing(calls, invoke)].name)
      && (r.Ok? ==> |r.value.0| == |calls| && r.value.1 == Markers(calls, render))
      && (r.Ok? ==> forall j :: 0 <= j < |calls| ==> Answers(calls[j], r.value.0[j], invoke))
    decreases |calls|
  {
    if calls != [] {
      var init := calls[..|calls| - 1];
      RunCallsSpec(init, invoke, render);
      assert forall j :: 0 <= j < |init| ==> init[j] == calls[j];
      var ff := FirstFailing(calls, invoke);
      var ffi := FirstFailing(init, invoke);
      if ffi < |init| {
        assert ff == ffi;
      } else if invoke(calls[|calls| - 1].name, calls[|calls| - 1].args).None? {
        assert ff == |init|;
      } else {
        assert ff == |calls|;
        var r := RunCalls(calls, invoke, render);
        assert r.value.1 == Markers(init, render) + [Marker(calls[|calls| - 1], render)];
      }
    }
  }

  /** A `tool` message answers a call: same correlation id, and the text the invoker returned. */
  predicate Answers(c: ToolCall, m: Message, invoke: Invoker)
  {
    m.ToolResult? && m.toolCallId == c.id && invoke(c.name, c.args) == Some(m.result)
  }

  /** How one query ends. `OutOfFuel` is the model's bound on an otherwise unbounded loop. */
  datatype Outcome =
    | Done(lines: seq<string>, transcript: seq<Message>)
    | GatewayFailed
    | ToolFailed(name: string)
    | OutOfFuel

  /**
   * A run: its outcome, the transcript sent with each gateway call, in order,
   * and the reply each call returned.
   */
  datatype Run = Run(outcome: Outcome, sent: seq<seq<Message>>, replies: seq<Reply>)

  /** The string `process_query` returns: `final_text` joined with "\n" (nothing when it raises). */
  function Response(o: Outcome): string
  {
    if o.Done? then Join(o.lines, "\n") else ""
  }

  /** The collaborators of one query: tool schemas, endpoint, tool server, argument printer. */
  datatype Env = Env(tools: seq<Json>, gateway: Gateway, invoke: Invoker, render: Renderer)

  /**
   * The loop's state right after a gateway reply: the transcript last sent,
   * `final_text` so far, every transcript sent and every reply received, the
   * latest reply last.
   */
  datatype State = State(transcript: seq<Message>, lines: seq<string>, sent: seq<seq<Message>>,
                         replies: seq<Reply>)

  function Latest(st: State): Reply
    requires |st.replies| > 0
  {
    st.replies[|st.replies| - 1]
  }

  /** The transcript once the latest reply and the answers to its tool calls are appended. */
  function Extend(st: State, results: seq<Message>): seq<Message>
    requires |st.replies| > 0
  {
    st.transcript + [Assistant(Latest(st))] + results
  }

  /** The state after one more turn that ends with the gateway returning `r`. */
  function Next(st: State, results: seq<Message>, markers: seq<string>, r: Reply): State
    requires |st.replies| > 0
  {
    State(Extend(st, results), st.lines + markers + ContentLines(r), st.sent + [Extend(st, results)],
          st.replies + [r])
  }

  /** The state after the first gateway call returned `r`. */
  function Start(query: string, r: Reply): State
  {
    State([User(query)], ContentLines(r), [[User(query)]], [r])
  }

  /** The rest of the loop from state `st`; `fuel` bounds the number of further gateway calls. */
  function Converse(st: State, env: Env, fuel: nat): Run
    requires |st.replies| > 0
    decreases fuel
  {
    var reply := Latest(st);
    if !HasToolCalls(reply) then Run(Done(st.lines, st.transcript), st.sent, st.replies)
    else
      match RunCalls(Calls(reply), env.invoke, env.render)
      case Err(name) => Run(ToolFailed(name), st.sent, st.replies)
      case Ok((results, markers)) =>
        if fuel == 0 then Run(OutOfFuel, st.sent, st.replies)
        else
          match Ask(env.gateway, Extend(st, results), env.tools)
          case None => Run(GatewayFailed, st.sent + [Extend(st, results)], st.replies)
          case Some(r) => Converse(Next(st, results, markers, r), env, fuel - 1)
  }

  /** One query, from the user's text to the outcome. */
  function Process(query: string, descriptors: seq<ToolDescriptor>, gateway: Gateway,
                   invoke: Invoker, render: Renderer, fuel: nat): Run
  {
    var env := Env(ConvertTools(descriptors), gateway, invoke, render);
    match Ask(gateway, [User(query)], env.tools)
    case None => Run(GatewayFailed, [[User(query)]], [])
    case Some(r) => Converse(Start(query, r), env, fuel)
  }

  /** The loop of `process_query`, step by step. */
  method ProcessQuery(query: string, descriptors: seq<ToolDescriptor>, gateway: Gateway,
                      invoke: Invoker, render: Renderer, fuel: nat) returns (run: Run, response: string)
    ensures run == Process(query, descriptors, gateway, invoke, render, fuel)
    ensures response == Response(run.outcome)
  {
    var env := Env(ConvertTools(descriptors), gateway, invoke, render);
    var messages := [User(query)];
    var answer := Ask(gateway, messages, env.tools);
    if answer.None? {
      return Run(GatewayFailed, [messages], []), "";
    }
    run := ToolLoop(Start(query, answer.value), env, fuel);
    response := if run.outcome.Done? then Join(run.outcome.lines, "\n") else "";
  }

  /**
   * The `while` loop of `process_query` from the state after a gateway reply:
   * as long as the latest reply asks for tools, run them and send the longer
   * transcript.
   */
  method ToolLoop(start: State, env: Env, fuel: nat) returns (run: Run)
    requires |start.replies| > 0
    ensures run == Converse(start, env, fuel)
  {
    var st := start;
    var left := fuel;
    while HasToolCalls(Latest(st))
      invariant |st.replies| > 0
      invariant Converse(st, env, left) == Converse(start, env, fuel)
      decreases left
    {
      var executed := ExecuteToolCalls(Calls(Latest(st)), env.invoke, env.render);
      if executed.Err? {
        return Run(ToolFailed(executed.error), st.sent, st.replies);
      }
      var (results, markers) := executed.value;
      if left == 0 {
        return Run(OutOfFuel, st.sent, st.replies);
      }
      var messages := Extend(st, results);
      var answer := Ask(env.gateway, messages, env.tools);
      if answer.None? {
        return Run(GatewayFailed, st.sent + [messages], st.replies);
      }
      st := Next(st, results, markers, answer.value);
      left := left - 1;
    }
    run := Run(Done(st.lines, st.transcript), st.sent, st.replies);
  }

  /**
   * The inner `for` loop of `process_query`: each call in order adds its marker
   * line, is invoked, and adds its `tool` message; a failing call ends the
   * turn. Returns the `tool` messages and marker lines the turn adds.
   */
  method ExecuteToolCalls(calls: seq<ToolCall>, invoke: Invoker, render: Renderer)
    returns (r: Result<(seq<Message>, seq<string>), string>)
    ensures r == RunCalls(calls, invoke, render)
  {
    var results: seq<Message> := [];
    var markers: seq<string> := [];
    for k := 0 to |calls|
      invariant RunCalls(calls[..k], invoke, render) == Ok((results, markers))
    {
      var call := calls[k];
      markers := markers + [Marker(call, render)];
      var output := invoke(call.name, call.args);
      RunCallsStep(calls, k, invoke, render);
      if output.None? {
        RunCallsFailurePersists(calls, k + 1, invoke, render);
        return Err(call.name);
      }
      results := results + [ToolResult(call.id, output.value)];
    }
    assert calls[..|calls|] == calls;
    return Ok((results, markers));
  }

  /** One more call of the inner loop, when the prefix before it succeeded. */
  lemma RunCallsStep(calls: seq<ToolCall>, k: nat, invoke: Invoker, render: Renderer)
    requires k < |calls|
    requires RunCalls(calls[..k], invoke, render).Ok?
    ensures RunCalls(calls[..k + 1], invoke, render) ==
      match invoke(calls[k].name, calls[k].args)
      case None => Err(calls[k].name)
      case Some(out) =>
        Ok((RunCalls(calls[..k], invoke, render).value.0 + [ToolResult(calls[k].id, out)],
            RunCalls(calls[..k], invoke, render).value.1 + [Marker(calls[k], render)]))
  {
    assert calls[..k + 1][..k] == calls[..k];
  }

  /** A failing call stops the whole turn with that call's name. */
  lemma {:induction false} RunCallsFailurePersists(calls: seq<ToolCall>, k: nat, invoke: Invoker, render: Renderer)
    requires k <= |calls|
    requires RunCalls(calls[..k], invoke, render).Err?
    ensures RunCalls(calls, invoke, render) == RunCalls(calls[..k], invoke, render)
    decreases |calls| - k
  {
    if k < |calls| {
      assert calls[..k + 1][..k] == calls[..k];
      RunCallsFailurePersists(calls, k + 1, invoke, render);
    } else {
      assert calls[..k] == calls;
    }
  }

  // ---------------------------------------------------------------------------
  // What every run looks like

  function Last<T>(s: seq<T>): T
    requires |s| > 0
  {
    s[|s| - 1]
  }

  /**
   * `after` is `before` followed by the assistant reply `r` and then one `tool`
   * message per tool call of `r`, the k-th answering the k-th call.
   */
  ghost predicate ToolTurn(before: seq<Message>, r: Reply, after: seq<Message>, invoke: Invoker)
  {
    && HasToolCalls(r)
    && |after| == |before| + 1 + |Calls(r)|
    && after[..|before|] == before
    && after[|before|] == Assistant(r)
    && forall j :: 0 <= j < |Calls(r)| ==> Answers(Calls(r)[j], after[|before| + 1 + j], invoke)
  }

  /** `final_text` as the replies determine it: each reply's content, then its marker lines. */
  function Lines(rs: seq<Reply>, render: Renderer): seq<string>
  {
    if rs == [] then []
    else Lines(rs[..|rs| - 1], render) + ContentLines(Last(rs)) + Markers(Calls(Last(rs)), render)
  }

  /**
   * The gateway calls so far form a conversation on `query`: the first request
   * carries only the user's message, each request got the recorded reply, and
   * each later request is the previous one plus a complete tool turn.
   */
  ghost predicate Exchange(query: string, env: Env, sent: seq<seq<Message>>, replies: seq<Reply>)
  {
    && |sent| == |replies| > 0
    && sent[0] == [User(query)]
    && (forall i :: 0 <= i < |sent| ==> Ask(env.gateway, sent[i], env.tools) == Some(replies[i]))
    && (forall i :: 0 <= i < |sent| - 1 ==> ToolTurn(sent[i], replies[i], sent[i + 1], env.invoke))
  }

  /** A loop state reached on `query`. */
  ghost predicate Reachable(query: string, env: Env, st: State)
  {
    && Exchange(query, env, st.sent, st.replies)
    && st.transcript == Last(st.sent)
    && st.lines == Lines(st.replies[..|st.replies| - 1], env.render) + ContentLines(Latest(st))
  }

  /**
   * `run` is a run of the loop on `query` with at most `limit` gateway calls:
   *  - Done: the last reply has no tool calls, the returned transcript is the
   *    last one sent (the final reply is not in it) and `final_text` is `Lines`;
   *  - ToolFailed: the latest reply's first failing call, in list order, is named;
   *  - OutOfFuel: all `limit` calls were made and the last reply still asks for tools;
   *  - GatewayFailed: the last request got no reply, and everything before it
   *    is a conversation whose last tool turn was completed before that request.
   */
  ghost predicate Valid(query: string, env: Env, limit: nat, run: Run)
  {
    match run.outcome
    case Done(lines, transcript) =>
      && Exchange(query, env, run.sent, run.replies)
      && !HasToolCalls(Last(run.replies))
      && transcript == Last(run.sent)
      && lines == Lines(run.replies, env.render)
      && |run.replies| <= limit
    case ToolFailed(name) =>
      && Exchange(query, env, run.sent, run.replies)
      && HasToolCalls(Last(run.replies))
      && FirstFailing(Calls(Last(run.replies)), env.invoke) < |Calls(Last(run.replies))|
      && name == Calls(Last(run.replies))[FirstFailing(Calls(Last(run.replies)), env.invoke)].name
      && |run.replies| <= limit
    case OutOfFuel =>
      && Exchange(query, env, run.sent, run.replies)
      && HasToolCalls(Last(run.replies))
      && FirstFailing(Calls(Last(run.replies)), env.invoke) == |Calls(Last(run.replies))|
      && |run.replies| == limit
    case GatewayFailed =>
      && |run.sent| == |run.replies| + 1
      && run.sent[0] == [User(query)]
      && Ask(env.gateway, Last(run.sent), env.tools) == None
      && |run.replies| < limit
      && (|run.replies| > 0 ==>
            && Exchange(query, env, run.sent[..|run.replies|], run.replies)
            && ToolTurn(run.sent[|run.replies| - 1], Last(run.replies), Last(run.sent), env.invoke))
  }

  lemma LinesAppend(rs: seq<Reply>, r: Reply, render: Renderer)
    ensures Lines(rs + [r], render) == Lines(rs, render) + ContentLines(r) + Markers(Calls(r), render)
  {
    assert (rs + [r])[..|rs|] == rs;
  }

  /** The tool turn the loop performs when every call of the latest reply succeeds. */
  lemma ExtendIsToolTurn(st: State, env: Env)
    requires |st.replies| > 0 && HasToolCalls(Latest(st))
    requires RunCalls(Calls(Latest(st)), env.invoke, env.render).Ok?
    ensures ToolTurn(st.transcript, Latest(st),
                     Extend(st, RunCalls(Calls(Latest(st)), env.invoke, env.render).value.0), env.invoke)
  {
    RunCallsSpec(Calls(Latest(st)), env.invoke, env.render);
    AnsweredTurn(st.transcript, Latest(st), RunCalls(Calls(Latest(st)), env.invoke, env.render).value.0,
                 env.invoke);
  }

  /** The assistant message and one answer per call, appended to a transcript, make a tool turn. */
  lemma AnsweredTurn(before: seq<Message>, r: Reply, results: seq<Message>, invoke: Invoker)
    requires HasToolCalls(r) && |results| == |Calls(r)|
    requires forall j :: 0 <= j < |results| ==> Answers(Calls(r)[j], results[j], invoke)
    ensures ToolTurn(before, r, before + [Assistant(r)] + results, invoke)
  {
    var after := before + [Assistant(r)] + results;
    var n := |before|;
    assert after[..n] == before;
    forall j | 0 <= j < |Calls(r)| ensures Answers(Calls(r)[j], after[n + 1 + j], invoke) {
      assert after[n + 1 + j] == results[j];
    }
  }


  /** Where the loop ends without another gateway call, the run is valid. */
  lemma StopValid(query: string, env: Env, st: State, limit: nat)
    requires |st.replies| > 0 && Reachable(query, env, st) && |st.replies| <= limit
    requires !HasToolCalls(Latest(st)) || RunCalls(Calls(Latest(st)), env.invoke, env.render).Err?
    ensures !HasToolCalls(Latest(st)) ==>
      Valid(query, env, limit, Run(Done(st.lines, st.transcript), st.sent, st.replies))
    ensures HasToolCalls(Latest(st)) ==>
      Valid(query, env, limit, Run(ToolFailed(RunCalls(Calls(Latest(st)), env.invoke, env.render).error),
                                   st.sent, st.replies))
  {
    RunCallsSpec(Calls(Latest(st)), env.invoke, env.render);
    LinesAppend(st.replies[..|st.replies| - 1], Latest(st), env.render);
    assert st.replies[..|st.replies| - 1] + [Latest(st)] == st.replies;
  }

  /** The request after a completed tool turn got no reply: a valid run. */
  lemma GatewayFailedValid(query: string, env: Env, st: State, results: seq<Message>, limit: nat)
    requires |st.replies| > 0 && Reachable(query, env, st) && |st.replies| < limit
    requires ToolTurn(st.transcript, Latest(st), Extend(st, results), env.invoke)
    requires Ask(env.gateway, Extend(st, results), env.tools) == None
    ensures Valid(query, env, limit, Run(GatewayFailed, st.sent + [Extend(st, results)], st.replies))
  {
    assert (st.sent + [Extend(st, results)])[..|st.replies|] == st.sent;
  }

  /** A completed tool turn answered by the gateway leads to another reachable state. */
  lemma NextReachable(query: string, env: Env, st: State, results: seq<Message>,
                      markers: seq<string>, r: Reply)
    requires |st.replies| > 0 && Reachable(query, env, st)
    requires RunCalls(Calls(Latest(st)), env.invoke, env.render) == Ok((results, markers))
    requires ToolTurn(st.transcript, Latest(st), Extend(st, results), env.invoke)
    requires Ask(env.gateway, Extend(st, results), env.tools) == Some(r)
    ensures Reachable(query, env, Next(st, results, markers, r))
  {
    var st' := Next(st, results, markers, r);
    RunCallsSpec(Calls(Latest(st)), env.invoke, env.render);
    ExchangeExtends(query, env, st.sent, st.replies, Extend(st, results), r);
    NextLines(st, env, markers, r);
    assert st'.replies[..|st'.replies| - 1] == st.replies;
  }

  /** A completed tool turn that the gateway answered extends the conversation. */
  lemma ExchangeExtends(query: string, env: Env, sent: seq<seq<Message>>, replies: seq<Reply>,
                        next: seq<Message>, r: Reply)
    requires Exchange(query, env, sent, replies)
    requires ToolTurn(Last(sent), Last(replies), next, env.invoke)
    requires Ask(env.gateway, next, env.tools) == Some(r)
    ensures Exchange(query, env, sent + [next], replies + [r])
  {
    var sent', replies' := sent + [next], replies + [r];
    forall i | 0 <= i < |sent'| ensures Ask(env.gateway, sent'[i], env.tools) == Some(replies'[i]) {
      if i < |sent| {
        assert sent'[i] == sent[i] && replies'[i] == replies[i];
      }
    }
    forall i | 0 <= i < |sent'| - 1 ensures ToolTurn(sent'[i], replies'[i], sent'[i + 1], env.invoke) {
      if i < |sent| - 1 {
        assert sent'[i] == sent[i] && replies'[i] == replies[i] && sent'[i + 1] == sent[i + 1];
      }
    }
  }

  /** The output lines after a completed turn are those of every reply so far. */
  lemma NextLines(st: State, env: Env, markers: seq<string>, r: Reply)
    requires |st.replies| > 0
    requires st.lines == Lines(st.replies[..|st.replies| - 1], env.render) + ContentLines(Latest(st))
    requires markers == Markers(Calls(Latest(st)), env.render)
    ensures st.lines + markers + ContentLines(r) == Lines(st.replies, env.render) + ContentLines(r)
  {
    LinesAppend(st.replies[..|st.replies| - 1], Latest(st), env.render);
    assert st.replies[..|st.replies| - 1] + [Latest(st)] == st.replies;
  }

  /** The loop stops at a reply without tool calls, or at a failing tool call. */
  lemma ConverseStopValid(query: string, env: Env, st: State, fuel: nat)
    requires |st.replies| > 0 && Reachable(query, env, st)
    requires !HasToolCalls(Latest(st)) || RunCalls(Calls(Latest(st)), env.invoke, env.render).Err?
    ensures Valid(query, env, |st.replies| + fuel, Converse(st, env, fuel))
  {
    StopValid(query, env, st, |st.replies| + fuel);
  }

  /** The loop stops with its gateway calls exhausted. */
  lemma ConverseOutOfFuelValid(query: string, env: Env, st: State)
    requires |st.replies| > 0 && Reachable(query, env, st)
    requires HasToolCalls(Latest(st)) && RunCalls(Calls(Latest(st)), env.invoke, env.render).Ok?
    ensures Valid(query, env, |st.replies|, Converse(st, env, 0))
  {
    RunCallsSpec(Calls(Latest(st)), env.invoke, env.render);
  }

  /** The results of the latest reply's tool calls, when all of them succeed. */
  function TurnResults(st: State, env: Env): seq<Message>
    requires |st.replies| > 0 && RunCalls(Calls(Latest(st)), env.invoke, env.render).Ok?
  {
    RunCalls(Calls(Latest(st)), env.invoke, env.render).value.0
  }

  /** The loop completes a tool turn and the next request gets no reply. */
  lemma ConverseGatewayFailedValid(query: string, env: Env, st: State, fuel: nat)
    requires |st.replies| > 0 && Reachable(query, env, st) && fuel > 0
    requires HasToolCalls(Latest(st)) && RunCalls(Calls(Latest(st)), env.invoke, env.render).Ok?
    requires Ask(env.gateway, Extend(st, TurnResults(st, env)), env.tools) == None
    ensures Valid(query, env, |st.replies| + fuel, Converse(st, env, fuel))
  {
    ExtendIsToolTurn(st, env);
    GatewayFailedValid(query, env, st, TurnResults(st, env), |st.replies| + fuel);
  }

  /** The state after a completed tool turn that the gateway answered. */
  function NextState(st: State, env: Env): State
    requires |st.replies| > 0 && RunCalls(Calls(Latest(st)), env.invoke, env.render).Ok?
    requires Ask(env.gateway, Extend(st, TurnResults(st, env)), env.tools).Some?
  {
    var (results, markers) := RunCalls(Calls(Latest(st)), env.invoke, env.render).value;
    Next(st, results, markers, Ask(env.gateway, Extend(st, results), env.tools).value)
  }

  lemma NextStateReachable(query: string, env: Env, st: State)
    requires |st.replies| > 0 && Reachable(query, env, st)
    requires HasToolCalls(Latest(st)) && RunCalls(Calls(Latest(st)), env.invoke, env.render).Ok?
    requires Ask(env.gateway, Extend(st, TurnResults(st, env)), env.tools).Some?
    ensures Reachable(query, env, NextState(st, env))
    ensures |NextState(st, env).replies| == |st.replies| + 1
  {
    var (results, markers) := RunCalls(Calls(Latest(st)), env.invoke, env.render).value;
    ExtendIsToolTurn(st, env);
    NextReachable(query, env, st, results, markers, Ask(env.gateway, Extend(st, results), env.tools).value);
  }

  lemma ConverseTurnUnfold(st: State, env: Env, fuel: nat)
    requires |st.replies| > 0 && fuel > 0
    requires HasToolCalls(Latest(st)) && RunCalls(Calls(Latest(st)), env.invoke, env.render).Ok?
    requires Ask(env.gateway, Extend(st, TurnResults(st, env)), env.tools).Some?
    ensures Converse(st, env, fuel) == Converse(NextState(st, env), env, fuel - 1)
  {
  }

  /** The loop completes a tool turn, gets the next reply and goes on. */
  lemma {:induction false} ConverseTurnValid(query: string, env: Env, st: State, fuel: nat, limit: nat)
    requires |st.replies| > 0 && Reachable(query, env, st) && fuel > 0 && limit == |st.replies| + fuel
    requires HasToolCalls(Latest(st)) && RunCalls(Calls(Latest(st)), env.invoke, env.render).Ok?
    requires Ask(env.gateway, Extend(st, TurnResults(st, env)), env.tools).Some?
    ensures Valid(query, env, limit, Converse(st, env, fuel))
    decreases fuel, 0
  {
    NextStateReachable(query, env, st);
    ConverseTurnUnfold(st, env, fuel);
    ConverseValid(query, env, NextState(st, env), fuel - 1, limit);
  }

  /** From any reachable state, the rest of the loop is a valid run with at most `limit` gateway calls. */
  lemma {:induction false} ConverseValid(query: string, env: Env, st: State, fuel: nat, limit: nat)
    requires |st.replies| > 0 && Reachable(query, env, st) && limit == |st.replies| + fuel
    ensures Valid(query, env, limit, Converse(st, env, fuel))
    decreases fuel, 1
  {
    if !HasToolCalls(Latest(st)) || RunCalls(Calls(Latest(st)), env.invoke, env.render).Err? {
      ConverseStopValid(query, env, st, fuel);
    } else if fuel == 0 {
      ConverseOutOfFuelValid(query, env, st);
    } else if Ask(env.gateway, Extend(st, TurnResults(st, env)), env.tools).None? {
      ConverseGatewayFailedValid(query, env, st, fuel);
    } else {
      ConverseTurnValid(query, env, st, fuel, limit);
    }
  }

  /** Every run of `process_query` with fuel `fuel` is valid with at most `fuel + 1` gateway calls. */
  lemma ProcessValid(query: string, descriptors: seq<ToolDescriptor>, gateway: Gateway,
                     invoke: Invoker, render: Renderer, fuel: nat)
    ensures Valid(query, Env(ConvertTools(descriptors), gateway, invoke, render), fuel + 1,
                  Process(query, descriptors, gateway, invoke, render, fuel))
  {
    var env := Env(ConvertTools(descriptors), gateway, invoke, render);
    match Ask(gateway, [User(query)], env.tools)
    case None =>
    case Some(r) =>
      var st := Start(query, r);
      assert st.replies[..0] == [];
      ConverseValid(query, env, st, fuel, fuel + 1);
  }

  // ---------------------------------------------------------------------------
  // Consequences

  /** A first reply without tool calls ends the query after one gateway call. */
  lemma FirstReplyFinal(query: string, descriptors: seq<ToolDescriptor>, gateway: Gateway,
                        invoke: Invoker, render: Renderer, fuel: nat, r: Reply)
    requires Ask(gateway, [User(query)], ConvertTools(descriptors)) == Some(r)
    requires !HasToolCalls(r)
    ensures Process(query, descriptors, gateway, invoke, render, fuel)
            == Run(Done(ContentLines(r), [User(query)]), [[User(query)]], [r])
    ensures Response(Process(query, descriptors, gateway, invoke, render, fuel).outcome)
            == if r.content.Some? then r.content.value else ""
  {
  }

  /** One tool call, then a plain answer: the response is the marker line and the answer. */
  lemma OneToolThenAnswer(query: string, descriptors: seq<ToolDescriptor>, gateway: Gateway,
                          invoke: Invoker, render: Renderer, fuel: nat,
                          c: ToolCall, out: string, answer: string)
    requires fuel > 0 && answer != ""
    requires invoke(c.name, c.args) == Some(out)
    requires Ask(gateway, [User(query)], ConvertTools(descriptors)) == Some(Reply(None, Some([c])))
    requires Ask(gateway, [User(query), Assistant(Reply(None, Some([c]))), ToolResult(c.id, out)],
                 ConvertTools(descriptors)) == Some(Reply(Some(answer), None))
    ensures Process(query, descriptors, gateway, invoke, render, fuel).outcome
            == Done([Marker(c, render), answer],
                    [User(query), Assistant(Reply(None, Some([c]))), ToolResult(c.id, out)])
    ensures Response(Process(query, descriptors, gateway, invoke, render, fuel).outcome)
            == Marker(c, render) + "\n" + answer
  {
    var calls := [c];
    var r0 := Reply(None, Some([c]));
    var env := Env(ConvertTools(descriptors), gateway, invoke, render);
    assert calls[..0] == [];
    assert RunCalls(calls[..0], invoke, render) == Ok(([], []));
    assert calls[|calls| - 1] == c && |calls| - 1 == 0;
    assert [] + [ToolResult(c.id, out)] == [ToolResult(c.id, out)];
    assert [] + [Marker(c, render)] == [Marker(c, render)];
    assert RunCalls(calls, invoke, render) == Ok(([ToolResult(c.id, out)], [Marker(c, render)]));
    var st := Start(query, r0);
    assert Extend(st, [ToolResult(c.id, out)]) == [User(query), Assistant(r0), ToolResult(c.id, out)];
    var st' := Next(st, [ToolResult(c.id, out)], [Marker(c, render)], Reply(Some(answer), None));
    assert st'.lines == [Marker(c, render), answer];
    assert Converse(st, env, fuel) == Converse(st', env, fuel - 1);
    assert Join([Marker(c, render), answer], "\n") == Marker(c, render) + "\n" + Join([answer], "\n");
  }

  /** A finished query returns its lines joined with newlines. */
  lemma DoneResponse(query: string, env: Env, limit: nat, run: Run)
    requires Valid(query, env, limit, run) && run.outcome.Done?
    ensures Response(run.outcome) == Join(Lines(run.replies, env.render), "\n")
  {
  }

  /** Each request sent extends every earlier one: the transcript is append-only. */
  lemma {:induction false} SentAppendOnly(query: string, env: Env, sent: seq<seq<Message>>,
                                          replies: seq<Reply>, i: nat, j: nat)
    requires Exchange(query, env, sent, replies) && i <= j < |sent|
    ensures |sent[i]| <= |sent[j]| && sent[j][..|sent[i]|] == sent[i]
    decreases j
  {
    if i < j {
      SentAppendOnly(query, env, sent, replies, i, j - 1);
      assert ToolTurn(sent[j - 1], replies[j - 1], sent[j], env.invoke);
      assert sent[j][..|sent[i]|] == sent[j][..|sent[j - 1]|][..|sent[i]|];
    }
  }

  /** Every assistant message recorded in a transcript asked for tools. */
  ghost predicate OnlyToolTurns(transcript: seq<Message>)
  {
    forall k :: 0 <= k < |transcript| && transcript[k].Assistant? ==> HasToolCalls(transcript[k].reply)
  }

  lemma {:induction false} SentOnlyToolTurns(query: string, env: Env, sent: seq<seq<Message>>,
                                             replies: seq<Reply>, i: nat)
    requires Exchange(query, env, sent, replies) && i < |sent|
    ensures OnlyToolTurns(sent[i])
  {
    if i > 0 {
      SentOnlyToolTurns(query, env, sent, replies, i - 1);
      var before, after := sent[i - 1], sent[i];
      assert ToolTurn(before, replies[i - 1], after, env.invoke);
      forall k | |before| < k < |after| ensures after[k].ToolResult? {
        var j := k - |before| - 1;
        assert Answers(Calls(replies[i - 1])[j], after[|before| + 1 + j], env.invoke);
      }
      forall k | 0 <= k < |before| ensures after[k] == before[k] {
        assert after[k] == after[..|before|][k];
      }
    }
  }

  /** The final, tool-free reply never enters the transcript. */
  lemma FinalReplyNotRecorded(query: string, env: Env, limit: nat, run: Run)
    requires Valid(query, env, limit, run) && run.outcome.Done?
    ensures OnlyToolTurns(run.outcome.transcript)
    ensures Assistant(Last(run.replies)) !in run.outcome.transcript
  {
    SentOnlyToolTurns(query, env, run.sent, run.replies, |run.sent| - 1);
  }
}
