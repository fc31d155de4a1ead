/**
 * The pure parts of the chat client in mcp-client/client.py: the message
 * shapes exchanged with the completion endpoint, the conversion of a tool
 * descriptor into the endpoint's function-calling schema, the request body,
 * the choice of the command that launches the tool server, and the `quit`
 * test of the interactive loop.
 */
module Client {
  import opened Wrappers
  import opened Json
  import opened Text

  /** The model name and the response-size cap sent with every request. */
  const ModelName: string := "anthropic/claude-3.5-sonnet"
  const MaxTokens: int := 1000

  // ---------------------------------------------------------------------------
  // Messages

  /** One requested tool invocation: correlation id, tool name, parsed arguments. */
  datatype ToolCall = ToolCall(id: string, name: string, args: Json)

  /**
   * The assistant message of a completion response. `content` is `None` when the
   * key is absent or null; `toolCalls` is `None` when the key is absent or null.
   */
  datatype Reply = Reply(content: Option<string>, toolCalls: Option<seq<ToolCall>>)

  /** One entry of the `messages` transcript. */
  datatype Message =
    | User(content: string)
    | Assistant(reply: Reply)
    | ToolResult(toolCallId: string, result: string)

  // ---------------------------------------------------------------------------
  // Tool descriptor adapter

  /** A tool as the tool server advertises it; the description may be missing. */
  datatype ToolDescriptor = ToolDescriptor(name: string, description: Option<string>, inputSchema: Json)

  function DescriptionJson(d: Option<string>): Json
  {
    match d
    case None => JNull
    case Some(s) => JStr(s)
  }

  /** `{"type": "function", "function": {"name", "description", "parameters"}}`. */
  function ConvertTool(t: ToolDescriptor): (r: Json)
    ensures r.JObj? && r.fields.Keys == {"type", "function"}
    ensures r.fields["type"] == JStr("function")
    ensures r.fields["function"].JObj?
    ensures r.fields["function"].fields.Keys == {"name", "description", "parameters"}
    ensures r.fields["function"].fields["name"] == JStr(t.name)
    ensures r.fields["function"].fields["parameters"] == t.inputSchema
  {
    JObj(map[
      "type" := JStr("function"),
      "function" := JObj(map[
        "name" := JStr(t.name),
        "description" := DescriptionJson(t.description),
        "parameters" := t.inputSchema])])
  }

  /** Reads a descriptor back out of a function-calling schema; the partner of ConvertTool. */
  function ToolOfSchema(j: Json): Option<ToolDescriptor>
  {
    if j.JObj? && "type" in j.fields && j.fields["type"] == JStr("function") && "function" in j.fields then
      var f := j.fields["function"];
      if f.JObj? && "name" in f.fields && f.fields["name"].JStr? && "description" in f.fields
         && "parameters" in f.fields then
        var d := f.fields["description"];
        if d.JNull? then Some(ToolDescriptor(f.fields["name"].s, None, f.fields["parameters"]))
        else if d.JStr? then Some(ToolDescriptor(f.fields["name"].s, Some(d.s), f.fields["parameters"]))
        else None
      else None
    else None
  }

  /** The conversion keeps name, description and input schema unchanged. */
  lemma ConvertToolRoundTrip(t: ToolDescriptor)
    ensures ToolOfSchema(ConvertTool(t)) == Some(t)
  {
  }

  /** Distinct descriptors give distinct schemas. */
  lemma ConvertToolInjective(t1: ToolDescriptor, t2: ToolDescriptor)
    requires ConvertTool(t1) == ConvertTool(t2)
    ensures t1 == t2
  {
    ConvertToolRoundTrip(t1);
    ConvertToolRoundTrip(t2);
  }

  /** The list comprehension over all advertised tools. */
  function ConvertTools(ds: seq<ToolDescriptor>): (r: seq<Json>)
    ensures |r| == |ds|
    ensures forall i :: 0 <= i < |ds| ==> ToolOfSchema(r[i]) == Some(ds[i])
  {
    seq(|ds|, i requires 0 <= i < |ds| => ConvertTool(ds[i]))
  }

  // ---------------------------------------------------------------------------
  // Request body

  /** The values a request body holds. */
  datatype BodyValue =
    | ModelValue(model: string)
    | MessagesValue(messages: seq<Message>)
    | MaxTokensValue(limit: int)
    | ToolsValue(tools: seq<Json>)

  /** A Python dict as its items in insertion order, which is also the order they are sent in. */
  type Dict<V> = seq<(string, V)>

  function Keys<V>(d: Dict<V>): (r: seq<string>)
    ensures |r| == |d| && forall i :: 0 <= i < |d| ==> r[i] == d[i].0
  {
    if d == [] then [] else [d[0].0] + Keys(d[1..])
  }

  /** `{k: v for k, v in data.items() if v is not None}`: keeps the present items, in order. */
  function DropNone(data: Dict<Option<BodyValue>>): (r: Dict<BodyValue>)
    ensures |r| <= |data|
    ensures forall i :: 0 <= i < |r| ==> (r[i].0, Some(r[i].1)) in data
  {
    if data == [] then []
    else
      var rest := DropNone(data[1..]);
      match data[0].1
      case None => rest
      case Some(v) => [(data[0].0, v)] + rest
  }
  /** Every entry with a present value is kept. */
  lemma {:induction false} DropNoneKeepsPresent(data: Dict<Option<BodyValue>>)
    ensures forall i :: 0 <= i < |data| && data[i].1.Some? ==> (data[i].0, data[i].1.value) in DropNone(data)
    decreases |data|
  {
    if data != [] {
      DropNoneKeepsPresent(data[1..]);
      forall i | 0 < i < |data| && data[i].1.Some?
        ensures (data[i].0, data[i].1.value) in DropNone(data)
      {
        assert data[i] == data[1..][i - 1];
      }
    }
  }

  /** Dropping works entry by entry: the kept entries of a dictionary stay in its order. */
  lemma {:induction false} DropNoneConcat(a: Dict<Option<BodyValue>>, b: Dict<Option<BodyValue>>)
    ensures DropNone(a + b) == DropNone(a) + DropNone(b)
    decreases |a|
  {
    if a != [] {
      DropNoneConcat(a[1..], b);
      assert (a + b)[0] == a[0] && (a + b)[1..] == a[1..] + b;
      if a[0].1.Some? {
        var kept := [(a[0].0, a[0].1.value)];
        assert DropNone(a + b) == kept + DropNone(a[1..] + b);
        assert DropNone(a) == kept + DropNone(a[1..]);
        assert kept + (DropNone(a[1..]) + DropNone(b)) == (kept + DropNone(a[1..])) + DropNone(b);
      } else {
        assert DropNone(a + b) == DropNone(a[1..] + b);
      }
    } else {
      assert a + b == b;
    }
  }


  /** The JSON body posted to the completion endpoint, in the order `_call_openrouter` builds it. */
  function RequestBody(messages: seq<Message>, tools: seq<Json>): Dict<BodyValue>
  {
    DropNone([
      ("model", Some(ModelValue(ModelName))),
      ("messages", Some(MessagesValue(messages))),
      ("max_tokens", Some(MaxTokensValue(MaxTokens))),
      ("tools", if tools != [] then Some(ToolsValue(tools)) else None)])
  }

  /**
   * Every body names the model, carries the whole transcript and the fixed
   * token cap, in that order, and ends with a `tools` entry exactly when some
   * tool is advertised.
   */
  lemma RequestBodyShape(messages: seq<Message>, tools: seq<Json>)
    ensures var r := RequestBody(messages, tools);
      && Keys(r) == ["model", "messages", "max_tokens"] + (if tools == [] then [] else ["tools"])
      && r[0].1 == ModelValue(ModelName)
      && r[1].1 == MessagesValue(messages)
      && r[2].1 == MaxTokensValue(MaxTokens)
      && (tools != [] ==> r[3].1 == ToolsValue(tools))
      && ("tools" in Keys(r) <==> tools != [])
  {
    RequestBodyEntries(messages, tools);
    var r := RequestBody(messages, tools);
    assert Keys(r) == ["model", "messages", "max_tokens"] + (if tools == [] then [] else ["tools"]);
  }

  /** The body's entries, the `None` one for absent tools dropped. */
  lemma RequestBodyEntries(messages: seq<Message>, tools: seq<Json>)
    ensures RequestBody(messages, tools) ==
      [("model", ModelValue(ModelName)), ("messages", MessagesValue(messages)),
       ("max_tokens", MaxTokensValue(MaxTokens))] + (if tools == [] then [] else [("tools", ToolsValue(tools))])
  {
    var tail: Dict<Option<BodyValue>> := [("tools", if tools != [] then Some(ToolsValue(tools)) else None)];
    assert tail[1..] == [];
    var d3: Dict<Option<BodyValue>> := [("max_tokens", Some(MaxTokensValue(MaxTokens)))] + tail;
    var d2: Dict<Option<BodyValue>> := [("messages", Some(MessagesValue(messages)))] + d3;
    var d1: Dict<Option<BodyValue>> := [("model", Some(ModelValue(ModelName)))] + d2;
    DropNoneSome("max_tokens", MaxTokensValue(MaxTokens), tail);
    DropNoneSome("messages", MessagesValue(messages), d3);
    DropNoneSome("model", ModelValue(ModelName), d2);
    assert d1 == [("model", Some(ModelValue(ModelName))), ("messages", Some(MessagesValue(messages))),
                  ("max_tokens", Some(MaxTokensValue(MaxTokens))), tail[0]];
  }

  /** A present entry is kept, in front of what is kept of the rest. */
  lemma DropNoneSome(key: string, v: BodyValue, rest: Dict<Option<BodyValue>>)
    ensures DropNone([(key, Some(v))] + rest) == [(key, v)] + DropNone(rest)
  {
    assert ([(key, Some(v))] + rest)[1..] == rest;
  }


  // ---------------------------------------------------------------------------
  // Launching the tool server

  /** The process the client launches: the interpreter and the script path. */
  datatype ServerParams = ServerParams(command: string, args: seq<string>)

  const BadScriptMessage: string := "Server script must be a .py or .js file"

  function ServerCommand(path: string): (r: Result<ServerParams, string>)
    ensures r.Ok? ==> r.value.args == [path]
    ensures r.Ok? && r.value.command == "python" <==> EndsWith(path, ".py")
    ensures r.Ok? && r.value.command == "node" <==> EndsWith(path, ".js")
    ensures r.Err? <==> !EndsWith(path, ".py") && !EndsWith(path, ".js")
    ensures r.Err? ==> r.error == BadScriptMessage
  {
    var isPython := EndsWith(path, ".py");
    var isJs := EndsWith(path, ".js");
    if !(isPython || isJs) then Err(BadScriptMessage)
    else Ok(ServerParams(if isPython then "python" else "node", [path]))
  }

  // ---------------------------------------------------------------------------
  // The quit sentinel

  /** `query.lower() == 'quit'`, applied to the already stripped input line. */
  predicate IsQuit(query: string)
  {
    Lower(query) == "quit"
  }

  /** Exactly the sixteen upper/lower-case spellings of "quit" end the loop. */
  lemma IsQuitSpellings(query: string)
    ensures IsQuit(query) <==>
      |query| == 4 && query[0] in "qQ" && query[1] in "uU" && query[2] in "iI" && query[3] in "tT"
  {
    if IsQuit(query) {
      assert Lower(query)[0] == 'q' && Lower(query)[1] == 'u' && Lower(query)[2] == 'i' && Lower(query)[3] == 't';
    }
    if |query| == 4 && query[0] in "qQ" && query[1] in "uU" && query[2] in "iI" && query[3] in "tT" {
      assert Lower(query) == "quit";
    }
  }

  /** White space around the sentinel does not matter, because the line is stripped first. */
  lemma QuitIgnoresSpace(lead: string, word: string, trail: string)
    requires AllSpace(lead) && AllSpace(trail) && IsQuit(word)
    ensures IsQuit(Strip(lead + word + trail))
  {
    IsQuitSpellings(word);
    StripSurrounded(lead, word, trail);
  }
}
