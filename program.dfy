/**
 * The chat program: collecting every plugin's descriptors, routing a function call by its
 * qualified name, and the conversation loop that appends user, function and assistant
 * messages and evicts the oldest non-system messages to stay within the token budget.
 */
module Program {
  import opened Wrappers
  import opened ChatTypes
  import opened TokenCount
  import Text
  import ChatPluginBase
  import Sequences

  const SystemPrompt: string := "Assistant is a large language model trained by OpenAI."
  const SystemMessage: Message := Message(System, SystemPrompt, None)
  const MaxResponseTokens: int := 1024
  const InitialTokenLimit: int := 1024 * 16
  const FunctionCallReason: string := "function_call"
  const LengthReason: string := "length"

  /** A function call the endpoint asks for; `arguments` is None when its text is not a JSON object. */
  datatype FunctionCall = FunctionCall(name: string, arguments: Option<map<string, Json>>)

  /** What a request yields: a failed status, or the first choice's finish reason and message. */
  datatype Response =
    | TransportFailed(statusCode: int, reason: string)
    | Completion(finishReason: string, content: string, functionCall: Option<FunctionCall>)

  /** The text one turn shows (if any) and whether it was cut short, or the failure that ended the run. */
  datatype TurnResult = Replied(shown: Option<string>, truncated: bool) | Halted(error: Error)

  /** The user's input and the endpoint's response for one pass of the loop. */
  datatype Exchange = Exchange(userInput: string, response: Response)

  // ---------------------------------------------------------------------------------
  // The catalog of all plugins

  /** The callable methods of all plugins, plugin after plugin. */
  function AllCallables(plugins: seq<Plugin>): seq<ChatPluginBase.Callable> {
    if plugins == [] then []
    else
      var last := plugins[|plugins| - 1];
      AllCallables(plugins[..|plugins| - 1]) + ChatPluginBase.Callables(last.typeName, last.methods)
  }

  lemma AllCallablesPrefix(plugins: seq<Plugin>, i: nat)
    requires i < |plugins|
    ensures AllCallables(plugins[..i + 1])
      == AllCallables(plugins[..i]) + ChatPluginBase.Callables(plugins[i].typeName, plugins[i].methods)
  {
    assert plugins[..i + 1][..i] == plugins[..i];
  }

  lemma {:induction false} AllCallablesConcat(a: seq<Plugin>, b: seq<Plugin>)
    ensures AllCallables(a + b) == AllCallables(a) + AllCallables(b)
    decreases |b|
  {
    if b != [] {
      var b' := b[..|b| - 1];
      assert (a + b)[..|a + b| - 1] == a + b';
      AllCallablesConcat(a, b');
    } else {
      assert a + b == a;
    }
  }

  /** Once the plugins of `a` fail, their error is the error of any longer list. */
  lemma AllCatalogErrorKept(a: seq<Plugin>, b: seq<Plugin>)
    requires ChatPluginBase.CatalogError(AllCallables(a)).Some?
    ensures ChatPluginBase.CatalogError(AllCallables(a + b)) == ChatPluginBase.CatalogError(AllCallables(a))
  {
    AllCallablesConcat(a, b);
    ChatPluginBase.CatalogErrorConcat(AllCallables(a), AllCallables(b));
  }

  /** The first failing plugin decides the error of the whole catalog. */
  lemma AllCatalogErrorAt(plugins: seq<Plugin>, i: nat)
    requires i < |plugins|
    requires ChatPluginBase.CatalogError(AllCallables(plugins[..i])).None?
    requires ChatPluginBase.CatalogError(ChatPluginBase.Callables(plugins[i].typeName, plugins[i].methods)).Some?
    ensures ChatPluginBase.CatalogError(AllCallables(plugins))
      == ChatPluginBase.CatalogError(ChatPluginBase.Callables(plugins[i].typeName, plugins[i].methods))
  {
    var more := ChatPluginBase.Callables(plugins[i].typeName, plugins[i].methods);
    var head, tail := plugins[..i + 1], plugins[i + 1..];
    Sequences.PrefixSuffix(plugins, i + 1);
    assert ChatPluginBase.CatalogError(AllCallables(head)) == ChatPluginBase.CatalogError(more) by {
      AllCallablesPrefix(plugins, i);
      ChatPluginBase.CatalogErrorConcat(AllCallables(plugins[..i]), more);
    }
    AllCatalogErrorKept(head, tail);
  }

  /** A plugin whose catalog succeeds extends the catalog of the plugins before it. */
  lemma AllCatalogStep(plugins: seq<Plugin>, i: nat, functions: seq<ChatFunctionDescriptor>,
                       fs: seq<ChatFunctionDescriptor>)
    requires i < |plugins|
    requires ChatPluginBase.CatalogError(AllCallables(plugins[..i])).None?
    requires ChatPluginBase.IsCatalog(AllCallables(plugins[..i]), functions)
    requires ChatPluginBase.CatalogError(ChatPluginBase.Callables(plugins[i].typeName, plugins[i].methods)).None?
    requires ChatPluginBase.IsCatalog(ChatPluginBase.Callables(plugins[i].typeName, plugins[i].methods), fs)
    ensures ChatPluginBase.CatalogError(AllCallables(plugins[..i + 1])).None?
    ensures ChatPluginBase.IsCatalog(AllCallables(plugins[..i + 1]), functions + fs)
  {
    var more := ChatPluginBase.Callables(plugins[i].typeName, plugins[i].methods);
    AllCallablesPrefix(plugins, i);
    ChatPluginBase.CatalogErrorConcat(AllCallables(plugins[..i]), more);
    ChatPluginBase.CatalogConcat(AllCallables(plugins[..i]), functions, more, fs);
  }

  /**
   * The descriptors of every registered plugin, in registration order; the first plugin
   * whose catalog fails aborts the whole startup.
   */
  method GetFunctions(plugins: seq<Plugin>) returns (r: Result<seq<ChatFunctionDescriptor>, Error>)
    ensures r.Success? <==> ChatPluginBase.CatalogError(AllCallables(plugins)).None?
    ensures r.Failure? ==> r.error == UnsupportedType(ChatPluginBase.CatalogError(AllCallables(plugins)).value)
    ensures r.Success? ==> ChatPluginBase.IsCatalog(AllCallables(plugins), r.value)
  {
    var functions: seq<ChatFunctionDescriptor> := [];
    for i := 0 to |plugins|
      invariant ChatPluginBase.CatalogError(AllCallables(plugins[..i])).None?
      invariant ChatPluginBase.IsCatalog(AllCallables(plugins[..i]), functions)
    {
      var fs := ChatPluginBase.GetFunctions(plugins[i]);
      if fs.Failure? {
        AllCatalogErrorAt(plugins, i);
        return Failure(fs.error);
      }
      AllCatalogStep(plugins, i, functions, fs.value);
      functions := functions + fs.value;
    }
    assert plugins[..|plugins|] == plugins;
    r := Success(functions);
  }

  // ---------------------------------------------------------------------------------
  // Routing a function call

  /** The first registered plugin whose type name is `typeName`. */
  function FindPlugin(plugins: seq<Plugin>, typeName: string): (r: Option<nat>)
    ensures r.Some? ==>
      && r.value < |plugins| && plugins[r.value].typeName == typeName
      && forall j :: 0 <= j < r.value ==> plugins[j].typeName != typeName
    ensures r.None? ==> forall j :: 0 <= j < |plugins| ==> plugins[j].typeName != typeName
  {
    if plugins == [] then None
    else if plugins[0].typeName == typeName then Some(0)
    else match FindPlugin(plugins[1..], typeName)
      case None => None
      case Some(k) => Some(k + 1)
  }

  /**
   * Splits the call's name at every dash, picks the first plugin whose type name is the
   * first part and asks it to execute the second part. No plugin: a null result. A name
   * without a dash whose whole text names a plugin: the missing second part throws.
   */
  function CallFunction(plugins: seq<Plugin>, call: FunctionCall,
                        invoke: Invocation -> Result<Option<string>, Error>): (r: Result<Option<string>, Error>)
    ensures r.Failure? ==> FindPlugin(plugins, Text.Split(call.name, '-')[0]).Some?
  {
    var parts := Text.Split(call.name, '-');
    match FindPlugin(plugins, parts[0])
    case None => Success(None)
    case Some(k) =>
      if |parts| < 2 then Failure(MissingOperationName)
      else ChatPluginBase.ExecuteFunction(plugins[k], parts[1], call.arguments, invoke)
  }

  /** A first part that names no registered plugin yields a null result, not an error. */
  lemma CallFunctionUnknownPlugin(plugins: seq<Plugin>, call: FunctionCall,
                                  invoke: Invocation -> Result<Option<string>, Error>)
    requires forall k :: 0 <= k < |plugins| ==> plugins[k].typeName != Text.Split(call.name, '-')[0]
    ensures CallFunction(plugins, call, invoke) == Success(None)
  {
  }

  /**
   * The call goes to the first plugin whose type name is the name's first part: the
   * operation is the second part, and a name with no second part throws.
   */
  lemma CallFunctionRoutes(plugins: seq<Plugin>, call: FunctionCall,
                           invoke: Invocation -> Result<Option<string>, Error>, k: nat)
    requires k < |plugins| && plugins[k].typeName == Text.Split(call.name, '-')[0]
    requires forall j :: 0 <= j < k ==> plugins[j].typeName != plugins[k].typeName
    ensures var parts := Text.Split(call.name, '-');
      CallFunction(plugins, call, invoke)
        == if |parts| < 2 then Failure(MissingOperationName)
           else ChatPluginBase.ExecuteFunction(plugins[k], parts[1], call.arguments, invoke)
  {
  }

  /**
   * A descriptor's name routes back to the method it describes: called under the
   * qualified name of a method that has no overloads, in the first plugin of its type
   * name, with every parameter present, the method receives the payload's values in
   * declared order.
   */
  lemma CallFunctionRoundTrip(plugins: seq<Plugin>, k: nat, m: MethodInfo, args: map<string, Json>,
                              invoke: Invocation -> Result<Option<string>, Error>)
    requires k < |plugins| && forall j :: 0 <= j < k ==> plugins[j].typeName != plugins[k].typeName
    requires '-' !in plugins[k].typeName && '-' !in m.name
    requires ChatPluginBase.MethodsNamed(plugins[k].methods, m.name) == [m]
    requires forall p | p in m.parameters :: p.name in args
    ensures exists vs :: (ChatPluginBase.Marshalled(m.parameters, args, vs)
      && CallFunction(plugins, FunctionCall(ChatPluginBase.QualifiedName(plugins[k].typeName, m.name), Some(args)), invoke)
         == invoke(Invocation(plugins[k].typeName, m, vs)))
  {
    var call := FunctionCall(ChatPluginBase.QualifiedName(plugins[k].typeName, m.name), Some(args));
    ChatPluginBase.QualifiedNameRoundTrip(plugins[k].typeName, m.name);
    CallFunctionRoutes(plugins, call, invoke, k);
    assert ChatPluginBase.GetMethod(plugins[k].methods, m.name) == Success(m);
  }

  // ---------------------------------------------------------------------------------
  // The token budget

  /**
   * The conversation after the eviction loop: the message at index 1 is removed while the
   * estimate plus the response allowance exceeds the limit and there is a message at index 1.
   */
  function Evict(enc: string -> nat, conversation: seq<Message>, maxResponseTokens: int, tokenLimit: int): (kept: seq<Message>)
    ensures |kept| <= |conversation|
    ensures conversation != [] ==>
      && 1 <= |kept| && kept[0] == conversation[0]
      && kept[1..] == conversation[|conversation| - |kept| + 1..]
    ensures GetConversationTokenNum(enc, kept) + maxResponseTokens <= tokenLimit || |kept| <= 1
    decreases |conversation|
  {
    if GetConversationTokenNum(enc, conversation) + maxResponseTokens <= tokenLimit || |conversation| <= 1 then
      conversation
    else
      Evict(enc, conversation[..1] + conversation[2..], maxResponseTokens, tokenLimit)
  }

  /** Eviction removes no more than it must: keeping any longer suffix would exceed the budget. */
  lemma {:induction false} EvictIsMinimal(enc: string -> nat, conversation: seq<Message>,
                                         maxResponseTokens: int, tokenLimit: int, j: nat)
    requires |conversation| >= 1
    requires 1 <= j < |conversation| - |Evict(enc, conversation, maxResponseTokens, tokenLimit)| + 1
    ensures GetConversationTokenNum(enc, conversation[..1] + conversation[j..]) + maxResponseTokens > tokenLimit
    decreases |conversation|
  {
    if j == 1 {
      assert conversation[..1] + conversation[1..] == conversation;
    } else {
      var next := conversation[..1] + conversation[2..];
      EvictIsMinimal(enc, next, maxResponseTokens, tokenLimit, j - 1);
      assert next[..1] + next[j - 1..] == conversation[..1] + conversation[j..];
    }
  }

  /** The newest message survives eviction unless everything but the system message goes. */
  lemma EvictKeepsLast(enc: string -> nat, conversation: seq<Message>, maxResponseTokens: int, tokenLimit: int)
    ensures var kept := Evict(enc, conversation, maxResponseTokens, tokenLimit);
      |kept| > 1 ==> kept[|kept| - 1] == conversation[|conversation| - 1]
  {
    var kept := Evict(enc, conversation, maxResponseTokens, tokenLimit);
    if |kept| > 1 {
      assert kept[|kept| - 1] == kept[1..][|kept| - 2];
    }
  }

  /** The conversation a pass sends before eviction: the user's input is added unless a function result is pending. */
  function WithUserInput(conversation: seq<Message>, functionCalling: bool, userInput: string): (c: seq<Message>)
    ensures Extends(conversation, c)
    ensures !functionCalling <==> |c| == |conversation| + 1
    ensures !functionCalling ==> c[|conversation|] == Message(User, userInput, None)
  {
    if functionCalling then conversation else conversation + [Message(User, userInput, None)]
  }

  // ---------------------------------------------------------------------------------
  // The conversation loop

  /** `after` is `before`, or `before` with one message appended. */
  predicate Extends(before: seq<Message>, after: seq<Message>) {
    |before| <= |after| <= |before| + 1 && after[..|before|] == before
  }

  /** The loop's state after a step, and what the step reported. */
  datatype Step = Step(conversation: seq<Message>, functionCalling: bool, result: TurnResult)

  /**
   * The effect of one response on the conversation and the function-calling flag. A failure
   * changes nothing; otherwise at most one message is appended, and the flag is set exactly
   * when that message is a function result.
   */
  function Respond(plugins: seq<Plugin>, conversation: seq<Message>, functionCalling: bool,
                   response: Response, invoke: Invocation -> Result<Option<string>, Error>): (s: Step)
    ensures Extends(conversation, s.conversation)
    ensures s.result.Halted? ==> s.conversation == conversation && s.functionCalling == functionCalling
    ensures !s.result.Halted? ==>
      (s.functionCalling <==> |s.conversation| > |conversation| && s.conversation[|conversation|].role == Function)
    ensures response.TransportFailed? ==> s.result == Halted(TransportFailure(response.statusCode, response.reason))
    ensures response.Completion? && response.finishReason == FunctionCallReason ==>
      && (forall k :: |conversation| <= k < |s.conversation| ==> s.conversation[k].role == Function)
      && (s.result.Halted? <==> response.functionCall.None? || CallFunction(plugins, response.functionCall.value, invoke).Failure?)
      && (response.functionCall.None? ==> s.result == Halted(MissingFunctionCall))
      && (!s.result.Halted? ==> s.result == Replied(if response.content == "" then None else Some(response.content), false))
    ensures response.Completion? && response.finishReason == FunctionCallReason && response.functionCall.Some? ==>
      var call := response.functionCall.value;
      match CallFunction(plugins, call, invoke)
      case Failure(e) => s.result == Halted(e)
      case Success(None) => s.conversation == conversation
      case Success(Some(result)) => s.conversation == conversation + [Message(Function, result, Some(call.name))]
    ensures response.Completion? && response.finishReason != FunctionCallReason ==>
      && s.result == Replied(Some(response.content), response.finishReason == LengthReason)
      && s.conversation == conversation + [Message(Assistant, response.content, None)]
      && !s.functionCalling
  {
    match response
    case TransportFailed(status, reason) =>
      Step(conversation, functionCalling, Halted(TransportFailure(status, reason)))
    case Completion(finishReason, content, functionCall) =>
      if finishReason == FunctionCallReason then
        match functionCall
        case None => Step(conversation, functionCalling, Halted(MissingFunctionCall))
        case Some(call) =>
          var shown := if content == "" then None else Some(content);
          match CallFunction(plugins, call, invoke)
          case Failure(e) => Step(conversation, functionCalling, Halted(e))
          case Success(None) => Step(conversation, false, Replied(shown, false))
          case Success(Some(result)) =>
            Step(conversation + [Message(Function, result, Some(call.name))], true, Replied(shown, false))
      else
        Step(conversation + [Message(Assistant, content, None)], false,
             Replied(Some(content), finishReason == LengthReason))
  }

  /** The conversation as one pass sends it: the user's input if no result is pending, then eviction. */
  function Request(enc: string -> nat, tokenLimit: int, conversation: seq<Message>, functionCalling: bool,
                   userInput: string): (request: seq<Message>)
    ensures conversation != [] ==> |request| >= 1 && request[0] == conversation[0]
    ensures !functionCalling && |request| > 1 ==> request[|request| - 1] == Message(User, userInput, None)
    ensures GetConversationTokenNum(enc, request) + MaxResponseTokens <= tokenLimit || |request| <= 1
  {
    EvictKeepsLast(enc, WithUserInput(conversation, functionCalling, userInput), MaxResponseTokens, tokenLimit);
    Evict(enc, WithUserInput(conversation, functionCalling, userInput), MaxResponseTokens, tokenLimit)
  }

  /**
   * One pass of the loop: a request over budget ends the run with ContextOverflow, otherwise
   * the response acts on the request. The system message stays first, the new user message
   * is the last one sent unless eviction left only the system message, and the pass adds at
   * most one message after the request.
   */
  function Pass(enc: string -> nat, tokenLimit: int, plugins: seq<Plugin>, conversation: seq<Message>,
                functionCalling: bool, exchange: Exchange,
                invoke: Invocation -> Result<Option<string>, Error>): (s: Step)
    ensures conversation != [] ==> |s.conversation| >= 1 && s.conversation[0] == conversation[0]
    ensures var request := Request(enc, tokenLimit, conversation, functionCalling, exchange.userInput);
      && Extends(request, s.conversation)
      && (!functionCalling && |request| > 1 ==> request[|request| - 1] == Message(User, exchange.userInput, None))
      && (GetConversationTokenNum(enc, request) + MaxResponseTokens > tokenLimit ==>
            s.result == Halted(ContextOverflow) && s.conversation == request && s.functionCalling == functionCalling)
  {
    var request := Request(enc, tokenLimit, conversation, functionCalling, exchange.userInput);
    if GetConversationTokenNum(enc, request) + MaxResponseTokens > tokenLimit then
      Step(request, functionCalling, Halted(ContextOverflow))
    else
      Respond(plugins, request, functionCalling, exchange.response, invoke)
  }

  /** The end state of a run, the failure that ended it if any, and the passes made. */
  datatype Outcome = Outcome(conversation: seq<Message>, functionCalling: bool, halt: Option<Error>, turns: nat)

  /**
   * The loop over a script, for any pass: passes run in order from the given state until one
   * of them fails; the outcome counts the passes made, the failing one included.
   */
  function Loop(pass: (seq<Message>, bool, Exchange) -> Step, conversation: seq<Message>,
                functionCalling: bool, script: seq<Exchange>): (o: Outcome)
    ensures o.turns <= |script|
    ensures o.halt.None? ==> o.turns == |script|
    ensures o.halt.Some? ==> o.turns >= 1
    decreases |script|, 1
  {
    if script == [] then Outcome(conversation, functionCalling, None, 0)
    else LoopFrom(pass, conversation, functionCalling, script)
  }

  /** The loop over a non-empty script: the first pass, then, unless it failed, the loop over the rest. */
  function LoopFrom(pass: (seq<Message>, bool, Exchange) -> Step, conversation: seq<Message>,
                    functionCalling: bool, script: seq<Exchange>): (o: Outcome)
    requires script != []
    ensures 1 <= o.turns <= |script|
    ensures o.halt.None? ==> o.turns == |script|
    decreases |script|, 0
  {
    var s := pass(conversation, functionCalling, script[0]);
    if s.result.Halted? then Outcome(s.conversation, s.functionCalling, Some(s.result.error), 1)
    else
      var rest := Loop(pass, s.conversation, s.functionCalling, script[1..]);
      rest.(turns := rest.turns + 1)
  }

  /** A non-empty script: the first pass, then, unless it failed, the loop over the rest. */
  lemma LoopFirstPass(pass: (seq<Message>, bool, Exchange) -> Step, conversation: seq<Message>,
                      functionCalling: bool, script: seq<Exchange>)
    requires script != []
    ensures var s := pass(conversation, functionCalling, script[0]);
      Loop(pass, conversation, functionCalling, script)
        == if s.result.Halted? then Outcome(s.conversation, s.functionCalling, Some(s.result.error), 1)
           else var rest := Loop(pass, s.conversation, s.functionCalling, script[1..]);
             rest.(turns := rest.turns + 1)
  {
  }

  /** Once a run has failed, later exchanges are never processed: there is no retry. */
  lemma {:induction false} LoopStopsAtFailure(pass: (seq<Message>, bool, Exchange) -> Step,
                                              conversation: seq<Message>, functionCalling: bool,
                                              script: seq<Exchange>, more: seq<Exchange>)
    requires Loop(pass, conversation, functionCalling, script).halt.Some?
    ensures Loop(pass, conversation, functionCalling, script + more)
      == Loop(pass, conversation, functionCalling, script)
    decreases |script|
  {
    var s := pass(conversation, functionCalling, script[0]);
    assert (script + more)[0] == script[0];
    if !s.result.Halted? {
      assert (script + more)[1..] == script[1..] + more;
      LoopStopsAtFailure(pass, s.conversation, s.functionCalling, script[1..], more);
    }
  }

  /** A run that does not fail over `script` goes on over `more` from the state it reached. */
  lemma {:induction false} LoopContinues(pass: (seq<Message>, bool, Exchange) -> Step,
                                         conversation: seq<Message>, functionCalling: bool,
                                         script: seq<Exchange>, more: seq<Exchange>)
    requires Loop(pass, conversation, functionCalling, script).halt.None?
    ensures var o := Loop(pass, conversation, functionCalling, script);
      var rest := Loop(pass, o.conversation, o.functionCalling, more);
      Loop(pass, conversation, functionCalling, script + more) == rest.(turns := rest.turns + |script|)
    decreases |script|
  {
    if script == [] {
      assert script + more == more;
    } else {
      var s := pass(conversation, functionCalling, script[0]);
      assert (script + more)[0] == script[0];
      assert (script + more)[1..] == script[1..] + more;
      LoopContinues(pass, s.conversation, s.functionCalling, script[1..], more);
    }
  }

  /**
   * The failure a run reports is that of its last pass, and every pass before it succeeded:
   * the run over the earlier exchanges does not fail, and the next pass from its state does.
   */
  lemma {:induction false} LoopHaltIsFirstFailure(pass: (seq<Message>, bool, Exchange) -> Step,
                                                  conversation: seq<Message>, functionCalling: bool,
                                                  script: seq<Exchange>)
    requires Loop(pass, conversation, functionCalling, script).halt.Some?
    ensures var o := Loop(pass, conversation, functionCalling, script);
      var before := Loop(pass, conversation, functionCalling, script[..o.turns - 1]);
      && before.halt.None?
      && pass(before.conversation, before.functionCalling, script[o.turns - 1]).result == Halted(o.halt.value)
    decreases |script|
  {
    var o := Loop(pass, conversation, functionCalling, script);
    var s := pass(conversation, functionCalling, script[0]);
    if s.result.Halted? {
      assert script[..0] == [];
    } else {
      var tail := script[1..];
      LoopHaltIsFirstFailure(pass, s.conversation, s.functionCalling, tail);
      var r := Loop(pass, s.conversation, s.functionCalling, tail);
      assert o.turns == r.turns + 1;
      var prefix := script[..o.turns - 1];
      assert prefix != [] && prefix[0] == script[0] && prefix[1..] == tail[..r.turns - 1];
      assert script[o.turns - 1] == tail[r.turns - 1];
    }
  }

  /** A pass that keeps the first message of every non-empty conversation keeps it over a whole run. */
  lemma {:induction false} LoopKeepsFirst(pass: (seq<Message>, bool, Exchange) -> Step,
                                          conversation: seq<Message>, functionCalling: bool,
                                          script: seq<Exchange>)
    requires forall c, fc, e :: c != [] ==>
      |pass(c, fc, e).conversation| >= 1 && pass(c, fc, e).conversation[0] == c[0]
    ensures var o := Loop(pass, conversation, functionCalling, script);
      conversation != [] ==> |o.conversation| >= 1 && o.conversation[0] == conversation[0]
    decreases |script|
  {
    if script != [] {
      var s := pass(conversation, functionCalling, script[0]);
      if !s.result.Halted? {
        LoopKeepsFirst(pass, s.conversation, s.functionCalling, script[1..]);
      }
    }
  }

  /**
   * The chat loop: the passes of Program.cs over a script of exchanges. The system message
   * is never evicted, so it stays first for the whole run.
   */
  function RunFrom(enc: string -> nat, tokenLimit: int, plugins: seq<Plugin>, conversation: seq<Message>,
                   functionCalling: bool, script: seq<Exchange>,
                   invoke: Invocation -> Result<Option<string>, Error>): (o: Outcome)
    ensures conversation != [] ==> |o.conversation| >= 1 && o.conversation[0] == conversation[0]
  {
    var pass := (c, fc, e) => Pass(enc, tokenLimit, plugins, c, fc, e, invoke);
    LoopKeepsFirst(pass, conversation, functionCalling, script);
    Loop(pass, conversation, functionCalling, script)
  }

  /**
   * One pass of the chat loop over exchange `turns`: a failing pass ends the run there,
   * otherwise the run goes on over the later exchanges from the state the pass leaves.
   */
  lemma RunFromStep(enc: string -> nat, tokenLimit: int, plugins: seq<Plugin>,
                    invoke: Invocation -> Result<Option<string>, Error>, script: seq<Exchange>, turns: nat,
                    conversation: seq<Message>, functionCalling: bool, s: Step, whole: Outcome)
    requires turns < |script|
    requires var rest := RunFrom(enc, tokenLimit, plugins, conversation, functionCalling, script[turns..], invoke);
      whole == rest.(turns := rest.turns + turns)
    requires s == Pass(enc, tokenLimit, plugins, conversation, functionCalling, script[turns], invoke)
    ensures s.result.Halted? ==>
      whole == Outcome(s.conversation, s.functionCalling, Some(s.result.error), turns + 1)
    ensures !s.result.Halted? ==>
      var rest := RunFrom(enc, tokenLimit, plugins, s.conversation, s.functionCalling, script[turns + 1..], invoke);
      whole == rest.(turns := rest.turns + turns + 1)
  {
    assert script[turns..][0] == script[turns] && script[turns..][1..] == script[turns + 1..];
    LoopFirstPass((c, fc, e) => Pass(enc, tokenLimit, plugins, c, fc, e, invoke),
                  conversation, functionCalling, script[turns..]);
  }

  /** A pass whose request fits the budget is the response's step on that request. */
  lemma PassResponds(enc: string -> nat, tokenLimit: int, plugins: seq<Plugin>, conversation: seq<Message>,
                     functionCalling: bool, exchange: Exchange,
                     invoke: Invocation -> Result<Option<string>, Error>)
    requires GetConversationTokenNum(enc, Request(enc, tokenLimit, conversation, functionCalling, exchange.userInput))
      + MaxResponseTokens <= tokenLimit
    ensures Pass(enc, tokenLimit, plugins, conversation, functionCalling, exchange, invoke)
      == Respond(plugins, Request(enc, tokenLimit, conversation, functionCalling, exchange.userInput),
                 functionCalling, exchange.response, invoke)
  {
  }

  /**
   * A failed status ends the run at the pass that received it, with that status and reason
   * unless the request was already over budget; the conversation stays the request as sent.
   */
  lemma TransportFailureEndsRun(enc: string -> nat, tokenLimit: int, plugins: seq<Plugin>,
                                conversation: seq<Message>, functionCalling: bool, script: seq<Exchange>,
                                invoke: Invocation -> Result<Option<string>, Error>)
    requires script != [] && script[0].response.TransportFailed?
    ensures var o := RunFrom(enc, tokenLimit, plugins, conversation, functionCalling, script, invoke);
      var request := Request(enc, tokenLimit, conversation, functionCalling, script[0].userInput);
      && o.turns == 1
      && o.halt == Some(if GetConversationTokenNum(enc, request) + MaxResponseTokens > tokenLimit
                        then ContextOverflow
                        else TransportFailure(script[0].response.statusCode, script[0].response.reason))
      && o.conversation == request && o.functionCalling == functionCalling
  {
    LoopFirstPass((c, fc, e) => Pass(enc, tokenLimit, plugins, c, fc, e, invoke),
                  conversation, functionCalling, script);
  }

  /** The state the loop keeps: the conversation, the function-calling flag and the reduced limit. */
  class ChatSession {
    const enc: string -> nat
    const plugins: seq<Plugin>
    const tokenLimit: int
    var conversation: seq<Message>
    var functionCalling: bool

    /** The system message stays first and is never removed. */
    ghost predicate Valid()
      reads this
    {
      |conversation| >= 1 && conversation[0] == SystemMessage
    }

    /** Starts with the system message alone; the catalog's cost is taken off the limit once. */
    constructor (enc: string -> nat, render: JSchema -> string, plugins: seq<Plugin>,
                 functions: seq<ChatFunctionDescriptor>)
      requires ChatPluginBase.IsCatalog(AllCallables(plugins), functions)
      ensures Valid() && conversation == [SystemMessage] && !functionCalling
      ensures this.enc == enc && this.plugins == plugins
      ensures tokenLimit == InitialTokenLimit - GetFunctionsTokenNum(enc, render, functions)
    {
      this.enc := enc;
      this.plugins := plugins;
      this.tokenLimit := InitialTokenLimit - GetFunctionsTokenNum(enc, render, functions);
      conversation := [SystemMessage];
      functionCalling := false;
    }

    /** Reads the user's input only when no function result is waiting to be sent. */
    method AcceptUserInput(userInput: string)
      requires Valid()
      modifies this`conversation
      ensures Valid()
      ensures conversation == WithUserInput(old(conversation), functionCalling, userInput)
    {
      if !functionCalling {
        conversation := conversation + [Message(User, userInput, None)];
      }
    }

    /**
     * The eviction loop. It stops once the estimate fits; with only the system message
     * left and the budget still exceeded, removing index 1 throws, reported as false.
     */
    method EnforceBudget() returns (ok: bool)
      requires Valid()
      modifies this`conversation
      ensures Valid()
      ensures conversation == Evict(enc, old(conversation), MaxResponseTokens, tokenLimit)
      ensures ok <==> GetConversationTokenNum(enc, conversation) + MaxResponseTokens <= tokenLimit
    {
      var tokenNum := GetConversationTokenNum(enc, conversation);
      while tokenNum + MaxResponseTokens > tokenLimit
        invariant Valid()
        invariant tokenNum == GetConversationTokenNum(enc, conversation)
        invariant Evict(enc, conversation, MaxResponseTokens, tokenLimit)
          == Evict(enc, old(conversation), MaxResponseTokens, tokenLimit)
        decreases tokenNum
      {
        if |conversation| == 1 {
          return false;
        }
        ConversationTokenNumRemoveAt(enc, conversation, 1);
        conversation := conversation[..1] + conversation[2..];
        tokenNum := GetConversationTokenNum(enc, conversation);
      }
      ok := true;
    }

    /**
     * Acts on the endpoint's answer. A failed status ends the run. A function call is
     * routed; a result is appended as a function message and the next pass sends it
     * without asking the user, no result appends nothing. Any other finish reason appends
     * the assistant's text, and "length" marks it as cut short.
     */
    method HandleResponse(response: Response, invoke: Invocation -> Result<Option<string>, Error>)
      returns (t: TurnResult)
      requires Valid()
      modifies this`conversation, this`functionCalling
      ensures Valid()
      ensures Step(conversation, functionCalling, t)
        == Respond(plugins, old(conversation), old(functionCalling), response, invoke)
    {
      match response
      case TransportFailed(status, reason) =>
        t := Halted(TransportFailure(status, reason));
      case Completion(finishReason, content, functionCall) =>
        if finishReason == FunctionCallReason {
          if functionCall.None? {
            return Halted(MissingFunctionCall);
          }
          var call := functionCall.value;
          var result := CallFunction(plugins, call, invoke);
          if result.Failure? {
            return Halted(result.error);
          }
          if result.value.Some? {
            conversation := conversation + [Message(Function, result.value.value, Some(call.name))];
            functionCalling := true;
          } else {
            functionCalling := false;
          }
          t := Replied(if content == "" then None else Some(content), false);
        } else {
          conversation := conversation + [Message(Assistant, content, None)];
          t := Replied(Some(content), finishReason == LengthReason);
          functionCalling := false;
        }
    }

    /** One pass of the loop: maybe the user's input, then eviction, then the response to the request. */
    method Iterate(userInput: string, response: Response, invoke: Invocation -> Result<Option<string>, Error>)
      returns (t: TurnResult)
      requires Valid()
      modifies this`conversation, this`functionCalling
      ensures Valid()
      ensures Step(conversation, functionCalling, t)
        == Pass(enc, tokenLimit, plugins, old(conversation), old(functionCalling), Exchange(userInput, response), invoke)
    {
      AcceptUserInput(userInput);
      var ok := EnforceBudget();
      if !ok {
        return Halted(ContextOverflow);
      }
      t := HandleResponse(response, invoke);
    }

    /**
     * One turn of the loop over exchange `turns` of a script, keeping the run's outcome: a
     * failing pass ends the run with its error, otherwise the rest of the run goes on from
     * the new state.
     */
    method Turn(script: seq<Exchange>, turns: nat, invoke: Invocation -> Result<Option<string>, Error>,
                ghost whole: Outcome)
      returns (t: TurnResult)
      requires Valid() && turns < |script|
      requires var rest := RunFrom(enc, tokenLimit, plugins, conversation, functionCalling, script[turns..], invoke);
        whole == rest.(turns := rest.turns + turns)
      modifies this`conversation, this`functionCalling
      ensures Valid()
      ensures t.Halted? ==> whole == Outcome(conversation, functionCalling, Some(t.error), turns + 1)
      ensures !t.Halted? ==>
        var rest := RunFrom(enc, tokenLimit, plugins, conversation, functionCalling, script[turns + 1..], invoke);
        whole == rest.(turns := rest.turns + turns + 1)
    {
      var exchange := script[turns];
      ghost var before, calling := conversation, functionCalling;
      t := Iterate(exchange.userInput, exchange.response, invoke);
      RunFromStep(enc, tokenLimit, plugins, invoke, script, turns, before, calling,
                  Step(conversation, functionCalling, t), whole);
    }

    /**
     * The loop itself, over a finite script of exchanges: passes run in order and the first
     * failure ends the run, with no retry.
     */
    method Run(script: seq<Exchange>, invoke: Invocation -> Result<Option<string>, Error>)
      returns (halt: Option<Error>, turns: nat)
      requires Valid()
      modifies this`conversation, this`functionCalling
      ensures Valid()
      ensures Outcome(conversation, functionCalling, halt, turns)
        == RunFrom(enc, tokenLimit, plugins, old(conversation), old(functionCalling), script, invoke)
    {
      ghost var whole := RunFrom(enc, tokenLimit, plugins, conversation, functionCalling, script, invoke);
      halt, turns := None, 0;
      assert script[turns..] == script;
      while turns < |script|
        invariant Valid()
        invariant turns <= |script|
        invariant var rest := RunFrom(enc, tokenLimit, plugins, conversation, functionCalling, script[turns..], invoke);
          whole == rest.(turns := rest.turns + turns)
      {
        var t := Turn(script, turns, invoke, whole);
        turns := turns + 1;
        if t.Halted? {
          return Some(t.error), turns;
        }
      }
    }
  }
}
