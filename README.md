# ChatCmd in Dafny

A model of the core of ChatCmd, a console chat client that talks to a chat-completion
endpoint and lets the model call plugin methods. Two parts are modelled:

- **Plugins** (`ChatPluginBase.cs`): the JSON Schema kind of a .NET parameter type, the
  schema of a method's parameters, the catalog of `<Type>-<Method>` function descriptors
  built from the methods that carry the chat-function attribute, and the marshalling of a
  call's named JSON arguments into declared-parameter order.
- **The program** (`Program.cs`): the token estimates of the conversation and of the
  catalog, the routing of a function call by splitting its name at `-`, and the
  conversation loop: the system message at index 0, the user message appended only when no
  function result is pending, the eviction of the message at index 1 until the estimate plus
  the response allowance fits the limit, and the handling of function-call, ordinary and
  failed responses.

Files:

- `wrappers.dfy` — `Option` and `Result`.
- `sequences.dfy` — small facts about slicing and concatenating sequences.
- `chat_types.dfy` — the data: .NET parameter types (`ClrType`), JSON Schema, methods and
  plugins as explicit tables instead of reflection, descriptors, JSON argument values,
  messages and the errors (the exceptions the code lets escape).
- `text.dfy` — `String.Split` on one separator character, with `Join` as its inverse.
- `chat_plugin_base.dfy` — `GetJsonType`, `CreateJsonSchemaForParameters` (a loop, as in
  the code), `GetFunctions` (a loop), method lookup, argument marshalling, `ExecuteFunction`.
- `token_count.dfy` — the conversation and catalog token estimates over an abstract
  tokenizer `enc: string -> nat`.
- `program.dfy` — the catalog over all plugins, `CallFunction`, the eviction function, the
  functions `Respond` (one response) and `Pass` (one pass of the loop), `Loop`, the fold of a
  pass over a script of exchanges, and the class `ChatSession` holding the conversation, the
  `functionCalling` flag and the reduced token limit, with one method per step of the loop,
  each proved equal to the function that specifies it.

The tokenizer, the JSON text of a schema (`render`) and the invocation of a plugin method
(`invoke`, which returns the serialized result, no result, or the error the method throws)
are parameters. Endpoint responses are inputs: a `Response` is either a failed status or a
finish reason, a content text and an optional function call whose arguments are a JSON
object or malformed.

Where what the program appears meant to do and what its code does differ, the model follows the code:

- An operation name that the matched plugin does not have is not a recoverable null result:
  the method lookup yields null and the next line throws, which ends the program
  (`MethodNotFound`). An overloaded name makes the lookup itself throw (`AmbiguousMatch`).
- Duplicate descriptor names are never rejected: overloaded attributed methods, or two plugin
  types with the same short type name, publish the same qualified name more than once
  (`CatalogNamesDistinct` needs distinct type and method pairs), and a call under an
  overloaded name ends the program with `AmbiguousMatch`.
- A missing argument throws for every declared parameter, optional ones included: the code
  indexes the dictionary for each parameter (`OptionalArgumentStillDemanded`).
- No argument is coerced to the parameter's type; the JSON values reach the method as they are.
- The eviction loop has no guard: once only the system message is left and the budget is
  still exceeded, removing index 1 throws, which ends the program (`ContextOverflow`).
- A function call whose result is null appends nothing at all, no assistant message either,
  and clears `functionCalling`.
- Every exception the code does not catch ends the loop; the model reports it as
  `Halted(error)` and processes no further exchange.

## Model

| member | source | states |
|---|---|---|
| Text.Split | Program.cs:206 | every part is free of the separator and there is at least one part |
| Text.JoinSplit | Program.cs:206 | joining the parts of a split with the separator gives back the original text |
| Text.SplitJoin | Program.cs:206 | splitting separator-free parts joined by the separator gives back exactly those parts |
| ChatPluginBase.GetJsonType | ChatPluginBase.cs:87-120 | string and DateTime map to String, short/int/long to Integer, float/double/decimal to Number, bool to Boolean, object to Object, arrays and other enumerables to Array (string excluded because its branch comes first); every other type fails with UnsupportedType naming it, and only those |
| ChatPluginBase.FirstUnsupportedIsFirst | ChatPluginBase.cs:68-75 | schema generation stops at the first parameter whose type is unsupported, and succeeds exactly when there is none |
| ChatPluginBase.RequiredNames | ChatPluginBase.cs:78-81 | a name is required exactly when some non-optional parameter has it |
| ChatPluginBase.RequiredNamesOrdered | ChatPluginBase.cs:78-81 | the required list keeps declaration order |
| ChatPluginBase.CreateJsonSchemaForParameters | ChatPluginBase.cs:59-85 | fails exactly when a parameter type is unsupported, with the first such type; otherwise an Object schema with the attribute's description, one property per parameter name (the last parameter of that name decides its kind and description) and the required list |
| ChatPluginBase.SchemaStep | ChatPluginBase.cs:68-82 | adding one parameter's property and requirement to the schema of the earlier parameters gives the schema of the longer list |
| ChatPluginBase.QualifiedName | ChatPluginBase.cs:33 | the name holds a dash, and when the type name has none, the first dash comes right after the type name |
| ChatPluginBase.Callables | ChatPluginBase.cs:24-28 | there are as many callables as methods exactly when every method carries the chat-function attribute |
| ChatPluginBase.CallablesAttributed | ChatPluginBase.cs:24-28 | the callable methods are exactly the methods carrying the chat-function attribute |
| ChatPluginBase.CatalogErrorIsFirst | ChatPluginBase.cs:24-39 | catalog generation fails exactly when some attributed method has an unsupported parameter, with that of the first such method |
| ChatPluginBase.DescribeMethod | ChatPluginBase.cs:31-36 | the descriptor is named type-dash-method, carries the attribute's description and the method's parameter schema, or fails with the first unsupported type |
| ChatPluginBase.GetFunctions | ChatPluginBase.cs:18-43 | fails, returning no list, exactly when some attributed method has an unsupported parameter; otherwise one descriptor per attributed method, in method order |
| ChatPluginBase.QualifiedNameRoundTrip | ChatPluginBase.cs:33 | for dash-free type and method names, splitting the descriptor name at dashes gives back the type name and the method name |
| ChatPluginBase.CatalogNamesDistinct | ChatPluginBase.cs:33 | distinct dash-free (type, method) pairs give distinct descriptor names |
| ChatPluginBase.MethodsNamed | ChatPluginBase.cs:51 | exactly the methods with the requested name |
| ChatPluginBase.GetMethod | ChatPluginBase.cs:51-52 | succeeds exactly when one method has the name; otherwise MethodNotFound when none has it and AmbiguousMatch when several do |
| ChatPluginBase.BuildArguments | ChatPluginBase.cs:53 | succeeds exactly when every parameter name is a key, with the values in declared-parameter order; otherwise MissingArgument for a name that is not a key |
| ChatPluginBase.BuildArgumentsFailsAtFirstMissing | ChatPluginBase.cs:53 | the reported missing argument is the first parameter whose name is not a key |
| ChatPluginBase.ExecuteFunction | ChatPluginBase.cs:45-57 | malformed arguments fail; a failed method lookup is passed on; for the unique method, all names present means it is invoked with the values in declared order, a missing name fails with MissingArgument |
| ChatPluginBase.ArgumentsBeyondParametersIgnored | ChatPluginBase.cs:48-53 | keys that name no parameter do not change the marshalled arguments |
| ChatPluginBase.OptionalArgumentStillDemanded | ChatPluginBase.cs:53 | an optional parameter missing from the payload still fails the call |
| TokenCount.MessagesTokenSum | Program.cs:156 | every message contributes at least 4 tokens |
| TokenCount.GetConversationTokenNum | Program.cs:153-158 | the estimate is at least 2 plus 4 per message |
| TokenCount.MessagesTokenSumConcat | Program.cs:156 | the sum is additive over concatenation |
| TokenCount.ConversationTokenNumAppend | Program.cs:153-158 | appending a message adds exactly that message's cost |
| TokenCount.ConversationTokenNumRemoveAt | Program.cs:153-158 | removing any message lowers the estimate by exactly its cost, so by at least 4 |
| TokenCount.DescriptorsTokenSum | Program.cs:149 | every descriptor contributes at least 6 tokens |
| TokenCount.GetFunctionsTokenNum | Program.cs:146-151 | the catalog estimate is at least 2 plus 6 per descriptor |
| TokenCount.FunctionsTokenNumConcat | Program.cs:149-150 | the catalog estimate of two concatenated catalogs is the sum of theirs minus the constant 2 |
| Program.AllCallablesConcat | Program.cs:196-199 | the callables of consecutive plugin lists concatenate |
| Program.AllCatalogErrorAt | Program.cs:196-199 | the first plugin whose catalog fails decides the error of the whole startup |
| Program.AllCatalogStep | Program.cs:196-199 | a plugin whose catalog succeeds extends the catalog of the plugins before it |
| Program.GetFunctions | Program.cs:190-202 | fails exactly when some plugin's catalog fails, with the first such error; otherwise the descriptors of all plugins in registration order |
| Program.FindPlugin | Program.cs:208-209 | the first plugin whose type name matches, or none when no plugin matches |
| Program.CallFunction | Program.cs:204-218 | a call fails only when some plugin matches the first part of its name |
| Program.CallFunctionUnknownPlugin | Program.cs:210-217 | a name whose first part matches no plugin yields a null result |
| Program.CallFunctionRoutes | Program.cs:206-213 | the call goes to the first plugin of that type name with the second part as the operation; a name without a second part fails with MissingOperationName |
| Program.CallFunctionRoundTrip | Program.cs:206-212 | a call under a descriptor's name reaches the method it describes, with the arguments in declared order |
| Program.Evict | Program.cs:82-87 | the result keeps the system message and a suffix of the later messages in their order, and fits the budget unless only the system message is left (or the conversation was empty) |
| Program.EvictIsMinimal | Program.cs:82-87 | every longer suffix would exceed the budget, so no message is removed needlessly |
| Program.EvictKeepsLast | Program.cs:85 | the newest message survives unless every message after the system message is removed |
| Program.WithUserInput | Program.cs:71-80 | exactly when no function result is pending, one message is appended and it is the user message with the input; otherwise the conversation is unchanged; the earlier messages never change |
| Program.Request | Program.cs:71-87 | the conversation one pass sends keeps the system message first, ends with the new user message unless eviction left only the system message, and fits the budget unless at most one message is left |
| Program.Respond | Program.cs:92-142 | the step of one response: a failed status halts with nothing changed; a function call appends only function-role messages, halts exactly when the call is missing or fails (with that error), appends the result under the call's name and sets functionCalling, or appends nothing and clears it when there is no result; any other finish reason appends the assistant message with the content, clears functionCalling and marks "length" as truncated |
| Program.Pass | Program.cs:71-142 | one pass of the loop: the request is the evicted conversation with the user's input, the system message stays first, the new user message is last unless eviction removed all later messages, an over-budget request halts with ContextOverflow, and the pass only extends the request |
| Program.PassResponds | Program.cs:82-142 | a pass whose request fits the budget is exactly the response's step on that request |
| Program.Loop | Program.cs:69-143 | a run processes at most the exchanges given, all of them when it does not halt and at least one when it does |
| Program.LoopFrom | Program.cs:69-143 | a run over a non-empty script makes at least one pass and at most one per exchange, one per exchange when it does not halt |
| Program.LoopFirstPass | Program.cs:69-143 | a run over a non-empty script is its first pass followed, unless that pass failed, by the run over the rest from the state it left |
| Program.LoopStopsAtFailure | Program.cs:92-96 | once a run halts, later exchanges change nothing: the outcome over a longer script is the same |
| Program.LoopContinues | Program.cs:69-143 | a run that does not halt over a prefix goes on over the rest from the state the prefix left |
| Program.LoopHaltIsFirstFailure | Program.cs:69-143 | a halted run reports the error of its last pass, and every pass before that one succeeded |
| Program.LoopKeepsFirst | Program.cs:69-143 | a pass that keeps the first message of every conversation keeps it over a whole run |
| Program.RunFrom | Program.cs:69-143 | the chat loop over a script of exchanges; the system message stays first for the whole run |
| Program.RunFromStep | Program.cs:69-143 | the chat loop over a script is one pass followed, unless it failed, by the loop over the later exchanges |
| Program.TransportFailureEndsRun | Program.cs:82-96 | a failed status on the first exchange ends the run after one pass: with ContextOverflow exactly when the request is over budget, otherwise with that status and reason; the conversation is left as the request sent |
| Program.ChatSession.constructor | Program.cs:43-67 | the conversation is the system message alone, no function result is pending, and the limit is reduced by the catalog estimate once |
| Program.ChatSession.AcceptUserInput | Program.cs:71-80 | appends the user message only when functionCalling is false, keeping the system message first |
| Program.ChatSession.EnforceBudget | Program.cs:82-87 | the conversation becomes the eviction result; success exactly when the estimate plus the response allowance fits the limit |
| Program.ChatSession.HandleResponse | Program.cs:92-142 | the new conversation, flag and turn result are exactly those of Respond on the old state |
| Program.ChatSession.Iterate | Program.cs:70-142 | the new conversation, flag and turn result are exactly those of Pass on the old state and the exchange |
| Program.ChatSession.Turn | Program.cs:69-143 | one turn over the next exchange keeps the run's outcome: a failing pass is where the run ends, with that error and the state it left, otherwise the rest of the run goes on from the new state |
| Program.ChatSession.Run | Program.cs:69-143 | the final conversation, flag, error and number of passes are exactly those of the fold of Pass over the script, so the first failure ends the run and otherwise every exchange is processed |

## Left out

- HTTP transport, request building and response parsing (Program.cs:38-41, 57-63, 89-99): a response is an input value; the model name and the request JSON are not modelled.
- The GPT-3 tokenizer: `enc` is an uninterpreted function; the text of a schema as counted is `render`.
- Console input and output (`ReadCommand`, `Console.WriteLine`, the "[...]" marker): the text a turn shows and the truncation flag are returned instead of printed.
- Configuration loading, dependency injection and assembly scanning: plugins are an explicit list in registration order.
- Reflection: methods, attributes and parameters are explicit tables; `MethodInfo.Invoke` and the JSON serialization of its result are the parameter `invoke`.
- ChatIO.cs and its file operations: file-system I/O, only an example plugin.
- `GetMethods` on the plugin's type also lists inherited public methods; the tables list whatever methods the plugin exposes, and their order is taken as given.
- JSchema.Properties is modelled as a map, so the insertion order of properties is not kept; the last parameter of a name decides its property, as the indexer assignment does.
- Null text: a null parameter description is `None` and a null message content in a response is the empty string, as `ToString` of a JSON null gives; a null description on the chat-function attribute is not modelled, the attribute's description being a plain string.
- ChatPluginBase.ExecuteFunction: methods carry no return type, so that a void method gives a null result, and hence that its call appends nothing, rests on `invoke` returning no result for it.
- JSON numbers: `JNumber` holds integers only, so fractional argument values are not modelled; argument values only pass through to `invoke`.
- Program.ChatSession.Run: consumes a finite script of exchanges instead of reading input forever, so it states nothing about a run that never ends.
- Program.ChatSession.Run: plugin methods are modelled as stateless functions of their arguments; `invoke` is one fixed function for the whole run, so a method whose result depends on earlier calls (a file written, read, rewritten and read again) returning different results for the same call is not modelled.
- ChatPluginBase.GetMethod: one method table serves both lookups. The catalog lists public instance methods only (ChatPluginBase.cs:23), while the lookup by name (ChatPluginBase.cs:51) also finds public static methods; a static method that is callable without being in the catalog, and a static overload that makes the lookup ambiguous, are not modelled.
- TokenCount.GetConversationTokenNum: does not model the 32-bit overflow of the C# sum, because estimates of that size are far above the limit the loop keeps.
- Asynchronous calls: the loop is sequential and is modelled as such.
