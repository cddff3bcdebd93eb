/**
 * The data the chat client passes around: the value types a plugin method may declare,
 * the JSON Schema it is described by, the attribute-carrying method and parameter
 * descriptions that reflection would deliver, the function descriptors sent to the
 * endpoint, the conversation messages and the failures that end a run.
 */
module ChatTypes {
  import opened Wrappers

  /** A parameter's declared .NET type, as far as the schema generator distinguishes them. */
  datatype ClrType =
    | StringType
    | Int16 | Int32 | Int64
    | SingleType | DoubleType | DecimalType
    | BooleanType
    | DateTimeType
    | ObjectType
    | ArrayOf(element: ClrType)
      /** Any other type; `enumerable` says whether it implements IEnumerable. */
    | Named(fullName: string, enumerable: bool)

  /** The primitive kinds of JSON Schema that the generator emits. */
  datatype JSchemaType = String | Integer | Number | Boolean | Object | Array

  /** A JSON Schema node: its type, description, named properties and required names. */
  datatype JSchema = JSchema(
    schemaType: JSchemaType,
    description: Option<string>,
    properties: map<string, JSchema>,
    required: seq<string>)

  /** The ChatFunction attribute on a plugin method. */
  datatype ChatFunctionAttribute = ChatFunctionAttribute(description: string)

  /** A formal parameter: name, type, the ChatFunctionParameter attribute's description, optionality. */
  datatype Parameter = Parameter(
    name: string,
    parameterType: ClrType,
    description: Option<string>,
    isOptional: bool)

  /** A public method of a plugin; `attribute` is None when it carries no ChatFunction attribute. */
  datatype MethodInfo = MethodInfo(
    name: string,
    attribute: Option<ChatFunctionAttribute>,
    parameters: seq<Parameter>)

  /** A registered plugin: its type name and its public methods in reflection order. */
  datatype Plugin = Plugin(typeName: string, methods: seq<MethodInfo>)

  /** What is sent to the endpoint about one callable method. */
  datatype ChatFunctionDescriptor = ChatFunctionDescriptor(
    name: string,
    description: string,
    parameters: JSchema)

  /** A JSON value as it arrives in a function call's arguments. */
  datatype Json =
    | JNull
    | JBool(b: bool)
    | JNumber(n: int)
    | JString(s: string)
    | JArray(items: seq<Json>)
    | JObject(fields: map<string, Json>)

  /** A call of a plugin method with its argument array, the way MethodInfo.Invoke receives it. */
  datatype Invocation = Invocation(typeName: string, target: MethodInfo, arguments: seq<Json>)

  datatype Role = System | User | Assistant | Function

  /** A conversation entry; `name` is set only on function-role messages. */
  datatype Message = Message(role: Role, content: string, name: Option<string>)

  /** The exceptions and failures that end the program, one per place the source can fail. */
  datatype Error =
    | UnsupportedType(clrType: ClrType)         // GetJsonType throws ArgumentException
    | MalformedArguments                        // the arguments text is not a JSON object
    | MethodNotFound(methodName: string)        // GetMethod yields null, GetParameters throws
    | AmbiguousMatch(methodName: string)        // GetMethod finds overloads
    | MissingArgument(argumentName: string)     // dictionary lookup throws
    | MissingOperationName                      // parts[1] is out of range
    | MissingFunctionCall                       // finish reason function_call without a call
    | OperationFailed(reason: string)           // the invoked method throws
    | ContextOverflow                           // RemoveAt(1) on the lone system message
    | TransportFailure(statusCode: int, reason: string)
}
