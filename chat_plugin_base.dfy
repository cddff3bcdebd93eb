/**
 * The plugin base class: how a plugin's attributed methods become function descriptors
 * with a JSON Schema for their parameters, and how a call's named arguments are put in
 * declared-parameter order before the method is invoked. Reflection is replaced by the
 * explicit method list a Plugin value carries.
 */
module ChatPluginBase {
  import opened Wrappers
  import opened ChatTypes
  import Text
  import opened Sequences

  // ---------------------------------------------------------------------------------
  // Type mapping

  /** Whether a type implements IEnumerable; string does, being a sequence of chars. */
  predicate ImplementsIEnumerable(t: ClrType) {
    t.StringType? || t.ArrayOf? || (t.Named? && t.enumerable)
  }

  /** The closed set of parameter types the schema generator can describe. */
  predicate Supported(t: ClrType) {
    match t
    case Named(_, enumerable) => enumerable
    case _ => true
  }

  /**
   * The schema kind of a parameter type. The string branch comes before the enumerable one,
   * so a string is never described as an array; anything outside the supported set throws.
   */
  function GetJsonType(t: ClrType): (r: Result<JSchemaType, Error>)
    ensures r.Failure? <==> !Supported(t)
    ensures r.Failure? ==> r.error == UnsupportedType(t)
    ensures r == Success(String) <==> t.StringType? || t.DateTimeType?
    ensures r == Success(Integer) <==> t.Int16? || t.Int32? || t.Int64?
    ensures r == Success(Number) <==> t.SingleType? || t.DoubleType? || t.DecimalType?
    ensures r == Success(Boolean) <==> t.BooleanType?
    ensures r == Success(Object) <==> t.ObjectType?
    ensures r == Success(Array) <==> ImplementsIEnumerable(t) && !t.StringType?
  {
    if t == StringType then Success(String)
    else if t == Int32 || t == Int64 || t == Int16 then Success(Integer)
    else if t == DoubleType || t == SingleType || t == DecimalType then Success(Number)
    else if t == BooleanType then Success(Boolean)
    else if t == DateTimeType then Success(String)
    else if t == ObjectType then Success(Object)
    else if t.ArrayOf? || ImplementsIEnumerable(t) then Success(Array)
    else Failure(UnsupportedType(t))
  }

  // ---------------------------------------------------------------------------------
  // Parameter schema

  /** The type of the first parameter, in declaration order, whose type is not supported. */
  function FirstUnsupported(ps: seq<Parameter>): Option<ClrType> {
    if ps == [] then None
    else
      var before := FirstUnsupported(ps[..|ps| - 1]);
      if before.Some? then before
      else if Supported(ps[|ps| - 1].parameterType) then None
      else Some(ps[|ps| - 1].parameterType)
  }

  /** FirstUnsupported finds nothing exactly when every type is supported, else the first bad one. */
  lemma {:induction false} FirstUnsupportedIsFirst(ps: seq<Parameter>)
    ensures FirstUnsupported(ps).None? <==> forall i :: 0 <= i < |ps| ==> Supported(ps[i].parameterType)
    ensures FirstUnsupported(ps).Some? ==>
      exists i :: (0 <= i < |ps| && ps[i].parameterType == FirstUnsupported(ps).value
        && !Supported(ps[i].parameterType)
        && forall j :: 0 <= j < i ==> Supported(ps[j].parameterType))
  {
    if ps != [] {
      var n := |ps| - 1;
      FirstUnsupportedIsFirst(ps[..n]);
      assert forall j :: 0 <= j < n ==> ps[..n][j] == ps[j];
      if FirstUnsupported(ps[..n]).Some? {
        var i :| 0 <= i < n && ps[..n][i].parameterType == FirstUnsupported(ps[..n]).value
          && !Supported(ps[..n][i].parameterType)
          && forall j :: 0 <= j < i ==> Supported(ps[..n][j].parameterType);
        assert ps[i] == ps[..n][i];
      }
    }
  }

  /** Names of the parameters that are not optional, in declaration order. */
  function RequiredNames(ps: seq<Parameter>): (names: seq<string>)
    ensures |names| <= |ps|
    ensures forall n :: n in names <==> exists p :: p in ps && !p.isOptional && p.name == n
  {
    if ps == [] then []
    else
      var last := ps[|ps| - 1];
      assert forall p | p in ps :: p in ps[..|ps| - 1] || p == last;
      RequiredNames(ps[..|ps| - 1]) + (if last.isOptional then [] else [last.name])
  }

  /** The required list keeps declaration order: an earlier required parameter is listed earlier. */
  lemma {:induction false} RequiredNamesOrdered(ps: seq<Parameter>, i: nat, j: nat)
    requires i < j < |ps| && !ps[i].isOptional && !ps[j].isOptional
    ensures exists a, b :: (0 <= a < b < |RequiredNames(ps)|
      && RequiredNames(ps)[a] == ps[i].name && RequiredNames(ps)[b] == ps[j].name)
  {
    var prefix := ps[..|ps| - 1];
    var before := RequiredNames(prefix);
    assert RequiredNames(ps)[..|before|] == before;
    if j == |ps| - 1 {
      assert RequiredNames(ps) == before + [ps[j].name];
      assert ps[i] == prefix[i];
      assert ps[i].name in before;
      var a :| 0 <= a < |before| && before[a] == ps[i].name;
      assert RequiredNames(ps)[a] == ps[i].name;
      assert RequiredNames(ps)[|before|] == ps[j].name;
    } else {
      assert ps[i] == prefix[i] && ps[j] == prefix[j];
      RequiredNamesOrdered(prefix, i, j);
      var a, b :| 0 <= a < b < |before| && before[a] == ps[i].name && before[b] == ps[j].name;
      assert RequiredNames(ps)[a] == before[a] && RequiredNames(ps)[b] == before[b];
    }
  }

  function ParameterNames(ps: seq<Parameter>): set<string> {
    set p | p in ps :: p.name
  }

  lemma ParameterNamesSnoc(ps: seq<Parameter>, p: Parameter)
    ensures ParameterNames(ps + [p]) == ParameterNames(ps) + {p.name}
  {
  }

  /** No later parameter shares the name of the one at `i`; its property is the one that stays. */
  predicate LastOfName(ps: seq<Parameter>, i: nat)
    requires i < |ps|
  {
    forall j :: i < j < |ps| ==> ps[j].name != ps[i].name
  }

  /** The description the schema of `m` carries: the ChatFunction attribute's, if any. */
  function SchemaDescription(m: MethodInfo): Option<string> {
    if m.attribute.Some? then Some(m.attribute.value.description) else None
  }

  /** `prop` is the property schema of `p`: GetJsonType's kind and the parameter's description. */
  predicate PropertyFor(p: Parameter, prop: JSchema) {
    && GetJsonType(p.parameterType) == Success(prop.schemaType)
    && prop.description == p.description
    && prop.properties == map[]
    && prop.required == []
  }

  /** One property per parameter name; where names repeat, the last parameter's property. */
  ghost predicate PropertiesFor(ps: seq<Parameter>, props: map<string, JSchema>) {
    && props.Keys == ParameterNames(ps)
    && forall i :: 0 <= i < |ps| && LastOfName(ps, i) ==> PropertyFor(ps[i], props[ps[i].name])
  }

  /**
   * `s` describes the parameters of `m`: an object schema with the method's description,
   * the properties of its parameters and the non-optional names as Required.
   */
  ghost predicate IsSchemaFor(m: MethodInfo, s: JSchema) {
    && s.schemaType == Object
    && s.description == SchemaDescription(m)
    && PropertiesFor(m.parameters, s.properties)
    && s.required == RequiredNames(m.parameters)
  }

  /**
   * Builds the parameter schema of `m` one parameter at a time; fails on the first
   * parameter whose type GetJsonType rejects.
   */
  method CreateJsonSchemaForParameters(m: MethodInfo) returns (r: Result<JSchema, Error>)
    ensures r.Success? <==> FirstUnsupported(m.parameters).None?
    ensures r.Failure? ==> r.error == UnsupportedType(FirstUnsupported(m.parameters).value)
    ensures r.Success? ==> IsSchemaFor(m, r.value)
  {
    var ps := m.parameters;
    var schema := JSchema(Object, SchemaDescription(m), map[], []);
    for i := 0 to |ps|
      invariant FirstUnsupported(ps[..i]).None?
      invariant IsSchemaFor(MethodInfo(m.name, m.attribute, ps[..i]), schema)
    {
      var p := ps[i];
      assert ps[..i + 1][..i] == ps[..i];
      var kind := GetJsonType(p.parameterType);
      if kind.Failure? {
        FirstUnsupportedPrefix(ps, i + 1);
        return Failure(kind.error);
      }
      TakeSnoc(ps, i);
      SchemaStep(m.name, m.attribute, ps[..i], p, ps[..i + 1], schema, kind.value);
      schema := WithParameter(schema, p, kind.value);
    }
    assert ps[..|ps|] == ps;
    r := Success(schema);
  }

  /** Once a prefix holds an unsupported parameter, the first one is found in that prefix. */
  lemma {:induction false} FirstUnsupportedPrefix(ps: seq<Parameter>, n: nat)
    requires n <= |ps|
    requires FirstUnsupported(ps[..n]).Some?
    ensures FirstUnsupported(ps) == FirstUnsupported(ps[..n])
    decreases |ps|
  {
    if n < |ps| {
      assert ps[..|ps| - 1][..n] == ps[..n];
      FirstUnsupportedPrefix(ps[..|ps| - 1], n);
    } else {
      assert ps[..n] == ps;
    }
  }

  /** The schema after adding parameter `p` to a schema of the parameters before it. */
  function WithParameter(s: JSchema, p: Parameter, kind: JSchemaType): JSchema {
    s.(properties := s.properties[p.name := JSchema(kind, p.description, map[], [])],
       required := if p.isOptional then s.required else s.required + [p.name])
  }

  /** Adding one more parameter's property to the schema of the parameters before it gives the schema of all. */
  lemma SchemaStep(name: string, attribute: Option<ChatFunctionAttribute>, ps: seq<Parameter>, p: Parameter,
                   longer: seq<Parameter>, s: JSchema, kind: JSchemaType)
    requires longer == ps + [p]
    requires GetJsonType(p.parameterType) == Success(kind)
    requires IsSchemaFor(MethodInfo(name, attribute, ps), s)
    ensures IsSchemaFor(MethodInfo(name, attribute, longer), WithParameter(s, p, kind))
  {
    var s' := WithParameter(s, p, kind);
    assert longer[..|longer| - 1] == ps;
    assert s'.required == RequiredNames(longer);
    PropertiesStep(ps, p, s.properties, kind);
  }

  lemma PropertiesStep(ps: seq<Parameter>, p: Parameter, props: map<string, JSchema>, kind: JSchemaType)
    requires PropertiesFor(ps, props)
    requires GetJsonType(p.parameterType) == Success(kind)
    ensures PropertiesFor(ps + [p], props[p.name := JSchema(kind, p.description, map[], [])])
  {
    var ps' := ps + [p];
    var props' := props[p.name := JSchema(kind, p.description, map[], [])];
    ParameterNamesSnoc(ps, p);
    forall i | 0 <= i < |ps'| && LastOfName(ps', i)
      ensures PropertyFor(ps'[i], props'[ps'[i].name])
    {
      if i < |ps| {
        forall j | i < j < |ps|
          ensures ps[j].name != ps[i].name
        {
          assert ps'[j] == ps[j];
        }
        assert ps'[|ps|].name != ps'[i].name;
      }
    }
  }

  // ---------------------------------------------------------------------------------
  // Function descriptors

  /** The name a descriptor is published under: type name, a dash, method name. */
  function QualifiedName(typeName: string, methodName: string): (name: string)
    ensures '-' in name
    ensures '-' !in typeName ==> Text.IndexOf(name, '-') == |typeName|
  {
    Text.IndexOfFirst(typeName, '-', methodName);
    typeName + "-" + methodName
  }

  /** An attributed method together with the type name of the plugin that declares it. */
  datatype Callable = Callable(typeName: string, target: MethodInfo)

  /** The methods carrying the ChatFunction attribute, in method order. */
  function Callables(typeName: string, methods: seq<MethodInfo>): (cs: seq<Callable>)
    ensures |cs| <= |methods|
    ensures |cs| == |methods| <==> forall i | 0 <= i < |methods| :: methods[i].attribute.Some?
  {
    if methods == [] then []
    else
      var last := methods[|methods| - 1];
      Callables(typeName, methods[..|methods| - 1])
        + (if last.attribute.Some? then [Callable(typeName, last)] else [])
  }

  /** Exactly the attributed methods become callables, each under the plugin's type name. */
  lemma {:induction false} CallablesAttributed(typeName: string, methods: seq<MethodInfo>)
    ensures forall c | c in Callables(typeName, methods) ::
      c.typeName == typeName && c.target in methods && c.target.attribute.Some?
    ensures forall m | m in methods && m.attribute.Some? :: Callable(typeName, m) in Callables(typeName, methods)
  {
    if methods != [] {
      var n := |methods| - 1;
      CallablesAttributed(typeName, methods[..n]);
      assert forall m | m in methods :: m in methods[..n] || m == methods[n];
    }
  }

  lemma {:induction false} CallablesConcat(typeName: string, a: seq<MethodInfo>, b: seq<MethodInfo>)
    ensures Callables(typeName, a + b) == Callables(typeName, a) + Callables(typeName, b)
    decreases |b|
  {
    if b != [] {
      var b' := b[..|b| - 1];
      assert (a + b)[..|a + b| - 1] == a + b';
      CallablesConcat(typeName, a, b');
    } else {
      assert a + b == a;
    }
  }

  /** `d` is the descriptor of `c`: its qualified name, its attribute's description, its schema. */
  ghost predicate Describes(c: Callable, d: ChatFunctionDescriptor) {
    && c.target.attribute.Some?
    && d.name == QualifiedName(c.typeName, c.target.name)
    && d.description == c.target.attribute.value.description
    && IsSchemaFor(c.target, d.parameters)
  }

  /** One descriptor per callable, in the same order. */
  ghost predicate IsCatalog(cs: seq<Callable>, ds: seq<ChatFunctionDescriptor>) {
    |ds| == |cs| && forall k :: 0 <= k < |cs| ==> Describes(cs[k], ds[k])
  }

  lemma CatalogSnoc(cs: seq<Callable>, ds: seq<ChatFunctionDescriptor>, c: Callable, d: ChatFunctionDescriptor)
    requires IsCatalog(cs, ds) && Describes(c, d)
    ensures IsCatalog(cs + [c], ds + [d])
  {
  }

  lemma CatalogConcat(cs: seq<Callable>, ds: seq<ChatFunctionDescriptor>,
                      cs': seq<Callable>, ds': seq<ChatFunctionDescriptor>)
    requires IsCatalog(cs, ds) && IsCatalog(cs', ds')
    ensures IsCatalog(cs + cs', ds + ds')
  {
    forall k | 0 <= k < |cs + cs'|
      ensures Describes((cs + cs')[k], (ds + ds')[k])
    {
      if k < |cs| {
        assert (cs + cs')[k] == cs[k] && (ds + ds')[k] == ds[k];
      } else {
        ConcatRight(cs, cs', k);
        ConcatRight(ds, ds', k);
      }
    }
  }

  /** The unsupported type that stops catalog generation: the first one of the first bad method. */
  function CatalogError(cs: seq<Callable>): Option<ClrType> {
    if cs == [] then None
    else
      var before := CatalogError(cs[..|cs| - 1]);
      if before.Some? then before else FirstUnsupported(cs[|cs| - 1].target.parameters)
  }

  /**
   * There is a catalog error exactly when some callable has an unsupported parameter, and
   * it is that of the first such callable.
   */
  lemma {:induction false} CatalogErrorIsFirst(cs: seq<Callable>)
    ensures CatalogError(cs).None? <==>
      forall k :: 0 <= k < |cs| ==> FirstUnsupported(cs[k].target.parameters).None?
    ensures CatalogError(cs).Some? ==>
      exists k :: (0 <= k < |cs| && FirstUnsupported(cs[k].target.parameters) == CatalogError(cs)
        && forall j :: 0 <= j < k ==> FirstUnsupported(cs[j].target.parameters).None?)
  {
    if cs != [] {
      var n := |cs| - 1;
      CatalogErrorIsFirst(cs[..n]);
      assert forall j :: 0 <= j < n ==> cs[..n][j] == cs[j];
      if CatalogError(cs[..n]).Some? {
        var k :| 0 <= k < n && FirstUnsupported(cs[..n][k].target.parameters) == CatalogError(cs[..n])
          && forall j :: 0 <= j < k ==> FirstUnsupported(cs[..n][j].target.parameters).None?;
        assert cs[..n][k] == cs[k];
      }
    }
  }

  lemma {:induction false} CatalogErrorConcat(a: seq<Callable>, b: seq<Callable>)
    ensures CatalogError(a + b) == if CatalogError(a).Some? then CatalogError(a) else CatalogError(b)
    decreases |b|
  {
    if b != [] {
      var b' := b[..|b| - 1];
      assert (a + b)[..|a + b| - 1] == a + b';
      CatalogErrorConcat(a, b');
    } else {
      assert a + b == a;
    }
  }

  lemma CallablesPrefix(typeName: string, methods: seq<MethodInfo>, i: nat)
    requires i < |methods|
    ensures Callables(typeName, methods[..i + 1]) == Callables(typeName, methods[..i])
      + (if methods[i].attribute.Some? then [Callable(typeName, methods[i])] else [])
  {
    assert methods[..i + 1][..i] == methods[..i];
  }

  lemma CatalogErrorSnoc(cs: seq<Callable>, c: Callable)
    ensures CatalogError(cs + [c]) ==
      if CatalogError(cs).Some? then CatalogError(cs) else FirstUnsupported(c.target.parameters)
  {
    assert (cs + [c])[..|cs|] == cs;
  }

  /** When the methods before `i` are all describable, method `i`'s failure is the catalog's. */
  lemma CatalogErrorAt(typeName: string, methods: seq<MethodInfo>, i: nat)
    requires i < |methods| && methods[i].attribute.Some?
    requires CatalogError(Callables(typeName, methods[..i])).None?
    requires FirstUnsupported(methods[i].parameters).Some?
    ensures CatalogError(Callables(typeName, methods)) == FirstUnsupported(methods[i].parameters)
  {
    TakeSnoc(methods, i);
    PrefixSuffix(methods, i + 1);
    CallablesConcat(typeName, methods[..i + 1], methods[i + 1..]);
    CatalogErrorConcat(Callables(typeName, methods[..i + 1]), Callables(typeName, methods[i + 1..]));
  }

  /** The descriptor of one attributed method, or the first unsupported parameter type. */
  method DescribeMethod(typeName: string, m: MethodInfo) returns (r: Result<ChatFunctionDescriptor, Error>)
    requires m.attribute.Some?
    ensures r.Success? <==> FirstUnsupported(m.parameters).None?
    ensures r.Failure? ==> r.error == UnsupportedType(FirstUnsupported(m.parameters).value)
    ensures r.Success? ==> Describes(Callable(typeName, m), r.value)
  {
    var schema := CreateJsonSchemaForParameters(m);
    if schema.Failure? {
      return Failure(schema.error);
    }
    r := Success(ChatFunctionDescriptor(
      QualifiedName(typeName, m.name), m.attribute.value.description, schema.value));
  }

  /**
   * The descriptors of one plugin: one per attributed method, in method order. The first
   * unsupported parameter type aborts the whole list.
   */
  method GetFunctions(plugin: Plugin) returns (r: Result<seq<ChatFunctionDescriptor>, Error>)
    ensures r.Success? <==> CatalogError(Callables(plugin.typeName, plugin.methods)).None?
    ensures r.Failure? ==>
      r.error == UnsupportedType(CatalogError(Callables(plugin.typeName, plugin.methods)).value)
    ensures r.Success? ==> IsCatalog(Callables(plugin.typeName, plugin.methods), r.value)
  {
    var methods := plugin.methods;
    var functions: seq<ChatFunctionDescriptor> := [];
    for i := 0 to |methods|
      invariant CatalogError(Callables(plugin.typeName, methods[..i])).None?
      invariant IsCatalog(Callables(plugin.typeName, methods[..i]), functions)
    {
      var m := methods[i];
      ghost var done := Callables(plugin.typeName, methods[..i]);
      CallablesPrefix(plugin.typeName, methods, i);
      if m.attribute.Some? {
        var d := DescribeMethod(plugin.typeName, m);
        if d.Failure? {
          CatalogErrorAt(plugin.typeName, methods, i);
          return Failure(d.error);
        }
        CatalogErrorSnoc(done, Callable(plugin.typeName, m));
        CatalogSnoc(done, functions, Callable(plugin.typeName, m), d.value);
        functions := functions + [d.value];
      } else {
        assert done + [] == done;
      }
    }
    assert methods[..|methods|] == methods;
    r := Success(functions);
  }

  /** Splitting a qualified name of dash-free identifiers gives back the two identifiers. */
  lemma QualifiedNameRoundTrip(typeName: string, methodName: string)
    requires '-' !in typeName && '-' !in methodName
    ensures Text.Split(QualifiedName(typeName, methodName), '-') == [typeName, methodName]
  {
    var parts := [typeName, methodName];
    assert Text.Join(parts, '-') == QualifiedName(typeName, methodName) by {
      assert parts[1..] == [methodName];
    }
    Text.SplitJoin(parts, '-');
  }

  /** Distinct (type, method) pairs of dash-free identifiers get distinct descriptor names. */
  lemma CatalogNamesDistinct(cs: seq<Callable>, ds: seq<ChatFunctionDescriptor>)
    requires IsCatalog(cs, ds)
    requires forall c | c in cs :: '-' !in c.typeName && '-' !in c.target.name
    requires forall i, j :: 0 <= i < j < |cs| ==>
      (cs[i].typeName, cs[i].target.name) != (cs[j].typeName, cs[j].target.name)
    ensures forall i, j :: 0 <= i < j < |ds| ==> ds[i].name != ds[j].name
  {
    forall i, j | 0 <= i < j < |ds|
      ensures ds[i].name != ds[j].name
    {
      assert cs[i] in cs && cs[j] in cs;
      QualifiedNameRoundTrip(cs[i].typeName, cs[i].target.name);
      QualifiedNameRoundTrip(cs[j].typeName, cs[j].target.name);
    }
  }

  // ---------------------------------------------------------------------------------
  // Argument marshaling and invocation

  /** The public methods of a plugin that bear the given name (overloads included). */
  function MethodsNamed(methods: seq<MethodInfo>, name: string): (named: seq<MethodInfo>)
    ensures |named| <= |methods|
    ensures forall m :: m in named <==> m in methods && m.name == name
  {
    if methods == [] then []
    else
      assert forall m | m in methods :: m == methods[0] || m in methods[1..];
      (if methods[0].name == name then [methods[0]] else []) + MethodsNamed(methods[1..], name)
  }

  /** Type.GetMethod by name: the one method so named, null (not found) or ambiguous. */
  function GetMethod(methods: seq<MethodInfo>, name: string): (r: Result<MethodInfo, Error>)
    ensures r.Success? <==> |MethodsNamed(methods, name)| == 1
    ensures r.Success? ==> r.value in methods && r.value.name == name
    ensures r.Failure? ==>
      r.error == if forall m | m in methods :: m.name != name then MethodNotFound(name) else AmbiguousMatch(name)
  {
    var named := MethodsNamed(methods, name);
    if |named| == 0 then Failure(MethodNotFound(name))
    else if |named| > 1 then
      assert named[0] in named;
      Failure(AmbiguousMatch(name))
    else
      assert named[0] in named;
      Success(named[0])
  }

  /** `vs` holds, for each declared parameter in order, the payload's value under its name. */
  predicate Marshalled(ps: seq<Parameter>, args: map<string, Json>, vs: seq<Json>) {
    |vs| == |ps| && forall i :: 0 <= i < |ps| ==> ps[i].name in args && vs[i] == args[ps[i].name]
  }

  /**
   * The argument array for a call: the payload's values in declared-parameter order. Keys
   * that name no parameter are ignored; the first parameter with no key fails the lookup,
   * optional parameters included.
   */
  function BuildArguments(ps: seq<Parameter>, args: map<string, Json>): (r: Result<seq<Json>, Error>)
    ensures r.Success? <==> forall p | p in ps :: p.name in args
    ensures r.Success? ==> Marshalled(ps, args, r.value)
    ensures r.Failure? ==> r.error.MissingArgument? && r.error.argumentName !in args
  {
    if ps == [] then Success([])
    else if ps[0].name !in args then Failure(MissingArgument(ps[0].name))
    else
      assert forall p | p in ps :: p == ps[0] || p in ps[1..];
      match BuildArguments(ps[1..], args)
      case Failure(e) => Failure(e)
      case Success(rest) => Success([args[ps[0].name]] + rest)
  }

  /** The lookup fails on the first parameter, in declaration order, that the payload lacks. */
  lemma {:induction false} BuildArgumentsFailsAtFirstMissing(ps: seq<Parameter>, args: map<string, Json>, i: nat)
    requires i < |ps| && ps[i].name !in args
    requires forall j :: 0 <= j < i ==> ps[j].name in args
    ensures BuildArguments(ps, args) == Failure(MissingArgument(ps[i].name))
  {
    if i > 0 {
      BuildArgumentsFailsAtFirstMissing(ps[1..], args, i - 1);
    }
  }

  /**
   * Calls the plugin method named `name` with the parsed arguments payload. A payload
   * that is not a JSON object, a name that finds no method or several, and a missing
   * argument all throw; otherwise the method receives the payload's values in
   * declared-parameter order and its result (null for void) is returned.
   */
  function ExecuteFunction(plugin: Plugin, name: string, arguments: Option<map<string, Json>>,
                           invoke: Invocation -> Result<Option<string>, Error>): (r: Result<Option<string>, Error>)
    ensures arguments.None? ==> r == Failure(MalformedArguments)
    ensures arguments.Some? && GetMethod(plugin.methods, name).Failure? ==>
      r == Failure(GetMethod(plugin.methods, name).error)
    ensures arguments.Some? && GetMethod(plugin.methods, name).Success? ==>
      var m := GetMethod(plugin.methods, name).value;
      && ((forall p | p in m.parameters :: p.name in arguments.value) ==>
            exists vs :: Marshalled(m.parameters, arguments.value, vs)
              && r == invoke(Invocation(plugin.typeName, m, vs)))
      && ((exists p | p in m.parameters :: p.name !in arguments.value) ==>
            r.Failure? && r.error.MissingArgument? && r.error.argumentName !in arguments.value)
  {
    match arguments
    case None => Failure(MalformedArguments)
    case Some(args) =>
      match GetMethod(plugin.methods, name)
      case Failure(e) => Failure(e)
      case Success(m) =>
        match BuildArguments(m.parameters, args)
        case Failure(e) => Failure(e)
        case Success(vs) => invoke(Invocation(plugin.typeName, m, vs))
  }

  /** Only the values under the declared parameter names reach the method. */
  lemma {:induction false} ArgumentsBeyondParametersIgnored(ps: seq<Parameter>, a1: map<string, Json>, a2: map<string, Json>)
    requires forall p | p in ps :: (p.name in a1 <==> p.name in a2) && (p.name in a1 ==> a1[p.name] == a2[p.name])
    ensures BuildArguments(ps, a1) == BuildArguments(ps, a2)
  {
    if ps != [] {
      assert forall p | p in ps[1..] :: p in ps;
      ArgumentsBeyondParametersIgnored(ps[1..], a1, a2);
    }
  }

  /**
   * The schema leaves an optional parameter out of Required, yet a payload that omits it
   * still fails: the lookup demands every declared parameter.
   */
  lemma OptionalArgumentStillDemanded(ps: seq<Parameter>, args: map<string, Json>, i: nat)
    requires i < |ps| && ps[i].isOptional && ps[i].name !in args
    ensures BuildArguments(ps, args).Failure?
  {
    assert ps[i] in ps;
  }
}
