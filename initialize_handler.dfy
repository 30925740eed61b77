/**
 * The handler of the `initialize` request
 * (App\Server\RequestHandler\InitializeHandler): it answers with the
 * negotiated protocol version, fixed capability flags and the server's
 * identity.
 */
module RequestHandler {
  import opened Wrappers

  /** A JSON value; a number keeps its literal text. */
  datatype Json =
    | JNull
    | JBool(b: bool)
    | JNumber(literal: string)
    | JString(s: string)
    | JArray(elements: seq<Json>)
    | JObject(members: seq<(string, Json)>)

  /** A JSON-RPC request id, echoed verbatim in the response. */
  datatype RequestId = IntId(n: int) | StringId(s: string)

  datatype Request = Request(id: RequestId, methodName: string, params: Json)

  datatype Response = Response(id: RequestId, result: Json)

  /** The value stored under `key` in an object's member list (the first, if repeated). */
  function Member(members: seq<(string, Json)>, key: string): Option<Json>
    decreases |members|
  {
    if members == [] then None
    else if members[0].0 == key then Some(members[0].1)
    else Member(members[1..], key)
  }

  /** The value found by following `path` from `v` through nested objects. */
  function At(v: Json, path: seq<string>): Option<Json>
    decreases |path|
  {
    if path == [] then Some(v)
    else match v
      case JObject(members) =>
        (match Member(members, path[0])
         case Some(child) => At(child, path[1..])
         case None => None)
      case _ => None
  }

  /** The member names of an object, in order. */
  function Keys(v: Json): seq<string>
  {
    match v
    case JObject(members) => seq(|members|, i requires 0 <= i < |members| => members[i].0)
    case _ => []
  }

  /** The handler's configuration: server name, server version, protocol version. */
  datatype InitializeHandler = InitializeHandler(name: string, version: string, protocolVersion: string)

  /** The constructor's defaults. */
  function DefaultInitializeHandler(): (h: InitializeHandler)
    ensures h.name == "app" && h.version == "dev" && h.protocolVersion == "2025-03-26"
  {
    InitializeHandler("app", "dev", "2025-03-26")
  }

  /** The one JSON-RPC method this handler answers. */
  function SupportedMethod(): (m: string)
    ensures m == "initialize"
  {
    "initialize"
  }

  function CreateResponse(h: InitializeHandler, message: Request): (r: Response)
    ensures r.id == message.id
    ensures Keys(r.result) == ["protocolVersion", "capabilities", "serverInfo"]
    ensures At(r.result, ["protocolVersion"]) == Some(JString(h.protocolVersion))
    ensures At(r.result, ["serverInfo", "name"]) == Some(JString(h.name))
    ensures At(r.result, ["serverInfo", "version"]) == Some(JString(h.version))
    ensures At(r.result, ["serverInfo"]).Some?
    ensures Keys(At(r.result, ["serverInfo"]).value) == ["name", "version"]
    ensures At(r.result, ["capabilities"]).Some?
    ensures Keys(At(r.result, ["capabilities"]).value) == ["prompts", "tools", "resources"]
    ensures At(r.result, ["capabilities", "prompts"]).Some?
    ensures Keys(At(r.result, ["capabilities", "prompts"]).value) == ["listChanged"]
    ensures At(r.result, ["capabilities", "tools"]).Some?
    ensures Keys(At(r.result, ["capabilities", "tools"]).value) == ["listChanged"]
    ensures At(r.result, ["capabilities", "resources"]).Some?
    ensures Keys(At(r.result, ["capabilities", "resources"]).value) == ["listChanged", "subscribe"]
    ensures At(r.result, ["capabilities", "prompts", "listChanged"]) == Some(JBool(false))
    ensures At(r.result, ["capabilities", "tools", "listChanged"]) == Some(JBool(false))
    ensures At(r.result, ["capabilities", "resources", "listChanged"]) == Some(JBool(false))
    ensures At(r.result, ["capabilities", "resources", "subscribe"]) == Some(JBool(false))
  {
    ServerInfoFacts(h);
    CapabilityFacts(h);
    Response(message.id, InitializeResult(h))
  }

  function Capabilities(): Json
  {
    JObject([
      ("prompts", JObject([("listChanged", JBool(false))])),
      ("tools", JObject([("listChanged", JBool(false))])),
      ("resources", JObject([("listChanged", JBool(false)), ("subscribe", JBool(false))]))
    ])
  }

  /** The `initialize` result: protocol version, capabilities and server identity, in that order. */
  function InitializeResult(h: InitializeHandler): (r: Json)
    ensures Keys(r) == ["protocolVersion", "capabilities", "serverInfo"]
    ensures r.JObject? && Member(r.members, "protocolVersion") == Some(JString(h.protocolVersion))
  {
    JObject([
      ("protocolVersion", JString(h.protocolVersion)),
      ("capabilities", Capabilities()),
      ("serverInfo", JObject([("name", JString(h.name)), ("version", JString(h.version))]))
    ])
  }

  /** Following a path one key at a time. */
  lemma AtStep(v: Json, key: string, path: seq<string>)
    ensures At(v, [key] + path) ==
      if v.JObject? && Member(v.members, key).Some? then At(Member(v.members, key).value, path) else None
  {
    assert ([key] + path)[0] == key && ([key] + path)[1..] == path;
  }

  lemma {:induction false} MemberAt(members: seq<(string, Json)>, i: nat, key: string)
    requires i < |members| && members[i].0 == key
    requires forall j :: 0 <= j < i ==> members[j].0 != key
    ensures Member(members, key) == Some(members[i].1)
    decreases i
  {
    if i > 0 {
      MemberAt(members[1..], i - 1, key);
    }
  }

  lemma ServerInfoFacts(h: InitializeHandler)
    ensures Keys(InitializeResult(h)) == ["protocolVersion", "capabilities", "serverInfo"]
    ensures At(InitializeResult(h), ["protocolVersion"]) == Some(JString(h.protocolVersion))
    ensures At(InitializeResult(h), ["serverInfo", "name"]) == Some(JString(h.name))
    ensures At(InitializeResult(h), ["serverInfo", "version"]) == Some(JString(h.version))
    ensures At(InitializeResult(h), ["capabilities"]) == Some(Capabilities())
    ensures At(InitializeResult(h), ["serverInfo"]) == Some(InitializeResult(h).members[2].1)
    ensures Keys(InitializeResult(h).members[2].1) == ["name", "version"]
  {
    var result := InitializeResult(h);
    var serverInfo := result.members[2].1;
    MemberAt(result.members, 0, "protocolVersion");
    MemberAt(result.members, 1, "capabilities");
    MemberAt(result.members, 2, "serverInfo");
    MemberAt(serverInfo.members, 0, "name");
    MemberAt(serverInfo.members, 1, "version");
    AtStep(result, "protocolVersion", []);
    AtStep(result, "capabilities", []);
    AtStep(result, "serverInfo", []);
    AtStep(result, "serverInfo", ["name"]);
    AtStep(result, "serverInfo", ["version"]);
    AtStep(serverInfo, "name", []);
    AtStep(serverInfo, "version", []);
    assert ["protocolVersion"] == ["protocolVersion"] + [];
    assert ["capabilities"] == ["capabilities"] + [];
    assert ["serverInfo"] == ["serverInfo"] + [];
    assert ["name"] == ["name"] + [];
    assert ["version"] == ["version"] + [];
    assert ["serverInfo", "name"] == ["serverInfo"] + ["name"];
    assert ["serverInfo", "version"] == ["serverInfo"] + ["version"];
  }

  lemma CapabilityFacts(h: InitializeHandler)
    ensures Keys(Capabilities()) == ["prompts", "tools", "resources"]
    ensures At(InitializeResult(h), ["capabilities", "prompts"]) == Some(Capabilities().members[0].1)
    ensures At(InitializeResult(h), ["capabilities", "tools"]) == Some(Capabilities().members[1].1)
    ensures At(InitializeResult(h), ["capabilities", "resources"]) == Some(Capabilities().members[2].1)
    ensures Keys(Capabilities().members[0].1) == ["listChanged"]
    ensures Keys(Capabilities().members[1].1) == ["listChanged"]
    ensures Keys(Capabilities().members[2].1) == ["listChanged", "subscribe"]
    ensures At(InitializeResult(h), ["capabilities", "prompts", "listChanged"]) == Some(JBool(false))
    ensures At(InitializeResult(h), ["capabilities", "tools", "listChanged"]) == Some(JBool(false))
    ensures At(InitializeResult(h), ["capabilities", "resources", "listChanged"]) == Some(JBool(false))
    ensures At(InitializeResult(h), ["capabilities", "resources", "subscribe"]) == Some(JBool(false))
  {
    var result := InitializeResult(h);
    var caps := Capabilities();
    MemberAt(result.members, 1, "capabilities");
    MemberAt(caps.members, 0, "prompts");
    MemberAt(caps.members, 1, "tools");
    MemberAt(caps.members, 2, "resources");
    var prompts, tools, resources := caps.members[0].1, caps.members[1].1, caps.members[2].1;
    MemberAt(prompts.members, 0, "listChanged");
    MemberAt(tools.members, 0, "listChanged");
    MemberAt(resources.members, 0, "listChanged");
    MemberAt(resources.members, 1, "subscribe");
    FlagPath(result, caps, prompts, "prompts", "listChanged");
    FlagPath(result, caps, tools, "tools", "listChanged");
    FlagPath(result, caps, resources, "resources", "listChanged");
    FlagPath(result, caps, resources, "resources", "subscribe");
    KindPath(result, caps, prompts, "prompts");
    KindPath(result, caps, tools, "tools");
    KindPath(result, caps, resources, "resources");
  }

  lemma KindPath(result: Json, caps: Json, kind: Json, kindName: string)
    requires result.JObject? && Member(result.members, "capabilities") == Some(caps)
    requires caps.JObject? && Member(caps.members, kindName) == Some(kind)
    ensures At(result, ["capabilities", kindName]) == Some(kind)
  {
    AtStep(result, "capabilities", [kindName]);
    AtStep(caps, kindName, []);
    assert ["capabilities", kindName] == ["capabilities"] + [kindName];
    assert [kindName] == [kindName] + [];
  }

  lemma FlagPath(result: Json, caps: Json, kind: Json, kindName: string, flag: string)
    requires result.JObject? && Member(result.members, "capabilities") == Some(caps)
    requires caps.JObject? && Member(caps.members, kindName) == Some(kind)
    requires kind.JObject? && Member(kind.members, flag) == Some(JBool(false))
    ensures At(result, ["capabilities", kindName, flag]) == Some(JBool(false))
  {
    AtStep(result, "capabilities", [kindName, flag]);
    AtStep(caps, kindName, [flag]);
    AtStep(kind, flag, []);
    assert ["capabilities", kindName, flag] == ["capabilities"] + [kindName, flag];
    assert [kindName, flag] == [kindName] + [flag];
    assert [flag] == [flag] + [];
  }

  /**
   * The payload depends only on the handler: two requests, whatever their
   * method and params, get equal results, and equal ids give equal responses.
   */
  lemma CreateResponseIsStateless(h: InitializeHandler, a: Request, b: Request)
    ensures CreateResponse(h, a).result == CreateResponse(h, b).result
    ensures a.id == b.id ==> CreateResponse(h, a) == CreateResponse(h, b)
  {
  }
}
