/**
 * The rules of the GNS3 REST client that do not depend on its mutable state:
 * how one HTTP exchange becomes a value or an error (`_request`), the bodies
 * the client sends, the node lookup of `create_link`, the status histogram of
 * `get_project_stats`, and, for each composite operation, the requests it
 * issues and the value it returns, as functions of the server's replies.
 */
module Gns3Rules {
  import opened Results
  import opened Dicts
  import opened JsonValues
  import Numerals
  import Config

  // ---------------------------------------------------------------------------
  // The HTTP exchange, seen from the client

  /** One request as the client issues it: method, path below the base URL, optional JSON body. */
  datatype HttpRequest = HttpRequest(verb: string, path: string, body: Option<Json>)

  /**
   * A response: status code, body text, and what `json.loads` makes of the text
   * (None when it is not JSON).
   */
  datatype Response = Response(status: nat, text: string, decoded: Option<Json>)

  /** What the transport yields: a response, or a failure before one arrived (httpx.RequestError). */
  datatype Outcome = Delivered(response: Response) | TransportFailure(cause: string)

  datatype Credentials = Credentials(username: string, password: Option<string>)

  /** The open httpx client: where it points, how it authenticates, whether it has been closed. */
  datatype Connection = Connection(
    baseUrl: string, timeout: int, verifySsl: bool, auth: Option<Credentials>, closed: bool)

  /**
   * The remote server: its answer to a request, given the requests it has
   * already received and the connection the request arrives on.
   */
  type Script = (seq<HttpRequest>, Connection, HttpRequest) -> Outcome

  /** Python exceptions the client lets escape without wrapping them. */
  datatype PyError = JSONDecodeError | RuntimeError | TypeError | KeyError | AttributeError

  /** What a client operation raises: its own `GNS3ClientError`, or an exception it does not catch. */
  datatype ClientError = Gns3ClientError(message: string) | Uncaught(kind: PyError)

  /** An operation's result together with the server's request log afterwards. */
  datatype Step<T> = Step(result: Result<T, ClientError>, history: seq<HttpRequest>)

  const NotInitializedMessage: string := "Client not initialized. Use async context manager."
  const NodesNotFoundMessage: string := "One or both nodes not found"
  const ApiErrorPrefix: string := "GNS3 API error: "
  const ConnectionErrorPrefix: string := "Connection error: "

  // ---------------------------------------------------------------------------
  // __aenter__

  /** Python truthiness of an optional string. */
  predicate Truthy(s: Option<string>) {
    s.Some? && s.value != ""
  }

  /** The `auth` argument given to httpx. */
  function AuthFor(c: Config.GNS3Config): (r: Option<Credentials>)
    ensures r.Some? <==> c.authRequired && Truthy(c.username)
    ensures r.Some? ==> r.value.username == c.username.value && r.value.password == c.password
  {
    if c.authRequired && Truthy(c.username) then Some(Credentials(c.username.value, c.password)) else None
  }

  /** The httpx client `__aenter__` creates. */
  function OpenConnection(c: Config.GNS3Config): Connection {
    Connection(Config.BaseUrl(c), c.timeout, c.verifySsl, AuthFor(c), false)
  }

  // ---------------------------------------------------------------------------
  // _request

  /** httpx's `raise_for_status` passes exactly the 2xx codes. */
  predicate IsSuccessStatus(status: nat) {
    200 <= status < 300
  }

  /** The text after " - " in an API error: the body's `message`, else `str(body)`, else the raw text. */
  function ErrorDetail(r: Response): (detail: string)
    ensures r.decoded.Some? && r.decoded.value.JObject? && HasKey(r.decoded.value.fields, "message") ==>
              detail == PyStr(Lookup(r.decoded.value.fields, "message").value)
    ensures r.decoded.Some? && r.decoded.value.JObject? && !HasKey(r.decoded.value.fields, "message") ==>
              detail == PyStr(r.decoded.value)
    ensures r.decoded.None? || !r.decoded.value.JObject? ==> detail == r.text
  {
    match r.decoded
    case Some(JObject(fields)) =>
      (match Lookup(fields, "message")
       case Some(m) => PyStr(m)
       case None => PyStr(JObject(fields)))
    case _ => r.text
  }

  function ApiErrorMessage(r: Response): string {
    ApiErrorPrefix + Numerals.NatToString(r.status) + " - " + ErrorDetail(r)
  }

  /** The value `_request` returns or the error it raises, once the transport has answered. */
  function Normalise(o: Outcome): (r: Result<Json, ClientError>)
    ensures (o.Delivered? && IsSuccessStatus(o.response.status) &&
             (o.response.status == 204 || o.response.text == [])) ==> r == Success(SuccessMarker)
    ensures (o.Delivered? && IsSuccessStatus(o.response.status) &&
             o.response.status != 204 && o.response.text != []) ==>
              r == (if o.response.decoded.Some? then Success(o.response.decoded.value) else Failure(Uncaught(JSONDecodeError)))
    ensures r.Success? ==> o.Delivered? && IsSuccessStatus(o.response.status)
    ensures (o.Delivered? && !IsSuccessStatus(o.response.status)) ==>
              r == Failure(Gns3ClientError(ApiErrorPrefix + Numerals.NatToString(o.response.status) + " - " + ErrorDetail(o.response)))
    ensures o.TransportFailure? ==> r == Failure(Gns3ClientError(ConnectionErrorPrefix + o.cause))
  {
    match o
    case TransportFailure(cause) => Failure(Gns3ClientError(ConnectionErrorPrefix + cause))
    case Delivered(resp) =>
      if !IsSuccessStatus(resp.status) then Failure(Gns3ClientError(ApiErrorMessage(resp)))
      else if resp.status == 204 || resp.text == [] then Success(SuccessMarker)
      else if resp.decoded.Some? then Success(resp.decoded.value)
      else Failure(Uncaught(JSONDecodeError))
  }

  /** `_request` as a whole: no connection, a closed one, or one exchange that the server logs. */
  function Dispatch(script: Script, client: Option<Connection>, history: seq<HttpRequest>, req: HttpRequest): Step<Json> {
    match client
    case None => Step(Failure(Gns3ClientError(NotInitializedMessage)), history)
    case Some(c) =>
      if c.closed then Step(Failure(Uncaught(RuntimeError)), history)
      else Step(Normalise(script(history, c, req)), history + [req])
  }

  predicate IsOpen(client: Option<Connection>) {
    client.Some? && !client.value.closed
  }

  /** The error kinds callers can tell apart from the message alone. */
  datatype ErrorKind =
    | NotInitialized
    | ConnectionFailure
    | RemoteApiError(status: nat)
    | NotFound
    | Unhandled(kind: PyError)
    | Unrecognised

  /** Reads the kind (and the HTTP status) back from a raised error. */
  function Classify(e: ClientError): ErrorKind {
    match e
    case Uncaught(k) => Unhandled(k)
    case Gns3ClientError(m) =>
      if m == NotInitializedMessage then NotInitialized
      else if m == NodesNotFoundMessage then NotFound
      else if ConnectionErrorPrefix <= m then ConnectionFailure
      else if ApiErrorPrefix <= m && Numerals.LeadingDigits(m[|ApiErrorPrefix|..]) != [] then
        RemoteApiError(Numerals.DigitsValue(Numerals.LeadingDigits(m[|ApiErrorPrefix|..])))
      else Unrecognised
  }

  /** The first letters of the "not initialized" message, which set it apart from the others. */
  lemma NotInitializedOpening()
    ensures |NotInitializedMessage| > 1 && NotInitializedMessage[0] == 'C' && NotInitializedMessage[1] == 'l'
  {
    assert NotInitializedMessage == "Client not initialized." + " Use async context manager.";
  }

  /** A transport failure is read back as a connection error, whatever its cause says. */
  lemma ClassifyConnectionError(cause: string)
    ensures Classify(Gns3ClientError(ConnectionErrorPrefix + cause)) == ConnectionFailure
  {
    var m := ConnectionErrorPrefix + cause;
    assert m[..|ConnectionErrorPrefix|] == ConnectionErrorPrefix;
    assert m[1] == 'o' && m[0] == 'C';
    NotInitializedOpening();
    assert m != NodesNotFoundMessage && m != NotInitializedMessage;
  }

  /** An API error is read back with the very status the server answered with. */
  lemma ClassifyApiError(resp: Response)
    ensures Classify(Gns3ClientError(ApiErrorMessage(resp))) == RemoteApiError(resp.status)
  {
    var digits := Numerals.NatToString(resp.status);
    var rest := " - " + ErrorDetail(resp);
    ApiErrorMessageParts(resp);
    NotInitializedOpening();
    MessageOpenings();
    Numerals.LeadingDigitsOf(digits, rest);
    Numerals.NatRoundTrip(resp.status);
  }

  /** An API error message is the prefix, then the status digits, then the detail. */
  lemma ApiErrorMessageParts(resp: Response)
    ensures var m := ApiErrorMessage(resp);
      && |ApiErrorPrefix| <= |m| && m[..|ApiErrorPrefix|] == ApiErrorPrefix && m[0] == 'G'
      && m[|ApiErrorPrefix|..] == Numerals.NatToString(resp.status) + (" - " + ErrorDetail(resp))
  {
    var digits := Numerals.NatToString(resp.status);
    var rest := " - " + ErrorDetail(resp);
    var m := ApiErrorMessage(resp);
    assert m == ApiErrorPrefix + (digits + rest);
    assert ApiErrorPrefix[0] == 'G';
  }

  /** The first letters of the other fixed texts. */
  lemma MessageOpenings()
    ensures |NodesNotFoundMessage| > 0 && NodesNotFoundMessage[0] == 'O'
    ensures |ConnectionErrorPrefix| > 0 && ConnectionErrorPrefix[0] == 'C'
  {
  }

  /**
   * Every error `_request` raises says what went wrong, and an API error carries
   * the HTTP status in a form that can be read back from its message.
   */
  lemma DispatchErrorsAreClassified(script: Script, client: Option<Connection>, history: seq<HttpRequest>, req: HttpRequest)
    ensures var s := Dispatch(script, client, history, req);
      s.result.Failure? ==>
        Classify(s.result.error) ==
          if client.None? then NotInitialized
          else if client.value.closed then Unhandled(RuntimeError)
          else match script(history, client.value, req)
            case TransportFailure(_) => ConnectionFailure
            case Delivered(resp) =>
              if IsSuccessStatus(resp.status) then Unhandled(JSONDecodeError) else RemoteApiError(resp.status)
  {
    if IsOpen(client) {
      match script(history, client.value, req)
      case TransportFailure(cause) => ClassifyConnectionError(cause);
      case Delivered(resp) => ClassifyApiError(resp);
    }
  }

  /** The case from the server's own error format: a 404 whose body is {"message": "not found"}. */
  lemma NotFoundResponseExample()
    ensures var body := JObject([("message", JStr("not found"))]);
      Normalise(Delivered(Response(404, "{\"message\": \"not found\"}", Some(body))))
        == Failure(Gns3ClientError(ApiErrorPrefix + "404" + " - " + "not found"))
  {
    var body := JObject([("message", JStr("not found"))]);
    assert Lookup(body.fields, "message") == Some(JStr("not found"));
    assert Numerals.DigitChar(4) == '4' && Numerals.DigitChar(0) == '0';
    assert Numerals.NatToString(4) == "4";
    assert Numerals.NatToString(40) == "40";
    assert Numerals.NatToString(404) == "404";
    assert PyStr(JStr("not found")) == "not found";
    assert ErrorDetail(Response(404, "{\"message\": \"not found\"}", Some(body))) == "not found";
  }

  // ---------------------------------------------------------------------------
  // Paths and requests

  const ProjectsPath: string := "/projects"
  const TemplatesPath: string := "/templates"

  function ProjectPath(projectId: string): string { ProjectsPath + "/" + projectId }
  function NodesPath(projectId: string): string { ProjectPath(projectId) + "/nodes" }
  function LinksPath(projectId: string): string { ProjectPath(projectId) + "/links" }
  function NodePath(projectId: string, nodeId: string): string { NodesPath(projectId) + "/" + nodeId }
  function LinkPath(projectId: string, linkId: string): string { LinksPath(projectId) + "/" + linkId }

  function Get(path: string): HttpRequest { HttpRequest("GET", path, None) }
  function Post(path: string, body: Option<Json>): HttpRequest { HttpRequest("POST", path, body) }
  function Delete(path: string): HttpRequest { HttpRequest("DELETE", path, None) }

  // ---------------------------------------------------------------------------
  // Request bodies

  /** The body of `create_project`: the name, and the path only when it is a non-empty string. */
  function ProjectBody(name: string, path: Option<string>): (body: Json)
    ensures body.JObject? && DistinctKeys(body.fields)
    ensures Lookup(body.fields, "name") == Some(JStr(name))
    ensures Lookup(body.fields, "path") == if Truthy(path) then Some(JStr(path.value)) else None
    ensures forall k :: HasKey(body.fields, k) ==> k == "name" || k == "path"
  {
    var fields := [("name", JStr(name))] + if Truthy(path) then [("path", JStr(path.value))] else [];
    LookupDistinct(fields, 0);
    if Truthy(path) then LookupDistinct(fields, 1); JObject(fields) else JObject(fields)
  }

  /** The keys `create_node` may send. */
  const NodeKeys: set<string> := {"name", "node_type", "x", "y", "compute_id", "template_id", "properties"}

  /** The dict literal `create_node` starts from. */
  function NodeBase(name: string, nodeType: string, x: int, y: int): Dict<string, Json> {
    [("name", JStr(name)), ("node_type", JStr(nodeType)), ("x", JInt(x)), ("y", JInt(y))]
  }

  /** `if template_id:` sets the compute and then the template. */
  function WithTemplate(data: Dict<string, Json>, templateId: Option<string>): Dict<string, Json> {
    if Truthy(templateId) then
      Store(Store(data, "compute_id", JStr("local")), "template_id", JStr(templateId.value))
    else data
  }

  /** `if properties:` sets the properties when the dict is non-empty. */
  function WithProperties(data: Dict<string, Json>, properties: Option<Dict<string, Json>>): Dict<string, Json> {
    if properties.Some? && properties.value != [] then Store(data, "properties", JObject(properties.value)) else data
  }

  /** The body of `create_node`: the literal, then the template step, then the properties step. */
  function NodeBody(name: string, nodeType: string, templateId: Option<string>, x: int, y: int,
                    properties: Option<Dict<string, Json>>): Json {
    JObject(WithProperties(WithTemplate(NodeBase(name, nodeType, x, y), templateId), properties))
  }

  /** Storing a key adds exactly that key. */
  lemma StoreKeys<V>(d: Dict<string, V>, k: string, v: V)
    ensures forall k' :: HasKey(Store(d, k, v), k') <==> k' == k || HasKey(d, k')
  {
    forall k' ensures HasKey(Store(d, k, v), k') <==> k' == k || HasKey(d, k') {
      LookupStore(d, k, v, k');
    }
  }

  lemma NodeBaseFields(name: string, nodeType: string, x: int, y: int)
    ensures DistinctKeys(NodeBase(name, nodeType, x, y))
    ensures Lookup(NodeBase(name, nodeType, x, y), "name") == Some(JStr(name))
    ensures Lookup(NodeBase(name, nodeType, x, y), "node_type") == Some(JStr(nodeType))
    ensures Lookup(NodeBase(name, nodeType, x, y), "x") == Some(JInt(x))
    ensures Lookup(NodeBase(name, nodeType, x, y), "y") == Some(JInt(y))
    ensures forall k :: HasKey(NodeBase(name, nodeType, x, y), k) <==> k in {"name", "node_type", "x", "y"}
  {
    var d := NodeBase(name, nodeType, x, y);
    assert d[0].0 == "name" && d[1].0 == "node_type" && d[2].0 == "x" && d[3].0 == "y";
    assert DistinctKeys(d);
    LookupDistinct(d, 0);
    LookupDistinct(d, 1);
    LookupDistinct(d, 2);
    LookupDistinct(d, 3);
  }

  /** No key of the literal is one of the keys the optional steps set (their lengths differ). */
  lemma BaseKeysAreNotOptional()
    ensures "name" != "compute_id" && "name" != "template_id" && "name" != "properties"
    ensures "node_type" != "compute_id" && "node_type" != "template_id" && "node_type" != "properties"
    ensures "x" != "compute_id" && "x" != "template_id" && "x" != "properties"
    ensures "y" != "compute_id" && "y" != "template_id" && "y" != "properties"
  {
    assert |"name"| == 4 && |"node_type"| == 9 && |"x"| == 1 && |"y"| == 1;
    assert |"compute_id"| == 10 && |"template_id"| == 11 && |"properties"| == 10;
  }

  /** The literal has none of the keys the optional steps set, and only keys of a node body. */
  lemma NodeBaseKeys(name: string, nodeType: string, x: int, y: int)
    ensures var d := NodeBase(name, nodeType, x, y);
      && !HasKey(d, "compute_id") && !HasKey(d, "template_id") && !HasKey(d, "properties")
      && forall k :: HasKey(d, k) ==> k in NodeKeys
  {
    NodeBaseFields(name, nodeType, x, y);
  }

  /** The three keys the optional steps set are different keys. */
  lemma OptionalKeysDiffer()
    ensures "compute_id" != "template_id" && "compute_id" != "properties" && "template_id" != "properties"
  {
    assert |"compute_id"| == 10 && |"template_id"| == 11 && |"properties"| == 10;
    assert "compute_id"[0] != "properties"[0];
  }

  /** The template step sets its two keys, keeps every other entry and keeps keys distinct. */
  lemma WithTemplateFields(data: Dict<string, Json>, templateId: Option<string>)
    requires DistinctKeys(data)
    ensures var r := WithTemplate(data, templateId);
      && DistinctKeys(r)
      && (forall k :: HasKey(r, k) <==> HasKey(data, k) || (Truthy(templateId) && (k == "compute_id" || k == "template_id")))
      && (forall k :: k != "compute_id" && k != "template_id" ==> Lookup(r, k) == Lookup(data, k))
      && (Truthy(templateId) ==> Lookup(r, "compute_id") == Some(JStr("local")))
      && (Truthy(templateId) ==> Lookup(r, "template_id") == Some(JStr(templateId.value)))
  {
    if Truthy(templateId) {
      var local, template := JStr("local"), JStr(templateId.value);
      var d1 := Store(data, "compute_id", local);
      var d2 := Store(d1, "template_id", template);
      assert WithTemplate(data, templateId) == d2;
      OptionalKeysDiffer();
      StorePreservesDistinctKeys(data, "compute_id", local);
      StorePreservesDistinctKeys(d1, "template_id", template);
      StoreKeys(data, "compute_id", local);
      StoreKeys(d1, "template_id", template);
      forall k | k != "compute_id" && k != "template_id" ensures Lookup(d2, k) == Lookup(data, k) {
        LookupStore(data, "compute_id", local, k);
        LookupStore(d1, "template_id", template, k);
      }
      LookupStore(data, "compute_id", local, "compute_id");
      LookupStore(d1, "template_id", template, "compute_id");
      LookupStore(d1, "template_id", template, "template_id");
    }
  }

  /** The properties step sets its key, keeps every other entry and keeps keys distinct. */
  lemma WithPropertiesFields(data: Dict<string, Json>, properties: Option<Dict<string, Json>>)
    requires DistinctKeys(data)
    ensures var r := WithProperties(data, properties);
      && DistinctKeys(r)
      && (forall k :: HasKey(r, k) <==> HasKey(data, k) || (properties.Some? && properties.value != [] && k == "properties"))
      && (forall k :: k != "properties" ==> Lookup(r, k) == Lookup(data, k))
      && (properties.Some? && properties.value != [] ==> Lookup(r, "properties") == Some(JObject(properties.value)))
  {
    if properties.Some? && properties.value != [] {
      StorePreservesDistinctKeys(data, "properties", JObject(properties.value));
      StoreKeys(data, "properties", JObject(properties.value));
      forall k ensures Lookup(WithProperties(data, properties), k) ==
                         if k == "properties" then Some(JObject(properties.value)) else Lookup(data, k) {
        LookupStore(data, "properties", JObject(properties.value), k);
      }
    }
  }

  /** What the two optional steps of `create_node` leave under each key of a dict that has none of theirs. */
  lemma {:induction false} OptionalNodeLookups(d0: Dict<string, Json>, templateId: Option<string>,
                                               properties: Option<Dict<string, Json>>)
    requires DistinctKeys(d0)
    requires !HasKey(d0, "compute_id") && !HasKey(d0, "template_id") && !HasKey(d0, "properties")
    ensures var d2 := WithProperties(WithTemplate(d0, templateId), properties);
      && (forall k :: k != "compute_id" && k != "template_id" && k != "properties" ==> Lookup(d2, k) == Lookup(d0, k))
      && Lookup(d2, "compute_id") == (if Truthy(templateId) then Some(JStr("local")) else None)
      && Lookup(d2, "template_id") == (if Truthy(templateId) then Some(JStr(templateId.value)) else None)
      && Lookup(d2, "properties") ==
           (if properties.Some? && properties.value != [] then Some(JObject(properties.value)) else None)
  {
    var d1 := WithTemplate(d0, templateId);
    OptionalKeysDiffer();
    WithTemplateFields(d0, templateId);
    WithPropertiesFields(d1, properties);
    if Truthy(templateId) {
      assert Lookup(d1, "compute_id") == Some(JStr("local"));
      assert Lookup(d1, "template_id") == Some(JStr(templateId.value));
    } else {
      assert d1 == d0;
    }
    assert !HasKey(d1, "properties");
  }

  /** The two optional steps keep keys distinct and add no key outside a node body's. */
  lemma {:induction false} OptionalNodeKeys(d0: Dict<string, Json>, templateId: Option<string>,
                                            properties: Option<Dict<string, Json>>)
    requires DistinctKeys(d0)
    requires forall k :: HasKey(d0, k) ==> k in NodeKeys
    ensures var d2 := WithProperties(WithTemplate(d0, templateId), properties);
      DistinctKeys(d2) && forall k :: HasKey(d2, k) ==> k in NodeKeys
  {
    var d1 := WithTemplate(d0, templateId);
    WithTemplateFields(d0, templateId);
    assert forall k :: HasKey(d1, k) ==> k in NodeKeys;
    WithPropertiesFields(d1, properties);
  }

  /**
   * The body of `create_node` holds name, type and position always; the compute
   * "local" together with the template only for a non-empty template id; the
   * properties only when there are some; each key once and no other key.
   */
  lemma NodeBodyFields(name: string, nodeType: string, templateId: Option<string>, x: int, y: int,
                       properties: Option<Dict<string, Json>>)
    ensures var body := NodeBody(name, nodeType, templateId, x, y, properties);
      && body.JObject? && DistinctKeys(body.fields)
      && Lookup(body.fields, "name") == Some(JStr(name))
      && Lookup(body.fields, "node_type") == Some(JStr(nodeType))
      && Lookup(body.fields, "x") == Some(JInt(x)) && Lookup(body.fields, "y") == Some(JInt(y))
      && Lookup(body.fields, "compute_id") == (if Truthy(templateId) then Some(JStr("local")) else None)
      && Lookup(body.fields, "template_id") == (if Truthy(templateId) then Some(JStr(templateId.value)) else None)
      && Lookup(body.fields, "properties") ==
           (if properties.Some? && properties.value != [] then Some(JObject(properties.value)) else None)
      && forall k :: HasKey(body.fields, k) ==> k in NodeKeys
  {
    NodeBaseFields(name, nodeType, x, y);
    NodeBaseKeys(name, nodeType, x, y);
    BaseKeysAreNotOptional();
    OptionalNodeLookups(NodeBase(name, nodeType, x, y), templateId, properties);
    OptionalNodeKeys(NodeBase(name, nodeType, x, y), templateId, properties);
  }

  /** One side of a link: the node, adapter 0, and the caller's port. */
  function EndpointBody(nodeId: string, port: int): Json {
    JObject([("node_id", JStr(nodeId)), ("adapter_number", JInt(0)), ("port_number", JInt(port))])
  }

  /** The body of the link POST: both sides, in the caller's order. */
  function LinkBody(nodeA: string, portA: int, nodeB: string, portB: int): Json {
    JObject([("nodes", JArray([EndpointBody(nodeA, portA), EndpointBody(nodeB, portB)]))])
  }

  function LinkRequest(projectId: string, nodeA: string, portA: int, nodeB: string, portB: int): HttpRequest {
    Post(LinksPath(projectId), Some(LinkBody(nodeA, portA, nodeB, portB)))
  }

  /** One side of a link as the server reads it. */
  datatype LinkEnd = LinkEnd(nodeId: string, adapter: int, port: int)

  function ReadEnd(j: Json): Option<LinkEnd> {
    if !j.JObject? then None
    else
      var n, a, p := Lookup(j.fields, "node_id"), Lookup(j.fields, "adapter_number"), Lookup(j.fields, "port_number");
      if n.Some? && n.value.JStr? && a.Some? && a.value.JInt? && p.Some? && p.value.JInt? then
        Some(LinkEnd(n.value.s, a.value.i, p.value.i))
      else None
  }

  function ReadEnds(items: seq<Json>): Option<seq<LinkEnd>> {
    if items == [] then Some([])
    else
      var e, es := ReadEnd(items[0]), ReadEnds(items[1..]);
      if e.Some? && es.Some? then Some([e.value] + es.value) else None
  }

  /** The sides named by a link body, as the server reads them. */
  function LinkEnds(body: Json): Option<seq<LinkEnd>> {
    if !body.JObject? then None
    else
      var nodes := Lookup(body.fields, "nodes");
      if nodes.Some? && nodes.value.JArray? then ReadEnds(nodes.value.items) else None
  }

  lemma EndpointRead(nodeId: string, port: int)
    ensures ReadEnd(EndpointBody(nodeId, port)) == Some(LinkEnd(nodeId, 0, port))
  {
    var fields := EndpointBody(nodeId, port).fields;
    assert fields[0].0 != "adapter_number" && fields[0].0 != "port_number" && fields[1].0 != "port_number";
    LookupFirst(fields, 0, "node_id");
    LookupFirst(fields, 1, "adapter_number");
    LookupFirst(fields, 2, "port_number");
  }

  /** The link body names exactly the two sides given, in order, each on adapter 0. */
  lemma LinkBodyRoundTrip(nodeA: string, portA: int, nodeB: string, portB: int)
    ensures LinkEnds(LinkBody(nodeA, portA, nodeB, portB)) == Some([LinkEnd(nodeA, 0, portA), LinkEnd(nodeB, 0, portB)])
  {
    var items := [EndpointBody(nodeA, portA), EndpointBody(nodeB, portB)];
    EndpointRead(nodeA, portA);
    EndpointRead(nodeB, portB);
    var tail := [EndpointBody(nodeB, portB)];
    assert tail[1..] == [] && items[1..] == tail;
    assert ReadEnds([]) == Some([]);
    assert ReadEnd(tail[0]) == Some(LinkEnd(nodeB, 0, portB));
    assert ReadEnds(tail[1..]) == Some([]);
    assert [LinkEnd(nodeB, 0, portB)] + [] == [LinkEnd(nodeB, 0, portB)];
    assert ReadEnds(tail) == Some([LinkEnd(nodeB, 0, portB)]);
    assert [LinkEnd(nodeA, 0, portA)] + [LinkEnd(nodeB, 0, portB)] == [LinkEnd(nodeA, 0, portA), LinkEnd(nodeB, 0, portB)];
    assert ReadEnds(items) == Some([LinkEnd(nodeA, 0, portA), LinkEnd(nodeB, 0, portB)]);
    var body := LinkBody(nodeA, portA, nodeB, portB);
    assert Lookup(body.fields, "nodes") == Some(JArray(items));
  }

  // ---------------------------------------------------------------------------
  // create_link: finding the endpoints

  /** `n["node_id"]`. */
  function NodeId(n: Json): Result<Json, ClientError> {
    if !n.JObject? then Failure(Uncaught(TypeError))
    else match Lookup(n.fields, "node_id")
      case Some(v) => Success(v)
      case None => Failure(Uncaught(KeyError))
  }

  /** Every entry is an object with a "node_id". */
  predicate WellFormedNodes(items: seq<Json>) {
    forall i :: 0 <= i < |items| ==> NodeId(items[i]).Success?
  }

  /** Some entry has the given id. */
  predicate ListsNode(items: seq<Json>, id: string) {
    exists i :: 0 <= i < |items| && NodeId(items[i]) == Success(JStr(id))
  }

  /** `next((n for n in items if n["node_id"] == id), None)`. */
  function FindNode(items: seq<Json>, id: string): (r: Result<Option<Json>, ClientError>)
    ensures r.Success? && r.value.Some? ==> r.value.value in items && NodeId(r.value.value) == Success(JStr(id))
    ensures r == Success(None) ==> WellFormedNodes(items) && !ListsNode(items, id)
    ensures r.Failure? ==> exists i :: 0 <= i < |items| && NodeId(items[i]) == Failure(r.error)
    ensures WellFormedNodes(items) ==> r.Success? && (r.value.Some? <==> ListsNode(items, id))
  {
    if items == [] then Success(None)
    else
      var head := NodeId(items[0]);
      if head.Failure? then Failure(head.error)
      else if head.value == JStr(id) then Success(Some(items[0]))
      else
        var r := FindNode(items[1..], id);
        assert WellFormedNodes(items) ==> WellFormedNodes(items[1..]) by {
          if WellFormedNodes(items) {
            forall i | 0 <= i < |items[1..]| ensures NodeId(items[1..][i]).Success? {
              assert items[1..][i] == items[i + 1];
            }
          }
        }
        assert ListsNode(items, id) <==> ListsNode(items[1..], id) by {
          if ListsNode(items, id) {
            var i :| 0 <= i < |items| && NodeId(items[i]) == Success(JStr(id));
            assert i > 0 && items[1..][i - 1] == items[i];
          }
          if ListsNode(items[1..], id) {
            var i :| 0 <= i < |items[1..]| && NodeId(items[1..][i]) == Success(JStr(id));
            assert items[i + 1] == items[1..][i];
          }
        }
        assert r.Failure? ==> exists i :: 0 <= i < |items| && NodeId(items[i]) == Failure(r.error) by {
          if r.Failure? {
            var i :| 0 <= i < |items[1..]| && NodeId(items[1..][i]) == Failure(r.error);
            assert items[i + 1] == items[1..][i];
          }
        }
        assert r == Success(None) ==> WellFormedNodes(items) by {
          if r == Success(None) {
            forall i | 0 <= i < |items| ensures NodeId(items[i]).Success? {
              if i > 0 { assert items[i] == items[1..][i - 1]; }
            }
          }
        }
        r
  }

  /** Both lookups of `create_link` over the fetched node list: true when both ids are present. */
  function LocateEndpoints(nodes: Json, nodeA: string, nodeB: string): (r: Result<bool, ClientError>)
    ensures nodes.JArray? && WellFormedNodes(nodes.items) ==>
              r == Success(ListsNode(nodes.items, nodeA) && ListsNode(nodes.items, nodeB))
  {
    match Iterate(nodes)
    case None => Failure(Uncaught(TypeError))
    case Some(items) =>
      var a := FindNode(items, nodeA);
      if a.Failure? then Failure(a.error)
      else
        var b := FindNode(items, nodeB);
        if b.Failure? then Failure(b.error)
        else Success(a.value.Some? && b.value.Some?)
  }

  /** `create_link`: fetch the nodes, check both ids, then POST the link. */
  function CreateLinkSpec(script: Script, client: Option<Connection>, history: seq<HttpRequest>,
                          projectId: string, nodeA: string, portA: int, nodeB: string, portB: int): Step<Json> {
    var listed := Dispatch(script, client, history, Get(NodesPath(projectId)));
    if listed.result.Failure? then listed
    else
      var found := LocateEndpoints(listed.result.value, nodeA, nodeB);
      if found.Failure? then Step(Failure(found.error), listed.history)
      else if !found.value then Step(Failure(Gns3ClientError(NodesNotFoundMessage)), listed.history)
      else Dispatch(script, client, listed.history, LinkRequest(projectId, nodeA, portA, nodeB, portB))
  }

  predicate IsLinkPost(req: HttpRequest, projectId: string) {
    req.verb == "POST" && req.path == LinksPath(projectId)
  }

  /** How many link-creation POSTs for the project a request log holds. */
  function LinkPosts(h: seq<HttpRequest>, projectId: string): nat {
    if h == [] then 0
    else LinkPosts(h[..|h| - 1], projectId) + if IsLinkPost(h[|h| - 1], projectId) then 1 else 0
  }

  lemma LinkPostsAppend(h: seq<HttpRequest>, req: HttpRequest, projectId: string)
    ensures LinkPosts(h + [req], projectId) == LinkPosts(h, projectId) + if IsLinkPost(req, projectId) then 1 else 0
  {
    assert (h + [req])[..|h|] == h;
  }

  /**
   * The requests `create_link` issues: the GET of the node list (when the
   * client is open), then the link POST only when both ids were found; so the
   * log gains a link POST exactly when the check passed, and at most one.
   */
  lemma CreateLinkRequests(script: Script, client: Option<Connection>, history: seq<HttpRequest>,
                           projectId: string, nodeA: string, portA: int, nodeB: string, portB: int)
    ensures var out := CreateLinkSpec(script, client, history, projectId, nodeA, portA, nodeB, portB);
      var listed := Dispatch(script, client, history, Get(NodesPath(projectId)));
      var posted := listed.result.Success? && LocateEndpoints(listed.result.value, nodeA, nodeB) == Success(true);
      && out.history == history + (if IsOpen(client) then [Get(NodesPath(projectId))] else [])
                                 + (if posted then [LinkRequest(projectId, nodeA, portA, nodeB, portB)] else [])
      && LinkPosts(out.history, projectId) == LinkPosts(history, projectId) + (if posted then 1 else 0)
  {
    var get := Get(NodesPath(projectId));
    var post := LinkRequest(projectId, nodeA, portA, nodeB, portB);
    assert !IsLinkPost(get, projectId);
    assert IsLinkPost(post, projectId);
    if IsOpen(client) {
      LinkPostsAppend(history, get, projectId);
      LinkPostsAppend(history + [get], post, projectId);
    }
  }

  /**
   * When the node list is well formed but lacks one of the ids, `create_link`
   * fails with "One or both nodes not found" and the GET of the node list is
   * the only request it issued.
   */
  lemma CreateLinkRefusesMissingNode(script: Script, client: Option<Connection>, history: seq<HttpRequest>,
                                     projectId: string, nodeA: string, portA: int, nodeB: string, portB: int)
    requires IsOpen(client)
    requires var listed := Dispatch(script, client, history, Get(NodesPath(projectId)));
      listed.result.Success? && listed.result.value.JArray? && WellFormedNodes(listed.result.value.items)
    requires var nodes := Dispatch(script, client, history, Get(NodesPath(projectId))).result.value.items;
      !ListsNode(nodes, nodeA) || !ListsNode(nodes, nodeB)
    ensures var out := CreateLinkSpec(script, client, history, projectId, nodeA, portA, nodeB, portB);
      && out.result == Failure(Gns3ClientError(NodesNotFoundMessage))
      && Classify(out.result.error) == NotFound
      && out.history == history + [Get(NodesPath(projectId))]
      && LinkPosts(out.history, projectId) == LinkPosts(history, projectId)
  {
    CreateLinkRequests(script, client, history, projectId, nodeA, portA, nodeB, portB);
  }

  /**
   * When both ids are listed, `create_link` issues exactly one link POST after
   * the GET, naming the two nodes in the caller's order on adapter 0, and
   * returns that POST's normalised reply.
   */
  lemma CreateLinkPostsOnce(script: Script, client: Option<Connection>, history: seq<HttpRequest>,
                            projectId: string, nodeA: string, portA: int, nodeB: string, portB: int)
    requires IsOpen(client)
    requires var listed := Dispatch(script, client, history, Get(NodesPath(projectId)));
      listed.result.Success? && listed.result.value.JArray? && WellFormedNodes(listed.result.value.items)
    requires var nodes := Dispatch(script, client, history, Get(NodesPath(projectId))).result.value.items;
      ListsNode(nodes, nodeA) && ListsNode(nodes, nodeB)
    ensures var out := CreateLinkSpec(script, client, history, projectId, nodeA, portA, nodeB, portB);
      var post := LinkRequest(projectId, nodeA, portA, nodeB, portB);
      && out.history == history + [Get(NodesPath(projectId)), post]
      && LinkPosts(out.history, projectId) == LinkPosts(history, projectId) + 1
      && LinkEnds(post.body.value) == Some([LinkEnd(nodeA, 0, portA), LinkEnd(nodeB, 0, portB)])
      && out.result == Normalise(script(history + [Get(NodesPath(projectId))], client.value, post))
  {
    CreateLinkRequests(script, client, history, projectId, nodeA, portA, nodeB, portB);
    LinkBodyRoundTrip(nodeA, portA, nodeB, portB);
  }

  /** Nodes "A" and "B" listed, a link from "A" to "C" requested: the check fails. */
  lemma MissingEndpointExample()
    ensures LocateEndpoints(JArray([JObject([("node_id", JStr("A"))]), JObject([("node_id", JStr("B"))])]), "A", "C")
              == Success(false)
  {
    var items := [JObject([("node_id", JStr("A"))]), JObject([("node_id", JStr("B"))])];
    assert NodeId(items[0]) == Success(JStr("A"));
    assert NodeId(items[1]) == Success(JStr("B"));
    assert FindNode(items, "A") == Success(Some(items[0]));
    assert FindNode(items[1..][1..], "C") == Success(None);
  }

  // ---------------------------------------------------------------------------
  // get_project_stats: the status histogram

  /** `node.get("status", "unknown")`, which must be usable as a dict key. */
  function StatusKey(node: Json): (r: Result<Json, ClientError>)
    ensures node.JObject? && !HasKey(node.fields, "status") ==> r == Success(JStr("unknown"))
    ensures node.JObject? && HasKey(node.fields, "status") && Lookup(node.fields, "status").value.JStr? ==>
              r == Success(Lookup(node.fields, "status").value)
    ensures node.JObject? && HasKey(node.fields, "status") ==>
              var s := Lookup(node.fields, "status").value;
              r == if s.JArray? || s.JObject? then Failure(Uncaught(TypeError)) else Success(s)
    ensures !node.JObject? ==> r.Failure?
  {
    if !node.JObject? then Failure(Uncaught(AttributeError))
    else
      var s := Lookup(node.fields, "status").GetOr(JStr("unknown"));
      if s.JArray? || s.JObject? then Failure(Uncaught(TypeError)) else Success(s)
  }

  /** The status keys of the nodes in order, or the first error met while reading them. */
  function StatusKeys(nodes: seq<Json>): (r: Result<seq<Json>, ClientError>)
    ensures r.Success? ==> |r.value| == |nodes| && forall i :: 0 <= i < |nodes| ==> StatusKey(nodes[i]) == Success(r.value[i])
  {
    if nodes == [] then Success([])
    else
      var init := StatusKeys(nodes[..|nodes| - 1]);
      if init.Failure? then init
      else
        var k := StatusKey(nodes[|nodes| - 1]);
        if k.Failure? then Failure(k.error) else Success(init.value + [k.value])
  }

  /** An error met in a prefix is the error of the whole scan. */
  lemma {:induction false} StatusKeysPrefixFailure(nodes: seq<Json>, i: nat)
    requires i <= |nodes| && StatusKeys(nodes[..i]).Failure?
    ensures StatusKeys(nodes) == StatusKeys(nodes[..i])
    decreases |nodes| - i
  {
    if i < |nodes| {
      assert nodes[..i + 1][..i] == nodes[..i];
      StatusKeysPrefixFailure(nodes, i + 1);
    } else {
      assert nodes[..i] == nodes;
    }
  }

  /** Reading one more node extends the keys read so far, or stops with that node's error. */
  lemma StatusKeysStep(nodes: seq<Json>, i: nat)
    requires i < |nodes| && StatusKeys(nodes[..i]).Success?
    ensures StatusKeys(nodes[..i + 1]) ==
              if StatusKey(nodes[i]).Failure? then Failure(StatusKey(nodes[i]).error)
              else Success(StatusKeys(nodes[..i]).value + [StatusKey(nodes[i]).value])
  {
    assert nodes[..i + 1][..i] == nodes[..i];
  }

  /** `histogram.get(key, 0)`. */
  function Count(histogram: Dict<Json, nat>, key: Json): nat {
    Lookup(histogram, key).GetOr(0)
  }

  /** One pass of the loop body: `histogram[key] = histogram.get(key, 0) + 1`. */
  function Bump(histogram: Dict<Json, nat>, key: Json): Dict<Json, nat> {
    var n: nat := Count(histogram, key) + 1;
    Store(histogram, key, n)
  }

  /** The histogram the loop builds: one `Bump` for each key in turn. */
  function Tally(keys: seq<Json>): Dict<Json, nat> {
    if keys == [] then [] else Bump(Tally(keys[..|keys| - 1]), keys[|keys| - 1])
  }

  /** One more key adds one to its count. */
  lemma TallyStep(keys: seq<Json>, k: Json)
    ensures Tally(keys + [k]) == Bump(Tally(keys), k)
  {
    assert (keys + [k])[..|keys|] == keys;
  }

  /** The sum of the counts. */
  function Total(histogram: Dict<Json, nat>): nat {
    if histogram == [] then 0 else histogram[0].1 + Total(histogram[1..])
  }

  lemma {:induction false} TotalStore(h: Dict<Json, nat>, k: Json, v: nat)
    ensures Total(Store(h, k, v)) + Count(h, k) == Total(h) + v
  {
    if h != [] && h[0].0 != k {
      TotalStore(h[1..], k, v);
      assert Store(h, k, v)[1..] == Store(h[1..], k, v);
    }
  }

  /** One bump adds one to the count of its key and leaves the count of any other key. */
  lemma BumpCount(h: Dict<Json, nat>, key: Json, k: Json)
    ensures Count(Bump(h, key), k) == Count(h, k) + if k == key then 1 else 0
  {
    var n: nat := Count(h, key) + 1;
    LookupStore(h, key, n, k);
  }

  /** One bump adds one to that key's count and to the total, and keeps the keys distinct. */
  lemma BumpCounts(h: Dict<Json, nat>, key: Json)
    ensures forall k :: Count(Bump(h, key), k) == Count(h, k) + if k == key then 1 else 0
    ensures DistinctKeys(h) ==> DistinctKeys(Bump(h, key))
    ensures Total(Bump(h, key)) == Total(h) + 1
  {
    var n: nat := Count(h, key) + 1;
    forall k ensures Count(Bump(h, key), k) == Count(h, k) + if k == key then 1 else 0 {
      BumpCount(h, key, k);
    }
    if DistinctKeys(h) {
      StorePreservesDistinctKeys(h, key, n);
    }
    TotalStore(h, key, n);
  }

  /**
   * The histogram counts every key exactly as often as it occurs, has one
   * entry per distinct key, and its counts add up to the number of keys.
   */
  lemma {:induction false} TallyCounts(keys: seq<Json>)
    ensures forall k :: Count(Tally(keys), k) == multiset(keys)[k]
    ensures DistinctKeys(Tally(keys))
    ensures Total(Tally(keys)) == |keys|
  {
    if keys != [] {
      var init := keys[..|keys| - 1];
      var last := keys[|keys| - 1];
      assert keys == init + [last];
      TallyCounts(init);
      BumpCounts(Tally(init), last);
      forall k ensures Count(Tally(keys), k) == multiset(keys)[k] {
        assert multiset(keys)[k] == multiset(init)[k] + if k == last then 1 else 0;
      }
    }
  }

  // ---------------------------------------------------------------------------
  // get_project_stats: the summary record

  datatype ProjectStats = ProjectStats(
    projectId: string,
    projectName: Json,
    status: Json,
    totalNodes: nat,
    totalLinks: nat,
    nodeStatus: Dict<Json, nat>)

  /** The record built from the three replies (the histogram loop, then the dict literal). */
  function Summarise(projectId: string, project: Json, nodes: Json, links: Json): Result<ProjectStats, ClientError> {
    match Iterate(nodes)
    case None => Failure(Uncaught(TypeError))
    case Some(items) =>
      var keys := StatusKeys(items);
      if keys.Failure? then Failure(keys.error)
      else if !project.JObject? then Failure(Uncaught(AttributeError))
      else match Iterate(links)
        case None => Failure(Uncaught(TypeError))
        case Some(linkItems) =>
          Success(ProjectStats(
            projectId,
            Lookup(project.fields, "name").GetOr(JNull),
            Lookup(project.fields, "status").GetOr(JNull),
            |items|, |linkItems|, Tally(keys.value)))
  }

  /**
   * A summary echoes the project id, counts the listed nodes and links, and
   * its histogram has one entry per status whose counts add up to the node
   * count; each node lacking a status is counted under "unknown".
   */
  lemma SummaryIsConsistent(projectId: string, project: Json, nodes: seq<Json>, links: Json)
    requires Summarise(projectId, project, JArray(nodes), links).Success?
    ensures var st := Summarise(projectId, project, JArray(nodes), links).value;
      && st.projectId == projectId
      && st.totalNodes == |nodes|
      && st.totalLinks == |Iterate(links).value|
      && DistinctKeys(st.nodeStatus)
      && Total(st.nodeStatus) == st.totalNodes
      && forall k :: Count(st.nodeStatus, k) == multiset(StatusKeys(nodes).value)[k]
  {
    TallyCounts(StatusKeys(nodes).value);
  }

  /** Reading one more node appends its status. */
  lemma StatusKeysSnoc(nodes: seq<Json>, node: Json)
    requires StatusKeys(nodes).Success? && StatusKey(node).Success?
    ensures StatusKeys(nodes + [node]) == Success(StatusKeys(nodes).value + [StatusKey(node).value])
  {
    assert (nodes + [node])[..|nodes|] == nodes;
  }

  /** The statuses read from two nodes with status `a` and one with status `b`. */
  lemma StatusKeysOfThree(first: Json, second: Json, a: Json, b: Json)
    requires a.JStr? && b.JStr? && first == JObject([("status", a)]) && second == JObject([("status", b)])
    ensures StatusKeys([first, first, second]) == Success([a, a, b])
  {
    assert Lookup(first.fields, "status") == Some(a);
    assert Lookup(second.fields, "status") == Some(b);
    StatusKeysSnoc([], first);
    assert [] + [first] == [first] && [] + [a] == [a];
    StatusKeysSnoc([first], first);
    assert [first] + [first] == [first, first] && [a] + [a] == [a, a];
    StatusKeysSnoc([first, first], second);
    assert [first, first] + [second] == [first, first, second] && [a, a] + [b] == [a, a, b];
  }

  /** Counting `a`, `a`, `b` for two different keys gives two and one, in first-seen order. */
  lemma TallyOfThree(a: Json, b: Json)
    requires a != b
    ensures Tally([a, a, b]) == [(a, 2), (b, 1)]
  {
    TallyStep([], a);
    TallyStep([a], a);
    TallyStep([a, a], b);
    assert [] + [a] == [a] && [a] + [a] == [a, a] && [a, a] + [b] == [a, a, b];
    assert Bump([], a) == [(a, 1)];
    assert Bump([(a, 1)], a) == [(a, 2)];
    assert Lookup([(a, 2)], b) == None;
    assert Bump([(a, 2)], b) == [(a, 2), (b, 1)];
  }

  /** The summary of a project record and two lists whose statuses all read. */
  lemma SummariseArrays(projectId: string, project: Json, items: seq<Json>, linkItems: seq<Json>, keys: seq<Json>)
    requires StatusKeys(items) == Success(keys) && project.JObject?
    ensures Summarise(projectId, project, JArray(items), JArray(linkItems)) ==
              Success(ProjectStats(projectId, Lookup(project.fields, "name").GetOr(JNull),
                                   Lookup(project.fields, "status").GetOr(JNull), |items|, |linkItems|, Tally(keys)))
  {
    assert Iterate(JArray(items)) == Some(items);
    assert Iterate(JArray(linkItems)) == Some(linkItems);
  }

  /** Three nodes (started, started, stopped) and two links. */
  lemma ProjectStatsExample()
    ensures var started := JObject([("status", JStr("started"))]);
      var stopped := JObject([("status", JStr("stopped"))]);
      Summarise("p1", JObject([("name", JStr("lab"))]), JArray([started, started, stopped]), JArray([JObject([]), JObject([])]))
        == Success(ProjectStats("p1", JStr("lab"), JNull, 3, 2, [(JStr("started"), 2), (JStr("stopped"), 1)]))
  {
    var started := JObject([("status", JStr("started"))]);
    var stopped := JObject([("status", JStr("stopped"))]);
    assert "started"[2] != "stopped"[2];
    StatusKeysOfThree(started, stopped, JStr("started"), JStr("stopped"));
    TallyOfThree(JStr("started"), JStr("stopped"));
    SummariseArrays("p1", JObject([("name", JStr("lab"))]), [started, started, stopped], [JObject([]), JObject([])],
                    [JStr("started"), JStr("started"), JStr("stopped")]);
    var project := JObject([("name", JStr("lab"))]);
    assert Lookup(project.fields, "name") == Some(JStr("lab"));
    assert Lookup(project.fields, "status") == None;
  }

  /** `get_project_stats`: read the project, its nodes and its links, then summarise. */
  function ProjectStatsSpec(script: Script, client: Option<Connection>, history: seq<HttpRequest>,
                            projectId: string): Step<ProjectStats> {
    var p := Dispatch(script, client, history, Get(ProjectPath(projectId)));
    if p.result.Failure? then Step(Failure(p.result.error), p.history)
    else
      var n := Dispatch(script, client, p.history, Get(NodesPath(projectId)));
      if n.result.Failure? then Step(Failure(n.result.error), n.history)
      else
        var l := Dispatch(script, client, n.history, Get(LinksPath(projectId)));
        if l.result.Failure? then Step(Failure(l.result.error), l.history)
        else Step(Summarise(projectId, p.result.value, n.result.value, l.result.value), l.history)
  }

  /**
   * `get_project_stats` issues only the three reads, in order, stopping at the
   * first one that fails, and then fails with that read's error: there is no
   * partial summary.
   */
  lemma ProjectStatsReads(script: Script, client: Option<Connection>, history: seq<HttpRequest>, projectId: string)
    requires IsOpen(client)
    ensures var out := ProjectStatsSpec(script, client, history, projectId);
      var c := client.value;
      var fetches := [Get(ProjectPath(projectId)), Get(NodesPath(projectId)), Get(LinksPath(projectId))];
      var p := Normalise(script(history, c, fetches[0]));
      var n := Normalise(script(history + fetches[..1], c, fetches[1]));
      var l := Normalise(script(history + fetches[..2], c, fetches[2]));
      && (p.Failure? ==> out == Step(Failure(p.error), history + fetches[..1]))
      && (p.Success? && n.Failure? ==> out == Step(Failure(n.error), history + fetches[..2]))
      && (p.Success? && n.Success? && l.Failure? ==> out == Step(Failure(l.error), history + fetches))
      && (p.Success? && n.Success? && l.Success? ==>
            out == Step(Summarise(projectId, p.value, n.value, l.value), history + fetches))
      && LinkPosts(out.history, projectId) == LinkPosts(history, projectId)
  {
    var fetches := [Get(ProjectPath(projectId)), Get(NodesPath(projectId)), Get(LinksPath(projectId))];
    assert fetches[..1] == [fetches[0]] && fetches[..2] == [fetches[0], fetches[1]];
    assert history + fetches[..2] == history + [fetches[0]] + [fetches[1]];
    assert history + fetches == history + [fetches[0]] + [fetches[1]] + [fetches[2]];
    LinkPostsAppend(history, fetches[0], projectId);
    LinkPostsAppend(history + [fetches[0]], fetches[1], projectId);
    LinkPostsAppend(history + [fetches[0]] + [fetches[1]], fetches[2], projectId);
  }

  /**
   * Without an open client no operation issues a request: each fails with the
   * "not initialized" error (or httpx's RuntimeError once the client is closed).
   */
  lemma ClosedClientIssuesNothing(script: Script, client: Option<Connection>, history: seq<HttpRequest>,
                                  req: HttpRequest, projectId: string, nodeA: string, portA: int, nodeB: string, portB: int)
    requires !IsOpen(client)
    ensures var e := if client.None? then Gns3ClientError(NotInitializedMessage) else Uncaught(RuntimeError);
      && Dispatch(script, client, history, req) == Step(Failure(e), history)
      && CreateLinkSpec(script, client, history, projectId, nodeA, portA, nodeB, portB) == Step(Failure(e), history)
      && ProjectStatsSpec(script, client, history, projectId) == Step(Failure(e), history)
  {
  }
}
