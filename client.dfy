/**
 * The stateful part of the GNS3 client: the object that holds an optional
 * httpx connection, opens it on entry, closes it on exit, and sends every
 * operation through one request routine. The remote server is an object
 * that answers from a script and logs each request it receives.
 *
 * Each method is proved against the matching function of Gns3Rules, whose
 * own properties are proved there.
 */
module Gns3Client {
  import opened Results
  import opened Dicts
  import opened JsonValues
  import Config
  import opened Gns3Rules

  /**
   * The loop of `get_project_stats`: for each node, read its status (default
   * "unknown") and add one to that status's count; the first node whose status
   * cannot be read stops the loop with that error.
   */
  method CountStatuses(items: seq<Json>) returns (r: Result<Dict<Json, nat>, ClientError>)
    ensures StatusKeys(items).Success? ==> r == Success(Tally(StatusKeys(items).value))
    ensures StatusKeys(items).Failure? ==> r == Failure(StatusKeys(items).error)
  {
    var nodeStatus: Dict<Json, nat> := [];
    var i := 0;
    while i < |items|
      invariant 0 <= i <= |items|
      invariant StatusKeys(items[..i]).Success?
      invariant nodeStatus == Tally(StatusKeys(items[..i]).value)
    {
      var status := StatusKey(items[i]);
      StatusKeysStep(items, i);
      if status.Failure? {
        StatusKeysPrefixFailure(items, i + 1);
        return Failure(status.error);
      }
      TallyStep(StatusKeys(items[..i]).value, status.value);
      nodeStatus := Bump(nodeStatus, status.value);
      i := i + 1;
    }
    assert items[..i] == items;
    r := Success(nodeStatus);
  }

  /** The GNS3 server at the other end of the connection. */
  class RemoteServer {
    /** How the server answers, given what it has received so far. */
    const script: Script
    /** Every request received, oldest first. */
    var history: seq<HttpRequest>

    constructor (script: Script)
      ensures this.script == script && history == []
    {
      this.script := script;
      history := [];
    }

    /** Receives one request and answers it. */
    method Exchange(conn: Connection, req: HttpRequest) returns (o: Outcome)
      modifies this
      ensures history == old(history) + [req]
      ensures o == script(old(history), conn, req)
    {
      o := script(history, conn, req);
      history := history + [req];
    }
  }

  /** `GNS3Client`: the configuration and, between entry and exit, an httpx client. */
  class Gns3Client {
    const config: Config.GNS3Config
    const server: RemoteServer
    var client: Option<Connection>

    constructor (config: Config.GNS3Config, server: RemoteServer)
      ensures this.config == config && this.server == server && client == None
    {
      this.config := config;
      this.server := server;
      client := None;
    }

    /** `__aenter__`: a fresh connection to the configured URL, authenticated when required. */
    method Enter()
      modifies this
      ensures client == Some(OpenConnection(config)) && IsOpen(client)
      ensures client.value.baseUrl == Config.BaseUrl(config)
      ensures client.value.auth.Some? <==> config.authRequired && Truthy(config.username)
    {
      var auth: Option<Credentials> := None;
      if config.authRequired && Truthy(config.username) {
        auth := Some(Credentials(config.username.value, config.password));
      }
      client := Some(Connection(Config.BaseUrl(config), config.timeout, config.verifySsl, auth, false));
    }

    /** `__aexit__`: closes the connection if there is one, but keeps the reference to it. */
    method Exit()
      modifies this
      ensures old(client).None? ==> client == None
      ensures old(client).Some? ==> client == Some(old(client).value.(closed := true))
      ensures !IsOpen(client)
    {
      if client.Some? {
        client := Some(client.value.(closed := true));
      }
    }

    /** `_request`: one exchange with the server, normalised into a value or an error. */
    method Request(verb: string, endpoint: string, body: Option<Json>) returns (r: Result<Json, ClientError>)
      modifies server
      ensures Step(r, server.history) == Dispatch(server.script, client, old(server.history), HttpRequest(verb, endpoint, body))
    {
      if client.None? {
        return Failure(Gns3ClientError(NotInitializedMessage));
      }
      if client.value.closed {
        return Failure(Uncaught(RuntimeError));
      }
      var response := server.Exchange(client.value, HttpRequest(verb, endpoint, body));
      r := Normalise(response);
    }

    method ListProjects() returns (r: Result<Json, ClientError>)
      modifies server
      ensures Step(r, server.history) == Dispatch(server.script, client, old(server.history), Get(ProjectsPath))
    {
      r := Request("GET", ProjectsPath, None);
    }

    /** `create_project`: the name, plus the path when one is given. */
    method CreateProject(name: string, path: Option<string>) returns (r: Result<Json, ClientError>)
      modifies server
      ensures Step(r, server.history) ==
                Dispatch(server.script, client, old(server.history), Post(ProjectsPath, Some(ProjectBody(name, path))))
    {
      var data: Dict<string, Json> := [("name", JStr(name))];
      if Truthy(path) {
        assert !HasKey(data, "path");
        data := Store(data, "path", JStr(path.value));
      }
      assert JObject(data) == ProjectBody(name, path);
      r := Request("POST", ProjectsPath, Some(JObject(data)));
    }

    method GetProject(projectId: string) returns (r: Result<Json, ClientError>)
      modifies server
      ensures Step(r, server.history) == Dispatch(server.script, client, old(server.history), Get(ProjectPath(projectId)))
    {
      r := Request("GET", ProjectPath(projectId), None);
    }

    method OpenProject(projectId: string) returns (r: Result<Json, ClientError>)
      modifies server
      ensures Step(r, server.history) ==
                Dispatch(server.script, client, old(server.history), Post(ProjectPath(projectId) + "/open", None))
    {
      r := Request("POST", ProjectPath(projectId) + "/open", None);
    }

    method CloseProject(projectId: string) returns (r: Result<Json, ClientError>)
      modifies server
      ensures Step(r, server.history) ==
                Dispatch(server.script, client, old(server.history), Post(ProjectPath(projectId) + "/close", None))
    {
      r := Request("POST", ProjectPath(projectId) + "/close", None);
    }

    method DeleteProject(projectId: string) returns (r: Result<Json, ClientError>)
      modifies server
      ensures Step(r, server.history) == Dispatch(server.script, client, old(server.history), Delete(ProjectPath(projectId)))
    {
      r := Request("DELETE", ProjectPath(projectId), None);
    }

    method ListNodes(projectId: string) returns (r: Result<Json, ClientError>)
      modifies server
      ensures Step(r, server.history) == Dispatch(server.script, client, old(server.history), Get(NodesPath(projectId)))
    {
      r := Request("GET", NodesPath(projectId), None);
    }

    /** `create_node`: the literal, then the optional template and properties. */
    method CreateNode(projectId: string, name: string, nodeType: string, templateId: Option<string>,
                      x: int, y: int, properties: Option<Dict<string, Json>>) returns (r: Result<Json, ClientError>)
      modifies server
      ensures Step(r, server.history) ==
                Dispatch(server.script, client, old(server.history),
                         Post(NodesPath(projectId), Some(NodeBody(name, nodeType, templateId, x, y, properties))))
    {
      var data := NodeBase(name, nodeType, x, y);
      if Truthy(templateId) {
        data := Store(data, "compute_id", JStr("local"));
        data := Store(data, "template_id", JStr(templateId.value));
      }
      if properties.Some? && properties.value != [] {
        data := Store(data, "properties", JObject(properties.value));
      }
      r := Request("POST", NodesPath(projectId), Some(JObject(data)));
    }

    method DeleteNode(projectId: string, nodeId: string) returns (r: Result<Json, ClientError>)
      modifies server
      ensures Step(r, server.history) == Dispatch(server.script, client, old(server.history), Delete(NodePath(projectId, nodeId)))
    {
      r := Request("DELETE", NodePath(projectId, nodeId), None);
    }

    method StartNode(projectId: string, nodeId: string) returns (r: Result<Json, ClientError>)
      modifies server
      ensures Step(r, server.history) ==
                Dispatch(server.script, client, old(server.history), Post(NodePath(projectId, nodeId) + "/start", None))
    {
      r := Request("POST", NodePath(projectId, nodeId) + "/start", None);
    }

    method StopNode(projectId: string, nodeId: string) returns (r: Result<Json, ClientError>)
      modifies server
      ensures Step(r, server.history) ==
                Dispatch(server.script, client, old(server.history), Post(NodePath(projectId, nodeId) + "/stop", None))
    {
      r := Request("POST", NodePath(projectId, nodeId) + "/stop", None);
    }

    method StartAllNodes(projectId: string) returns (r: Result<Json, ClientError>)
      modifies server
      ensures Step(r, server.history) ==
                Dispatch(server.script, client, old(server.history), Post(NodesPath(projectId) + "/start", None))
    {
      r := Request("POST", NodesPath(projectId) + "/start", None);
    }

    method StopAllNodes(projectId: string) returns (r: Result<Json, ClientError>)
      modifies server
      ensures Step(r, server.history) ==
                Dispatch(server.script, client, old(server.history), Post(NodesPath(projectId) + "/stop", None))
    {
      r := Request("POST", NodesPath(projectId) + "/stop", None);
    }

    method ListLinks(projectId: string) returns (r: Result<Json, ClientError>)
      modifies server
      ensures Step(r, server.history) == Dispatch(server.script, client, old(server.history), Get(LinksPath(projectId)))
    {
      r := Request("GET", LinksPath(projectId), None);
    }

    /** `create_link`: list the nodes, look both ids up, and only then POST the link. */
    method CreateLink(projectId: string, nodeA: string, portA: int, nodeB: string, portB: int)
      returns (r: Result<Json, ClientError>)
      modifies server
      ensures Step(r, server.history) ==
                CreateLinkSpec(server.script, client, old(server.history), projectId, nodeA, portA, nodeB, portB)
    {
      var nodes := ListNodes(projectId);
      if nodes.Failure? {
        return nodes;
      }
      var items := Iterate(nodes.value);
      if items.None? {
        return Failure(Uncaught(TypeError));
      }
      var a := FindNode(items.value, nodeA);
      if a.Failure? {
        return Failure(a.error);
      }
      var b := FindNode(items.value, nodeB);
      if b.Failure? {
        return Failure(b.error);
      }
      if a.value.None? || b.value.None? {
        return Failure(Gns3ClientError(NodesNotFoundMessage));
      }
      r := Request("POST", LinksPath(projectId), Some(LinkBody(nodeA, portA, nodeB, portB)));
    }

    method DeleteLink(projectId: string, linkId: string) returns (r: Result<Json, ClientError>)
      modifies server
      ensures Step(r, server.history) == Dispatch(server.script, client, old(server.history), Delete(LinkPath(projectId, linkId)))
    {
      r := Request("DELETE", LinkPath(projectId, linkId), None);
    }

    method ListTemplates() returns (r: Result<Json, ClientError>)
      modifies server
      ensures Step(r, server.history) == Dispatch(server.script, client, old(server.history), Get(TemplatesPath))
    {
      r := Request("GET", TemplatesPath, None);
    }

    /** `get_project_stats`: three reads, then the status histogram loop and the summary record. */
    method GetProjectStats(projectId: string) returns (r: Result<ProjectStats, ClientError>)
      modifies server
      ensures Step(r, server.history) == ProjectStatsSpec(server.script, client, old(server.history), projectId)
    {
      var project := GetProject(projectId);
      if project.Failure? {
        return Failure(project.error);
      }
      var nodes := ListNodes(projectId);
      if nodes.Failure? {
        return Failure(nodes.error);
      }
      var links := ListLinks(projectId);
      if links.Failure? {
        return Failure(links.error);
      }
      var listed := Iterate(nodes.value);
      if listed.None? {
        return Failure(Uncaught(TypeError));
      }
      var items := listed.value;
      var nodeStatus := CountStatuses(items);
      if nodeStatus.Failure? {
        return Failure(nodeStatus.error);
      }
      if !project.value.JObject? {
        return Failure(Uncaught(AttributeError));
      }
      var linkItems := Iterate(links.value);
      if linkItems.None? {
        return Failure(Uncaught(TypeError));
      }
      r := Success(ProjectStats(
        projectId,
        Lookup(project.value.fields, "name").GetOr(JNull),
        Lookup(project.value.fields, "status").GetOr(JNull),
        |items|, |linkItems.value|, nodeStatus.value));
    }
  }
}
