# GNS3 REST gateway: a Dafny model

This project models the gateway that the GNS3 MCP server uses to talk to a GNS3
network-emulation server over its REST API (version 2). It covers two parts.

- **`GNS3Client`** (gns3_client.py):
  - a context-managed object that holds an optional httpx connection;
  - `_request`, which turns every reply into a JSON value or a `GNS3ClientError`;
  - the request bodies of `create_project`, `create_node` and `create_link`;
  - the existence check `create_link` makes before it posts a link;
  - the status histogram and summary record of `get_project_stats`;
  - the pass-through operations that forward a single request.
- **`GNS3Config`** (config.py): the defaults, `base_url`, and `load_config`'s
  precedence (environment, then the `"gns3"` section of the config file, then the default).

How the files are organised:

| file | module | contents |
|---|---|---|
| results.dfy | `Results` | `Option` and `Result` |
| dicts.dfy | `Dicts` | a Python dict as an insertion-ordered list of pairs: `get` is `Lookup`, `d[k] = v` is `Store` |
| numerals.dfy | `Numerals` | `str()` of an integer and `int()` of a decimal text |
| json.dfy | `JsonValues` | parsed JSON values, Python's `str()` of them, and what `for x in v` and `len(v)` visit |
| config.dfy | `Config` | `GNS3Config`, `base_url` and `load_config` |
| rules.dfy | `Gns3Rules` | the parts of the client that do not depend on its mutable state: `_request` as a function of the transport's outcome, the request bodies, the node lookup, the histogram, and each composite operation as a function of the server's replies |
| client.dfy | `Gns3Client` | the `GNS3Client` class with its `client` field, and a `RemoteServer` object |

`RemoteServer` answers from a script and keeps a log of every request it received.

The remote server is a function of three things: the requests it has already received, the connection, and the new request. It returns either a response or a transport failure. A response carries three things: the status, the raw text, and what `json.loads` makes of that text (nothing when the text is not JSON).

A Python exception that the client does not wrap stays visible in the model, as `ClientError.Uncaught(kind)`. The kinds are:
- a body that is not JSON;
- a closed httpx client;
- `n["node_id"]` on a record that is not a dict or lacks the key;
- `.get` on a value that is not a dict;
- an unhashable status;
- iterating or taking `len()` of a reply that is not a list, dict or string.

Each method of the class is proved equal to the matching function of `Gns3Rules`. The properties of those functions are proved as lemmas.

Behaviour of the code that the model keeps as written:
- **Missing node.** `create_link` raises the fixed message "One or both nodes not found" and does not say which id is missing (gns3_client.py:183-184).
- **Error detail.** An API error's detail is the body's `message`, else `str(body)` when the body is a JSON object without `message`, else the raw text (gns3_client.py:76-80).
- **Status range.** `raise_for_status` accepts only 2xx codes, so a 1xx or 3xx reply is an API error too. The model counts every status outside 200-299 as an error.
- **Closing the handle.** `__aexit__` closes the httpx client but keeps the reference (gns3_client.py:37-40). A later request therefore reaches a closed httpx client and fails with its `RuntimeError`, not with "Client not initialized".
- **Re-entry.** Entering the context again replaces the connection without closing the old one.
- **Malformed node records.** A node record without `node_id` makes `create_link` raise `KeyError`. The model returns that error instead of requiring well-formed records. Most lemmas about `create_link` assume well-formed records.
- **Bad integers.** A port or timeout that `int()` rejects makes `load_config` fail. The model returns that failure instead of assuming well-formed numbers.

## Model

| member | source | states |
|---|---|---|
| Dicts.Lookup | gns3_client.py:218-219 | `d.get(k)` finds a value exactly when the key is present, and the value found is paired with that key in the dict |
| Dicts.Store | gns3_client.py:219 | `d[k] = v` keeps the existing keys in place and appends the key only when it is new |
| Dicts.LookupStore | gns3_client.py:219 | after `d[k] = v`, reading `k` gives `v` and reading any other key gives what it gave before |
| Numerals.NatToString | gns3_client.py:75 | `str()` of a status code is a non-empty string of digits |
| Numerals.NatRoundTrip | gns3_client.py:75 | the digits written for a status code read back as that code |
| Numerals.IntToString | config.py:29 | `str(port)` is non-empty and starts with '-' exactly for a negative port |
| Numerals.IntRoundTrip | config.py:50 | `int(str(i)) == i` for every integer |
| Numerals.IntToStringInjective | config.py:29 | two ports are written the same exactly when they are equal |
| JsonValues.PyStr | gns3_client.py:78 | `str()` of a string is the string itself; booleans print as True/False; integers print in decimal |
| JsonValues.Iterate | gns3_client.py:180-181 | iterating a list visits its items, a dict its keys in order (each as a string), and a string its one-character strings; other values cannot be iterated |
| Config.Defaults | config.py:17-24 | the dataclass defaults; DefaultsWhenNothingIsSet and SilentFieldKeepsDefault state when `load_config` yields them, DefaultBaseUrl their URL |
| Config.BaseUrl | config.py:26-29 | `base_url`; BaseUrlDeterminesEndpoint states that the URL determines protocol, host and port, and DefaultBaseUrl gives its default value |
| Config.ToInt | config.py:50-54 | `int()` of the chosen port or timeout; IntRoundTrip and PortFromEnvironment state that it reads back what `str()` writes, and FileTextValuesExample that it accepts a port given as text |
| Config.Section | config.py:41-46 | `json.load(f).get("gns3", {})`, `{}` without a file; MissingSectionIsIgnored and OnlySectionMatters state that only this member is consulted |
| Config.Chosen | config.py:49-56 | `os.getenv(NAME, config_data.get(key, default))`; EnvironmentOverridesFile, FileOverridesDefault and SilentFieldKeepsDefault state its three tiers |
| Config.LoadConfig | config.py:32-59 | `load_config`; EnvironmentOverridesFile, FileOverridesDefault, SilentFieldKeepsDefault and MissingSectionIsIgnored state its environment-then-file-then-default precedence field by field |
| Config.Lower | config.py:52-53 | `lower()` keeps the length and lowers each ASCII letter in place |
| Config.DefaultBaseUrl | config.py:17-29 | with the defaults the base URL is `http://localhost:3080/v2` |
| Config.BaseUrlDeterminesEndpoint | config.py:27-29 | two configurations have the same base URL exactly when protocol, host and port agree (for protocols without ':') |
| Config.DefaultsWhenNothingIsSet | config.py:17-24 | no environment variables and no file give exactly the dataclass defaults |
| Config.MissingSectionIsIgnored | config.py:46 | a file without a "gns3" member gives the same result as no file |
| Config.OnlySectionMatters | config.py:41-46 | only the "gns3" member of the file is consulted: two files (or no file) with the same section give the same result |
| Config.EnvironmentOverridesFile | config.py:49-58 | a set environment variable fixes its field whatever the file holds: host and protocol are its text, port and timeout are `int()` of its text, the booleans are its text compared with "true" case-insensitively; username and password never depend on the file |
| Config.FileOverridesDefault | config.py:46-56 | for any file whose "gns3" member is the section, whatever else it holds, where the environment is silent the value in the file's "gns3" section is used: host and protocol as its `str()`, port and timeout as its `int()`, the flags as its `str()` compared with "true" case-insensitively; a value of the field's own type is used as it is |
| Config.FileTextValuesExample | config.py:49-53 | a file giving the port as "8080" and verify_ssl as "false" yields port 8080 and verify_ssl false, the rest at their defaults |
| Config.SilentFieldKeepsDefault | config.py:46-56 | for any file whose "gns3" member is the section, where neither the environment nor that section sets a field, it keeps its default: localhost, 3080, http, verify_ssl true, 30 seconds, auth not required |
| Config.PortFromEnvironment | config.py:50 | a port written to GNS3_PORT is read back unchanged |
| Config.IsTrueText | config.py:52-56 | `.lower() == "true"`; TrueTextIsCaseInsensitive states that it holds exactly for "true" in any case mix |
| Config.TrueTextIsCaseInsensitive | config.py:52-56 | the boolean fields are true exactly for "true" in any case mix; "yes", "1" and "false" give false |
| Gns3Rules.AuthFor | gns3_client.py:25-27 | credentials are sent exactly when auth is required and the username is non-empty, and they are the configured pair |
| Gns3Rules.OpenConnection | gns3_client.py:29-34 | the httpx client `__aenter__` builds: `base_url`, timeout, TLS verification and the credentials that AuthFor states |
| Gns3Rules.IsSuccessStatus | gns3_client.py:67 | `raise_for_status` passes exactly the 2xx codes; Normalise states that success only comes from such a reply |
| Gns3Rules.ErrorDetail | gns3_client.py:76-80 | the error detail is `str()` of the body's `message`, else `str()` of the body object, else the raw text when the body is not a JSON object |
| Gns3Rules.Normalise | gns3_client.py:64-84 | a 204 or an empty 2xx reply becomes `{"success": True}` without parsing; any other 2xx reply returns the parsed body or fails to decode; a non-2xx reply raises "GNS3 API error: <status> - <detail>"; a transport failure raises "Connection error: <cause>"; success only comes from a 2xx reply |
| Gns3Rules.Dispatch | gns3_client.py:62-84 | `_request` as a whole; ClosedClientIssuesNothing states that without an open client nothing is sent, and DispatchErrorsAreClassified that each of its errors is told apart |
| Gns3Rules.ApiErrorMessage | gns3_client.py:75-80 | "GNS3 API error: <status> - <detail>"; ApiErrorMessageParts states its layout and ClassifyApiError that the status reads back from it |
| Gns3Rules.ClassifyConnectionError | gns3_client.py:83-84 | every transport error message is recognised as a connection error |
| Gns3Rules.ClassifyApiError | gns3_client.py:74-81 | the HTTP status can be read back from every API error message |
| Gns3Rules.DispatchErrorsAreClassified | gns3_client.py:62-84 | every error of `_request` tells apart: not initialised, closed client, connection failure, undecodable 2xx body, or API error carrying the exact status |
| Gns3Rules.NotFoundResponseExample | gns3_client.py:74-81 | a 404 with body `{"message": "not found"}` raises "GNS3 API error: 404 - not found" |
| Gns3Rules.ClosedClientIssuesNothing | gns3_client.py:62-63 | without an open client, `_request`, `create_link` and `get_project_stats` fail at once and the server receives nothing |
| Gns3Rules.ProjectBody | gns3_client.py:96-98 | the `create_project` body has distinct keys, always holds the name, and holds the path exactly when the path is non-empty |
| Gns3Rules.NodeBaseFields | gns3_client.py:132-137 | the starting dict of `create_node` holds name, node_type, x and y, once each and nothing else |
| Gns3Rules.WithTemplateFields | gns3_client.py:138-140 | a non-empty template id adds compute_id "local" and the template id, and leaves the other entries alone |
| Gns3Rules.WithPropertiesFields | gns3_client.py:141-142 | non-empty properties are added under "properties", and the other entries are left alone |
| Gns3Rules.OptionalNodeLookups | gns3_client.py:138-142 | after the two optional steps, compute_id and template_id are present exactly for a non-empty template id, properties exactly for non-empty properties, and every other entry is unchanged |
| Gns3Rules.OptionalNodeKeys | gns3_client.py:138-142 | the two optional steps keep the keys distinct and add no key outside those of a node body |
| Gns3Rules.NodeBody | gns3_client.py:132-142 | the `create_node` body, whose keys and values NodeBodyFields states |
| Gns3Rules.NodeBodyFields | gns3_client.py:132-142 | the `create_node` body always has name, type and position; it has compute "local" and the template only for a non-empty template id, and properties only when non-empty; no other key, none twice |
| Gns3Rules.LinkBody | gns3_client.py:186-199 | the `create_link` body, which LinkBodyRoundTrip reads back as the two sides in the caller's order |
| Gns3Rules.EndpointRead | gns3_client.py:188-192 | each side of the link body reads back as the node, adapter 0 and the caller's port |
| Gns3Rules.LinkBodyRoundTrip | gns3_client.py:186-198 | the link body names exactly the two sides given, in the caller's order, both on adapter 0 |
| Gns3Rules.NodeId | gns3_client.py:180-181 | `n["node_id"]`, which raises on a record that is not a dict or lacks the key; FindNode states when the search meets that error |
| Gns3Rules.FindNode | gns3_client.py:180-181 | the search returns a listed record with the wanted id; it returns nothing only when every record is well formed and none has the id; it fails only on a malformed record; over well-formed records it finds exactly when the id is listed |
| Gns3Rules.LocateEndpoints | gns3_client.py:179-183 | over a well-formed node list the check passes exactly when both ids are listed |
| Gns3Rules.CreateLinkSpec | gns3_client.py:179-200 | `create_link` as a function of the server's replies; CreateLinkRequests, CreateLinkRefusesMissingNode and CreateLinkPostsOnce state its requests and results |
| Gns3Rules.CreateLinkRequests | gns3_client.py:179-200 | `create_link` issues the node-list GET (when open), then a link POST only when both ids were found; the count of link POSTs grows by one exactly then |
| Gns3Rules.CreateLinkRefusesMissingNode | gns3_client.py:179-184 | when an id is missing the result is "One or both nodes not found", classified as NotFound; the GET is the only request and no link POST is made |
| Gns3Rules.CreateLinkPostsOnce | gns3_client.py:186-200 | when both ids are listed, exactly one link POST follows the GET; it names the nodes in caller order on adapter 0, and its reply is the result |
| Gns3Rules.MissingEndpointExample | gns3_client.py:179-183 | nodes A and B listed, a link A to C requested: the check fails |
| Gns3Rules.StatusKey | gns3_client.py:218-219 | a node without a status is counted under "unknown"; a string status is its own key; a node that is not a dict raises; any other status present is its own key, except that a list or dict status cannot be a key and raises `TypeError` |
| Gns3Rules.StatusKeys | gns3_client.py:217-218 | the keys read from the nodes are, position by position, each node's status key |
| Gns3Rules.StatusKeysPrefixFailure | gns3_client.py:217-218 | the first node whose status cannot be read decides the error of the whole loop |
| Gns3Rules.StatusKeysStep | gns3_client.py:217-218 | reading one more node extends the keys, or stops with that node's error |
| Gns3Rules.Tally | gns3_client.py:216-219 | the histogram the loop builds; TallyCounts states its counts, distinct keys and total |
| Gns3Rules.TallyStep | gns3_client.py:217-219 | the histogram of one more key is the histogram so far with that key bumped once |
| Gns3Rules.Bump | gns3_client.py:219 | `node_status[status] = node_status.get(status, 0) + 1`; BumpCount and BumpCounts state its effect on the counts, the keys and the total |
| Gns3Rules.BumpCount | gns3_client.py:219 | `histogram[key] = histogram.get(key, 0) + 1` adds one to that key's count and leaves every other count |
| Gns3Rules.BumpCounts | gns3_client.py:219 | one bump keeps the keys distinct and adds one to the sum of the counts |
| Gns3Rules.TallyCounts | gns3_client.py:216-219 | the histogram counts each status exactly as often as it occurs, has one entry per status, and its counts sum to the number of nodes |
| Gns3Rules.Summarise | gns3_client.py:216-228 | the record `get_project_stats` returns; SummaryIsConsistent and SummariseArrays state its fields |
| Gns3Rules.SummaryIsConsistent | gns3_client.py:221-228 | the summary echoes the project id, total_nodes is the node count, total_links is the link count, and the histogram sums to total_nodes |
| Gns3Rules.SummariseArrays | gns3_client.py:221-228 | for a project dict and two lists whose statuses all read, the record holds the id, the project's name and status (None when absent), the two lengths and the tally of the statuses |
| Gns3Rules.ProjectStatsExample | gns3_client.py:210-228 | nodes started, started, stopped and two links give {started: 2, stopped: 1}, 3 nodes and 2 links |
| Gns3Rules.ProjectStatsSpec | gns3_client.py:212-228 | `get_project_stats` as a function of the server's replies; ProjectStatsReads states its three reads and their errors |
| Gns3Rules.ProjectStatsReads | gns3_client.py:212-214 | `get_project_stats` issues the three reads in order, stops at the first failure with its error and no partial result, and issues no link POST |
| Gns3Client.CountStatuses | gns3_client.py:216-219 | the histogram loop yields the tally of the nodes' status keys, or the first error met |
| Gns3Client.RemoteServer.constructor | gns3_client.py:66 | the scripted server that `self.client.request` reaches starts with an empty request log |
| Gns3Client.RemoteServer.Exchange | gns3_client.py:66 | one request is appended to the log and answered from the script |
| Gns3Client.Gns3Client.constructor | gns3_client.py:19-21 | a new client holds its configuration and no connection |
| Gns3Client.Gns3Client.Enter | gns3_client.py:23-35 | entry opens a connection to `base_url`, with credentials exactly when auth is required and a username is set |
| Gns3Client.Gns3Client.Exit | gns3_client.py:37-40 | exit closes the connection if there is one and keeps the reference; afterwards the client is not open |
| Gns3Client.Gns3Client.Request | gns3_client.py:42-84 | `_request` fails without a connection, issues nothing on a closed one, and otherwise logs one request and normalises its reply |
| Gns3Client.Gns3Client.ListProjects | gns3_client.py:86-88 | one GET of /projects through `_request` |
| Gns3Client.Gns3Client.CreateProject | gns3_client.py:90-99 | building the dict in place gives the `create_project` body, which is POSTed to /projects |
| Gns3Client.Gns3Client.GetProject | gns3_client.py:101-103 | one GET of /projects/{id} |
| Gns3Client.Gns3Client.OpenProject | gns3_client.py:105-107 | one POST to /projects/{id}/open |
| Gns3Client.Gns3Client.CloseProject | gns3_client.py:109-111 | one POST to /projects/{id}/close |
| Gns3Client.Gns3Client.DeleteProject | gns3_client.py:113-115 | one DELETE of /projects/{id} |
| Gns3Client.Gns3Client.ListNodes | gns3_client.py:117-119 | one GET of /projects/{id}/nodes |
| Gns3Client.Gns3Client.CreateNode | gns3_client.py:121-144 | building the dict in place gives the `create_node` body, which is POSTed to /projects/{id}/nodes |
| Gns3Client.Gns3Client.DeleteNode | gns3_client.py:146-148 | one DELETE of /projects/{id}/nodes/{node} |
| Gns3Client.Gns3Client.StartNode | gns3_client.py:150-152 | one POST to /projects/{id}/nodes/{node}/start |
| Gns3Client.Gns3Client.StopNode | gns3_client.py:154-156 | one POST to /projects/{id}/nodes/{node}/stop |
| Gns3Client.Gns3Client.StartAllNodes | gns3_client.py:158-160 | one POST to /projects/{id}/nodes/start |
| Gns3Client.Gns3Client.StopAllNodes | gns3_client.py:162-164 | one POST to /projects/{id}/nodes/stop |
| Gns3Client.Gns3Client.ListLinks | gns3_client.py:166-168 | one GET of /projects/{id}/links |
| Gns3Client.Gns3Client.CreateLink | gns3_client.py:170-200 | `create_link` behaves as `CreateLinkSpec`, whose request log and results the create_link lemmas state |
| Gns3Client.Gns3Client.DeleteLink | gns3_client.py:202-204 | one DELETE of /projects/{id}/links/{link} |
| Gns3Client.Gns3Client.ListTemplates | gns3_client.py:206-208 | one GET of /templates |
| Gns3Client.Gns3Client.GetProjectStats | gns3_client.py:210-228 | the three reads, the histogram loop and the record behave as `ProjectStatsSpec`, whose properties ProjectStatsReads and SummaryIsConsistent state |

## Left out

- **Transport.** The httpx transport, TLS verification, timeouts and basic-auth encoding are left out. The server is a script over the request log, and the connection records only its settings.
- **Async.** The async/await scheduling is left out. Every operation is sequential, including the three reads of `get_project_stats`.
- **JSON text.** Decoding JSON text is not modelled: the decoded value is supplied with each response. JSON floats are not modelled.
- **Request log.** The log is a real field of `RemoteServer`, not a ghost one, because the script reads it.
- **String forms.** `str()` of lists and dicts writes strings in single quotes without escaping, and only ASCII letters are lowered. Python's `repr` escaping and Unicode `lower()` are not modelled.
- **int().** `int()` accepts only an optional sign followed by decimal digits. Surrounding whitespace and underscores, which Python also accepts, are not modelled.
- **Config I/O.** `load_dotenv`, `os.getenv`, `os.path.exists`, opening the file and `json.load` are I/O. The environment and the parsed document are parameters. A config file that is not valid JSON is not modelled.
- Config.LoadConfig: a host or protocol that the file gives as a non-string is stored as its `str()` text; Python would store the raw value, whose f-string in `base_url` is the same text.
- Gns3Rules.StatusKey: JSON `true` and `1` (and `false` and `0`) are different histogram keys here; Python's dict treats them as the same key.
- **Duplicate keys.** JSON objects with duplicate keys are not modelled: `Lookup` returns the first match.
- **Tool adapters.** tools/node_tools.py, tools/project_tools.py, tools/link_tools.py and tools/template_tools.py are not part of this model. Each wraps one client call in a result envelope.
- **Registration glue.** gns3_mcp_server.py and tools/__init__.py are not part of this model. They register the tools with the MCP framework.
- Gns3Rules.CreateLinkRefusesMissingNode, Gns3Rules.CreateLinkPostsOnce, Gns3Rules.LocateEndpoints: these state the outcome only for a JSON-array node list of well-formed records. For other inputs `FindNode` and `CreateLinkSpec` define the error raised.
