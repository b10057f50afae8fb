# Facebook MCP wrapper: tool registry, HTTP routes and Graph API requests

This project is a Dafny model of the two pieces of logic in the Facebook MCP
server repository.

The first piece is the HTTP wrapper around the tool registry:

- the table of thirty tools (`tool_mapping` in `call_tool`) and its lookup;
- the way each handler pulls its arguments out of the `arguments` dict with
  `.get`, using defaults;
- the forwarding of those arguments to the Manager method of the same name;
- the advertised catalog (`list_tools`);
- the bodies of the `/tools`, `/tools/<tool_name>` and `/tools/batch` routes,
  which turn call outcomes into `{success, ...}` envelopes with status codes
  200, 400, 404 and 500.

The second piece is the construction of Graph API requests in `FacebookAPI`:

- the URL that `_request` targets;
- the access token that `_request` writes into the caller's parameter dict;
- the HTTP method, endpoint and parameters of each public method.

Modules:

- `Wrappers`: `Option` and `Result`.
- `Json`: decoded JSON values and the few Python built-ins the wrapper applies to
  them. These are `dict.get`, `type(v).__name__` as it appears in exception
  messages, and `str()` of a value that can be a dict key.
- `Distinctness`: pairwise distinctness of a sequence, related to the size of its
  element set.
- `FacebookApi`: the request descriptors.
  - `_request` is a method that updates a `ParamDict` object in place and then
    asks a `network` oracle for the decoded reply.
  - Every public method is a method that allocates its parameter dict and calls
    `_request`.
  - The configuration constants are a `Config` parameter.
- `ToolCatalog`: the `list_tools` literal.
  - Each descriptor holds the tool's name and its parameters. A parameter has a
    declared type and a `required` flag.
  - The wording shown beside each tool and parameter is looked up by tool name
    in `ToolWording`.
- `ToolRegistry`: `tool_mapping` as the ordered entries of its dict literal.
  - `ToMap` turns those entries into the dictionary Python builds from them.
  - `Lookup`, `Bind`, `Dispatch` and `CallTool` model `call_tool`.
  - It also holds the lemmas that tie the table to the catalog.
- `HttpRoutes`: the route bodies as functions of a Manager and a body of type
  `Option<map>`.
  - The batch loop is an imperative method, `CollectResults`, proved equal to a
    recursive specification, `RunEntries`.

The Manager is an oracle `Invocation -> Outcome`. An `Invocation` is a method
name and its positional arguments. An `Outcome` says that the call returned a
value, or raised an exception with a message and a flag telling whether the
exception is a `ValueError`.

The network is an oracle `HttpRequest -> Value`. Because of these two oracles,
every property below holds for every Manager and for every Graph API behaviour.

## Model

| member | source | states |
|---|---|---|
| Json.TypeName | facebook_mcp_wrapper.py:84 | the type name in a built-in exception message is "dict" exactly for objects, "list" exactly for lists and "str" exactly for strings |
| Json.Decimal | facebook_mcp_wrapper.py:85 | `str()` of a natural number is a non-empty string of decimal digits, with one digit exactly when the number is below ten |
| Json.DecimalRoundTrip | facebook_mcp_wrapper.py:85 | reading back the digits `str()` writes for a natural number gives that number |
| Json.PyStr | facebook_mcp_wrapper.py:85 | the f-string shows a string name as itself and a natural number in decimal |
| FacebookApi.Url | facebook_api.py:9 | the request URL is the base URL, then one `/`, then the endpoint, and nothing else |
| FacebookApi.WithToken | facebook_api.py:10 | the sent parameters have the caller's keys plus `access_token`; `access_token` maps to the page token, overwriting any earlier entry; every other key keeps its value |
| FacebookApi.Request | facebook_api.py:8-12 | the caller's dict is updated in place to `WithToken` of its old contents; exactly that dict is sent with the given verb to `Url(base, endpoint)`, and the decoded reply is returned |
| FacebookApi.PostMessage | facebook_api.py:14-15 | POST on `<page id>/feed` with exactly `message` and the token |
| FacebookApi.ReplyToComment | facebook_api.py:17-18 | POST on `<comment id>/comments` with exactly `message` and the token |
| FacebookApi.GetPosts | facebook_api.py:20-21 | GET on `<page id>/posts` with `fields` = `id,message,created_time` and the token |
| FacebookApi.GetComments | facebook_api.py:23-24 | GET on `<post id>/comments` with `fields` = `id,message,from,created_time` and the token |
| FacebookApi.DeletePost | facebook_api.py:26-27 | DELETE on the bare post id with only the token as parameters |
| FacebookApi.DeleteComment | facebook_api.py:29-30 | DELETE on the bare comment id with only the token as parameters |
| FacebookApi.PeriodOrDefault | facebook_api.py:32 | an omitted period is `lifetime`; a given one is used as is |
| FacebookApi.GetInsights | facebook_api.py:32-33 | GET on `<post id>/insights` with `metric`, `period` (default `lifetime`) and the token |
| FacebookApi.GetBulkInsights | facebook_api.py:35-37 | the same request as `GetInsights` with `metric` set to the metric names joined with commas in list order |
| FacebookApi.JoinCommas | facebook_api.py:36 | `",".join` gives `""` for no names, begins with the first name, and puts a comma right after it when there are more |
| FacebookApi.SplitCommas | facebook_api.py:36 | `str.split(",")` gives at least one piece, and no piece holds a comma |
| FacebookApi.SplitJoinRoundTrip | facebook_api.py:36 | splitting the joined metric string on `,` gives back a non-empty list whose names hold no comma |
| FacebookApi.EmptyMetricListDoesNotRoundTrip | facebook_api.py:36 | an empty metric list joins to `""`, which splits into `[""]` rather than `[]` |
| FacebookApi.JoinCommasLength | facebook_api.py:36 | the joined string is as long as the names together plus one comma between each pair of neighbours |
| ToolCatalog.ParamJson | facebook_mcp_wrapper.py:103 | a parameter's dict has exactly `type`, `required` and `description`, with the declared type's name and the required flag |
| ToolCatalog.ParamsJson | facebook_mcp_wrapper.py:102-104 | a tool's `parameters` dict has exactly the tool's parameter names as keys; each name maps to the `ParamJson` dict of its last declaration |
| ToolCatalog.ToolJson | facebook_mcp_wrapper.py:99-105 | a catalog entry is a dict with exactly `name`, `description` and `parameters`; its `parameters` keys are the tool's parameter names, and each holds that parameter's type and `required` flag |
| ToolCatalog.ListTools | facebook_mcp_wrapper.py:95-322 | `list_tools` advertises 30 tools; `ToolRegistry.CatalogMatchesMapping` ties them to `tool_mapping` |
| ToolRegistry.ArgKeys | facebook_mcp_wrapper.py:28-81 | the keys a handler reads, one per argument, in the order it passes them |
| ToolRegistry.Extract | facebook_mcp_wrapper.py:28-81 | extracting from a dict gives one value per argument: the dict's entry under its key, or the argument's default |
| ToolRegistry.ToolTable | facebook_mcp_wrapper.py:26-82 | the dict literal lists 30 entries |
| ToolRegistry.ToMap | facebook_mcp_wrapper.py:26-82 | the dict a literal builds holds every listed name; a name maps to the handler of its last occurrence, so a later entry replaces an earlier one |
| ToolRegistry.ToMapKeys | facebook_mcp_wrapper.py:26-82 | the dict built from a literal has exactly the literal's names as keys |
| ToolRegistry.ToMapAt | facebook_mcp_wrapper.py:26-82 | when no name repeats, the dict maps each name of the literal to that entry's handler |
| ToolRegistry.ToolNamesDistinct | facebook_mcp_wrapper.py:26-82 | no two entries of `tool_mapping` have the same name |
| ToolRegistry.MappingMatchesTable | facebook_mcp_wrapper.py:26-82 | `tool_mapping` has exactly the listed names as keys and maps each to its listed handler |
| ToolRegistry.AgreesConcat | facebook_mcp_wrapper.py:97-322 | agreement of catalog and table entries, entry by entry, is kept when both are extended |
| ToolRegistry.PostAgrees | facebook_mcp_wrapper.py:98-137 | the catalog's post operations agree entry by entry with the table's: the same name; a handler calling the same-named Manager method; the advertised parameters read in order; defaults fixed by the key; a non-None default for each optional parameter |
| ToolRegistry.CommentAgrees | facebook_mcp_wrapper.py:138-170 | the same agreement for the comment operations |
| ToolRegistry.GetAgrees | facebook_mcp_wrapper.py:171-217 | the same agreement for the get operations |
| ToolRegistry.InsightsAgrees | facebook_mcp_wrapper.py:218-268 | the same agreement for the insights operations |
| ToolRegistry.ReactionAgrees | facebook_mcp_wrapper.py:269-312 | the same agreement for the reaction operations |
| ToolRegistry.MessagingAgrees | facebook_mcp_wrapper.py:313-321 | the same agreement for the messaging operation |
| ToolRegistry.EarlyGroupsAgree | facebook_mcp_wrapper.py:98-217 | the agreement holds for the post, comment and get operations taken together |
| ToolRegistry.LateGroupsAgree | facebook_mcp_wrapper.py:218-321 | the agreement holds for the insights, reaction and messaging operations taken together |
| ToolRegistry.CatalogAgreesWithTable | facebook_mcp_wrapper.py:97-322 | the whole catalog agrees with the whole table, entry by entry, in the same order |
| ToolRegistry.CatalogNamesAreTableNames | facebook_mcp_wrapper.py:97-322 | the catalog lists the table's names in the table's order |
| ToolRegistry.MappingPosition | facebook_mcp_wrapper.py:26-82 | every key of `tool_mapping` has a position at which both the table and the catalog list that name, and the two entries there agree |
| ToolRegistry.HandlersCallSameNamedMethod | facebook_mcp_wrapper.py:28-81 | every handler calls the Manager method named like its tool; each argument's default is fixed by its key |
| ToolRegistry.CatalogMatchesMapping | facebook_mcp_wrapper.py:97-322 | the catalog lists 30 pairwise-distinct names that are exactly the keys of `tool_mapping`; each tool's advertised parameters are the keys its handler reads, in order |
| ToolRegistry.OptionalParametersHaveDefaults | facebook_mcp_wrapper.py:107-113 | a parameter advertised as not required is read with a default other than None |
| ToolRegistry.IsValueError | facebook_mcp_wrapper.py:395-400 | the unknown-tool error is a ValueError; the unhashable, missing-`get` and not-iterable errors are not; a Manager exception is one exactly when the Manager raised a ValueError |
| ToolRegistry.Message | facebook_mcp_wrapper.py:395-409 | `str(e)` is `Unknown tool: <name>` for the lookup error, the Manager's own message for its exceptions, and CPython's missing-attribute wording for `.get` on a non-dict |
| Json.Get | facebook_mcp_wrapper.py:28-81 | `d.get(key, default)` is the dict's entry when the key is present and the default otherwise |
| ToolRegistry.Lookup | facebook_mcp_wrapper.py:84-88 | the lookup succeeds exactly for a string key of `tool_mapping` and yields its handler. A list or dict name raises the unhashable TypeError. Any other name raises the ValueError with `str()` of the name |
| ToolRegistry.Bind | facebook_mcp_wrapper.py:28-81 | a handler applies exactly when it reads no argument or is given a dict. It then calls its operation with one value per argument, each from `.get` with its default. Otherwise it raises the missing-`get` AttributeError |
| ToolRegistry.Dispatch | facebook_mcp_wrapper.py:84-88 | `call_tool` reaches the Manager exactly when the name is a key and the handler can read its arguments; the method it calls is the tool's own name |
| ToolRegistry.CallTool | facebook_mcp_wrapper.py:20-93 | `call_tool` raises the unhashable TypeError for a list or dict name and `ValueError("Unknown tool: <name>")` for any other name that is not a key; for a key and a dict of arguments it calls the same-named Manager method with the `.get` values in order, returning its value or re-raising its exception |
| ToolRegistry.UnknownToolRaisesValueError | facebook_mcp_wrapper.py:84-85 | a string that is not a key raises a ValueError with message `Unknown tool: <name>` whatever the arguments. The outcome is the same for every Manager, so no handler runs |
| ToolRegistry.MissingArgumentsDefault | facebook_mcp_wrapper.py:28-81 | a known tool given a dict always reaches its Manager method. Each argument is the dict's value when present, else `''` for `caption`, `{}` for `comments` and None otherwise |
| ToolRegistry.ForwardsOutcomeUnchanged | facebook_mcp_wrapper.py:87-93 | the Manager method's return value is the result; its exception is re-raised with the same class and message |
| ToolRegistry.ToolsWithoutArguments | facebook_mcp_wrapper.py:53-58 | `get_page_posts` and `get_page_fan_count` call their methods with no arguments, whatever they are given, even a non-dict |
| HttpRoutes.EntryJson | facebook_mcp_wrapper.py:429-439 | a batch result dict has exactly `tool`, `success` and either `data` or `error`, with `success` true exactly for a result |
| HttpRoutes.EntriesJson | facebook_mcp_wrapper.py:441-444 | the results list holds each batch result's dict at its own position |
| HttpRoutes.EnvelopeJson | facebook_mcp_wrapper.py:356-444 | every envelope carries `success`, false exactly for an error, with the keys each route writes; the catalog's `tools` list holds each tool's dict in catalog order |
| HttpRoutes.ListToolsRoute | facebook_mcp_wrapper.py:351-360 | `/tools` answers 200 with the catalog and a `count` equal to its length |
| HttpRoutes.ListToolsRouteAdvertisesMapping | facebook_mcp_wrapper.py:355-359 | `/tools` reports a count of 30 and lists the keys of `tool_mapping`, each exactly once |
| HttpRoutes.Falsy | facebook_mcp_wrapper.py:374 | `not data` holds exactly for a missing body and for the empty dict; a non-empty dict is truthy |
| HttpRoutes.ExecuteTool | facebook_mcp_wrapper.py:368-409 | the route answers 400 with `Request body must be valid JSON` exactly when the body is absent or an empty dict |
| HttpRoutes.ExecuteToolStatus | facebook_mcp_wrapper.py:380-409 | with a body: 200 with `tool` and the result exactly on success; 404 exactly for a ValueError, whoever raised it; 500 exactly for any other exception; the error's message on failure |
| HttpRoutes.FalsyBodyCallsNoTool | facebook_mcp_wrapper.py:373-378 | a falsy body gets the same 400 answer for every Manager and every tool name, so no tool is called |
| HttpRoutes.UnknownToolIs404 | facebook_mcp_wrapper.py:395-400 | an unknown tool name is answered 404 with `Unknown tool: <name>` |
| HttpRoutes.HandlerValueErrorIs404 | facebook_mcp_wrapper.py:395-400 | a ValueError raised by the Manager for a known tool is also answered 404 |
| HttpRoutes.MissingArgumentsKeyMeansEmpty | facebook_mcp_wrapper.py:380 | a body without `arguments` gives the same answer as one with `"arguments": {}` |
| HttpRoutes.RunEntry | facebook_mcp_wrapper.py:424-439 | a batch entry's result carries the entry's `name` (None when absent). It is a success exactly when the call returns, with that data, and otherwise holds the exception's message |
| HttpRoutes.ToolRequests | facebook_mcp_wrapper.py:423 | the loop visits a list's items or a string's characters. An empty dict gives no entries. A non-empty dict raises the `.get` AttributeError of a `str` key; None, a bool or an int raises the not-iterable TypeError naming its type |
| HttpRoutes.RunEntries | facebook_mcp_wrapper.py:422-439 | the loop's recursive specification: a completed loop gives one result per entry, the first entry's result first; an early stop is the `.get` AttributeError of a value that is not a dict |
| HttpRoutes.RunEntriesShape | facebook_mcp_wrapper.py:422-439 | the loop completes exactly when every entry is a dict, and then gives one result per entry at that entry's own position |
| HttpRoutes.RunEntriesFirstFault | facebook_mcp_wrapper.py:423-425 | when the loop stops early, it raises the `.get` AttributeError of the first entry that is not a dict |
| HttpRoutes.BatchResponse | facebook_mcp_wrapper.py:411-444 | the route answers 400 with `Request must contain "tools" array` exactly when the body is absent, empty or has no `tools`; any other answer is a 200 batch result |
| HttpRoutes.CollectResults | facebook_mcp_wrapper.py:422-439 | the imperative loop computes exactly `RunEntries` |
| HttpRoutes.ExecuteBatch | facebook_mcp_wrapper.py:411-444 | the route body computes exactly `BatchResponse` |
| HttpRoutes.BatchOneResultPerEntry | facebook_mcp_wrapper.py:422-444 | a batch of dicts is answered 200 with `success` true and exactly one result per entry, in input order, each with that entry's `name` and its own outcome |
| HttpRoutes.BatchIsolation | facebook_mcp_wrapper.py:427-439 | two batches of dicts that differ at one position get the same result at every other position |
| HttpRoutes.BatchNonDictEntryEscapes | facebook_mcp_wrapper.py:424 | an entry that is not a dict makes the route raise the `.get` AttributeError of the first such entry |

Agreement between the catalog and the table is proved group by group, because
the source lists the 30 tools in six groups. The distinctness of the 30 names
is proved through a fingerprint of each name: its length and two of its
characters. The names are listed in order of strictly increasing fingerprint,
and each one is shown to be a table name.

## Left out

- Flask plumbing is left out: route registration, `request.get_json` parsing,
  `jsonify`, the error handlers, `/health` and `app.run`. The route bodies take
  the decoded body as `Option<map>`, so a body that is JSON but not an object
  is not modelled.
- `sync_route` is left out. An exception that escapes a route body is returned
  as `Response.Uncaught(fault)` and is not turned into the decorator's 500
  response.
- The `except` branch of the `/tools` route is left out, because `list_tools`
  cannot raise.
- Logging and tracebacks are left out; they have no effect on any answer.
- The Manager, including `filter_negative_comments`, is not part of this model,
  because its code is not available. It is an oracle, and it is pure: a batch
  cannot observe side effects of earlier entries.
- `requests.request` and `response.json()` are the `network` oracle. The model
  stops at the request descriptor.
  - The descriptor holds the query parameters as a map, so their order on the
    wire is not modelled.
  - Network errors and JSON decoding errors are not modelled.
- JSON floats are not modelled.
- Dict iteration order is not modelled.
  - A `tools` value that is a non-empty dict raises on its first key, whichever
    key that is.
  - The catalog's parameters are an ordered sequence, following the order of
    the source literal.
- `server.py` and the module-level singletons are left out.
- `ToolCatalog.ToolWording`: the catalog's wording is kept apart from the
  descriptors and keyed by tool name. No property is stated about the wording
  text; it is reproduced from the source literal.
- Built-in exception messages follow CPython 3.12's wording. Other versions may
  word them differently.
- Flask gives its static rule `/tools/batch` priority over `/tools/<tool_name>`.
  That route matching is Flask behaviour and is not modelled.
