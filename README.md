# Route registry of restify-abstract-config, in Dafny

This project models the route registry of restify-abstract-config. A consumer
builds `Endpoint` values (a name, a URL pattern and a handler function) and adds
them to an `AbstractAPI` under an HTTP verb (GET, PUT, DELETE or POST). The
registry keeps one list per verb, in the order the endpoints were added. Later,
`setupRoutes(server)` replays the table onto a restify server. It goes through
the verbs in the fixed order GET, PUT, DELETE, POST. For each stored endpoint it
calls the server's method for that verb (`get`, `put`, `del`, `post`) with the
endpoint's URL and handler.

Files:

- `endpoint.dfy`, module `Endpoints`: the `Endpoint` value and its getters
  (lib/endpoint.js).
- `route_table.dfy`, module `RouteTable`: the verb enumeration and the table as
  a `map<Verb, seq<Endpoint>>`, with the functions that specify adding and
  replaying (`Added`, `AddAll`, `Replay`) and the lemmas about them.
- `abstract_api.dfy`, module `Api`: the class `AbstractApi` with its
  `endpoints` field and methods (lib/abstract-api.js), and a class `Server`
  that records every registration call it receives. The class methods are
  proved against the `RouteTable` functions.

A verb that was never added has no entry in the map, and `GetEndpoinsFor`
answers `None` for it (the source returns `undefined`). This is kept apart from
an entry that is present but empty; `HasEndPointsFor` is false for both.

`addGet` and its siblings take an already built `Endpoint`. `setupRoutes(server)`
takes only the server, and the handler getter is `getImpl`.

## Model

| member | source | states |
|---|---|---|
| `Endpoints.NewEndpoint` | lib/endpoint.js:6-24 | The constructor accepts any name, URL and handler and cannot fail; `getName`, `getUrl` and `getImpl` return exactly the values passed in. |
| `Endpoints.GettersDetermineEndpoint` | lib/endpoint.js:14-24 | Rebuilding an endpoint from its getters gives it back, and two endpoints are equal exactly when all three getters agree. |
| `RouteTable.HasEndpoints` | lib/abstract-api.js:73-75 | A verb has endpoints exactly when its list, reading an absent entry as empty, is non-empty; when it has endpoints, its entry is present. |
| `RouteTable.Added` | lib/abstract-api.js:27-35 | After adding `e` under `v`, `v`'s entry is present and equals its previous contents (empty if absent) followed by `e`; every other verb's entry, present or absent, is unchanged. |
| `RouteTable.VerbCalls` | lib/abstract-api.js:41-43 | Replaying one verb's list issues exactly one call per endpoint, the i-th call carrying the i-th endpoint's URL and handler. |
| `RouteTable.VerbBlock` | lib/abstract-api.js:39-45 | Skipping a verb without endpoints gives the same calls as replaying its (empty or absent) list. |
| `RouteTable.FreshTableIsEmpty` | lib/abstract-api.js:7-9 | A new registry has no entry and no endpoints for any verb, and replaying it issues no call. |
| `RouteTable.HasEndpointsAfterAdd` | lib/abstract-api.js:73-75 | After any add for a verb, that verb has endpoints. |
| `RouteTable.AddTwiceStoresTwice` | lib/abstract-api.js:33 | No deduplication: adding the same endpoint twice under one verb appends it twice, growing the list by two. |
| `RouteTable.AddAllKeepsOrder` | lib/abstract-api.js:27-35 | After a series of adds, each verb's list is its previous contents followed by exactly the endpoints added for that verb, in the order added; adds for other verbs do not touch it. |
| `RouteTable.NoEmptyEntries` | lib/abstract-api.js:29-33 | In a registry built by adds, an entry that is present is never empty, because it is created only just before a push. |
| `RouteTable.BuiltRegistryEntries` | lib/abstract-api.js:27-35 | In a registry built by adds, a verb has endpoints exactly when some add targeted it, and its entry is absent exactly when it has none. |
| `RouteTable.ReplayPerVerb` | lib/abstract-api.js:37-71 | The calls the replay makes through the server's method for `v` are exactly `v`'s stored endpoints, as (url, handler), in insertion order; a verb without endpoints gets no call. |
| `RouteTable.ReplayCount` | lib/abstract-api.js:37-71 | The replay issues as many calls as there are endpoints stored under the four verbs in total. |
| `RouteTable.ReplayInVerbOrder` | lib/abstract-api.js:37-71 | In the replay, no call for a later verb comes before a call for an earlier one, in the order GET, PUT, DELETE, POST. |
| `RouteTable.ReplayAfterAdd` | lib/abstract-api.js:27-71 | One more add for `v` adds exactly one call to the replay, at the end of `v`'s calls, and leaves the calls for every other verb as they were. |
| `RouteTable.ReplayOfAdds` | lib/abstract-api.js:11-71 | For a registry built by a series of adds, the server's method for `v` receives one call per add for `v`, in the order of the adds. |
| `Api.Server.Get` | lib/abstract-api.js:42 | A `server.get(url, impl)` call is appended to the server's trace as a GET registration. |
| `Api.Server.Put` | lib/abstract-api.js:50 | A `server.put(url, impl)` call is appended to the trace as a PUT registration. |
| `Api.Server.Del` | lib/abstract-api.js:58 | A `server.del(url, impl)` call is appended to the trace as a DELETE registration. |
| `Api.Server.Post` | lib/abstract-api.js:66 | A `server.post(url, impl)` call is appended to the trace as a POST registration. |
| `Api.AbstractApi.constructor` | lib/abstract-api.js:7-9 | A new registry's table is empty: no verb has endpoints and every lookup answers None; its recorded history of adds is empty, so the table is what that history builds. |
| `Api.AbstractApi.AddGet` | lib/abstract-api.js:11-13 | Same effect as `AddEndpoint` with GET: the new table is `Added(old table, GET, endpoint)`, and `(GET, endpoint)` is appended to the history of adds the table is built from. |
| `Api.AbstractApi.AddPut` | lib/abstract-api.js:15-17 | Same effect as `AddEndpoint` with PUT: the new table is `Added(old table, PUT, endpoint)`, and `(PUT, endpoint)` is appended to the history of adds the table is built from. |
| `Api.AbstractApi.AddDelete` | lib/abstract-api.js:19-21 | Same effect as `AddEndpoint` with DELETE: the new table is `Added(old table, DELETE, endpoint)`, and `(DELETE, endpoint)` is appended to the history of adds the table is built from. |
| `Api.AbstractApi.AddPost` | lib/abstract-api.js:23-25 | Same effect as `AddEndpoint` with POST: the new table is `Added(old table, POST, endpoint)`, and `(POST, endpoint)` is appended to the history of adds the table is built from. |
| `Api.AbstractApi.AddEndpoint` | lib/abstract-api.js:27-35 | The new table is `Added(old table, verb, endpoint)`: the verb's list is created if absent and the endpoint appended; every other verb's lookup is unchanged; the verb then has endpoints. The add is appended to the ghost history `adds`, and the table stays equal to `AddAll(map[], adds)`, so the lemmas about `AddAll` apply to every registry built through the class. |
| `Api.AbstractApi.SetupRoutes` | lib/abstract-api.js:37-71 | The server's trace grows by exactly `Replay(endpoints)`, and the registry is unchanged. |
| `Api.AbstractApi.ReplayVerb` | lib/abstract-api.js:39-45 | One verb's block: when the verb has endpoints, the loop issues one call per endpoint in list order through the server's method for that verb; otherwise nothing. |
| `Api.AbstractApi.HasEndPointsFor` | lib/abstract-api.js:73-75 | True exactly when the lookup for the verb finds an entry and that entry is non-empty. |
| `Api.AbstractApi.GetEndpoinsFor` | lib/abstract-api.js:77-79 | None exactly when the verb has no entry; otherwise the stored list. |
| `Api.DeclareAndInstall` | lib/abstract-api.js:11-71 | Two GET adds and one POST add, then `setupRoutes` on a new server, give exactly the GET calls in declaration order followed by the POST call; `put` and `del` are never called. |

## Left out

- lib/index.js only re-exports the classes; it has no logic.
- The restify server is an external library. Only its four registration methods are modelled, as appends to a trace of `(verb, url, handler)` calls. Request matching and dispatch are not modelled.
- Handler functions are never called by the registry. They are modelled as an opaque identity (`Handler(id)`).
- lib/http-method.js and the constants module are not part of this model. The verbs are a four-value enumeration, assumed distinct. The source indexes a JavaScript array by those constants; if two constants had the same value, the two verbs would share one list. The model does not capture that.
- `addEndpoint` is public and stores an endpoint under any key, not only the four verbs. For another key, `hasEndPointsFor` of that key becomes true, but `setupRoutes` reads only the four verb keys, so such an endpoint is never replayed. The model's key type is the four verbs, so it does not capture this case.
- RouteTable.ReplayCount: "one call per stored endpoint" holds over the four verbs only; endpoints stored under another key (see the line above) would not be counted or replayed by the source.
- The version endpoint and the route-dumping diagnostics do not appear in this code. The dumps are console output anyway.
- The source is untyped JavaScript: `addGet` and its siblings accept any value, and a value without `getUrl` would throw inside `setupRoutes`. The model accepts only `Endpoint` values, so that failure is not modelled.
- A server method that throws part-way through `setupRoutes` would stop the replay early. The modelled server always accepts a call. The model's server is also never missing: in the source, `setupRoutes` called without a server throws a TypeError at the first registration call, as soon as any verb has endpoints. That failure is not modelled.
- Code outside the class (a subclass, say) could write `endpoints` directly and leave a present but empty entry. The `RouteTable` functions handle such tables, but the class changes its table only through `AddEndpoint`.
- `getEndpoinsFor` returns the registry's own array, not a copy. A caller can push onto it or truncate it, adding routes without `addEndpoint` or leaving a present but empty entry, and a reference taken earlier sees later pushes. The model returns the list as a value, so this aliasing is not captured.
- There is no concurrency; every operation is synchronous.
