/** The route registry (class AbstractAPI in lib/abstract-api.js) and the
    server it replays its routes onto, reduced to the calls it receives. */
module Api {
  import opened Endpoints
  import opened RouteTable

  /** The server's route-registration interface: one method per verb, each
      taking a URL and a handler. Only the calls are modelled, as an
      append-only trace; request dispatch belongs to the server library. */
  class Server {
    var registrations: seq<Registration>

    constructor ()
      ensures registrations == []
    {
      registrations := [];
    }

    method Get(url: string, impl: Handler)
      modifies this
      ensures registrations == old(registrations) + [Registration(GET, url, impl)]
    {
      registrations := registrations + [Registration(GET, url, impl)];
    }

    method Put(url: string, impl: Handler)
      modifies this
      ensures registrations == old(registrations) + [Registration(PUT, url, impl)]
    {
      registrations := registrations + [Registration(PUT, url, impl)];
    }

    /** The server names its DELETE registration `del`. */
    method Del(url: string, impl: Handler)
      modifies this
      ensures registrations == old(registrations) + [Registration(DELETE, url, impl)]
    {
      registrations := registrations + [Registration(DELETE, url, impl)];
    }

    method Post(url: string, impl: Handler)
      modifies this
      ensures registrations == old(registrations) + [Registration(POST, url, impl)]
    {
      registrations := registrations + [Registration(POST, url, impl)];
    }
  }

  class AbstractApi {
    /** Verb to the endpoints declared for it, in the order they were added. */
    var endpoints: Table
    /** Every add made on this registry so far, oldest first. */
    ghost var adds: seq<(Verb, Endpoint)>

    /** The table is what the recorded adds build from an empty table, so the
        lemmas about AddAll (AddAllKeepsOrder, NoEmptyEntries,
        BuiltRegistryEntries, ReplayOfAdds) apply to it. */
    ghost predicate Valid()
      reads this
    {
      endpoints == AddAll(map[], adds)
    }

    /** A new registry holds no endpoints for any verb. */
    constructor ()
      ensures Valid() && adds == []
      ensures endpoints == map[]
      ensures forall v :: !HasEndPointsFor(v) && GetEndpoinsFor(v) == None
    {
      endpoints := map[];
      adds := [];
    }

    method AddGet(endpoint: Endpoint)
      modifies this
      ensures endpoints == Added(old(endpoints), GET, endpoint)
      ensures adds == old(adds) + [(GET, endpoint)]
      ensures old(Valid()) ==> Valid()
    {
      AddEndpoint(GET, endpoint);
    }

    method AddPut(endpoint: Endpoint)
      modifies this
      ensures endpoints == Added(old(endpoints), PUT, endpoint)
      ensures adds == old(adds) + [(PUT, endpoint)]
      ensures old(Valid()) ==> Valid()
    {
      AddEndpoint(PUT, endpoint);
    }

    method AddDelete(endpoint: Endpoint)
      modifies this
      ensures endpoints == Added(old(endpoints), DELETE, endpoint)
      ensures adds == old(adds) + [(DELETE, endpoint)]
      ensures old(Valid()) ==> Valid()
    {
      AddEndpoint(DELETE, endpoint);
    }

    method AddPost(endpoint: Endpoint)
      modifies this
      ensures endpoints == Added(old(endpoints), POST, endpoint)
      ensures adds == old(adds) + [(POST, endpoint)]
      ensures old(Valid()) ==> Valid()
    {
      AddEndpoint(POST, endpoint);
    }

    /** Appends `endpoint` to the list for `endpointType`, creating the list
        on first use. Nothing is deduplicated and no other verb's entry
        changes. */
    method AddEndpoint(endpointType: Verb, endpoint: Endpoint)
      modifies this
      ensures endpoints == Added(old(endpoints), endpointType, endpoint)
      ensures GetEndpoinsFor(endpointType) == Some(old(ListOrEmpty(endpoints, endpointType)) + [endpoint])
      ensures forall w :: w != endpointType ==> GetEndpoinsFor(w) == old(GetEndpoinsFor(w))
      ensures HasEndPointsFor(endpointType)
      ensures adds == old(adds) + [(endpointType, endpoint)]
      ensures old(Valid()) ==> Valid()
    {
      if endpointType !in endpoints {
        endpoints := endpoints[endpointType := []];
      }
      endpoints := endpoints[endpointType := endpoints[endpointType] + [endpoint]];
      adds := adds + [(endpointType, endpoint)];
      assert adds[..|adds| - 1] == old(adds);
    }

    /** Registers every stored endpoint on `server`: the GET endpoints first,
        then PUT, DELETE and POST, each verb's in the order they were added.
        The registry itself is left unchanged. */
    method SetupRoutes(server: Server)
      modifies server
      ensures server.registrations == old(server.registrations) + Replay(endpoints)
      ensures endpoints == old(endpoints)
    {
      ghost var g, p, d, o :=
        VerbBlock(endpoints, GET), VerbBlock(endpoints, PUT), VerbBlock(endpoints, DELETE), VerbBlock(endpoints, POST);
      ghost var start := server.registrations;
      ReplayVerb(GET, server);
      ReplayVerb(PUT, server);
      ReplayVerb(DELETE, server);
      ReplayVerb(POST, server);
      assert server.registrations == start + g + p + d + o;
      assert Replay(endpoints) == g + p + d + o;
      AppendBlocks(start, g, p, d, o);
    }

    /** One of the four blocks of SetupRoutes: when `v` has endpoints, one
        registration call per endpoint through the server's method for `v`. */
    method ReplayVerb(v: Verb, server: Server)
      modifies server
      ensures server.registrations == old(server.registrations) + VerbBlock(endpoints, v)
    {
      if HasEndPointsFor(v) {
        var eps := GetEndpoinsFor(v).value;
        for i := 0 to |eps|
          invariant server.registrations == old(server.registrations) + VerbCalls(v, eps[..i])
        {
          var endpoint := eps[i];
          match v {
            case GET => server.Get(endpoint.GetUrl(), endpoint.GetImpl());
            case PUT => server.Put(endpoint.GetUrl(), endpoint.GetImpl());
            case DELETE => server.Del(endpoint.GetUrl(), endpoint.GetImpl());
            case POST => server.Post(endpoint.GetUrl(), endpoint.GetImpl());
          }
          assert eps[..i + 1][..i] == eps[..i];
        }
        assert eps[..|eps|] == eps;
      }
    }

    /** True exactly when `endpointType` has an entry and it is not empty. */
    function HasEndPointsFor(endpointType: Verb): (b: bool)
      reads this
      ensures b <==> GetEndpoinsFor(endpointType).Some? && GetEndpoinsFor(endpointType).value != []
    {
      HasEndpoints(endpoints, endpointType)
    }

    /** The stored list for `endpointType`, or None (the source's `undefined`)
        for a verb that was never added. */
    function GetEndpoinsFor(endpointType: Verb): (r: Option<seq<Endpoint>>)
      reads this
      ensures r.None? <==> endpointType !in endpoints
      ensures r.Some? ==> r.value == ListOrEmpty(endpoints, endpointType)
    {
      Lookup(endpoints, endpointType)
    }
  }

  /** Appending four blocks one after the other appends their concatenation. */
  lemma AppendBlocks(start: seq<Registration>, g: seq<Registration>, p: seq<Registration>,
                     d: seq<Registration>, o: seq<Registration>)
    ensures start + g + p + d + o == start + (g + p + d + o)
  {
  }

  /** The replay of a table holding two GET routes and one POST route. */
  lemma ItemsReplay(list: Endpoint, detail: Endpoint, create: Endpoint)
    ensures Replay(map[GET := [list, detail], POST := [create]])
         == [RegistrationOf(GET, list), RegistrationOf(GET, detail), RegistrationOf(POST, create)]
  {
    var t := map[GET := [list, detail], POST := [create]];
    assert VerbBlock(t, GET) == [RegistrationOf(GET, list), RegistrationOf(GET, detail)];
    assert VerbBlock(t, POST) == [RegistrationOf(POST, create)];
  }

  /** Declares two GET routes and one POST route, then installs them on a new
      server: the server's get receives the two GET routes in the order they
      were declared, its post receives the POST route, and its put and del
      receive nothing. */
  method DeclareAndInstall(h1: Handler, h2: Handler, h3: Handler) returns (calls: seq<Registration>)
    ensures calls == [Registration(GET, "/items", h1), Registration(GET, "/items/:id", h2),
                      Registration(POST, "/items", h3)]
  {
    var list, detail, create :=
      NewEndpoint("list", "/items", h1), NewEndpoint("detail", "/items/:id", h2), NewEndpoint("create", "/items", h3);
    var api := new AbstractApi();
    api.AddGet(list);
    assert ListOrEmpty(map[], GET) + [list] == [list];
    assert api.endpoints == map[GET := [list]];
    api.AddGet(detail);
    assert [list] + [detail] == [list, detail];
    assert api.endpoints == map[GET := [list, detail]];
    assert ListOrEmpty(api.endpoints, POST) + [create] == [create];
    api.AddPost(create);
    ghost var t := map[GET := [list, detail], POST := [create]];
    assert api.endpoints == t;
    var server := new Server();
    api.SetupRoutes(server);
    calls := server.registrations;
    ItemsReplay(list, detail, create);
  }
}
