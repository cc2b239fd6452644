/** The registry's table from HTTP verb to the endpoints declared for it, and
    the sequence of server registrations that replaying the table produces
    (lib/abstract-api.js). These functions are the specification that the
    class in module Api is proved against. */
module RouteTable {
  import opened Endpoints

  /** The four verbs the registry knows (the source's HttpMethod constants). */
  datatype Verb = GET | PUT | DELETE | POST

  /** The order in which routes are replayed onto the server. */
  const VerbOrder: seq<Verb> := [GET, PUT, DELETE, POST]

  /** Position of a verb in the replay order. */
  function Rank(v: Verb): (k: nat)
    ensures k < |VerbOrder| && VerbOrder[k] == v
  {
    match v
    case GET => 0
    case PUT => 1
    case DELETE => 2
    case POST => 3
  }

  datatype Option<T> = None | Some(value: T)

  /** The registry's table. A verb that was never added is absent from the
      map, which is different from a verb present with an empty list. */
  type Table = map<Verb, seq<Endpoint>>

  /** One registration call on the server: which of its verb methods was
      called, with which URL and which handler. */
  datatype Registration = Registration(verb: Verb, url: string, impl: Handler)

  /** The entry for `v`, or None for a verb that was never added. */
  function Lookup(t: Table, v: Verb): Option<seq<Endpoint>>
  {
    if v in t then Some(t[v]) else None
  }

  /** The endpoints stored for `v`, reading an absent entry as empty. */
  function ListOrEmpty(t: Table, v: Verb): seq<Endpoint>
  {
    if v in t then t[v] else []
  }

  /** The entry for `v` exists and is not empty. Absent and present-but-empty
      entries both answer false. */
  function HasEndpoints(t: Table, v: Verb): (b: bool)
    ensures b <==> ListOrEmpty(t, v) != []
    ensures b ==> Lookup(t, v).Some?
  {
    v in t && |t[v]| > 0
  }

  /** The table after adding `e` under `v`: the entry is created on first use
      and `e` is appended to it. */
  function Added(t: Table, v: Verb, e: Endpoint): (r: Table)
    ensures Lookup(r, v) == Some(ListOrEmpty(t, v) + [e])
    ensures forall w :: w != v ==> Lookup(r, w) == Lookup(t, w)
  {
    t[v := ListOrEmpty(t, v) + [e]]
  }

  /** The table after a whole series of adds, applied first to last. */
  function AddAll(t: Table, adds: seq<(Verb, Endpoint)>): Table
  {
    if adds == [] then t
    else
      var (v, e) := adds[|adds| - 1];
      Added(AddAll(t, adds[..|adds| - 1]), v, e)
  }

  /** The endpoints of a series of adds that target `v`, in the order added. */
  function AddedFor(adds: seq<(Verb, Endpoint)>, v: Verb): seq<Endpoint>
  {
    if adds == [] then []
    else
      var (w, e) := adds[|adds| - 1];
      AddedFor(adds[..|adds| - 1], v) + (if w == v then [e] else [])
  }

  /** The call that registers endpoint `e` under verb `v`. */
  function RegistrationOf(v: Verb, e: Endpoint): Registration
  {
    Registration(v, e.GetUrl(), e.GetImpl())
  }

  /** The calls issued for the endpoints `eps` of one verb, one per endpoint. */
  function VerbCalls(v: Verb, eps: seq<Endpoint>): (rs: seq<Registration>)
    ensures |rs| == |eps|
    ensures forall i :: 0 <= i < |eps| ==> rs[i] == RegistrationOf(v, eps[i])
  {
    if eps == [] then []
    else VerbCalls(v, eps[..|eps| - 1]) + [RegistrationOf(v, eps[|eps| - 1])]
  }

  /** What the replay issues for one verb: nothing when the verb has no
      endpoints, otherwise one call per stored endpoint. */
  function VerbBlock(t: Table, v: Verb): (rs: seq<Registration>)
    ensures rs == VerbCalls(v, ListOrEmpty(t, v))
  {
    if HasEndpoints(t, v) then VerbCalls(v, Lookup(t, v).value) else []
  }

  /** The calls replaying the table issues, verb by verb in replay order. */
  function Replay(t: Table): seq<Registration>
  {
    VerbBlock(t, GET) + VerbBlock(t, PUT) + VerbBlock(t, DELETE) + VerbBlock(t, POST)
  }

  /** Number of endpoints stored in the table. */
  function Total(t: Table): nat
  {
    |ListOrEmpty(t, GET)| + |ListOrEmpty(t, PUT)| + |ListOrEmpty(t, DELETE)| + |ListOrEmpty(t, POST)|
  }

  /** The calls of `rs` made through the server's method for `v`, in order. */
  function CallsFor(rs: seq<Registration>, v: Verb): seq<Registration>
  {
    if rs == [] then []
    else (if rs[0].verb == v then [rs[0]] else []) + CallsFor(rs[1..], v)
  }

  /** Calls are in replay order: no call for a later verb precedes one for an
      earlier verb. */
  predicate InVerbOrder(rs: seq<Registration>)
  {
    forall i, j :: 0 <= i < j < |rs| ==> Rank(rs[i].verb) <= Rank(rs[j].verb)
  }

  // ---------------------------------------------------------------------
  // Adding endpoints

  /** A freshly constructed registry has no entry and no endpoints for any verb. */
  lemma FreshTableIsEmpty(v: Verb)
    ensures Lookup(map[], v) == None
    ensures !HasEndpoints(map[], v)
    ensures Replay(map[]) == []
  {
  }

  /** After an add for `v`, `v` has endpoints. */
  lemma HasEndpointsAfterAdd(t: Table, v: Verb, e: Endpoint)
    ensures HasEndpoints(Added(t, v, e), v)
  {
  }

  /** No deduplication: adding the same endpoint twice stores it twice. */
  lemma AddTwiceStoresTwice(t: Table, v: Verb, e: Endpoint)
    ensures ListOrEmpty(Added(Added(t, v, e), v, e), v) == ListOrEmpty(t, v) + [e, e]
    ensures |ListOrEmpty(Added(Added(t, v, e), v, e), v)| == |ListOrEmpty(t, v)| + 2
  {
  }

  /** Each verb's list is its previous contents followed by the endpoints
      added for it, in the order they were added; adds for other verbs leave
      it alone. */
  lemma {:induction false} AddAllKeepsOrder(t: Table, adds: seq<(Verb, Endpoint)>, v: Verb)
    ensures ListOrEmpty(AddAll(t, adds), v) == ListOrEmpty(t, v) + AddedFor(adds, v)
  {
    if adds != [] {
      var (w, e) := adds[|adds| - 1];
      var init := adds[..|adds| - 1];
      AddAllKeepsOrder(t, init, v);
      var before := AddAll(t, init);
      assert AddAll(t, adds) == Added(before, w, e);
      assert AddedFor(adds, v) == AddedFor(init, v) + (if w == v then [e] else []);
      if w == v {
        assert Lookup(Added(before, w, e), v) == Some(ListOrEmpty(before, v) + [e]);
        assert ListOrEmpty(t, v) + AddedFor(init, v) + [e] == ListOrEmpty(t, v) + (AddedFor(init, v) + [e]);
      } else {
        assert Lookup(Added(before, w, e), v) == Lookup(before, v);
        assert AddedFor(init, v) + [] == AddedFor(init, v);
      }
    }
  }

  /** In a registry built by adds alone, a verb has endpoints exactly when
      some add targeted it, and a verb's entry is absent exactly when none
      did: such a registry never holds a present but empty entry. */
  lemma BuiltRegistryEntries(adds: seq<(Verb, Endpoint)>, v: Verb)
    ensures HasEndpoints(AddAll(map[], adds), v) <==> exists i :: 0 <= i < |adds| && adds[i].0 == v
    ensures Lookup(AddAll(map[], adds), v).None? <==> !HasEndpoints(AddAll(map[], adds), v)
  {
    AddAllKeepsOrder(map[], adds, v);
    AddedForNonEmpty(adds, v);
    NoEmptyEntries(adds, v);
  }

  /** Some add of a series targets `v` exactly when its endpoints for `v` are not empty. */
  lemma {:induction false} AddedForNonEmpty(adds: seq<(Verb, Endpoint)>, v: Verb)
    ensures AddedFor(adds, v) != [] <==> exists i :: 0 <= i < |adds| && adds[i].0 == v
  {
    if adds != [] {
      var init := adds[..|adds| - 1];
      AddedForNonEmpty(init, v);
      assert forall i :: 0 <= i < |init| ==> init[i] == adds[i];
      if (exists i :: 0 <= i < |adds| && adds[i].0 == v) && adds[|adds| - 1].0 != v {
        var i :| 0 <= i < |adds| && adds[i].0 == v;
        assert init[i].0 == v;
      }
    }
  }

  /** A present entry in a registry built by adds is never empty. */
  lemma {:induction false} NoEmptyEntries(adds: seq<(Verb, Endpoint)>, v: Verb)
    ensures v in AddAll(map[], adds) ==> AddAll(map[], adds)[v] != []
  {
    if adds != [] {
      var (w, e) := adds[|adds| - 1];
      var before := AddAll(map[], adds[..|adds| - 1]);
      NoEmptyEntries(adds[..|adds| - 1], v);
      if w == v {
        assert Lookup(Added(before, w, e), v) == Some(ListOrEmpty(before, v) + [e]);
      } else {
        assert Lookup(Added(before, w, e), v) == Lookup(before, v);
      }
    }
  }

  // ---------------------------------------------------------------------
  // Replaying the table

  /** Selecting one verb's calls distributes over concatenation. */
  lemma {:induction false} CallsForAppend(a: seq<Registration>, b: seq<Registration>, v: Verb)
    ensures CallsFor(a + b, v) == CallsFor(a, v) + CallsFor(b, v)
  {
    if a == [] {
      assert a + b == b;
    } else {
      assert (a + b)[0] == a[0] && (a + b)[1..] == a[1..] + b;
      CallsForAppend(a[1..], b, v);
    }
  }

  /** The calls for verb `w`, seen through the server's method for `v`: all of
      them when `v` is `w`, none otherwise. */
  lemma {:induction false} CallsForVerbCalls(w: Verb, eps: seq<Endpoint>, v: Verb)
    ensures CallsFor(VerbCalls(w, eps), v) == if w == v then VerbCalls(w, eps) else []
  {
    if eps != [] {
      var init := eps[..|eps| - 1];
      var last := [RegistrationOf(w, eps[|eps| - 1])];
      CallsForVerbCalls(w, init, v);
      CallsForAppend(VerbCalls(w, init), last, v);
      assert CallsFor(last, v) == if w == v then last else [];
    }
  }

  /** Within each verb the replay follows insertion order: the calls made
      through the server's method for `v` are exactly `v`'s endpoints, in the
      order they are stored. In particular a verb with no endpoints gets no
      call. */
  lemma ReplayPerVerb(t: Table, v: Verb)
    ensures CallsFor(Replay(t), v) == VerbCalls(v, ListOrEmpty(t, v))
    ensures !HasEndpoints(t, v) ==> CallsFor(Replay(t), v) == []
  {
    var g, p, d, o := VerbBlock(t, GET), VerbBlock(t, PUT), VerbBlock(t, DELETE), VerbBlock(t, POST);
    assert Replay(t) == g + p + d + o;
    CallsForAppend(g + p + d, o, v);
    CallsForAppend(g + p, d, v);
    CallsForAppend(g, p, v);
    BlockForVerb(t, GET, v);
    BlockForVerb(t, PUT, v);
    BlockForVerb(t, DELETE, v);
    BlockForVerb(t, POST, v);
  }

  /** The block replayed for verb `w`, seen through the server's method for `v`. */
  lemma BlockForVerb(t: Table, w: Verb, v: Verb)
    ensures CallsFor(VerbBlock(t, w), v) == if w == v then VerbCalls(v, ListOrEmpty(t, v)) else []
  {
    CallsForVerbCalls(w, ListOrEmpty(t, w), v);
  }

  /** The replay issues one call per stored endpoint, no more and no fewer. */
  lemma ReplayCount(t: Table)
    ensures |Replay(t)| == Total(t)
  {
  }

  /** Concatenating two runs of calls keeps replay order when every call of
      the first is for a verb no later than every call of the second. */
  lemma ConcatInVerbOrder(a: seq<Registration>, b: seq<Registration>, k: nat)
    requires InVerbOrder(a) && InVerbOrder(b)
    requires forall x :: x in a ==> Rank(x.verb) <= k
    requires forall y :: y in b ==> k <= Rank(y.verb)
    ensures InVerbOrder(a + b)
  {
    forall i, j | 0 <= i < j < |a + b|
      ensures Rank((a + b)[i].verb) <= Rank((a + b)[j].verb)
    {
      if j < |a| {
        assert (a + b)[i] == a[i] && (a + b)[j] == a[j];
      } else if i >= |a| {
        assert (a + b)[i] == b[i - |a|] && (a + b)[j] == b[j - |a|];
      } else {
        assert (a + b)[i] in a && (a + b)[j] in b;
      }
    }
  }

  /** Every call of one verb's block is for that verb, so the block is in
      replay order by itself. */
  lemma BlockIsOneVerb(t: Table, v: Verb)
    ensures forall x :: x in VerbBlock(t, v) ==> x.verb == v
    ensures InVerbOrder(VerbBlock(t, v))
  {
    var rs := VerbBlock(t, v);
    forall x | x in rs ensures x.verb == v {
      var i :| 0 <= i < |rs| && rs[i] == x;
    }
  }

  /** The replay is in verb order: every GET call comes first, then PUT,
      then DELETE, then POST. */
  lemma ReplayInVerbOrder(t: Table)
    ensures InVerbOrder(Replay(t))
  {
    var g, p, d, o := VerbBlock(t, GET), VerbBlock(t, PUT), VerbBlock(t, DELETE), VerbBlock(t, POST);
    BlockIsOneVerb(t, GET);
    BlockIsOneVerb(t, PUT);
    BlockIsOneVerb(t, DELETE);
    BlockIsOneVerb(t, POST);
    ConcatInVerbOrder(g, p, 1);
    forall x: Registration | x in g + p ensures Rank(x.verb) <= 2 {
      assert x in g || x in p;
    }
    ConcatInVerbOrder(g + p, d, 2);
    forall x: Registration | x in g + p + d ensures Rank(x.verb) <= 3 {
      assert x in g + p || x in d;
    }
    ConcatInVerbOrder(g + p + d, o, 3);
    assert Replay(t) == g + p + d + o;
  }

  /** What one add does to each verb's list: `v`'s gains `e` at its end and
      every other verb's stays as it was. */
  lemma ListAfterAdd(t: Table, v: Verb, e: Endpoint, w: Verb)
    ensures ListOrEmpty(Added(t, v, e), w) == if w == v then ListOrEmpty(t, v) + [e] else ListOrEmpty(t, w)
  {
  }

  /** One more add for `v` adds exactly one call to the replay, at the end of
      `v`'s calls, and leaves every other verb's calls as they were. */
  lemma ReplayAfterAdd(t: Table, v: Verb, e: Endpoint)
    ensures |Replay(Added(t, v, e))| == |Replay(t)| + 1
    ensures CallsFor(Replay(Added(t, v, e)), v) == CallsFor(Replay(t), v) + [RegistrationOf(v, e)]
    ensures forall w :: w != v ==> CallsFor(Replay(Added(t, v, e)), w) == CallsFor(Replay(t), w)
  {
    var t' := Added(t, v, e);
    ListAfterAdd(t, v, e, GET);
    ListAfterAdd(t, v, e, PUT);
    ListAfterAdd(t, v, e, DELETE);
    ListAfterAdd(t, v, e, POST);
    ReplayCount(t);
    ReplayCount(t');
    ReplayPerVerb(t, v);
    ReplayPerVerb(t', v);
    var old_ := ListOrEmpty(t, v);
    assert (old_ + [e])[..|old_|] == old_;
    forall w | w != v ensures CallsFor(Replay(t'), w) == CallsFor(Replay(t), w) {
      ListAfterAdd(t, v, e, w);
      ReplayPerVerb(t, w);
      ReplayPerVerb(t', w);
    }
  }

  /** For a registry built by a series of adds, the server's method for `v`
      receives one call per add for `v`, in the order of the adds. */
  lemma ReplayOfAdds(adds: seq<(Verb, Endpoint)>, v: Verb)
    ensures CallsFor(Replay(AddAll(map[], adds)), v) == VerbCalls(v, AddedFor(adds, v))
  {
    AddAllKeepsOrder(map[], adds, v);
    ReplayPerVerb(AddAll(map[], adds), v);
  }
}
