/** A declared route: its name, its URL pattern and the handler the server
    invokes for it (lib/endpoint.js). The value is built once and only read. */
module Endpoints {

  /** Identity of a consumer-supplied handler function. The registry stores
      and forwards it but never calls it, so only its identity is modelled. */
  datatype Handler = Handler(id: nat)

  /** An endpoint. Its fields are assigned once by the constructor and the
      getters only read them, so it is an immutable value. */
  datatype Endpoint = Endpoint(name: string, url: string, impl: Handler)
  {
    function GetName(): string { name }

    function GetUrl(): string { url }

    function GetImpl(): Handler { impl }
  }

  /** The constructor: it validates nothing and accepts every argument, and
      each getter gives back exactly what was passed in. */
  function NewEndpoint(name: string, url: string, impl: Handler): (e: Endpoint)
    ensures e.GetName() == name && e.GetUrl() == url && e.GetImpl() == impl
  {
    Endpoint(name, url, impl)
  }

  /** The three getters together determine an endpoint: rebuilding one from
      what its getters return gives the same endpoint back. */
  lemma GettersDetermineEndpoint(e: Endpoint, f: Endpoint)
    ensures NewEndpoint(e.GetName(), e.GetUrl(), e.GetImpl()) == e
    ensures e == f <==> e.GetName() == f.GetName() && e.GetUrl() == f.GetUrl() && e.GetImpl() == f.GetImpl()
  {
  }
}
