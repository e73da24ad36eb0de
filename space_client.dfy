/** The Space client singleton (`initSpaceClient`, `getSpaceClient`, `isSpaceClientReady`). */
module SpaceClient {
  import opened Wrappers

  datatype ConnectOptions = ConnectOptions(url: Option<string>, apiKey: Option<string>)

  /** The handle `connect(options)` returns, opaque to the gateway. */
  datatype Client = Client(handle: nat)

  /** `connect` from the Space client library. */
  type Connect = ConnectOptions -> Client

  const NotInitialised := "[SpaceClient] No inicializado. Llama a initSpaceClient() en server.js primero."

  /** The module-level `instance`, null until the first initialisation. */
  class Holder {
    var instance: Option<Client>

    constructor ()
      ensures instance == None
    {
      instance := None;
    }

    /** `initSpaceClient(options)`: connects only the first time; later calls return the stored instance
        whatever options they pass. */
    method InitSpaceClient(options: ConnectOptions, connect: Connect) returns (c: Client)
      modifies this
      ensures old(instance).Some? ==> instance == old(instance) && c == old(instance).value
      ensures old(instance).None? ==> instance == Some(connect(options)) && c == connect(options)
      ensures instance == Some(c)
    {
      if instance.None? {
        instance := Some(connect(options));
      }
      c := instance.value;
    }

    /** `getSpaceClient()`: the stored instance, or the exception thrown before initialisation. */
    method GetSpaceClient() returns (r: Result<Client, string>)
      ensures instance.None? ==> r == Failure(NotInitialised)
      ensures instance.Some? ==> r == Success(instance.value)
    {
      if instance.None? {
        return Failure(NotInitialised);
      }
      r := Success(instance.value);
    }

    /** `isSpaceClientReady()` */
    method IsSpaceClientReady() returns (ready: bool)
      ensures ready <==> instance.Some?
    {
      ready := instance.Some?;
    }
  }

  /** The lifecycle from a fresh module: not ready and failing before initialisation; after it, ready,
      and every later initialisation and every lookup yields the first connection. */
  method Lifecycle(first: ConnectOptions, second: ConnectOptions, connect: Connect)
    returns (readyBefore: bool, before: Result<Client, string>, c1: Client, c2: Client, after: Result<Client, string>, readyAfter: bool)
    ensures !readyBefore && before == Failure(NotInitialised)
    ensures c1 == connect(first) && c2 == c1
    ensures after == Success(c1) && readyAfter
  {
    var holder := new Holder();
    readyBefore := holder.IsSpaceClientReady();
    before := holder.GetSpaceClient();
    c1 := holder.InitSpaceClient(first, connect);
    c2 := holder.InitSpaceClient(second, connect);
    after := holder.GetSpaceClient();
    readyAfter := holder.IsSpaceClientReady();
  }
}
