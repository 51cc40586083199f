/** The remote service as the clients see it through the request executor
    `do`: a scripted server that answers each request with the next reply of a
    fixed script and keeps a log of every request it received. Signing, HTTP,
    JSON and retries all happen behind this interface. */
module Service {
  import opened Protocol

  /** The reply a script gives next; a server with nothing left to say
      behaves like a dropped connection. */
  function NextReply<B>(script: seq<Reply<B>>): (r: Reply<B>)
    ensures script == [] ==> r.Failed? && r.err.Transport?
    ensures script != [] ==> r == script[0]
  {
    if script == [] then Failed(Transport("no reply")) else script[0]
  }

  /** The script that remains once the next reply has been given. */
  function RestOf<B>(script: seq<Reply<B>>): (rest: seq<Reply<B>>)
    ensures |rest| == if script == [] then 0 else |script| - 1
    ensures script != [] ==> script == [script[0]] + rest
  {
    if script == [] then [] else script[1..]
  }

  /** A server for listings of `T`: receives requests about `T` entities and
      answers with bodies of type `B`. */
  class ScriptedServer<T, B> {
    var script: seq<Reply<B>>
    var log: seq<Request<T>>

    constructor (script: seq<Reply<B>>)
      ensures this.script == script && log == []
    {
      this.script := script;
      log := [];
    }

    /** One call of the request executor: exactly one request is recorded,
        exactly one reply is consumed. */
    method Do(req: Request<T>) returns (reply: Reply<B>)
      modifies this
      ensures log == old(log) + [req]
      ensures reply == NextReply(old(script))
      ensures script == RestOf(old(script))
    {
      log := log + [req];
      reply := NextReply(script);
      script := RestOf(script);
    }
  }
}
