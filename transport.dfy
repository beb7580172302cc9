/**
 * The API client the two `create` operations call. The HTTP exchange itself
 * is not modelled: the client records every request it is asked to send,
 * and the server's answer to the n-th request is a fixed function of n and
 * of the request, so that "no request was sent" is a statement about the log.
 */
module Transport {
  import opened Values
  import opened Results

  /** The two client calls: `trans.create_batch` and `trans.create_batch_trans`. */
  datatype Endpoint = CreateBatch | CreateBatchTrans

  /** One call: the endpoint, the `user_id:` and `node_id:` arguments, and the `payload:` sent. */
  datatype Request = Request(endpoint: Endpoint, userId: Value, nodeId: Value, payload: Value)

  class Client {
    /** Every request sent so far, oldest first. */
    var log: seq<Request>
    /** The parsed response to the n-th request, or the error the client raises for it. */
    const server: (nat, Request) -> Result<map<string, Value>>

    constructor (server: (nat, Request) -> Result<map<string, Value>>)
      ensures log == [] && this.server == server
    {
      this.log := [];
      this.server := server;
    }

    /** Sends `request` and returns what the server answers to it. */
    method Send(request: Request) returns (response: Result<map<string, Value>>)
      modifies this
      ensures log == old(log) + [request]
      ensures response == server(|old(log)|, request)
    {
      response := server(|log|, request);
      log := log + [request];
    }
  }
}
