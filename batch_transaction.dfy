/**
 * `BatchTransaction`: the batch request document (one entry per transaction,
 * under `transactions`), the record built from the batch response (the
 * top-level fields copied, each element of `trans` parsed in order), and
 * `create`, which checks the node, sends the document and parses the answer.
 */
module BatchTransactionModel {
  import opened Values
  import opened Results
  import opened NodeGuard
  import opened Transport

  /** A batch transaction record: its node, the response's top-level fields, and the parsed transactions. */
  datatype BatchTransaction<T> = BatchTransaction(
    node: Node,
    errorCode: Value,
    httpCode: Value,
    success: Value,
    pageCount: Value,
    transCount: Value,
    trans: seq<T>)

  /** `payload_for_create(**transaction)`: a hash is splatted into keywords; anything else cannot be. */
  function ElementPayload(payloadForCreate: map<string, Value> -> Result<Value>, transaction: Value): (r: Result<Value>)
    ensures transaction.Hash? ==> r == payloadForCreate(transaction.entries)
    ensures !transaction.Hash? ==> r.Failure? && r.error.TypeError?
  {
    if transaction.Hash? then payloadForCreate(transaction.entries)
    else Failure(TypeError("no implicit conversion into Hash"))
  }

  /**
   * `transactions.map { ... }`. An array is mapped element by element; a hash
   * yields `[key, value]` pairs, which cannot be splatted, so only the empty
   * hash maps without raising; other values have no `map`.
   */
  function ElementPayloads(transactions: Value, payloadForCreate: map<string, Value> -> Result<Value>): (r: Result<seq<Value>>)
    ensures r.Success? ==>
      || (transactions.List? && |r.value| == |transactions.items|)
      || (transactions == Hash(map[]) && r.value == [])
    ensures transactions.Hash? && transactions.entries != map[] ==> r.Failure? && r.error.TypeError?
    ensures !transactions.List? && !transactions.Hash? ==> r == Failure(NoMethodError("map"))
  {
    match transactions
    case List(items) => MapAll((t: Value) => ElementPayload(payloadForCreate, t), items)
    case Hash(entries) =>
      if entries == map[] then Success([]) else Failure(TypeError("no implicit conversion of Array into Hash"))
    case _ => Failure(NoMethodError("map"))
  }

  /**
   * `payload_for_batch_create`: the per-transaction payloads, in order, as
   * the only entry of the document. Further keyword options are accepted by
   * the Ruby method and never read, so they are not a parameter here.
   */
  function PayloadForBatchCreate(transactions: Value, payloadForCreate: map<string, Value> -> Result<Value>): (r: Result<Value>)
    ensures r.Success? ==>
      && r.value.Hash? && r.value.entries.Keys == {"transactions"}
      && At(r.value, "transactions").List?
    ensures transactions.List? ==>
      var items := transactions.items;
      && (r.Success? <==> forall i :: 0 <= i < |items| ==> ElementPayload(payloadForCreate, items[i]).Success?)
      && (r.Success? ==>
            var sent := At(r.value, "transactions").items;
            && |sent| == |items|
            && forall i :: 0 <= i < |items| ==> sent[i] == ElementPayload(payloadForCreate, items[i]).value)
      && (r.Failure? ==>
            exists i :: 0 <= i < |items| && ElementPayload(payloadForCreate, items[i]) == Failure(r.error) &&
              forall j :: 0 <= j < i ==> ElementPayload(payloadForCreate, items[j]).Success?)
    ensures !transactions.List? ==>
      && (r.Success? <==> transactions == Hash(map[]))
      && (r.Success? ==> At(r.value, "transactions") == List([]))
  {
    match ElementPayloads(transactions, payloadForCreate)
    case Failure(e) => Failure(e)
    case Success(payloads) => Success(Hash(map["transactions" := List(payloads)]))
  }

  /** `response['trans'].map { |tx| Transaction.from_response(node, tx) }`. */
  function ParseEach<T>(node: Node, trans: Value, parse: (Node, Value) -> Result<T>): (r: Result<seq<T>>)
    ensures !trans.List? ==> r == Failure(NoMethodError("map"))
    ensures r.Success? ==>
      && |r.value| == |trans.items|
      && forall i :: 0 <= i < |trans.items| ==> parse(node, trans.items[i]).Success? && r.value[i] == parse(node, trans.items[i]).value
  {
    match trans
    case List(items) => MapAll((tx: Value) => parse(node, tx), items)
    case _ => Failure(NoMethodError("map"))
  }

  /**
   * `from_response`: the node, the five top-level fields exactly as the
   * response gives them, and `trans` parsed element by element in order.
   */
  function FromResponse<T>(node: Node, response: map<string, Value>, parse: (Node, Value) -> Result<T>): (r: Result<BatchTransaction<T>>)
    ensures !Get(response, "trans").List? ==> r == Failure(NoMethodError("map"))
    ensures Get(response, "trans").List? ==>
      var items := Get(response, "trans").items;
      && (r.Success? <==> forall i :: 0 <= i < |items| ==> parse(node, items[i]).Success?)
      && (r.Failure? ==>
            exists i :: 0 <= i < |items| && parse(node, items[i]) == Failure(r.error) &&
              forall j :: 0 <= j < i ==> parse(node, items[j]).Success?)
    ensures r.Success? ==>
      var items := Get(response, "trans").items;
      && r.value.node == node
      && r.value.errorCode == Get(response, "error_code")
      && r.value.httpCode == Get(response, "http_code")
      && r.value.success == Get(response, "success")
      && r.value.pageCount == Get(response, "page_count")
      && r.value.transCount == Get(response, "trans_count")
      && |r.value.trans| == |items|
      && forall i :: 0 <= i < |items| ==> r.value.trans[i] == parse(node, items[i]).value
  {
    match ParseEach(node, Get(response, "trans"), parse)
    case Failure(e) => Failure(e)
    case Success(trans) =>
      Success(BatchTransaction(node, Get(response, "error_code"), Get(response, "http_code"), Get(response, "success"),
                               Get(response, "page_count"), Get(response, "trans_count"), trans))
  }

  /** A response whose `trans` is `[a, b]` yields the two parsed transactions in the order a, b. */
  lemma TwoTransactionsInOrder<T>(node: Node, parse: (Node, Value) -> Result<T>, a: Value, b: Value, ta: T, tb: T)
    requires parse(node, a) == Success(ta) && parse(node, b) == Success(tb)
    ensures var response := map["error_code" := Str("0"), "http_code" := Str("200"), "success" := Bool(true),
                                 "page_count" := Num(1), "trans_count" := Num(2), "trans" := List([a, b])];
      FromResponse(node, response, parse) ==
        Success(BatchTransaction(node, Str("0"), Str("200"), Bool(true), Num(1), Num(2), [ta, tb]))
  {
    var response := map["error_code" := Str("0"), "http_code" := Str("200"), "success" := Bool(true),
                        "page_count" := Num(1), "trans_count" := Num(2), "trans" := List([a, b])];
    assert Get(response, "trans") == List([a, b]);
    var r := FromResponse(node, response, parse);
    assert r.Success?;
    assert r.value.trans == [ta, tb];
  }

  /**
   * `create`: the node checks, then the batch document, then one
   * `create_batch` call with the node's user id and id, then `from_response`
   * on the answer. Keyword options besides `transactions` are accepted and
   * ignored; the client is a parameter standing for the one the code
   * reaches through the node's user.
   */
  method Create<T>(node: Node, transactions: Value, options: map<string, Value>,
                   payloadForCreate: map<string, Value> -> Result<Value>, parse: (Node, Value) -> Result<T>,
                   client: Client)
    returns (r: Result<BatchTransaction<T>>)
    modifies client
    ensures CheckNode(node).Fail? ==> r == Failure(CheckNode(node).error) && client.log == old(client.log)
    ensures CheckNode(node).Pass? && PayloadForBatchCreate(transactions, payloadForCreate).Failure? ==>
      r == Failure(PayloadForBatchCreate(transactions, payloadForCreate).error) && client.log == old(client.log)
    ensures CheckNode(node).Pass? && PayloadForBatchCreate(transactions, payloadForCreate).Success? ==>
      var request := Request(CreateBatch, node.userId, node.id, PayloadForBatchCreate(transactions, payloadForCreate).value);
      && client.log == old(client.log) + [request]
      && r == match client.server(|old(client.log)|, request)
              case Failure(e) => Failure(e)
              case Success(response) => FromResponse(node, response, parse)
  {
    var guard := CheckNode(node);
    if guard.Fail? {
      return Failure(guard.error);
    }
    var payload := PayloadForBatchCreate(transactions, payloadForCreate);
    if payload.Failure? {
      return Failure(payload.error);
    }
    var response := client.Send(Request(CreateBatch, node.userId, node.id, payload.value));
    if response.Failure? {
      return Failure(response.error);
    }
    r := FromResponse(node, response.value, parse);
  }
}
