/**
 * `BatchTrans`: a batch record whose instance variables are set one by one
 * from the keyword options it is created with, the record built from a
 * batch-transaction response, `create`, and the id-based `==`.
 */
module BatchTransModel {
  import opened Values
  import opened Results
  import opened NodeGuard
  import opened Transport

  /** A character that may begin an instance-variable name after the `@`. */
  predicate NameStart(c: char) {
    'a' <= c <= 'z' || 'A' <= c <= 'Z' || c == '_' || c as int >= 128
  }

  /** `"@#{key}"` is a name `instance_variable_set` accepts: an identifier start, then identifier characters. */
  predicate IvarName(key: string) {
    && |key| > 0 && NameStart(key[0])
    && forall i | 1 <= i < |key| :: NameStart(key[i]) || '0' <= key[i] <= '9'
  }

  /** Every key of `options` names an instance variable. */
  predicate AllIvarNames(options: map<string, Value>) {
    forall k | k in options :: IvarName(k)
  }

  /** The other side of `==`: a `BatchTrans` record, or an object of any other class. */
  datatype Operand = Record(record: BatchTrans) | Foreign(value: Value)

  class BatchTrans {
    /** The record's instance variables, by name without the `@`; a name never set reads as `nil`. */
    var ivars: map<string, Value>

    /** `@name`. */
    function Ivar(name: string): Value
      reads this
    {
      Get(ivars, name)
    }

    // the readers `attr_reader` declares; the other instance variables have none
    function Node(): Value reads this { Ivar("node") }
    function Id(): Value reads this { Ivar("id") }
    function ClientId(): Value reads this { Ivar("client_id") }
    function ClientName(): Value reads this { Ivar("client_name") }
    function CreatedOn(): Value reads this { Ivar("created_on") }

    /** A freshly allocated record: no instance variable is set. */
    constructor ()
      ensures ivars == map[]
    {
      ivars := map[];
    }

    /**
     * `initialize(**options)`: each option in turn becomes the instance
     * variable of its name; a key that is not a valid name raises NameError
     * and the record is abandoned half set.
     */
    method Initialize(options: map<string, Value>) returns (outcome: Outcome)
      modifies this
      ensures outcome.Pass? <==> AllIvarNames(options)
      ensures outcome.Fail? ==> exists k :: k in options && !IvarName(k) && outcome.error == NameError(k)
      ensures outcome.Pass? ==> ivars == old(ivars) + options
    {
      var pending := options.Keys;
      while pending != {}
        invariant pending <= options.Keys
        invariant forall k | k in options && k !in pending :: IvarName(k)
        invariant ivars == old(ivars) + (options - pending)
        decreases pending
      {
        var key :| key in pending;
        if !IvarName(key) {
          return Fail(NameError(key));
        }
        ivars := ivars[key := options[key]];
        pending := pending - {key};
      }
      return Pass;
    }

    /** `BatchTrans.new(**options)`: a fresh record whose instance variables are exactly the options. */
    static method New(options: map<string, Value>) returns (r: Result<BatchTrans>)
      ensures r.Success? <==> AllIvarNames(options)
      ensures r.Success? ==> fresh(r.value) && r.value.ivars == options
      ensures r.Failure? ==> exists k :: k in options && !IvarName(k) && r.error == NameError(k)
    {
      var record := new BatchTrans();
      var outcome := record.Initialize(options);
      if outcome.Fail? {
        return Failure(outcome.error);
      }
      return Success(record);
    }

    /**
     * `==`: the other object is an instance of exactly this class, this
     * record's `id` is not nil, and the two ids are equal.
     */
    predicate Equals(other: Operand)
      reads this, if other.Record? then {other.record} else {}
      ensures Equals(other) ==> other.Record? && other.record.Id() != Nil
      ensures other.Record? && other.record == this ==> (Equals(other) <==> Id() != Nil)
    {
      other.Record? && Id() != Nil && Id() == other.record.Id()
    }
  }

  /** A record is `==` to itself exactly when its `id` is not nil. */
  lemma EqualsReflexiveIffId(a: BatchTrans)
    ensures a.Equals(Record(a)) <==> a.Id() != Nil
  {
  }

  /** `==` is symmetric between records. */
  lemma EqualsSymmetric(a: BatchTrans, b: BatchTrans)
    ensures a.Equals(Record(b)) <==> b.Equals(Record(a))
  {
  }

  /** `==` is transitive between records. */
  lemma EqualsTransitive(a: BatchTrans, b: BatchTrans, c: BatchTrans)
    requires a.Equals(Record(b)) && b.Equals(Record(c))
    ensures a.Equals(Record(c))
  {
  }

  /** No record is `==` to an object of another class. */
  lemma ForeignNeverEqual(a: BatchTrans, v: Value)
    ensures !a.Equals(Foreign(v))
  {
  }

  /** The keyword arguments `from_response` passes to `new`. */
  const ResponseFields: set<string> :=
    {"node", "error_code", "http_code", "success", "page_count", "trans_count", "trans"}

  /** `from_response`'s arguments: the node, and the six response fields copied verbatim. */
  function ResponseArgs(node: Node, response: map<string, Value>): (args: map<string, Value>)
    ensures args.Keys == ResponseFields
    ensures args["node"] == NodeRef(node)
    ensures forall k | k in args && k != "node" :: args[k] == Get(response, k)
  {
    map["node" := NodeRef(node),
        "error_code" := Get(response, "error_code"),
        "http_code" := Get(response, "http_code"),
        "success" := Get(response, "success"),
        "page_count" := Get(response, "page_count"),
        "trans_count" := Get(response, "trans_count"),
        "trans" := Get(response, "trans")]
  }

  /** The field names `from_response` uses are all valid instance-variable names. */
  lemma ResponseFieldsAreNames(node: Node, response: map<string, Value>)
    ensures AllIvarNames(ResponseArgs(node, response))
  {
    forall k | k in ResponseFields
      ensures IvarName(k)
    {
      forall i | 0 <= i < |k|
        ensures NameStart(k[i])
      {
      }
    }
  }

  /** `from_response`: a fresh record holding the node and the six response fields verbatim, and nothing else. */
  method FromResponse(node: Node, response: map<string, Value>) returns (record: BatchTrans)
    ensures fresh(record)
    ensures record.ivars == ResponseArgs(node, response)
  {
    ResponseFieldsAreNames(node, response);
    var r := BatchTrans.New(ResponseArgs(node, response));
    record := r.value;
  }

  /** A record holding only `from_response`'s fields has a nil `id`, so it is `==` to nothing, itself included. */
  lemma ResponseRecordEqualsNothing(record: BatchTrans, node: Node, response: map<string, Value>, other: Operand)
    requires record.ivars == ResponseArgs(node, response)
    ensures !record.Equals(other)
  {
    assert "id" !in ResponseFields;
  }

  /** `multiple_from_response`: one fresh record per response entry, in order; none for an empty response. */
  method MultipleFromResponse(node: Node, response: seq<map<string, Value>>) returns (records: seq<BatchTrans>)
    ensures |records| == |response|
    ensures forall i | 0 <= i < |records| ::
      fresh(records[i]) && records[i].ivars == ResponseArgs(node, response[i])
    ensures forall i, j | 0 <= i < j < |records| :: records[i] != records[j]
  {
    if |response| == 0 {
      return [];
    }
    records := [];
    for n := 0 to |response|
      invariant |records| == n
      invariant forall i | 0 <= i < n ::
        fresh(records[i]) && records[i].ivars == ResponseArgs(node, response[i])
      invariant forall i, j | 0 <= i < j < n :: records[i] != records[j]
    {
      var record := FromResponse(node, response[n]);
      records := records + [record];
    }
  }

  /**
   * `create`: the node checks, then one `create_batch_trans` call carrying
   * the caller's payload unchanged, then `from_response` on the answer.
   */
  method Create(node: Node, payload: Value, client: Client) returns (r: Result<BatchTrans>)
    modifies client
    ensures CheckNode(node).Fail? ==> r == Failure(CheckNode(node).error) && client.log == old(client.log)
    ensures CheckNode(node).Pass? ==>
      var request := Request(CreateBatchTrans, node.userId, node.id, payload);
      var response := client.server(|old(client.log)|, request);
      && client.log == old(client.log) + [request]
      && (response.Failure? ==> r == Failure(response.error))
      && (response.Success? ==>
            && r.Success? && fresh(r.value)
            && r.value.ivars == ResponseArgs(node, response.value))
  {
    var guard := CheckNode(node);
    if guard.Fail? {
      return Failure(guard.error);
    }
    var response := client.Send(Request(CreateBatchTrans, node.userId, node.id, payload));
    if response.Failure? {
      return Failure(response.error);
    }
    var record := FromResponse(node, response.value);
    return Success(record);
  }
}
