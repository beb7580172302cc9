/**
 * The request document for one transaction: required arguments copied into
 * `to`, `amount` and `extra`, optional fields added only when truthy, the
 * attachments nested under `extra.other`, and the two ways of giving fees
 * (the legacy `fee_amount`/`fee_note`/`fee_to_id` entry, or an explicit
 * `fees` list that replaces it).
 */
module PayloadCreator {
  import opened Values
  import opened Results

  /** The required keyword arguments (apart from `node`, which is never read). */
  datatype RequiredArgs = RequiredArgs(toType: Value, toId: Value, amount: Value, currency: Value, ip: Value)

  /** The option keys the builder reads; every other key is ignored. */
  const RecognizedOptions: set<string> :=
    {"asset", "same_day", "supp_id", "note", "process_in", "attachments",
     "fee_amount", "fee_note", "fee_to_id", "fees"}

  /** The keys `extra` may hold. */
  const ExtraKeys: set<string> :=
    {"ip", "asset", "same_day", "supp_id", "note", "process_on", "other"}

  /** The top-level keys a payload may hold. */
  const PayloadKeys: set<string> := {"to", "amount", "extra", "fees"}

  /** Ruby's `any?` without a block: an array has a truthy element, a hash is non-empty; other values have no `any?`. */
  function AnyElement(v: Value): (r: Result<bool>)
    ensures r.Success? <==> v.List? || v.Hash?
    ensures v.List? ==> (r == Success(true) <==> exists i :: 0 <= i < |v.items| && Truthy(v.items[i]))
    ensures v.Hash? ==> (r == Success(true) <==> |v.entries| > 0)
    ensures r.Failure? ==> r.error == NoMethodError("any?")
  {
    match v
    case List(items) => Success(exists x | x in items :: Truthy(x))
    case Hash(entries) => Success(entries != map[])
    case _ => Failure(NoMethodError("any?"))
  }

  /** `h[key] = v if v`: the hash with `key` set to `v` when `v` is truthy, unchanged otherwise. */
  function Put(h: map<string, Value>, key: string, v: Value): map<string, Value> {
    if Truthy(v) then h[key := v] else h
  }

  /** The `extra` sub-document: `ip`, the optional fields, and `other` holding the attachments. */
  function ExtraOf(ip: Value, options: map<string, Value>): map<string, Value> {
    var other := Put(map[], "attachments", Get(options, "attachments"));
    var extra :=
      Put(Put(Put(Put(Put(map["ip" := ip],
        "asset", Get(options, "asset")),
        "same_day", Get(options, "same_day")),
        "supp_id", Get(options, "supp_id")),
        "note", Get(options, "note")),
        "process_on", Get(options, "process_in"));
    if other != map[] then extra["other" := Hash(other)] else extra
  }

  /** The legacy fee entry, possibly empty. */
  function LegacyFee(options: map<string, Value>): map<string, Value> {
    var feeTo := Put(map[], "id", Get(options, "fee_to_id"));
    var fee := Put(Put(map[], "fee", Get(options, "fee_amount")), "note", Get(options, "fee_note"));
    if feeTo != map[] then fee["to" := Hash(feeTo)] else fee
  }

  /** A one-element array whose element is truthy answers `any?` with true. */
  lemma AnyElementOfSingleton(v: Value)
    requires Truthy(v)
    ensures AnyElement(List([v])) == Success(true)
  {
    assert v in [v];
  }

  /** The final fee list: a truthy `fees` option as given, else the legacy entry if it has a key. */
  function FeeList(options: map<string, Value>): Value {
    var explicit := Get(options, "fees");
    if Truthy(explicit) then explicit
    else if LegacyFee(options) == map[] then List([])
    else List([Hash(LegacyFee(options))])
  }

  /** The payload document for one transaction, or the error `fees.any?` raises. */
  function SingleTransactionPayload(args: RequiredArgs, options: map<string, Value>): (r: Result<Value>)
    ensures r.Failure? ==> r.error == NoMethodError("any?") && Truthy(Get(options, "fees"))
    ensures r.Success? ==> r.value.Hash? && {"to", "amount", "extra"} <= r.value.entries.Keys <= PayloadKeys
  {
    var fees := FeeList(options);
    match AnyElement(fees)
    case Failure(e) => Failure(e)
    case Success(nonEmpty) =>
      var base := map["to" := Hash(map["type" := args.toType, "id" := args.toId]),
                      "amount" := Hash(map["amount" := args.amount, "currency" := args.currency]),
                      "extra" := Hash(ExtraOf(args.ip, options))];
      Success(Hash(if nonEmpty then base["fees" := fees] else base))
  }

  /**
   * `payload_for_single_transaction`: builds the payload hash and then fills
   * it in guarded assignment by guarded assignment. The `node` argument is
   * accepted and never read.
   */
  method PayloadForSingleTransaction(node: Node, toType: Value, toId: Value, amount: Value,
                                     currency: Value, ip: Value, options: map<string, Value>)
    returns (payload: Result<Value>)
    ensures payload == SingleTransactionPayload(RequiredArgs(toType, toId, amount, currency, ip), options)
  {
    var extra := FillExtra(ip, options);
    var fees: Value := List([]);
    // deprecated fee flow
    var fee := FillLegacyFee(options);
    if fee != map[] { fees := List(fees.items + [Hash(fee)]); }
    // new fee flow
    if Truthy(Get(options, "fees")) { fees := Get(options, "fees"); }
    assert fees == FeeList(options) by {
      if Truthy(Get(options, "fees")) {
      } else if fee == map[] {
        assert fees == List([]);
      } else {
        assert fees == List([Hash(fee)]);
      }
    }
    var any := AnyElement(fees);
    if any.Failure? {
      return Failure(any.error);
    }
    ghost var args := RequiredArgs(toType, toId, amount, currency, ip);
    var doc := map["to" := Hash(map["type" := toType, "id" := toId]),
                   "amount" := Hash(map["amount" := amount, "currency" := currency]),
                   "extra" := Hash(extra)];
    assert doc == map["to" := Hash(map["type" := args.toType, "id" := args.toId]),
                      "amount" := Hash(map["amount" := args.amount, "currency" := args.currency]),
                      "extra" := Hash(ExtraOf(args.ip, options))];
    if any.value { doc := doc["fees" := fees]; }
    payload := Success(Hash(doc));
  }

  /** The `extra` hash: `ip`, then each optional field set only when its option is truthy. */
  method FillExtra(ip: Value, options: map<string, Value>) returns (extra: map<string, Value>)
    ensures extra == ExtraOf(ip, options)
  {
    extra := map["ip" := ip];
    // optional payload fields
    if Truthy(Get(options, "asset")) { extra := extra["asset" := Get(options, "asset")]; }
    if Truthy(Get(options, "same_day")) { extra := extra["same_day" := Get(options, "same_day")]; }
    if Truthy(Get(options, "supp_id")) { extra := extra["supp_id" := Get(options, "supp_id")]; }
    assert extra == Put(Put(Put(map["ip" := ip], "asset", Get(options, "asset")),
      "same_day", Get(options, "same_day")), "supp_id", Get(options, "supp_id"));
    if Truthy(Get(options, "note")) { extra := extra["note" := Get(options, "note")]; }
    if Truthy(Get(options, "process_in")) { extra := extra["process_on" := Get(options, "process_in")]; }
    var other: map<string, Value> := map[];
    if Truthy(Get(options, "attachments")) { other := other["attachments" := Get(options, "attachments")]; }
    if other != map[] { extra := extra["other" := Hash(other)]; }
  }

  /** The deprecated single fee entry: `fee`, `note` and the nested `to` hash, each only when its option is truthy. */
  method FillLegacyFee(options: map<string, Value>) returns (fee: map<string, Value>)
    ensures fee == LegacyFee(options)
  {
    fee := map[];
    if Truthy(Get(options, "fee_amount")) { fee := fee["fee" := Get(options, "fee_amount")]; }
    if Truthy(Get(options, "fee_note")) { fee := fee["note" := Get(options, "fee_note")]; }
    var feeTo: map<string, Value> := map[];
    if Truthy(Get(options, "fee_to_id")) { feeTo := feeTo["id" := Get(options, "fee_to_id")]; }
    if feeTo != map[] { fee := fee["to" := Hash(feeTo)]; }
  }

  // ---------------------------------------------------------------------
  // The parts: `extra`, the legacy fee entry, the document's shape
  // ---------------------------------------------------------------------

  /** `extra` always holds `ip`, and holds no key outside `ExtraKeys`. */
  lemma ExtraOfKeys(ip: Value, options: map<string, Value>)
    ensures var extra := ExtraOf(ip, options);
      extra.Keys <= ExtraKeys && "ip" in extra && extra["ip"] == ip
  {
  }

  /** Setting `key` leaves every other key of the hash as it was. */
  lemma PutOther(h: map<string, Value>, key: string, v: Value, k: string)
    requires k != key
    ensures (k in Put(h, key, v) <==> k in h) && (k in h ==> Put(h, key, v)[k] == h[k])
  {
  }

  /** `extra.asset`, `extra.same_day`, `extra.supp_id`, `extra.note`: present iff the option of that name is truthy, and then equal to it. */
  lemma ExtraOfOptional(ip: Value, options: map<string, Value>, key: string)
    requires key in {"asset", "same_day", "supp_id", "note"}
    ensures var extra := ExtraOf(ip, options);
      (key in extra <==> Truthy(Get(options, key))) && (key in extra ==> extra[key] == Get(options, key))
  {
    var e1 := Put(map["ip" := ip], "asset", Get(options, "asset"));
    var e2 := Put(e1, "same_day", Get(options, "same_day"));
    var e3 := Put(e2, "supp_id", Get(options, "supp_id"));
    var e4 := Put(e3, "note", Get(options, "note"));
    var e5 := Put(e4, "process_on", Get(options, "process_in"));
    assert key != "ip" && key != "process_on" && key != "other";
    PutOther(e4, "process_on", Get(options, "process_in"), key);
    if key == "asset" {
      PutOther(e1, "same_day", Get(options, "same_day"), key);
      PutOther(e2, "supp_id", Get(options, "supp_id"), key);
      PutOther(e3, "note", Get(options, "note"), key);
    } else if key == "same_day" {
      PutOther(e2, "supp_id", Get(options, "supp_id"), key);
      PutOther(e3, "note", Get(options, "note"), key);
    } else if key == "supp_id" {
      PutOther(e3, "note", Get(options, "note"), key);
    }
  }

  /** `extra.process_on` is present iff `process_in` is truthy, and then equals it; `extra.process_in` never is. */
  lemma ExtraOfProcessOn(ip: Value, options: map<string, Value>)
    ensures var extra, processIn := ExtraOf(ip, options), Get(options, "process_in");
      && ("process_on" in extra <==> Truthy(processIn))
      && ("process_on" in extra ==> extra["process_on"] == processIn)
      && "process_in" !in extra
  {
    ExtraOfKeys(ip, options);
  }

  /** `extra.other` is present iff `attachments` is truthy, and then is `{'attachments' => attachments}`. */
  lemma ExtraOfOther(ip: Value, options: map<string, Value>)
    ensures var extra, attachments := ExtraOf(ip, options), Get(options, "attachments");
      && ("other" in extra <==> Truthy(attachments))
      && ("other" in extra ==> extra["other"] == Hash(map["attachments" := attachments]))
      && "attachments" !in extra
  {
    ExtraOfKeys(ip, options);
    var other := Put(map[], "attachments", Get(options, "attachments"));
    assert other != map[] <==> Truthy(Get(options, "attachments")) by {
      if Truthy(Get(options, "attachments")) { assert "attachments" in other; }
    }
  }

  /** The legacy entry holds `fee` iff `fee_amount` is truthy, `note` iff `fee_note` is, `to` iff `fee_to_id` is, and nothing else. */
  lemma LegacyFeeEntries(options: map<string, Value>)
    ensures var fee, amount, note, toId := LegacyFee(options), Get(options, "fee_amount"), Get(options, "fee_note"), Get(options, "fee_to_id");
      && fee.Keys <= {"fee", "note", "to"}
      && ("fee" in fee <==> Truthy(amount)) && ("fee" in fee ==> fee["fee"] == amount)
      && ("note" in fee <==> Truthy(note)) && ("note" in fee ==> fee["note"] == note)
      && ("to" in fee <==> Truthy(toId)) && ("to" in fee ==> fee["to"] == Hash(map["id" := toId]))
      && (fee == map[] <==> !Truthy(amount) && !Truthy(note) && !Truthy(toId))
  {
    var feeTo := Put(map[], "id", Get(options, "fee_to_id"));
    assert feeTo != map[] <==> Truthy(Get(options, "fee_to_id")) by {
      if Truthy(Get(options, "fee_to_id")) { assert "id" in feeTo; }
    }
    if Truthy(Get(options, "fee_amount")) {
      assert "fee" in LegacyFee(options);
    } else if Truthy(Get(options, "fee_note")) {
      assert "note" in LegacyFee(options);
    } else if Truthy(Get(options, "fee_to_id")) {
      assert "to" in LegacyFee(options);
    }
  }

  /** A successful payload: `to`, `amount`, `extra` always, `fees` iff the final fee list answers `any?` with true. */
  lemma PayloadShape(args: RequiredArgs, options: map<string, Value>)
    requires SingleTransactionPayload(args, options).Success?
    ensures var doc := SingleTransactionPayload(args, options).value;
      && doc.Hash? && {"to", "amount", "extra"} <= doc.entries.Keys <= PayloadKeys
      && doc.entries["to"] == Hash(map["type" := args.toType, "id" := args.toId])
      && doc.entries["amount"] == Hash(map["amount" := args.amount, "currency" := args.currency])
      && doc.entries["extra"] == Hash(ExtraOf(args.ip, options))
      && ("fees" in doc.entries <==> AnyElement(FeeList(options)) == Success(true))
      && ("fees" in doc.entries ==> doc.entries["fees"] == FeeList(options))
  {
  }

  /** Two option values have the same effect on the builder: both falsy, or equal. */
  predicate SameEffect(v: Value, w: Value) {
    Truthy(v) == Truthy(w) && (Truthy(v) ==> v == w)
  }

  lemma PutSameEffect(h: map<string, Value>, key: string, v: Value, w: Value)
    requires SameEffect(v, w)
    ensures Put(h, key, v) == Put(h, key, w)
  {
  }

  /** The options read into `extra` have the same effect in `o1` as in `o2`. */
  predicate SameExtraOptions(o1: map<string, Value>, o2: map<string, Value>) {
    && SameEffect(Get(o1, "asset"), Get(o2, "asset"))
    && SameEffect(Get(o1, "same_day"), Get(o2, "same_day"))
    && SameEffect(Get(o1, "supp_id"), Get(o2, "supp_id"))
    && SameEffect(Get(o1, "note"), Get(o2, "note"))
    && SameEffect(Get(o1, "process_in"), Get(o2, "process_in"))
    && SameEffect(Get(o1, "attachments"), Get(o2, "attachments"))
  }

  /** The legacy fee options have the same effect in `o1` as in `o2`. */
  predicate SameLegacyFeeOptions(o1: map<string, Value>, o2: map<string, Value>) {
    && SameEffect(Get(o1, "fee_amount"), Get(o2, "fee_amount"))
    && SameEffect(Get(o1, "fee_note"), Get(o2, "fee_note"))
    && SameEffect(Get(o1, "fee_to_id"), Get(o2, "fee_to_id"))
  }

  lemma ExtraOfCongruent(ip: Value, o1: map<string, Value>, o2: map<string, Value>)
    requires SameExtraOptions(o1, o2)
    ensures ExtraOf(ip, o1) == ExtraOf(ip, o2)
  {
    var e1 := Put(map["ip" := ip], "asset", Get(o1, "asset"));
    PutSameEffect(map["ip" := ip], "asset", Get(o1, "asset"), Get(o2, "asset"));
    var e2 := Put(e1, "same_day", Get(o1, "same_day"));
    PutSameEffect(e1, "same_day", Get(o1, "same_day"), Get(o2, "same_day"));
    var e3 := Put(e2, "supp_id", Get(o1, "supp_id"));
    PutSameEffect(e2, "supp_id", Get(o1, "supp_id"), Get(o2, "supp_id"));
    var e4 := Put(e3, "note", Get(o1, "note"));
    PutSameEffect(e3, "note", Get(o1, "note"), Get(o2, "note"));
    PutSameEffect(e4, "process_on", Get(o1, "process_in"), Get(o2, "process_in"));
    PutSameEffect(map[], "attachments", Get(o1, "attachments"), Get(o2, "attachments"));
  }

  lemma LegacyFeeCongruent(o1: map<string, Value>, o2: map<string, Value>)
    requires SameLegacyFeeOptions(o1, o2)
    ensures LegacyFee(o1) == LegacyFee(o2)
  {
    PutSameEffect(map[], "fee", Get(o1, "fee_amount"), Get(o2, "fee_amount"));
    PutSameEffect(Put(map[], "fee", Get(o1, "fee_amount")), "note", Get(o1, "fee_note"), Get(o2, "fee_note"));
    PutSameEffect(map[], "id", Get(o1, "fee_to_id"), Get(o2, "fee_to_id"));
  }

  /** The payload depends only on the effect of the recognised options. */
  lemma PayloadDependsOnlyOnRecognized(args: RequiredArgs, o1: map<string, Value>, o2: map<string, Value>)
    requires SameExtraOptions(o1, o2) && SameLegacyFeeOptions(o1, o2) && SameEffect(Get(o1, "fees"), Get(o2, "fees"))
    ensures SingleTransactionPayload(args, o1) == SingleTransactionPayload(args, o2)
  {
    ExtraOfCongruent(args.ip, o1, o2);
    LegacyFeeCongruent(o1, o2);
    assert FeeList(o1) == FeeList(o2);
  }

  // ---------------------------------------------------------------------
  // Properties of the payload document
  // ---------------------------------------------------------------------

  /** The builder raises only when a truthy `fees` option is neither an array nor a hash. */
  lemma FailsOnlyOnScalarFees(args: RequiredArgs, options: map<string, Value>)
    ensures var fees := Get(options, "fees");
      SingleTransactionPayload(args, options).Failure? <==> Truthy(fees) && !fees.List? && !fees.Hash?
    ensures SingleTransactionPayload(args, options).Failure? ==>
      SingleTransactionPayload(args, options).error == NoMethodError("any?")
  {
  }

  /** `to.type`, `to.id`, `amount.amount`, `amount.currency` and `extra.ip` are always present and equal the arguments. */
  lemma RequiredFieldsCopied(args: RequiredArgs, options: map<string, Value>)
    requires SingleTransactionPayload(args, options).Success?
    ensures var doc := SingleTransactionPayload(args, options).value;
      && Has(doc, "to") && At(doc, "to").entries.Keys == {"type", "id"}
      && At(At(doc, "to"), "type") == args.toType && At(At(doc, "to"), "id") == args.toId
      && Has(doc, "amount") && At(doc, "amount").entries.Keys == {"amount", "currency"}
      && At(At(doc, "amount"), "amount") == args.amount && At(At(doc, "amount"), "currency") == args.currency
      && Has(doc, "extra") && Has(At(doc, "extra"), "ip") && At(At(doc, "extra"), "ip") == args.ip
  {
    PayloadShape(args, options);
    ExtraOfKeys(args.ip, options);
  }

  /** `extra.asset`, `extra.same_day`, `extra.supp_id` and `extra.note` are present iff the option is truthy, and then equal it. */
  lemma OptionalExtraIffTruthy(args: RequiredArgs, options: map<string, Value>, key: string)
    requires key in {"asset", "same_day", "supp_id", "note"}
    requires SingleTransactionPayload(args, options).Success?
    ensures var extra := At(SingleTransactionPayload(args, options).value, "extra");
      && (Has(extra, key) <==> Truthy(Get(options, key)))
      && (Has(extra, key) ==> At(extra, key) == Get(options, key))
  {
    PayloadShape(args, options);
    ExtraOfOptional(args.ip, options, key);
  }

  /** `process_in` is emitted as `extra.process_on`; no `process_in` key appears in the document or in `extra`. */
  lemma ProcessInRenamed(args: RequiredArgs, options: map<string, Value>)
    requires SingleTransactionPayload(args, options).Success?
    ensures var doc := SingleTransactionPayload(args, options).value;
      var extra := At(doc, "extra");
      && (Has(extra, "process_on") <==> Truthy(Get(options, "process_in")))
      && (Has(extra, "process_on") ==> At(extra, "process_on") == Get(options, "process_in"))
      && !Has(extra, "process_in") && !Has(doc, "process_in")
  {
    PayloadShape(args, options);
    ExtraOfProcessOn(args.ip, options);
  }

  /** `extra.other` is present iff `attachments` is truthy, and is then exactly `{'attachments' => attachments}`. */
  lemma AttachmentsNestedUnderOther(args: RequiredArgs, options: map<string, Value>)
    requires SingleTransactionPayload(args, options).Success?
    ensures var extra := At(SingleTransactionPayload(args, options).value, "extra");
      && (Has(extra, "other") <==> Truthy(Get(options, "attachments")))
      && (Has(extra, "other") ==> At(extra, "other") == Hash(map["attachments" := Get(options, "attachments")]))
      && !Has(extra, "attachments")
  {
    PayloadShape(args, options);
    ExtraOfOther(args.ip, options);
  }

  /** The document and its `extra` hold no keys other than the recognised ones. */
  lemma OnlyKnownKeys(args: RequiredArgs, options: map<string, Value>)
    requires SingleTransactionPayload(args, options).Success?
    ensures var doc := SingleTransactionPayload(args, options).value;
      && doc.Hash? && {"to", "amount", "extra"} <= doc.entries.Keys <= PayloadKeys
      && At(doc, "extra").Hash? && At(doc, "extra").entries.Keys <= ExtraKeys
  {
    PayloadShape(args, options);
    ExtraOfKeys(args.ip, options);
  }

  /**
   * Without a truthy `fees` option, `fees` is present iff some legacy fee
   * option is truthy, and then holds one entry whose `fee`, `note` and `to`
   * keys are each present iff their own option is truthy.
   */
  lemma LegacyFeeEntry(args: RequiredArgs, options: map<string, Value>)
    requires !Truthy(Get(options, "fees"))
    ensures SingleTransactionPayload(args, options).Success?
    ensures var doc := SingleTransactionPayload(args, options).value;
      var amount, note, toId := Get(options, "fee_amount"), Get(options, "fee_note"), Get(options, "fee_to_id");
      && (Has(doc, "fees") <==> Truthy(amount) || Truthy(note) || Truthy(toId))
      && (Has(doc, "fees") ==>
            && At(doc, "fees").List? && |At(doc, "fees").items| == 1
            && var entry := At(doc, "fees").items[0];
            && entry.Hash? && entry.entries.Keys <= {"fee", "note", "to"}
            && (Has(entry, "fee") <==> Truthy(amount)) && (Has(entry, "fee") ==> At(entry, "fee") == amount)
            && (Has(entry, "note") <==> Truthy(note)) && (Has(entry, "note") ==> At(entry, "note") == note)
            && (Has(entry, "to") <==> Truthy(toId)) && (Has(entry, "to") ==> At(entry, "to") == Hash(map["id" := toId])))
  {
    LegacyFeeEntries(options);
    if LegacyFee(options) != map[] {
      AnyElementOfSingleton(Hash(LegacyFee(options)));
    }
    PayloadShape(args, options);
  }

  /**
   * A truthy `fees` option replaces the legacy entry: the result does not
   * change when `fee_amount`, `fee_note` and `fee_to_id` are dropped, and
   * `fees` is present iff the option answers `any?` with true, holding the
   * option unchanged.
   */
  lemma ExplicitFeesOverride(args: RequiredArgs, options: map<string, Value>)
    requires Truthy(Get(options, "fees"))
    ensures SingleTransactionPayload(args, options) ==
      SingleTransactionPayload(args, options - {"fee_amount", "fee_note", "fee_to_id"})
    ensures SingleTransactionPayload(args, options).Success? ==>
      var doc, fees := SingleTransactionPayload(args, options).value, Get(options, "fees");
      && (Has(doc, "fees") <==> AnyElement(fees) == Success(true))
      && (Has(doc, "fees") ==> At(doc, "fees") == fees)
  {
    var trimmed := options - {"fee_amount", "fee_note", "fee_to_id"};
    assert Get(trimmed, "fees") == Get(options, "fees");
    assert FeeList(trimmed) == FeeList(options);
    assert SameExtraOptions(trimmed, options);
    ExtraOfCongruent(args.ip, trimmed, options);
    if SingleTransactionPayload(args, options).Success? {
      PayloadShape(args, options);
    }
  }

  /** An explicit empty `fees` list suppresses the key even when legacy fee options are set. */
  lemma EmptyExplicitFeesSuppressKey(args: RequiredArgs, options: map<string, Value>)
    requires Get(options, "fees") == List([])
    ensures SingleTransactionPayload(args, options).Success?
    ensures !Has(SingleTransactionPayload(args, options).value, "fees")
  {
    PayloadShape(args, options);
  }

  /** Options the builder does not recognise never affect the result. */
  lemma UnrecognizedOptionIgnored(args: RequiredArgs, options: map<string, Value>, key: string, v: Value)
    requires key !in RecognizedOptions
    ensures SingleTransactionPayload(args, options[key := v]) == SingleTransactionPayload(args, options)
  {
    assert SameExtraOptions(options[key := v], options) && SameLegacyFeeOptions(options[key := v], options);
    PayloadDependsOnlyOnRecognized(args, options[key := v], options);
  }

  /** An option given as `nil` or `false` has the same effect as leaving it out. */
  lemma FalsyOptionSameAsAbsent(args: RequiredArgs, options: map<string, Value>, key: string)
    requires !Truthy(Get(options, key))
    ensures SingleTransactionPayload(args, options) == SingleTransactionPayload(args, options - {key})
  {
    assert SameExtraOptions(options, options - {key}) && SameLegacyFeeOptions(options, options - {key});
    PayloadDependsOnlyOnRecognized(args, options, options - {key});
  }

  // ---------------------------------------------------------------------
  // Worked cases
  // ---------------------------------------------------------------------

  /** `same_day: false` is omitted from `extra`. */
  lemma SameDayFalseOmitted(args: RequiredArgs)
    ensures var r := SingleTransactionPayload(args, map["same_day" := Bool(false)]);
      r.Success? && !Has(At(r.value, "extra"), "same_day")
  {
    var options := map["same_day" := Bool(false)];
    PayloadShape(args, options);
    ExtraOfOptional(args.ip, options, "same_day");
  }

  /** `fee_amount: 10, fee_note: 'x'` gives `fees == [{'fee' => 10, 'note' => 'x'}]`. */
  lemma LegacyAmountAndNote(args: RequiredArgs)
    ensures var r := SingleTransactionPayload(args, map["fee_amount" := Num(10), "fee_note" := Str("x")]);
      r.Success? && At(r.value, "fees") == List([Hash(map["fee" := Num(10), "note" := Str("x")])])
  {
    var options := map["fee_amount" := Num(10), "fee_note" := Str("x")];
    LegacyFeeEntries(options);
    assert LegacyFee(options) == map["fee" := Num(10), "note" := Str("x")];
    AnyElementOfSingleton(Hash(LegacyFee(options)));
    PayloadShape(args, options);
  }

  /** `fee_to_id` alone gives a one-key entry `{'to' => {'id' => fee_to_id}}`. */
  lemma FeeToIdAlone(args: RequiredArgs, id: Value)
    requires Truthy(id)
    ensures var r := SingleTransactionPayload(args, map["fee_to_id" := id]);
      r.Success? && At(r.value, "fees") == List([Hash(map["to" := Hash(map["id" := id])])])
  {
    var options := map["fee_to_id" := id];
    LegacyFeeEntries(options);
    assert LegacyFee(options) == map["to" := Hash(map["id" := id])];
    AnyElementOfSingleton(Hash(LegacyFee(options)));
    PayloadShape(args, options);
  }

  /** With both a legacy amount and `fees: [{'amount' => 5}]`, the explicit list wins. */
  lemma ExplicitListWins(args: RequiredArgs)
    ensures var fees := List([Hash(map["amount" := Num(5)])]);
      var r := SingleTransactionPayload(args, map["fee_amount" := Num(10), "fees" := fees]);
      r.Success? && At(r.value, "fees") == fees
  {
    var fees := List([Hash(map["amount" := Num(5)])]);
    var options := map["fee_amount" := Num(10), "fees" := fees];
    AnyElementOfSingleton(fees.items[0]);
    PayloadShape(args, options);
  }

  /** With no fee-related options, the document has no `fees` key. */
  lemma NoFeeOptionsNoFeesKey(args: RequiredArgs, options: map<string, Value>)
    requires options.Keys !! {"fee_amount", "fee_note", "fee_to_id", "fees"}
    ensures var r := SingleTransactionPayload(args, options);
      r.Success? && !Has(r.value, "fees")
  {
    LegacyFeeEntries(options);
    PayloadShape(args, options);
  }
}
