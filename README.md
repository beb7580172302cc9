# Batch transactions of the SynapsePay Ruby client, in Dafny

This project models the part of the SynapsePay REST client that assembles
request documents and maps response documents for batch transactions:

- **The single-transaction payload** (`PayloadCreator#payload_for_single_transaction`).
  The required arguments go into `to`, `amount` and `extra.ip`. Each optional
  field is copied into `extra` only when its option is truthy (neither `nil`
  nor `false`). `process_in` is written as `process_on`. The attachments are
  nested under `extra.other`. Fees come either from the legacy
  `fee_amount`/`fee_note`/`fee_to_id` entry or from an explicit `fees` option,
  which replaces the legacy entry. The top-level `fees` key is written only
  when `fees.any?` holds.
- **`BatchTransaction`**:
  - `payload_for_batch_create` maps a per-transaction builder over the
    transactions, in order, under the single key `transactions`.
  - `from_response` copies the response's top-level fields and parses each
    element of `trans`, in order.
  - `create` checks the node, sends one `create_batch` request and parses the answer.
- **`BatchTrans`**:
  - `initialize` sets one instance variable per keyword option.
  - `from_response` copies the response fields verbatim, and
    `multiple_from_response` builds one record per response entry.
  - `create` checks the node, then sends the caller's payload unchanged.
  - `==` compares ids and is not reflexive when the id is `nil`.

Ruby values are the datatype `Values.Value`. Hash keys are strings; they stand
for the symbol keys of keyword options as well as the string keys of documents.
Exceptions are values: `Results.Result` and `Results.Outcome` carry the
`ArgumentError`, `NoMethodError`, `TypeError` or `NameError` the Ruby code
raises, or the error a collaborator raises.

Three things outside this code are parameters:

- `Transaction.payload_for_create` and `Transaction.from_response` are not part
  of this model. They are function parameters that may succeed or raise.
- The HTTP client is `Transport.Client`. It logs every request it is asked to
  send. Its answer to the n-th request is a fixed function of n and of the
  request, so "no request was sent" is a statement about the log.
- The node's class is a `NodeKind`: an `UnverifiedNode`, another `BaseNode`,
  or not a node at all.

`payload_for_single_transaction` changes its hashes step by step. It is
modelled by the method `PayloadCreator.PayloadForSingleTransaction`, which
does the same guarded assignments. That method is proved equal to the function
`PayloadCreator.SingleTransactionPayload`, and the lemmas state the
document's properties about that function. `BatchTrans` keeps its instance
variables in a table that `initialize` fills one option at a time, in a loop.

Three facts about the code that are easy to get wrong:

- The top-level `fees` key is written when `fees.any?` holds, not when the list is non-empty.
  So `fees: [nil]` leaves the key out, and a hash-valued `fees` is written when it is non-empty.
  Any other truthy value, such as a string or a number, raises `NoMethodError`.
- An omitted required keyword (`to_type:`, `to_id:`, `amount:`, `currency:`, `ip:`) raises an
  `ArgumentError` naming it. A required keyword given as `nil` is copied into the document as `nil`.
- The builder reads no `group_id` option; like every option it does not read, it has no effect.

## Model

| member | source | states |
|---|---|---|
| PayloadCreator.PayloadForSingleTransaction | lib/synapse_pay_rest/payload_creator.rb:3-39 | The step-by-step builder produces exactly the document `SingleTransactionPayload` describes, or the error raised by `fees.any?`; `node` is never read. |
| PayloadCreator.AnyElement | lib/synapse_pay_rest/payload_creator.rb:38 | Ruby's `any?` without a block: an array answers true iff some element is truthy, a hash iff it is non-empty; any other value raises `NoMethodError`. |
| PayloadCreator.SingleTransactionPayload | lib/synapse_pay_rest/payload_creator.rb:3-39 | The payload document as a function of the arguments and options; it fails only with `NoMethodError` for `any?` on a truthy `fees` option, and a document holds `to`, `amount`, `extra` and no key beyond `fees`. |
| PayloadCreator.FillExtra | lib/synapse_pay_rest/payload_creator.rb:14-26 | The guarded assignments to `extra` and `other` yield `ExtraOf`, the fold of "set if truthy" over the optional fields. |
| PayloadCreator.FillLegacyFee | lib/synapse_pay_rest/payload_creator.rb:29-34 | The guarded assignments to `fee` and `fee_to` yield the legacy entry `LegacyFee`. |
| PayloadCreator.ExtraOfKeys | lib/synapse_pay_rest/payload_creator.rb:14-26 | `extra` always holds `ip` with the argument's value and has no key outside ip, asset, same_day, supp_id, note, process_on, other. |
| PayloadCreator.ExtraOfOptional | lib/synapse_pay_rest/payload_creator.rb:19-22 | For asset, same_day, supp_id and note, `extra[k]` is present iff the option is truthy, and then equals it. |
| PayloadCreator.ExtraOfProcessOn | lib/synapse_pay_rest/payload_creator.rb:23 | `extra.process_on` is present iff `process_in` is truthy, with its value; `extra` never holds `process_in`. |
| PayloadCreator.ExtraOfOther | lib/synapse_pay_rest/payload_creator.rb:24-26 | `extra.other` is present iff `attachments` is truthy, and is then `{'attachments' => attachments}`; `extra` never holds `attachments` itself. |
| PayloadCreator.LegacyFeeEntries | lib/synapse_pay_rest/payload_creator.rb:29-34 | The legacy entry holds `fee` iff `fee_amount` is truthy, `note` iff `fee_note` is, `to = {'id' => fee_to_id}` iff `fee_to_id` is, nothing else; it is empty iff none of the three is truthy. |
| PayloadCreator.PayloadShape | lib/synapse_pay_rest/payload_creator.rb:5-17 | A built document holds `to`, `amount`, `extra`, and `fees` exactly when the final fee list answers `any?` with true; no other key. |
| PayloadCreator.ExtraOfCongruent | lib/synapse_pay_rest/payload_creator.rb:19-26 | Two option hashes whose six extra-related options are equally falsy or equal give the same `extra`. |
| PayloadCreator.LegacyFeeCongruent | lib/synapse_pay_rest/payload_creator.rb:29-34 | Two option hashes whose three legacy fee options are equally falsy or equal give the same legacy entry. |
| PayloadCreator.PayloadDependsOnlyOnRecognized | lib/synapse_pay_rest/payload_creator.rb:3-39 | The result depends only on the truthiness and value of the ten options the builder reads. |
| PayloadCreator.FailsOnlyOnScalarFees | lib/synapse_pay_rest/payload_creator.rb:37-38 | The builder raises iff a truthy `fees` option is neither an array nor a hash, and then the error is `NoMethodError` for `any?`. |
| PayloadCreator.RequiredFieldsCopied | lib/synapse_pay_rest/payload_creator.rb:5-17 | `to` is exactly `{type, id}`, `amount` exactly `{amount, currency}`, and `extra.ip` is present, each equal to its argument. |
| PayloadCreator.OptionalExtraIffTruthy | lib/synapse_pay_rest/payload_creator.rb:19-22 | In the document, `extra[k]` for asset, same_day, supp_id, note is present iff the option is truthy, and then equals it. |
| PayloadCreator.ProcessInRenamed | lib/synapse_pay_rest/payload_creator.rb:23 | The document's `extra.process_on` is present iff `process_in` is truthy, with that value; `process_in` appears neither at the top level nor in `extra`. |
| PayloadCreator.AttachmentsNestedUnderOther | lib/synapse_pay_rest/payload_creator.rb:24-26 | The document's `extra.other` is present iff `attachments` is truthy, and is then exactly `{'attachments' => attachments}`. |
| PayloadCreator.OnlyKnownKeys | lib/synapse_pay_rest/payload_creator.rb:3-39 | The document has only the keys to, amount, extra and possibly fees, and `extra` only its seven known keys. |
| PayloadCreator.LegacyFeeEntry | lib/synapse_pay_rest/payload_creator.rb:29-38 | Without a truthy `fees` option the builder never raises; `fees` is present iff some legacy option is truthy, and then is a one-element list whose entry holds each of fee, note, to iff its option is truthy. |
| PayloadCreator.ExplicitFeesOverride | lib/synapse_pay_rest/payload_creator.rb:37-38 | With a truthy `fees` option, dropping the three legacy options changes nothing, and `fees` is present iff the option answers `any?` with true, holding it unchanged. |
| PayloadCreator.EmptyExplicitFeesSuppressKey | lib/synapse_pay_rest/payload_creator.rb:37-38 | `fees: []` leaves the key out even when legacy fee options are set. |
| PayloadCreator.UnrecognizedOptionIgnored | lib/synapse_pay_rest/payload_creator.rb:3-4 | Adding or changing an option the builder does not read never changes the result. |
| PayloadCreator.FalsyOptionSameAsAbsent | lib/synapse_pay_rest/payload_creator.rb:19-37 | An option given as `nil` or `false` has the same effect as leaving it out. |
| PayloadCreator.SameDayFalseOmitted | lib/synapse_pay_rest/payload_creator.rb:20 | `same_day: false` is left out of `extra`. |
| PayloadCreator.LegacyAmountAndNote | lib/synapse_pay_rest/payload_creator.rb:29-35 | `fee_amount: 10, fee_note: 'x'` gives `fees == [{'fee' => 10, 'note' => 'x'}]`. |
| PayloadCreator.FeeToIdAlone | lib/synapse_pay_rest/payload_creator.rb:32-35 | `fee_to_id` alone gives the one-key entry `{'to' => {'id' => fee_to_id}}`. |
| PayloadCreator.ExplicitListWins | lib/synapse_pay_rest/payload_creator.rb:37 | An explicit `fees` list wins over a legacy `fee_amount`. |
| PayloadCreator.NoFeeOptionsNoFeesKey | lib/synapse_pay_rest/payload_creator.rb:27-38 | With no fee-related option the builder succeeds and writes no `fees` key. |
| Results.MapAll | lib/synapse_pay_rest/models/transaction/batch_transaction.rb:56 | Ruby `map` over a block that may raise: succeeds iff every element succeeds, then same length with element i the block's value on input i; otherwise raises the first failing element's error. |
| NodeGuard.CheckNode | lib/synapse_pay_rest/models/transaction/batch_transaction.rb:23-24 | Passes iff the node is a BaseNode other than an UnverifiedNode; an UnverifiedNode gets the UnverifiedNode message, a non-node the BaseNode message. |
| Transport.Client.Send | lib/synapse_pay_rest/models/transaction/batch_transaction.rb:26-30 | A client call appends its request to the log and returns the server's answer to it. |
| BatchTransactionModel.ElementPayload | lib/synapse_pay_rest/models/transaction/batch_transaction.rb:56 | `payload_for_create(**transaction)` for one element: a hash gives the builder's result on its entries; any other value raises `TypeError`. |
| BatchTransactionModel.ElementPayloads | lib/synapse_pay_rest/models/transaction/batch_transaction.rb:56 | `transactions.map`: a success comes from an array, with one payload per element, or from the empty hash, giving none; a non-empty hash raises `TypeError`; any other value raises `NoMethodError`. |
| BatchTransactionModel.ParseEach | lib/synapse_pay_rest/models/transaction/batch_transaction.rb:47 | `response['trans'].map`: a non-array raises `NoMethodError`; a success has one parsed transaction per element, element i being the parser's value on entry i. |
| BatchTransactionModel.PayloadForBatchCreate | lib/synapse_pay_rest/models/transaction/batch_transaction.rb:54-58 | The document's only key is `transactions`; for an array input it succeeds iff every element builds, with the same length and element i the builder applied to input i; otherwise the first failure is raised; a non-array succeeds only as the empty hash, giving `[]`. |
| BatchTransactionModel.FromResponse | lib/synapse_pay_rest/models/transaction/batch_transaction.rb:39-50 | The node and error_code, http_code, success, page_count, trans_count are copied verbatim; `trans` is parsed element by element in order, with the same length; a missing or non-array `trans` raises `NoMethodError`, a failing element raises its error. |
| BatchTransactionModel.TwoTransactionsInOrder | lib/synapse_pay_rest/models/transaction/batch_transaction.rb:39-50 | A response with `trans: [a, b]` yields the record with both parsed transactions in the order a, b. |
| BatchTransactionModel.Create | lib/synapse_pay_rest/models/transaction/batch_transaction.rb:22-32 | A node that fails the checks raises its error with no request sent, the UnverifiedNode check first; a failing batch document raises with no request sent; otherwise exactly one `create_batch` request with the node's user id, node id and the batch document, then `from_response` of the answer. |
| BatchTransModel.BatchTrans.Initialize | lib/synapse_pay_rest/models/batch_transactions/batch_trans.rb:65-67 | Succeeds iff every key is a valid instance-variable name, and then sets exactly one instance variable per option to its value; otherwise raises `NameError` for an invalid key. |
| BatchTransModel.BatchTrans.New | lib/synapse_pay_rest/models/batch_transactions/batch_trans.rb:65-67 | `new(**options)` gives a fresh record whose instance variables are exactly the options, or raises `NameError` for an invalid key. |
| BatchTransModel.BatchTrans.Equals | lib/synapse_pay_rest/models/batch_transactions/batch_trans.rb:71-73 | `==`: true only against another `BatchTrans` record whose id is not nil; against itself, true iff the id is not nil. |
| BatchTransModel.EqualsReflexiveIffId | lib/synapse_pay_rest/models/batch_transactions/batch_trans.rb:71-73 | A record is `==` to itself iff its id is not nil. |
| BatchTransModel.EqualsSymmetric | lib/synapse_pay_rest/models/batch_transactions/batch_trans.rb:71-73 | `==` between records is symmetric. |
| BatchTransModel.EqualsTransitive | lib/synapse_pay_rest/models/batch_transactions/batch_trans.rb:71-73 | `==` between records is transitive. |
| BatchTransModel.ForeignNeverEqual | lib/synapse_pay_rest/models/batch_transactions/batch_trans.rb:71-73 | No record is `==` to an object of another class. |
| BatchTransModel.ResponseArgs | lib/synapse_pay_rest/models/batch_transactions/batch_trans.rb:42-51 | The arguments have exactly the keys node, error_code, http_code, success, page_count, trans_count, trans; node is the given node and each other key is the response's value, with `trans` not transformed. |
| BatchTransModel.FromResponse | lib/synapse_pay_rest/models/batch_transactions/batch_trans.rb:41-53 | A fresh record whose instance variables are exactly those arguments. |
| BatchTransModel.ResponseRecordEqualsNothing | lib/synapse_pay_rest/models/batch_transactions/batch_trans.rb:71-73 | A record built by `from_response` has a nil id, so it is `==` to nothing, itself included. |
| BatchTransModel.MultipleFromResponse | lib/synapse_pay_rest/models/batch_transactions/batch_trans.rb:57-60 | One fresh, distinct record per response entry, in order, each built as `from_response` builds it; none for an empty response. |
| BatchTransModel.Create | lib/synapse_pay_rest/models/batch_transactions/batch_trans.rb:24-34 | A node that fails the checks raises with no request sent, the UnverifiedNode check first; otherwise exactly one `create_batch_trans` request carrying the caller's payload unchanged, then a record built from the answer, or the client's error. |

## Left out

- The HTTP exchange behind `create_batch` and `create_batch_trans` is not modelled. The client is a parameter, not the one the code reaches through `node.user.client`. Its answers are a function of the call's position and the request.
- `Transaction.payload_for_create` and `Transaction.from_response` are not part of this model. They are uninterpreted function parameters.
- The error Ruby raises for an omitted required keyword of `payload_for_single_transaction` is not modelled, because the five required arguments are parameters of the model and are always given.
- The node class hierarchy is replaced by `NodeKind`. A node's `id` and its user's `id` are plain values.
- lib/synapse_pay_rest/models/node/ic_deposit_us_node.rb delegates to `BaseNode.payload_for_create`, which is not part of this model.
- `BatchTransaction.multiple_from_response` only raises "not implemented yet", so it has no model.
- The reader typo `:http_codee` in `BatchTransaction`'s `attr_reader` is not modelled. The record has an `httpCode` field, and whether a reader for it exists depends on `Transaction`, which is not part of this model.
- BatchTransactionModel.FromResponse: a `trans` value that is a hash would be mapped over its `[key, value]` pairs in Ruby. The model raises `NoMethodError` for it, as for other non-arrays, because hash iteration order is not modelled.
- BatchTransModel.MultipleFromResponse: the response is a sequence of hashes. A hash-valued response, or elements that are not hashes, are not modelled.
- Responses are hashes. A response that is not a hash (where `response['x']` would behave differently) is not modelled.
- Hash key order is not modelled, because documents are maps. Numbers are integers; floats are not modelled.
- BatchTransModel.IvarName: uses the identifier rule for names `instance_variable_set` accepts (a letter, `_` or non-ASCII character, then also digits). Ruby's exact lexer rules for non-ASCII characters are not modelled.
- BatchTransModel.BatchTrans.Initialize: it visits options in an arbitrary order, where Ruby visits them in insertion order. So when several keys are invalid, the model does not fix which one the `NameError` names.
- Ruby object identity, `instance_of?` for subclasses, and `==` on ids that are themselves objects are not modelled. An id compares by value.
