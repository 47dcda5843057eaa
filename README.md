# qbitcoin-trx in Dafny

A model of `lib_qbitcoin_trx.py`, a thin JSON-RPC client for a qbitcoin node.
The model covers the logic under the HTTP plumbing:

- the type-check helpers `_check_type` and `_check_nullable_type`;
- the JSON-RPC 2.0 request envelope, and the decoding of the node's reply into
  a result, an `RpcError`, or a type or key failure;
- the operations `ping`, `get_trx_conf`, `new_address_pair`, `get_balance` and
  `send_balance`, with the checks each one makes on the node's results.

Files and modules:

- `values.dfy` (module `Values`): parsed JSON values, and the Python exceptions
  the library can raise (`TypeError`, `KeyError`, `AttributeError`,
  `AssertionError`, `StopIteration`, `RpcError`). It also models `isinstance`,
  `dict.get` and `v[key]` as the library uses them. A JSON object is an
  insertion-ordered list of members. When a key repeats, the last binding
  wins, as with `json.loads`.
- `rpc.dfy` (module `Rpc`): the type-check helpers, the envelope, and
  `DecodeResponse` (the part of `rpc` after the body is parsed). The node is a
  function from the request envelope to the parsed reply body. `RpcOf(node)`
  is `rpc` for that node. It is a function from a `Call` (method name and
  params) to a `Result`.
- `operations.dfy` (module `Operations`): `ping`, `get_trx_conf`,
  `new_address_pair` and `get_balance`. Each is written against the `rpc`
  function. `get_balance` is a method with a loop, proved equal to the
  specification function `GetBalanceOutcome`.
- `send_balance.dfy` (module `Transfer`): `send_balance`. It is a method made
  of three loop methods: the outer loop over source addresses, the inner loop
  over their unspent outputs, and the loop over destinations. It is proved
  equal to the specification function `SendBalanceRun`. Every run also returns
  `sent`, the calls made to the node, in order. This makes the call order and
  the early abort statable.

Python facts the model keeps:

- `bool` is a subclass of `int`, so a JSON `true` passes every int check: the
  error code, `confirmations` and `vout`.
- A JSON integer fails the float check on `amount`.
- Checked values are kept as JSON values. A `vout` of `true` is sent back to
  the node as `true`, and `get_trx_conf` can return a JSON boolean.
- Amounts are exact `real`s.

Where the code is stricter or looser than a plain reading of the interface,
the model follows the code:

- `get_trx_conf` accepts a boolean `confirmations`.
- `from_address_pairs` may be empty when a change address is given. The run
  then has no inputs and a change of `-(sum of amounts) - fee`. With no change
  address, an empty mapping raises `StopIteration` before any call is made.
- A reply body that is not a JSON object raises `AttributeError` (from
  `.get`). Subscripting a result that is not an object raises `TypeError`.
  Subscripting an object that lacks the key raises `KeyError`.

## Model

| member | source | states |
|---|---|---|
| `Values.LookupLast` | lib_qbitcoin_trx.py:89-92 | a key is absent exactly when no member has it; otherwise the value found is that of the last member with the key |
| `Values.IsInstance` | lib_qbitcoin_trx.py:30-39 | `isinstance` on a parsed value: null is an instance of no class, and a boolean, like an integer, is an instance of int and of no other class |
| `Values.Get` | lib_qbitcoin_trx.py:91-92 | `dict.get` gives the bound value, or None (JSON null) when the key is absent |
| `Values.Subscript` | lib_qbitcoin_trx.py:95-96 | `v[key]` succeeds exactly on an object holding the key and gives its value; a non-object raises TypeError, an object without the key raises KeyError(key) |
| `Rpc.CheckType` | lib_qbitcoin_trx.py:23-33 | passes exactly the non-null values that are Any-typed or instances of the class, and returns them unchanged; any other value raises TypeError |
| `Rpc.CheckNullableType` | lib_qbitcoin_trx.py:35-42 | passes exactly null, anything checked against Any, and instances of the class, unchanged; any other value raises TypeError |
| `Rpc.CheckTypesAgreeOffNull` | lib_qbitcoin_trx.py:23-42 | the two helpers agree on every non-null value; on null `_check_type` raises TypeError and `_check_nullable_type` returns null |
| `Rpc.CheckTypeNumericQuirks` | lib_qbitcoin_trx.py:23-33 | a JSON boolean passes the int check unchanged; a JSON integer fails the float check |
| `Rpc.Envelope` | lib_qbitcoin_trx.py:69-74 | the request is an object of exactly four members, with jsonrpc "2.0", id 1, and method and params passed through |
| `Rpc.EnvelopeInjective` | lib_qbitcoin_trx.py:69-74 | distinct calls produce distinct envelopes, so the node sees the method and params unchanged |
| `Rpc.ErrorMessage` | lib_qbitcoin_trx.py:99-100 | the message is replaced exactly when it is empty and the result is a non-empty string, and then by that string |
| `Rpc.DecodeResponse` | lib_qbitcoin_trx.py:89-107 | with a null or absent error, the result is returned (null if absent); a non-object body raises AttributeError; a non-object error raises TypeError; an error object raises RpcError exactly when its code is an int and its message a string, with that code, the substituted message and `data` (or null); an error without code raises KeyError("code"), a code that is not an int raises TypeError, an int code without message raises KeyError("message"), and a message that is not a string raises TypeError |
| `Rpc.RpcOf` | lib_qbitcoin_trx.py:63-107 | for every call, rpc succeeds exactly when the node's reply to the envelope is an object with a null or absent error, and then returns its result; it raises RpcError exactly when the reply's error is well formed; a reply that is not an object raises AttributeError |
| `Rpc.RpcOfResult` | lib_qbitcoin_trx.py:91-107 | a reply carrying only a result makes rpc return that result |
| `Operations.Ping` | lib_qbitcoin_trx.py:109-113 | ping succeeds exactly when the ping call raises nothing, and otherwise raises what the call raised |
| `Operations.GetTrxConf` | lib_qbitcoin_trx.py:115-124 | succeeds exactly when the result is an object whose confirmations member is an int (or a boolean), and returns that member; an rpc failure propagates; a result that is not an object raises TypeError, one without confirmations raises KeyError("confirmations"), and a confirmations member that is not an int raises TypeError |
| `Operations.GetTrxConfExample` | lib_qbitcoin_trx.py:115-124 | a node replying `{"result": {"confirmations": 6}}` makes get_trx_conf return 6 |
| `Operations.NewAddressPair` | lib_qbitcoin_trx.py:126-135 | succeeds exactly when the result is an object with string address and private_key members, and returns those two strings; an rpc failure propagates; a result that is not an object raises TypeError; a missing address or private_key raises KeyError with that key, checked in that order; a member that is not a string raises TypeError |
| `Operations.ListUnspentOnWire` | lib_qbitcoin_trx.py:143 | the node receives method listunspent with params [address, conf], in that order; send_balance sends the same request at line 173 |
| `Operations.Unspent` | lib_qbitcoin_trx.py:143-147 | the listunspent result is accepted exactly when it is a list, whose items are returned; a non-list raises TypeError |
| `Operations.ItemAmount` | lib_qbitcoin_trx.py:147-153 | an unspent output passes exactly when it is an object whose address is the queried string and whose amount is a float, and its amount is returned; a string address that differs raises AssertionError; a non-object output raises TypeError; a missing address raises KeyError("address") and a non-string one TypeError; at the queried address, a missing amount raises KeyError("amount") and a non-float one TypeError |
| `Operations.UnspentItemAmount` | lib_qbitcoin_trx.py:148-153 | a well-formed output yields its amount when its address is the queried one, and AssertionError otherwise |
| `Operations.BalanceOfFirstFailure` | lib_qbitcoin_trx.py:147-153 | get_balance raises the failure of the first output that fails its checks |
| `Operations.BalanceOfOkIff` | lib_qbitcoin_trx.py:147-155 | the balance is computed exactly when every output passes its checks |
| `Operations.BalanceOfIsSum` | lib_qbitcoin_trx.py:145-155 | when the outputs carry given amounts, the balance is their sum starting from 0.0 |
| `Operations.GetBalance` | lib_qbitcoin_trx.py:137-155 | the loop returns the outcome of the listunspent query and scan: the sum of the amounts, or the first failure |
| `Operations.GetBalanceExample` | lib_qbitcoin_trx.py:137-155 | outputs of 1.5 and 0.5 at the queried address "A" give 2.0 |
| `Operations.GetBalanceMismatchExample` | lib_qbitcoin_trx.py:150-151 | an output at "B", when "A" is queried, raises AssertionError |
| `Transfer.ItemInput` | lib_qbitcoin_trx.py:175-185 | an output passes the get_balance checks and also has a string txid and an int vout, exactly when it contributes its amount and the input {txid, vout}; a get_balance check failure propagates unchanged; after those checks, a missing txid raises KeyError("txid"), a non-string txid TypeError, a missing vout KeyError("vout") and a non-int vout TypeError |
| `Transfer.ScanItems` | lib_qbitcoin_trx.py:175-185 | the inner loop adds each amount to the running balance and appends each input, or stops at the first failing output |
| `Transfer.GatherInputs` | lib_qbitcoin_trx.py:172-185 | the outer loop makes one listunspent call per source address, in order, and scans each list; it stops at the first failure |
| `Transfer.GatherSourcesSent` | lib_qbitcoin_trx.py:172-173 | the listunspent calls made are a prefix of one call per source address in order; all of them on success, at least one on failure |
| `Transfer.ScanInputsAgrees` | lib_qbitcoin_trx.py:175-185 | scanning an address adds the balance get_balance would report for it, and appends one input per output in list order |
| `Transfer.GatherSourcesAgrees` | lib_qbitcoin_trx.py:166-185 | the gathered balance is the sum of get_balance over the source addresses; the inputs are those of every output, address by address, then item by item |
| `Transfer.ChangeAddressOf` | lib_qbitcoin_trx.py:169-170 | the change address is the given one, or else the first source address; with neither, StopIteration is raised |
| `Transfer.KeysOf` | lib_qbitcoin_trx.py:200 | the keys are the mapping's values, in its order |
| `Transfer.Outputs` | lib_qbitcoin_trx.py:188-195 | one single-key entry per destination, in order, and the change entry as the last of them |
| `Transfer.BuildOutputs` | lib_qbitcoin_trx.py:187-195 | the loop gives change = balance - sum of destination amounts - fee, with no sign check, and exactly those outputs |
| `Transfer.StringResult` | lib_qbitcoin_trx.py:197-199 | the call succeeds exactly when its result is a string, which is returned; an rpc failure propagates; a result that is not a string raises TypeError |
| `Transfer.SignedHex` | lib_qbitcoin_trx.py:202-204 | signing succeeds exactly when the result is an object with a string hex member, which is returned; an rpc failure propagates; a result that is not an object raises TypeError, one without hex KeyError("hex"), and a hex that is not a string TypeError |
| `Transfer.CreateOnWire` | lib_qbitcoin_trx.py:197 | the node receives method createrawtransaction with params [inputs, outputs], in that order |
| `Transfer.SignOnWire` | lib_qbitcoin_trx.py:202 | the node receives method signrawtransactionwithkey with params [trx, keys], in that order |
| `Transfer.SendOnWire` | lib_qbitcoin_trx.py:206 | the node receives method sendrawtransaction with params [signed_trx] |
| `Transfer.SendBalance` | lib_qbitcoin_trx.py:157-210 | the method's result and calls are those of the sequence SendBalanceRun: change address, gathering, outputs, then create, sign and send |
| `Transfer.SendBalanceCallOrder` | lib_qbitcoin_trx.py:172-206 | the method names called are a prefix of one listunspent per source address, then createrawtransaction, signrawtransactionwithkey and sendrawtransaction; the whole order on success; the i-th listunspent queries the i-th source address with conf |
| `Transfer.SendBalanceNoSource` | lib_qbitcoin_trx.py:169-170 | with no change address and no source address, StopIteration is raised before any call |
| `Transfer.SendBalanceCalls` | lib_qbitcoin_trx.py:187-210 | once createrawtransaction is reached, it gets the gathered inputs and the outputs with change = balance - amounts - fee; signing gets the created transaction and the keys; sending gets the signed hex; on success exactly these calls are made and the send result is returned |
| `Transfer.EmptyWalletThroughRpc` | lib_qbitcoin_trx.py:91-105 | against a node that answers listunspent with an empty result and every other request with error -8 "Invalid amount", rpc gives an empty list for listunspent and RpcError(-8, "Invalid amount", null) for the rest |
| `Transfer.SendBalanceNegativeChangeExample` | lib_qbitcoin_trx.py:187-197 | a change of -1.5 reaches createrawtransaction unchecked, at the first source address |

## Left out

- HTTP transport is not modelled: `make_opener`, the `Request`, `opener.open`, the timeout, the `read_size` cap and the reading of an `HTTPError` body (lib_qbitcoin_trx.py:53-54, 75-87). The node is a total function from the request envelope to the parsed reply. A non-2xx reply with a JSON body is simply that reply. Connection failures and timeouts are not represented.
- Byte-level `json.dumps`/`json.loads` (lib_qbitcoin_trx.py:80, 89) is not modelled. A body that is not valid JSON, and the exception `json.loads` would raise for it, are not represented.
- `Conn`, `DEFAULT_TIMEOUT` and `DEFAULT_READ_SIZE` (lib_qbitcoin_trx.py:44-45, 56-61) are configuration only.
- Float rounding is not captured. Amounts, the balance and the change are exact reals, so `balance +=` and `change -=` do not round as IEEE-754 doubles would. `json.loads` also accepts `NaN`, `Infinity` and `-Infinity`, which pass the float check on `amount` (lib_qbitcoin_trx.py:153, 181); a `real` cannot hold them, so such amounts are not represented.
- What the node does when it creates, signs or broadcasts a transaction is not modelled. The node is an opaque function.
- `RpcError` is a constructor of the exception datatype, not an exception class. The Python type annotations and generics are not modelled.
- `from_address_pairs` and `to_addresses` are sequences of pairs in the dict's order. The model does not forbid repeated keys, which a Python dict cannot hold. No contract depends on keys being distinct.
- `sent` (the list of calls a run makes) is not a Python return value. It records the order of the round trips.

## Findings

None. Two behaviours are kept as written, and each has a lemma. A negative change is passed to the node (`Transfer.SendBalanceNegativeChangeExample`). An empty `from_address_pairs` without a change address raises `StopIteration` (`Transfer.SendBalanceNoSource`). The negative-change example runs against `EmptyWallet`, which `Transfer.EmptyWalletThroughRpc` shows is rpc against a concrete node.
