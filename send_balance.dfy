/** send_balance: gather the unspent outputs of every source address, build
    the transaction's inputs, outputs and keys, and have the node create,
    sign and broadcast it. Each run also reports the calls it made, in order,
    so that the order of the node round trips can be stated. */
module Transfer {
  import opened Values
  import opened Rpc
  import opened Operations

  /** The outcome of a sequence of node calls, with the calls made. */
  datatype Run<+T> = Run(result: Result<T>, sent: seq<Call>)

  /** The running totals of the gathering loops: the balance and the
      transaction inputs collected so far. */
  datatype Gathered = Gathered(balance: real, inputs: seq<Json>)

  /** A member of an unspent output, or null when it has none. */
  function Member(item: Json, key: string): Json
  {
    if item.JObj? then Get(item.fields, key) else JNull
  }

  /** The transaction input an unspent output contributes: its txid and vout. */
  function InputEntry(item: Json): Json
  {
    JObj([("txid", Member(item, "txid")), ("vout", Member(item, "vout"))])
  }

  function InputEntries(items: seq<Json>): seq<Json>
  {
    seq(|items|, k requires 0 <= k < |items| => InputEntry(items[k]))
  }

  /** The checks send_balance makes on one unspent output: those of
      get_balance, then a string txid and an int vout. */
  function ItemInput(address: string, item: Json): (r: Result<(real, Json)>)
    ensures ItemAmount(address, item).Err? ==> r == Err(ItemAmount(address, item).exc)
    ensures r.Ok? <==>
      && ItemAmount(address, item).Ok?
      && Lookup(item.fields, "txid").Some?
      && Lookup(item.fields, "txid").value.JStr?
      && Lookup(item.fields, "vout").Some?
      && IsInstance(Int, Lookup(item.fields, "vout").value)
    ensures r.Ok? ==> ItemAmount(address, item) == Ok(r.value.0) && r.value.1 == InputEntry(item)
    ensures ItemAmount(address, item).Ok? ==>
      var txid := Lookup(item.fields, "txid");
      var vout := Lookup(item.fields, "vout");
      && (txid.None? ==> r == Err(KeyError("txid")))
      && (txid.Some? && !txid.value.JStr? ==> r == Err(TypeError))
      && (txid.Some? && txid.value.JStr? && vout.None? ==> r == Err(KeyError("vout")))
      && (txid.Some? && txid.value.JStr? && vout.Some? && !IsInstance(Int, vout.value)
          ==> r == Err(TypeError))
  {
    var amount :- ItemAmount(address, item);
    var txid :- Subscript(item, "txid");
    var txid' :- CheckType(Of(Str), txid);
    var vout :- Subscript(item, "vout");
    var vout' :- CheckType(Of(Int), vout);
    Ok((amount, JObj([("txid", txid'), ("vout", vout')])))
  }

  /** The inner loop: starting from the totals `start`, scan the outputs of
      one source address in list order. */
  function ScanInputs(start: Gathered, address: string, items: seq<Json>): Result<Gathered>
    decreases |items|
  {
    if items == [] then Ok(start)
    else
      var before :- ScanInputs(start, address, items[..|items| - 1]);
      var input :- ItemInput(address, items[|items| - 1]);
      Ok(Gathered(before.balance + input.0, before.inputs + [input.1]))
  }

  /** The outer loop: one listunspent call per source address, in order,
      each followed by the scan of its outputs. */
  function GatherSources(rpc: RpcCall, conf: int, addresses: seq<string>): Run<Gathered>
    decreases |addresses|
  {
    if addresses == [] then Run(Ok(Gathered(0.0, [])), [])
    else
      var n := |addresses| - 1;
      var before := GatherSources(rpc, conf, addresses[..n]);
      if before.result.Err? then before
      else
        var sent := before.sent + [ListUnspentCall(addresses[n], conf)];
        match Unspent(rpc, addresses[n], conf)
        case Err(e) => Run(Err(e), sent)
        case Ok(items) => Run(ScanInputs(before.result.value, addresses[n], items), sent)
  }

  lemma {:induction false} ScanInputsStops(start: Gathered, address: string, items: seq<Json>, k: nat)
    requires k <= |items|
    requires ScanInputs(start, address, items[..k]).Err?
    ensures ScanInputs(start, address, items) == ScanInputs(start, address, items[..k])
    decreases |items| - k
  {
    if k < |items| {
      assert items[..k + 1][..k] == items[..k];
      ScanInputsStops(start, address, items, k + 1);
    } else {
      assert items[..k] == items;
    }
  }

  lemma {:induction false} GatherSourcesStops(rpc: RpcCall, conf: int, addresses: seq<string>, k: nat)
    requires k <= |addresses|
    requires GatherSources(rpc, conf, addresses[..k]).result.Err?
    ensures GatherSources(rpc, conf, addresses) == GatherSources(rpc, conf, addresses[..k])
    decreases |addresses| - k
  {
    if k < |addresses| {
      assert addresses[..k + 1][..k] == addresses[..k];
      GatherSourcesStops(rpc, conf, addresses, k + 1);
    } else {
      assert addresses[..k] == addresses;
    }
  }

  /** send_balance's inner loop over the unspent outputs of one source
      address, adding each amount to the balance and appending each input. */
  method ScanItems(start: Gathered, address: string, items: seq<Json>) returns (r: Result<Gathered>)
    ensures r == ScanInputs(start, address, items)
  {
    var balance := start.balance;
    var inputs := start.inputs;
    var i := 0;
    while i < |items|
      invariant 0 <= i <= |items|
      invariant ScanInputs(start, address, items[..i]) == Ok(Gathered(balance, inputs))
    {
      assert items[..i + 1][..i] == items[..i];
      var input := ItemInput(address, items[i]);
      if input.Err? {
        ScanInputsStops(start, address, items, i + 1);
        return Err(input.exc);
      }
      balance := balance + input.value.0;
      inputs := inputs + [input.value.1];
      i := i + 1;
    }
    assert items[..i] == items;
    r := Ok(Gathered(balance, inputs));
  }

  /** send_balance's outer loop: one listunspent call per source address,
      then the scan of its outputs. */
  method GatherInputs(rpc: RpcCall, conf: int, addresses: seq<string>)
    returns (r: Result<Gathered>, sent: seq<Call>)
    ensures Run(r, sent) == GatherSources(rpc, conf, addresses)
  {
    var gathered := Gathered(0.0, []);
    sent := [];
    var j := 0;
    while j < |addresses|
      invariant 0 <= j <= |addresses|
      invariant GatherSources(rpc, conf, addresses[..j]) == Run(Ok(gathered), sent)
    {
      var address := addresses[j];
      assert addresses[..j + 1][..j] == addresses[..j];
      sent := sent + [ListUnspentCall(address, conf)];
      var listed := Unspent(rpc, address, conf);
      if listed.Err? {
        GatherSourcesStops(rpc, conf, addresses, j + 1);
        return Err(listed.exc), sent;
      }
      var scanned := ScanItems(gathered, address, listed.value);
      if scanned.Err? {
        GatherSourcesStops(rpc, conf, addresses, j + 1);
        return Err(scanned.exc), sent;
      }
      gathered := scanned.value;
      j := j + 1;
    }
    assert addresses[..j] == addresses;
    r := Ok(gathered);
  }

  /** The listunspent calls for the given addresses, in order. */
  function ListUnspentCalls(addresses: seq<string>, conf: int): seq<Call>
  {
    seq(|addresses|, i requires 0 <= i < |addresses| => ListUnspentCall(addresses[i], conf))
  }

  /** Gathering makes the listunspent calls in address order and stops at the
      first failure: the calls made are a prefix of all of them, all of them
      when gathering succeeds, and at least one when it fails. */
  lemma {:induction false} GatherSourcesSent(rpc: RpcCall, conf: int, addresses: seq<string>)
    ensures GatherSources(rpc, conf, addresses).sent <= ListUnspentCalls(addresses, conf)
    ensures GatherSources(rpc, conf, addresses).result.Ok? ==>
      GatherSources(rpc, conf, addresses).sent == ListUnspentCalls(addresses, conf)
    ensures GatherSources(rpc, conf, addresses).result.Err? ==>
      |GatherSources(rpc, conf, addresses).sent| > 0
    decreases |addresses|
  {
    if addresses != [] {
      var n := |addresses| - 1;
      GatherSourcesSent(rpc, conf, addresses[..n]);
      var all := ListUnspentCalls(addresses, conf);
      assert ListUnspentCalls(addresses[..n], conf) == all[..n];
      assert all == all[..n] + [ListUnspentCall(addresses[n], conf)];
    }
  }

  /** The balance of an address as get_balance computes it, summed over the
      source addresses in order. */
  function SourcesBalance(rpc: RpcCall, conf: int, addresses: seq<string>): Result<real>
    decreases |addresses|
  {
    if addresses == [] then Ok(0.0)
    else
      var before :- SourcesBalance(rpc, conf, addresses[..|addresses| - 1]);
      var balance :- GetBalanceOutcome(rpc, addresses[|addresses| - 1], conf);
      Ok(before + balance)
  }

  /** The inputs of every listed output: address by address, and within an
      address in list order. */
  function SourcesInputs(rpc: RpcCall, conf: int, addresses: seq<string>): Result<seq<Json>>
    decreases |addresses|
  {
    if addresses == [] then Ok([])
    else
      var before :- SourcesInputs(rpc, conf, addresses[..|addresses| - 1]);
      var items :- Unspent(rpc, addresses[|addresses| - 1], conf);
      Ok(before + InputEntries(items))
  }

  /** Scanning one address adds get_balance's balance for it to the running
      balance and appends one input per output, in list order. */
  lemma {:induction false} ScanInputsAgrees(start: Gathered, address: string, items: seq<Json>)
    requires ScanInputs(start, address, items).Ok?
    ensures BalanceOf(address, items) == Ok(ScanInputs(start, address, items).value.balance - start.balance)
    ensures ScanInputs(start, address, items).value.inputs == start.inputs + InputEntries(items)
    decreases |items|
  {
    if items != [] {
      var n := |items| - 1;
      ScanInputsAgrees(start, address, items[..n]);
      assert InputEntries(items) == InputEntries(items[..n]) + [InputEntry(items[n])];
    }
  }

  /** What send_balance gathers is what get_balance reports for each source
      address, summed, and the inputs of all their outputs in order. */
  lemma {:induction false} GatherSourcesAgrees(rpc: RpcCall, conf: int, addresses: seq<string>)
    requires GatherSources(rpc, conf, addresses).result.Ok?
    ensures SourcesBalance(rpc, conf, addresses) ==
      Ok(GatherSources(rpc, conf, addresses).result.value.balance)
    ensures SourcesInputs(rpc, conf, addresses) ==
      Ok(GatherSources(rpc, conf, addresses).result.value.inputs)
    decreases |addresses|
  {
    if addresses != [] {
      var n := |addresses| - 1;
      GatherSourcesAgrees(rpc, conf, addresses[..n]);
      var before := GatherSources(rpc, conf, addresses[..n]).result.value;
      var items := Unspent(rpc, addresses[n], conf).value;
      ScanInputsAgrees(before, addresses[n], items);
    }
  }

  /** The change address: the given one, or else the first source address;
      with no source address next() raises StopIteration. */
  function ChangeAddressOf(from: seq<(string, string)>, changeAddress: Option<string>): (r: Result<string>)
    ensures changeAddress.Some? ==> r == Ok(changeAddress.value)
    ensures changeAddress.None? && from != [] ==> r == Ok(from[0].0)
    ensures changeAddress.None? && from == [] ==> r == Err(StopIteration)
  {
    match changeAddress
    case Some(a) => Ok(a)
    case None => if from == [] then Err(StopIteration) else Ok(from[0].0)
  }

  /** The source addresses, in the mapping's order. */
  function Addresses(from: seq<(string, string)>): seq<string>
  {
    seq(|from|, i requires 0 <= i < |from| => from[i].0)
  }

  /** The private keys handed to signrawtransactionwithkey: the mapping's
      values, in its order. */
  function KeysOf(from: seq<(string, string)>): (r: Json)
    ensures r.JArr? && |r.items| == |from|
    ensures forall i :: 0 <= i < |from| ==> r.items[i] == JStr(from[i].1)
  {
    JArr(seq(|from|, i requires 0 <= i < |from| => JStr(from[i].1)))
  }

  /** A single-key object {key: value}. */
  function SingleEntry(key: string, value: Json): Json
  {
    JObj([(key, value)])
  }

  /** The destination amounts added up in the mapping's order. */
  function TotalAmount(to: seq<(string, real)>): real
    decreases |to|
  {
    if to == [] then 0.0 else TotalAmount(to[..|to| - 1]) + to[|to| - 1].1
  }

  /** The transaction outputs: one entry per destination, in order, and the
      change entry last. */
  function Outputs(to: seq<(string, real)>, changeAddress: string, change: real): (r: seq<Json>)
    ensures |r| == |to| + 1
    ensures forall i :: 0 <= i < |to| ==> r[i] == SingleEntry(to[i].0, JFloat(to[i].1))
    ensures r[|to|] == SingleEntry(changeAddress, JFloat(change))
  {
    seq(|to|, i requires 0 <= i < |to| => SingleEntry(to[i].0, JFloat(to[i].1)))
      + [SingleEntry(changeAddress, JFloat(change))]
  }

  /** send_balance's loop over the destinations, then the fee and the change
      entry. The change is not checked to be non-negative. */
  method BuildOutputs(to: seq<(string, real)>, balance: real, fee: real, changeAddress: string)
    returns (outputs: seq<Json>, change: real)
    ensures change == balance - TotalAmount(to) - fee
    ensures outputs == Outputs(to, changeAddress, change)
  {
    change := balance;
    outputs := [];
    var i := 0;
    while i < |to|
      invariant 0 <= i <= |to|
      invariant change == balance - TotalAmount(to[..i])
      invariant |outputs| == i
      invariant forall k :: 0 <= k < i ==> outputs[k] == SingleEntry(to[k].0, JFloat(to[k].1))
    {
      assert to[..i + 1][..i] == to[..i];
      outputs := outputs + [SingleEntry(to[i].0, JFloat(to[i].1))];
      change := change - to[i].1;
      i := i + 1;
    }
    assert to[..i] == to;
    change := change - fee;
    outputs := outputs + [SingleEntry(changeAddress, JFloat(change))];
  }

  /** The createrawtransaction request: the inputs list, then the outputs list. */
  function CreateCall(inputs: seq<Json>, outputs: seq<Json>): Call
  {
    Call("createrawtransaction", JArr([JArr(inputs), JArr(outputs)]))
  }

  lemma CreateOnWire(inputs: seq<Json>, outputs: seq<Json>)
    ensures var req := Envelope(CreateCall(inputs, outputs));
      && Get(req.fields, "method") == JStr("createrawtransaction")
      && Get(req.fields, "params") == JArr([JArr(inputs), JArr(outputs)])
  {
  }

  /** The signrawtransactionwithkey request: the created transaction, then the keys. */
  function SignCall(trx: string, keys: Json): Call
  {
    Call("signrawtransactionwithkey", JArr([JStr(trx), keys]))
  }

  lemma SignOnWire(trx: string, keys: Json)
    ensures var req := Envelope(SignCall(trx, keys));
      && Get(req.fields, "method") == JStr("signrawtransactionwithkey")
      && Get(req.fields, "params") == JArr([JStr(trx), keys])
  {
  }

  /** The sendrawtransaction request: the signed transaction alone. */
  function SendCall(signedTrx: string): Call
  {
    Call("sendrawtransaction", JArr([JStr(signedTrx)]))
  }

  lemma SendOnWire(signedTrx: string)
    ensures var req := Envelope(SendCall(signedTrx));
      && Get(req.fields, "method") == JStr("sendrawtransaction")
      && Get(req.fields, "params") == JArr([JStr(signedTrx)])
  {
  }

  /** A call whose result must be a string. */
  function StringResult(rpc: RpcCall, c: Call): (r: Result<string>)
    ensures r.Ok? <==> rpc(c).Ok? && rpc(c).value.JStr?
    ensures r.Ok? ==> rpc(c) == Ok(JStr(r.value))
    ensures rpc(c).Err? ==> r == Err(rpc(c).exc)
    ensures rpc(c).Ok? && !rpc(c).value.JStr? ==> r == Err(TypeError)
  {
    var result :- rpc(c);
    var s :- CheckType(Of(Str), result);
    Ok(s.s)
  }

  /** The signing call, whose result's hex member must be a string. */
  function SignedHex(rpc: RpcCall, c: Call): (r: Result<string>)
    ensures r.Ok? <==>
      && rpc(c).Ok?
      && rpc(c).value.JObj?
      && Lookup(rpc(c).value.fields, "hex").Some?
      && Lookup(rpc(c).value.fields, "hex").value.JStr?
    ensures r.Ok? ==> Lookup(rpc(c).value.fields, "hex") == Some(JStr(r.value))
    ensures rpc(c).Err? ==> r == Err(rpc(c).exc)
    ensures rpc(c).Ok? && !rpc(c).value.JObj? ==> r == Err(TypeError)
    ensures rpc(c).Ok? && rpc(c).value.JObj? ==>
      var hex := Lookup(rpc(c).value.fields, "hex");
      && (hex.None? ==> r == Err(KeyError("hex")))
      && (hex.Some? && !hex.value.JStr? ==> r == Err(TypeError))
  {
    var result :- rpc(c);
    var hex :- Subscript(result, "hex");
    var hex' :- CheckType(Of(Str), hex);
    Ok(hex'.s)
  }

  /** The whole of send_balance as a sequence of node calls. */
  function SendBalanceRun(rpc: RpcCall, from: seq<(string, string)>, to: seq<(string, real)>,
                          changeAddress: Option<string>, fee: real, conf: int): Run<string>
  {
    match ChangeAddressOf(from, changeAddress)
    case Err(e) => Run(Err(e), [])
    case Ok(changeAddr) =>
      var gathered := GatherSources(rpc, conf, Addresses(from));
      match gathered.result
      case Err(e) => Run(Err(e), gathered.sent)
      case Ok(g) =>
        var create := CreateCall(g.inputs, Outputs(to, changeAddr, g.balance - TotalAmount(to) - fee));
        var sent := gathered.sent + [create];
        match StringResult(rpc, create)
        case Err(e) => Run(Err(e), sent)
        case Ok(trx) =>
          var sign := SignCall(trx, KeysOf(from));
          match SignedHex(rpc, sign)
          case Err(e) => Run(Err(e), sent + [sign])
          case Ok(signedTrx) =>
            var send := SendCall(signedTrx);
            match StringResult(rpc, send)
            case Err(e) => Run(Err(e), sent + [sign, send])
            case Ok(trxId) => Run(Ok(trxId), sent + [sign, send])
  }

  /** send_balance: returns the transaction id, and the calls it made. */
  method SendBalance(rpc: RpcCall, from: seq<(string, string)>, to: seq<(string, real)>,
                     changeAddress: Option<string>, fee: real, conf: int)
    returns (r: Result<string>, sent: seq<Call>)
    ensures Run(r, sent) == SendBalanceRun(rpc, from, to, changeAddress, fee, conf)
  {
    var changeAddr := ChangeAddressOf(from, changeAddress);
    if changeAddr.Err? {
      return Err(changeAddr.exc), [];
    }
    var gathered: Result<Gathered>;
    gathered, sent := GatherInputs(rpc, conf, Addresses(from));
    if gathered.Err? {
      return Err(gathered.exc), sent;
    }
    var outputs, change := BuildOutputs(to, gathered.value.balance, fee, changeAddr.value);
    var create := CreateCall(gathered.value.inputs, outputs);
    sent := sent + [create];
    var trx := StringResult(rpc, create);
    if trx.Err? {
      return Err(trx.exc), sent;
    }
    var keys := KeysOf(from);
    var sign := SignCall(trx.value, keys);
    sent := sent + [sign];
    var signedTrx := SignedHex(rpc, sign);
    if signedTrx.Err? {
      return Err(signedTrx.exc), sent;
    }
    var send := SendCall(signedTrx.value);
    sent := sent + [send];
    var trxId := StringResult(rpc, send);
    if trxId.Err? {
      return Err(trxId.exc), sent;
    }
    r := Ok(trxId.value);
  }

  /** The method names of the calls made. */
  function Names(sent: seq<Call>): seq<string>
  {
    seq(|sent|, i requires 0 <= i < |sent| => sent[i].name)
  }

  /** The calls send_balance is meant to make for n source addresses. */
  function Plan(n: nat): seq<string>
  {
    seq(n, _ => "listunspent")
      + ["createrawtransaction", "signrawtransactionwithkey", "sendrawtransaction"]
  }

  /** send_balance calls the node in a fixed order, one listunspent per
      source address in mapping order, then createrawtransaction,
      signrawtransactionwithkey and sendrawtransaction; a failure ends the
      sequence, so the calls made are a prefix of that order, all of it on
      success. */
  lemma SendBalanceCallOrder(rpc: RpcCall, from: seq<(string, string)>, to: seq<(string, real)>,
                             changeAddress: Option<string>, fee: real, conf: int)
    ensures var run := SendBalanceRun(rpc, from, to, changeAddress, fee, conf);
      && Names(run.sent) <= Plan(|from|)
      && (run.result.Ok? ==> Names(run.sent) == Plan(|from|))
      && forall i :: 0 <= i < |run.sent| && i < |from| ==>
           run.sent[i] == ListUnspentCall(from[i].0, conf)
  {
    var run := SendBalanceRun(rpc, from, to, changeAddress, fee, conf);
    var addresses := Addresses(from);
    GatherSourcesSent(rpc, conf, addresses);
    var gathered := GatherSources(rpc, conf, addresses);
    var calls := ListUnspentCalls(addresses, conf);
    var plan := Plan(|from|);
    assert Names(calls) == plan[..|from|];
    if ChangeAddressOf(from, changeAddress).Ok? {
      assert run.sent[..|gathered.sent|] == gathered.sent;
      assert Names(gathered.sent) == Names(calls)[..|gathered.sent|];
      if gathered.result.Ok? {
        assert |gathered.sent| == |from|;
        assert Names(run.sent) == plan[..|run.sent|];
      }
    }
  }

  /** With no change address and no source address, send_balance raises
      StopIteration before calling the node. */
  lemma SendBalanceNoSource(rpc: RpcCall, to: seq<(string, real)>, fee: real, conf: int)
    ensures SendBalanceRun(rpc, [], to, None, fee, conf) == Run(Err(StopIteration), [])
  {
  }

  /** What send_balance hands the node once gathering has succeeded: the
      gathered inputs and the outputs with change = balance - destination
      amounts - fee (of any sign) to createrawtransaction; the created
      transaction and the source keys to signrawtransactionwithkey; the
      signed hex to sendrawtransaction, whose string result is returned. */
  lemma SendBalanceCalls(rpc: RpcCall, from: seq<(string, string)>, to: seq<(string, real)>,
                         changeAddress: Option<string>, fee: real, conf: int)
    requires |SendBalanceRun(rpc, from, to, changeAddress, fee, conf).sent| > |from|
    ensures ChangeAddressOf(from, changeAddress).Ok?
    ensures GatherSources(rpc, conf, Addresses(from)).result.Ok?
    ensures var run := SendBalanceRun(rpc, from, to, changeAddress, fee, conf);
      var g := GatherSources(rpc, conf, Addresses(from)).result.value;
      var change := g.balance - TotalAmount(to) - fee;
      var create := CreateCall(g.inputs, Outputs(to, ChangeAddressOf(from, changeAddress).value, change));
      && run.sent[|from|] == create
      && (|run.sent| > |from| + 1 ==>
            StringResult(rpc, create).Ok? &&
            run.sent[|from| + 1] == SignCall(StringResult(rpc, create).value, KeysOf(from)))
      && (|run.sent| > |from| + 2 ==>
            SignedHex(rpc, run.sent[|from| + 1]).Ok? &&
            run.sent[|from| + 2] == SendCall(SignedHex(rpc, run.sent[|from| + 1]).value))
      && (run.result.Ok? ==>
            |run.sent| == |from| + 3 && StringResult(rpc, run.sent[|from| + 2]) == run.result)
  {
    GatherSourcesSent(rpc, conf, Addresses(from));
  }

  /** A node with no unspent outputs that rejects every transaction. */
  function EmptyWallet(): RpcCall
  {
    (c: Call) => if c.name == "listunspent" then Ok(JArr([]))
         else Err(RpcError(JInt(-8), "Invalid amount", JNull))
  }

  /** The node behind EmptyWallet: listunspent replies with an empty result,
      every other request with error -8. */
  function EmptyWalletNode(): Node
  {
    (req: Json) =>
      if req.JObj? && Get(req.fields, "method") == JStr("listunspent") then
        JObj([("result", JArr([]))])
      else
        JObj([("error", JObj([("code", JInt(-8)), ("message", JStr("Invalid amount"))]))])
  }

  /** EmptyWallet is what rpc does against EmptyWalletNode. */
  lemma EmptyWalletThroughRpc(c: Call)
    ensures RpcOf(EmptyWalletNode())(c) == EmptyWallet()(c)
  {
    var reply := EmptyWalletNode()(Envelope(c));
    if c.name == "listunspent" {
      RpcOfResult(EmptyWalletNode(), c, JArr([]));
    } else {
      var error := JObj([("code", JInt(-8)), ("message", JStr("Invalid amount"))]);
      assert reply == JObj([("error", error)]);
      LookupDistinct(reply.fields, 0);
      LookupLast(reply.fields, "result");
      LookupDistinct(error.fields, 0);
      LookupDistinct(error.fields, 1);
      LookupLast(error.fields, "data");
    }
  }

  /** Sending 1.0 with a fee of 0.5 from an address holding nothing: the
      change entry of -1.5 goes to createrawtransaction unchecked, to the
      first source address, and the node's rejection ends the run. */
  lemma SendBalanceNegativeChangeExample(conf: int)
    ensures SendBalanceRun(EmptyWallet(), [("A", "kA")], [("B", 1.0)], None, 0.5, conf) ==
      Run(Err(RpcError(JInt(-8), "Invalid amount", JNull)),
          [ListUnspentCall("A", conf),
           CreateCall([], [SingleEntry("B", JFloat(1.0)), SingleEntry("A", JFloat(-1.5))])])
  {
    var from := [("A", "kA")];
    assert Addresses(from) == ["A"];
    assert Addresses(from)[..0] == [];
    assert GatherSources(EmptyWallet(), conf, ["A"]) ==
      Run(Ok(Gathered(0.0, [])), [ListUnspentCall("A", conf)]);
    assert [("B", 1.0)][..0] == [];
    assert TotalAmount([("B", 1.0)]) == 1.0;
    assert Outputs([("B", 1.0)], "A", 0.0 - 1.0 - 0.5) ==
      [SingleEntry("B", JFloat(1.0)), SingleEntry("A", JFloat(-1.5))];
  }
}
