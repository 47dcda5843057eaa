/** The single-call operations of lib_qbitcoin_trx: ping, get_trx_conf,
    new_address_pair and get_balance, each one rpc call followed by the
    checks the library makes on the result. */
module Operations {
  import opened Values
  import opened Rpc

  /** The sum of a sequence of amounts, first element first. */
  function Sum(xs: seq<real>): real
  {
    if xs == [] then 0.0 else xs[0] + Sum(xs[1..])
  }

  lemma {:induction false} SumSnoc(xs: seq<real>, x: real)
    ensures Sum(xs + [x]) == Sum(xs) + x
  {
    if xs != [] {
      assert (xs + [x])[1..] == xs[1..] + [x];
      SumSnoc(xs[1..], x);
    }
  }

  /** ping: succeeds exactly when the ping call raises nothing; its result
      is discarded. */
  function Ping(rpc: RpcCall): (r: Result<()>)
    ensures r.Ok? <==> rpc(Call("ping", JArr([]))).Ok?
    ensures r.Err? ==> r.exc == rpc(Call("ping", JArr([]))).exc
  {
    var result :- rpc(Call("ping", JArr([])));
    Ok(())
  }

  /** get_trx_conf: the confirmations member of the getrawtransaction
      result, which must be an int (a JSON boolean passes as well). */
  function GetTrxConf(rpc: RpcCall, trxId: string): (r: Result<Json>)
    ensures var reply := rpc(Call("getrawtransaction", JArr([JStr(trxId)])));
      && (r.Ok? <==>
            && reply.Ok?
            && reply.value.JObj?
            && Lookup(reply.value.fields, "confirmations").Some?
            && IsInstance(Int, Lookup(reply.value.fields, "confirmations").value))
      && (r.Ok? ==> Lookup(reply.value.fields, "confirmations") == Some(r.value))
      && (reply.Err? ==> r == reply)
      && (reply.Ok? && !reply.value.JObj? ==> r == Err(TypeError))
    ensures var reply := rpc(Call("getrawtransaction", JArr([JStr(trxId)])));
      reply.Ok? && reply.value.JObj? ==>
        var conf := Lookup(reply.value.fields, "confirmations");
        && (conf.None? ==> r == Err(KeyError("confirmations")))
        && (conf.Some? && !IsInstance(Int, conf.value) ==> r == Err(TypeError))
  {
    var result :- rpc(Call("getrawtransaction", JArr([JStr(trxId)])));
    var conf :- Subscript(result, "confirmations");
    CheckType(Of(Int), conf)
  }

  /** A node whose reply to getrawtransaction reports six confirmations. */
  lemma GetTrxConfExample(trxId: string)
    ensures GetTrxConf(RpcOf(_ => JObj([("result", JObj([("confirmations", JInt(6))]))])), trxId)
      == Ok(JInt(6))
  {
    var result := JObj([("confirmations", JInt(6))]);
    RpcOfResult(_ => JObj([("result", result)]), Call("getrawtransaction", JArr([JStr(trxId)])), result);
  }

  /** new_address_pair: the address and private_key members of the
      getnewaddress result, both strings. */
  function NewAddressPair(rpc: RpcCall): (r: Result<(string, string)>)
    ensures var reply := rpc(Call("getnewaddress", JArr([])));
      && (r.Ok? <==>
            && reply.Ok?
            && reply.value.JObj?
            && Lookup(reply.value.fields, "address").Some?
            && Lookup(reply.value.fields, "address").value.JStr?
            && Lookup(reply.value.fields, "private_key").Some?
            && Lookup(reply.value.fields, "private_key").value.JStr?)
      && (r.Ok? ==>
            && Lookup(reply.value.fields, "address") == Some(JStr(r.value.0))
            && Lookup(reply.value.fields, "private_key") == Some(JStr(r.value.1)))
      && (reply.Err? ==> r == Err(reply.exc))
      && (reply.Ok? && !reply.value.JObj? ==> r == Err(TypeError))
    ensures var reply := rpc(Call("getnewaddress", JArr([])));
      reply.Ok? && reply.value.JObj? ==>
        var address := Lookup(reply.value.fields, "address");
        var key := Lookup(reply.value.fields, "private_key");
        && (address.None? ==> r == Err(KeyError("address")))
        && (address.Some? && !address.value.JStr? ==> r == Err(TypeError))
        && (address.Some? && address.value.JStr? && key.None? ==> r == Err(KeyError("private_key")))
        && (address.Some? && address.value.JStr? && key.Some? && !key.value.JStr?
            ==> r == Err(TypeError))
  {
    var result :- rpc(Call("getnewaddress", JArr([])));
    var address :- Subscript(result, "address");
    var address' :- CheckType(Of(Str), address);
    var key :- Subscript(result, "private_key");
    var key' :- CheckType(Of(Str), key);
    Ok((address'.s, key'.s))
  }

  /** The listunspent query for one address and confirmation count. */
  function ListUnspentCall(address: string, conf: int): Call
  {
    Call("listunspent", JArr([JStr(address), JInt(conf)]))
  }

  /** The node receives listunspent with the address, then conf. */
  lemma ListUnspentOnWire(address: string, conf: int)
    ensures var req := Envelope(ListUnspentCall(address, conf));
      && Get(req.fields, "method") == JStr("listunspent")
      && Get(req.fields, "params") == JArr([JStr(address), JInt(conf)])
  {
  }

  /** The unspent outputs the node lists for an address; the result must be
      a list. */
  function Unspent(rpc: RpcCall, address: string, conf: int): (r: Result<seq<Json>>)
    ensures var reply := rpc(ListUnspentCall(address, conf));
      && (r.Ok? <==> reply.Ok? && reply.value.JArr?)
      && (r.Ok? ==> reply.value == JArr(r.value))
      && (reply.Err? ==> r == Err(reply.exc))
      && (reply.Ok? && !reply.value.JArr? ==> r == Err(TypeError))
  {
    var result :- rpc(ListUnspentCall(address, conf));
    var list :- CheckType(Of(List), result);
    Ok(list.items)
  }

  /** The checks get_balance makes on one unspent output: its address must
      be a string equal to the queried one (otherwise AssertionError), and
      its amount must be a float, which is returned. */
  function ItemAmount(address: string, item: Json): (r: Result<real>)
    ensures r.Ok? <==>
      && item.JObj?
      && Lookup(item.fields, "address") == Some(JStr(address))
      && Lookup(item.fields, "amount").Some?
      && Lookup(item.fields, "amount").value.JFloat?
    ensures r.Ok? ==> Lookup(item.fields, "amount") == Some(JFloat(r.value))
    ensures item.JObj? && Lookup(item.fields, "address").Some? ==>
      var itemAddress := Lookup(item.fields, "address").value;
      (itemAddress.JStr? && itemAddress.s != address) ==> r == Err(AssertionError)
    ensures !item.JObj? ==> r == Err(TypeError)
    ensures item.JObj? ==>
      var itemAddress := Lookup(item.fields, "address");
      var amount := Lookup(item.fields, "amount");
      && (itemAddress.None? ==> r == Err(KeyError("address")))
      && (itemAddress.Some? && !itemAddress.value.JStr? ==> r == Err(TypeError))
      && (itemAddress == Some(JStr(address)) && amount.None? ==> r == Err(KeyError("amount")))
      && (itemAddress == Some(JStr(address)) && amount.Some? && !amount.value.JFloat?
          ==> r == Err(TypeError))
  {
    var itemAddress :- Subscript(item, "address");
    var itemAddress' :- CheckType(Of(Str), itemAddress);
    if address != itemAddress'.s then Err(AssertionError)
    else
      var amount :- Subscript(item, "amount");
      var amount' :- CheckType(Of(Float), amount);
      Ok(amount'.f)
  }

  /** The balance accumulated over the unspent outputs in list order,
      starting from 0.0; the first output that fails its checks ends the
      scan with that failure. */
  function BalanceOf(address: string, items: seq<Json>): Result<real>
    decreases |items|
  {
    if items == [] then Ok(0.0)
    else
      var balance :- BalanceOf(address, items[..|items| - 1]);
      var amount :- ItemAmount(address, items[|items| - 1]);
      Ok(balance + amount)
  }

  /** Once a prefix of the list fails, the whole list fails the same way. */
  lemma {:induction false} BalanceOfStops(address: string, items: seq<Json>, k: nat)
    requires k <= |items|
    requires BalanceOf(address, items[..k]).Err?
    ensures BalanceOf(address, items) == BalanceOf(address, items[..k])
    decreases |items| - k
  {
    if k < |items| {
      var longer := items[..k + 1];
      assert longer[..k] == items[..k];
      assert BalanceOf(address, longer) == BalanceOf(address, items[..k]);
      BalanceOfStops(address, items, k + 1);
    } else {
      assert items[..k] == items;
    }
  }

  /** get_balance raises the failure of the first output that fails its
      checks, such as the AssertionError of a foreign address. */
  lemma {:induction false} BalanceOfFirstFailure(address: string, items: seq<Json>, k: nat)
    requires k < |items|
    requires forall i :: 0 <= i < k ==> ItemAmount(address, items[i]).Ok?
    requires ItemAmount(address, items[k]).Err?
    ensures BalanceOf(address, items) == Err(ItemAmount(address, items[k]).exc)
  {
    BalanceOfPrefixOk(address, items[..k]);
    assert items[..k + 1][..k] == items[..k];
    assert BalanceOf(address, items[..k + 1]) == Err(ItemAmount(address, items[k]).exc);
    BalanceOfStops(address, items, k + 1);
  }

  /** A list whose every output passes its checks has a balance. */
  lemma {:induction false} BalanceOfPrefixOk(address: string, items: seq<Json>)
    requires forall i :: 0 <= i < |items| ==> ItemAmount(address, items[i]).Ok?
    ensures BalanceOf(address, items).Ok?
    decreases |items|
  {
    if items != [] {
      BalanceOfPrefixOk(address, items[..|items| - 1]);
    }
  }

  /** When the outputs carry the given amounts, the balance is their sum. */
  lemma {:induction false} BalanceOfIsSum(address: string, items: seq<Json>, amounts: seq<real>)
    requires |amounts| == |items|
    requires forall i :: 0 <= i < |items| ==> ItemAmount(address, items[i]) == Ok(amounts[i])
    ensures BalanceOf(address, items) == Ok(Sum(amounts))
    decreases |items|
  {
    if items != [] {
      var n := |items| - 1;
      BalanceOfIsSum(address, items[..n], amounts[..n]);
      assert amounts[..n] + [amounts[n]] == amounts;
      SumSnoc(amounts[..n], amounts[n]);
    }
  }

  /** get_balance succeeds exactly when every output passes its checks. */
  lemma {:induction false} BalanceOfOkIff(address: string, items: seq<Json>)
    ensures BalanceOf(address, items).Ok? <==>
      forall i :: 0 <= i < |items| ==> ItemAmount(address, items[i]).Ok?
  {
    if items != [] {
      var n := |items| - 1;
      BalanceOfOkIff(address, items[..n]);
      assert forall i :: 0 <= i < n ==> items[..n][i] == items[i];
    }
  }

  /** The whole of get_balance: query listunspent, require a list, scan it. */
  function GetBalanceOutcome(rpc: RpcCall, address: string, conf: int): Result<real>
  {
    var items :- Unspent(rpc, address, conf);
    BalanceOf(address, items)
  }

  /** get_balance, with its accumulating loop over the unspent outputs. */
  method GetBalance(rpc: RpcCall, address: string, conf: int) returns (r: Result<real>)
    ensures r == GetBalanceOutcome(rpc, address, conf)
  {
    var listed := Unspent(rpc, address, conf);
    if listed.Err? {
      return Err(listed.exc);
    }
    var items := listed.value;
    var balance := 0.0;
    var i := 0;
    while i < |items|
      invariant 0 <= i <= |items|
      invariant BalanceOf(address, items[..i]) == Ok(balance)
    {
      var amount := ItemAmount(address, items[i]);
      assert items[..i + 1][..i] == items[..i];
      if amount.Err? {
        BalanceOfStops(address, items, i + 1);
        return Err(amount.exc);
      }
      balance := balance + amount.value;
      i := i + 1;
    }
    assert items[..i] == items;
    r := Ok(balance);
  }

  /** An unspent output as listunspent reports it. */
  function UnspentItem(address: string, txid: string, vout: int, amount: real): Json
  {
    JObj([("address", JStr(address)), ("txid", JStr(txid)),
          ("vout", JInt(vout)), ("amount", JFloat(amount))])
  }

  /** A well-formed output passes get_balance's checks with its own amount
      when its address is the queried one, and fails them otherwise. */
  lemma UnspentItemAmount(queried: string, address: string, txid: string, vout: int, amount: real)
    ensures ItemAmount(queried, UnspentItem(address, txid, vout, amount)) ==
      if queried == address then Ok(amount) else Err(AssertionError)
  {
    var fields := UnspentItem(address, txid, vout, amount).fields;
    LookupDistinct(fields, 0);
    LookupDistinct(fields, 3);
  }

  /** Two outputs of 1.5 and 0.5 at the queried address give 2.0. */
  lemma GetBalanceExample(conf: int)
    ensures GetBalanceOutcome(
      RpcOf(_ => JObj([("result", JArr([UnspentItem("A", "t1", 0, 1.5), UnspentItem("A", "t2", 1, 0.5)]))])),
      "A", conf) == Ok(2.0)
  {
    var items := [UnspentItem("A", "t1", 0, 1.5), UnspentItem("A", "t2", 1, 0.5)];
    RpcOfResult(_ => JObj([("result", JArr(items))]), ListUnspentCall("A", conf), JArr(items));
    UnspentItemAmount("A", "A", "t1", 0, 1.5);
    UnspentItemAmount("A", "A", "t2", 1, 0.5);
    BalanceOfIsSum("A", items, [1.5, 0.5]);
  }

  /** An output at another address ends get_balance with AssertionError. */
  lemma GetBalanceMismatchExample(conf: int)
    ensures GetBalanceOutcome(
      RpcOf(_ => JObj([("result", JArr([UnspentItem("B", "t1", 0, 1.5)]))])),
      "A", conf) == Err(AssertionError)
  {
    var items := [UnspentItem("B", "t1", 0, 1.5)];
    RpcOfResult(_ => JObj([("result", JArr(items))]), ListUnspentCall("A", conf), JArr(items));
    UnspentItemAmount("A", "B", "t1", 0, 1.5);
    BalanceOfFirstFailure("A", items, 0);
  }
}
