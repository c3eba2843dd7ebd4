/**
 * data.go: the data-contract handler. It flattens a payload into URL
 * values, decodes a request body into the handler's payload, and prepares
 * an outbound request by its contract's data type.
 */
module Data {
  import opened Wrappers
  import opened Text
  import opened Json
  import opened Wire
  import opened Placeholders
  import opened Routes

  datatype DataContract = DataContract(dataType: DataType, key: string)

  /** `NewDataContract`: the given type under the default user-value key. */
  function NewDataContract(t: DataType): (c: DataContract)
    ensures c.dataType == t && c.key == "data"
  {
    DataContract(t, DefaultKey)
  }

  /** `userValueKey`: the contract's key, "data" when it is empty. */
  function UserValueKey(c: DataContract): (k: string)
    ensures k != ""
    ensures c.key != "" ==> k == c.key
    ensures c.key == "" ==> k == "data"
  {
    if |c.key| == 0 then DefaultKey else c.key
  }

  /** The default data handler: a contract and the payload decoded into, or encoded from, it. */
  class DataHandler {
    var contract: DataContract
    var payload: JsonValue

    constructor (contract: DataContract, payload: JsonValue)
      ensures this.contract == contract && this.payload == payload
    {
      this.contract := contract;
      this.payload := payload;
    }
  }

  // ----- flattening -----

  /** The string elements of a list, in order. */
  function Strings(items: seq<JsonValue>): seq<string>
  {
    if items == [] then []
    else
      var last := items[|items| - 1];
      Strings(items[..|items| - 1]) + (if last.JString? then [last.s] else [])
  }

  /** The last element of a list that is not a string, if any. */
  function LastNonString(items: seq<JsonValue>): Option<JsonValue>
  {
    if items == [] then None
    else
      var last := items[|items| - 1];
      if last.JString? then LastNonString(items[..|items| - 1]) else Some(last)
  }

  /** The entries one field contributes: a list's strings, or a scalar's text. */
  function StringsOf(v: JsonValue): seq<string>
  {
    if v.JArray? then Strings(v.items) else [Sprint(v)]
  }

  function Entry(m: UrlValues, k: string): seq<string>
  {
    if k in m then m[k] else []
  }

  /** The error held after scanning `seen`, a prefix of the list `items`, having held `e` before it. */
  function ErrAfter(e: Option<Error>, seen: seq<JsonValue>, items: seq<JsonValue>): Option<Error>
  {
    if LastNonString(seen).Some? then Some(ConversionError(LastNonString(seen).value, items)) else e
  }

  function FieldErr(e: Option<Error>, v: JsonValue): Option<Error>
  {
    if v.JArray? then ErrAfter(e, v.items, v.items) else e
  }

  /** One field's turn of the loop: its entries are appended under its key, its error recorded. */
  function Step(acc: (UrlValues, Option<Error>), field: (string, JsonValue)): (UrlValues, Option<Error>)
  {
    (acc.0[field.0 := Entry(acc.0, field.0) + StringsOf(field.1)], FieldErr(acc.1, field.1))
  }

  /** The loop of `dataModelToMap` over the decoded fields, in iteration order. */
  function Flatten(members: seq<(string, JsonValue)>): (UrlValues, Option<Error>)
  {
    if members == [] then (map[], None)
    else Step(Flatten(members[..|members| - 1]), members[|members| - 1])
  }

  /**
   * `dataModelToMap`: the payload goes through JSON and back into a map; a
   * failure of either step gives an empty map and that error; otherwise the
   * fields are flattened, and the last conversion error is returned
   * together with the map.
   */
  function ModelToMap(payload: JsonValue, codecs: Codecs): (r: Converted)
    ensures r.values != map[] ==> codecs.jsonMarshal(payload).err.None?
                                  && codecs.jsonUnmarshal(codecs.jsonMarshal(payload).bytes).err.None?
    ensures codecs.jsonMarshal(payload).err.Some? ==> r == Converted(map[], codecs.jsonMarshal(payload).err)
    ensures codecs.jsonMarshal(payload).err.None? && codecs.jsonUnmarshal(codecs.jsonMarshal(payload).bytes).err.Some? ==>
      r == Converted(map[], codecs.jsonUnmarshal(codecs.jsonMarshal(payload).bytes).err)
  {
    var b := codecs.jsonMarshal(payload);
    if b.err.Some? then Converted(map[], b.err)
    else
      var d := codecs.jsonUnmarshal(b.bytes);
      if d.err.Some? then Converted(map[], d.err)
      else
        var (m, e) := Flatten(d.members);
        Converted(m, e)
  }

  method DataModelToMap(payload: JsonValue, codecs: Codecs) returns (modelMap: UrlValues, err: Option<Error>)
    ensures Converted(modelMap, err) == ModelToMap(payload, codecs)
  {
    var b := codecs.jsonMarshal(payload);
    if b.err.Some? {
      return map[], b.err;
    }
    modelMap := map[];
    var result := codecs.jsonUnmarshal(b.bytes);
    if result.err.Some? {
      return modelMap, result.err;
    }
    err := None;
    var members := result.members;
    var i := 0;
    while i < |members|
      invariant 0 <= i <= |members|
      invariant (modelMap, err) == Flatten(members[..i])
    {
      assert members[..i + 1][..i] == members[..i];
      var (k, v) := members[i];
      modelMap, err := AddField(modelMap, err, k, v);
      i := i + 1;
    }
    assert members[..i] == members;
  }

  /** The body of the loop of `dataModelToMap` for one field `k`, `v`. */
  method AddField(m0: UrlValues, e0: Option<Error>, k: string, v: JsonValue)
    returns (modelMap: UrlValues, err: Option<Error>)
    ensures (modelMap, err) == Step((m0, e0), (k, v))
  {
    modelMap, err := m0, e0;
    if k !in modelMap {
      modelMap := modelMap[k := []];
    }
    assert modelMap == m0[k := Entry(m0, k)];
    match v {
      case JArray(items) =>
        var j := 0;
        assert items[..0] == [];
        assert Entry(m0, k) + Strings(items[..0]) == Entry(m0, k);
        while j < |items|
          invariant 0 <= j <= |items|
          invariant modelMap == m0[k := Entry(m0, k) + Strings(items[..j])]
          invariant err == ErrAfter(e0, items[..j], items)
        {
          var u := items[j];
          assert items[..j + 1][..j] == items[..j];
          if u.JString? {
            assert Strings(items[..j + 1]) == Strings(items[..j]) + [u.s];
            assert modelMap[k] + [u.s] == Entry(m0, k) + Strings(items[..j + 1]);
            modelMap := modelMap[k := modelMap[k] + [u.s]];
          } else {
            assert Strings(items[..j + 1]) == Strings(items[..j]);
            err := Some(ConversionError(u, items));
          }
          j := j + 1;
        }
        assert items[..j] == items;
        assert modelMap == m0[k := Entry(m0, k) + StringsOf(v)] && err == FieldErr(e0, v);
      case _ =>
        modelMap := modelMap[k := modelMap[k] + [Sprint(v)]];
        assert modelMap == m0[k := Entry(m0, k) + StringsOf(v)] && err == FieldErr(e0, v);
    }
  }

  // ----- what the flattening guarantees -----

  /** Strings are collected in list order: the strings of two lists joined are the strings of each, joined. */
  lemma {:induction false} StringsAppend(a: seq<JsonValue>, b: seq<JsonValue>)
    ensures Strings(a + b) == Strings(a) + Strings(b)
    decreases |b|
  {
    if b == [] {
      assert a + b == a;
    } else {
      var n := |b| - 1;
      StringsAppend(a, b[..n]);
      assert (a + b)[..|a + b| - 1] == a + b[..n];
    }
  }

  /** A list of strings only gives back exactly its elements, in order. */
  lemma {:induction false} StringsOfStringList(items: seq<JsonValue>)
    requires forall j :: 0 <= j < |items| ==> items[j].JString?
    ensures |Strings(items)| == |items|
    ensures forall j :: 0 <= j < |items| ==> Strings(items)[j] == items[j].s
  {
    if items != [] {
      var n := |items| - 1;
      StringsOfStringList(items[..n]);
    }
  }

  /** No element of a list fails to convert exactly when all its elements are strings. */
  lemma {:induction false} LastNonStringNone(items: seq<JsonValue>)
    ensures LastNonString(items).None? <==> forall j :: 0 <= j < |items| ==> items[j].JString?
  {
    if items != [] {
      var n := |items| - 1;
      LastNonStringNone(items[..n]);
      assert forall j :: 0 <= j < n ==> items[..n][j] == items[j];
    }
  }

  /** The element recorded is the last one that is not a string. */
  lemma {:induction false} LastNonStringIsLast(items: seq<JsonValue>)
    requires LastNonString(items).Some?
    ensures exists j :: (0 <= j < |items| && items[j] == LastNonString(items).value && !items[j].JString?
                         && forall l :: j < l < |items| ==> items[l].JString?)
  {
    var n := |items| - 1;
    if items[n].JString? {
      LastNonStringIsLast(items[..n]);
      var j :| 0 <= j < n && items[..n][j] == LastNonString(items[..n]).value && !items[..n][j].JString?
        && forall l :: j < l < n ==> items[..n][l].JString?;
      assert items[j] == LastNonString(items).value;
    }
  }

  /** Every decoded field appears as a key, and nothing else does. */
  lemma {:induction false} FlattenKeys(members: seq<(string, JsonValue)>)
    ensures forall k :: k in Flatten(members).0 <==> exists i :: 0 <= i < |members| && members[i].0 == k
  {
    if members != [] {
      var n := |members| - 1;
      FlattenKeys(members[..n]);
      forall k ensures k in Flatten(members).0 <==> exists i :: 0 <= i < |members| && members[i].0 == k {
        if k in Flatten(members[..n]).0 {
          var i :| 0 <= i < n && members[..n][i].0 == k;
          assert members[i].0 == k;
        }
        if exists i :: 0 <= i < |members| && members[i].0 == k {
          var i :| 0 <= i < |members| && members[i].0 == k;
          if i < n {
            assert members[..n][i].0 == k;
          }
        }
      }
    }
  }

  predicate DistinctKeys(members: seq<(string, JsonValue)>)
  {
    forall i, j :: 0 <= i < j < |members| ==> members[i].0 != members[j].0
  }

  /** A prefix of fields with distinct keys has distinct keys. */
  lemma DistinctKeysPrefix(members: seq<(string, JsonValue)>, n: nat)
    requires DistinctKeys(members) && n <= |members|
    ensures DistinctKeys(members[..n])
  {
    var init := members[..n];
    forall a, b | 0 <= a < b < |init| ensures init[a].0 != init[b].0 {
      assert init[a] == members[a] && init[b] == members[b];
    }
  }

  /**
   * With distinct keys, as a decoded map has, a field's entry is its list's
   * strings in order, or the single text of a scalar.
   */
  lemma {:induction false} FlattenEntry(members: seq<(string, JsonValue)>, i: nat)
    requires DistinctKeys(members) && i < |members|
    ensures members[i].0 in Flatten(members).0
    ensures Flatten(members).0[members[i].0] == StringsOf(members[i].1)
  {
    var n := |members| - 1;
    var init := members[..n];
    var k := members[n].0;
    assert Flatten(members) == Step(Flatten(init), members[n]);
    if i < n {
      DistinctKeysPrefix(members, n);
      assert init[i] == members[i];
      FlattenEntry(init, i);
      assert members[i].0 != k;
    } else {
      assert k !in Flatten(init).0 by {
        FlattenKeys(init);
        forall j | 0 <= j < n ensures init[j].0 != k {
          assert init[j] == members[j];
        }
      }
    }
  }

  /** The pass reports no error exactly when every list field holds strings only. */
  lemma {:induction false} FlattenNoError(members: seq<(string, JsonValue)>)
    ensures Flatten(members).1.None? <==>
      forall i :: 0 <= i < |members| && members[i].1.JArray? ==>
        forall j :: 0 <= j < |members[i].1.items| ==> members[i].1.items[j].JString?
  {
    if members != [] {
      var n := |members| - 1;
      FlattenNoError(members[..n]);
      assert forall i :: 0 <= i < n ==> members[..n][i] == members[i];
      var v := members[n].1;
      if v.JArray? {
        LastNonStringNone(v.items);
      }
    }
  }

  /** A field whose list holds an element that is not a string. */
  predicate FailingField(v: JsonValue)
  {
    v.JArray? && LastNonString(v.items).Some?
  }

  /**
   * A conversion error does not stop the pass: the error returned is the
   * one for the last non-string element of the last failing field.
   */
  lemma {:induction false} FlattenErrorIsLast(members: seq<(string, JsonValue)>)
    requires Flatten(members).1.Some?
    ensures exists i :: (0 <= i < |members| && FailingField(members[i].1)
                         && Flatten(members).1 == Some(ConversionError(LastNonString(members[i].1.items).value, members[i].1.items))
                         && forall l :: i < l < |members| ==> !FailingField(members[l].1))
  {
    var n := |members| - 1;
    var init := members[..n];
    var v := members[n].1;
    assert Flatten(members) == Step(Flatten(init), members[n]);
    if FailingField(v) {
      assert Flatten(members).1 == Some(ConversionError(LastNonString(v.items).value, v.items));
    } else {
      assert Flatten(members).1 == Flatten(init).1;
      FlattenErrorIsLast(init);
      var i :| 0 <= i < n && FailingField(init[i].1)
        && Flatten(init).1 == Some(ConversionError(LastNonString(init[i].1.items).value, init[i].1.items))
        && forall l :: i < l < n ==> !FailingField(init[l].1);
      assert init[i] == members[i];
      forall l | i < l < |members| ensures !FailingField(members[l].1) {
        if l < n {
          assert init[l] == members[l];
        }
      }
    }
  }

  /** Once both codec steps succeed, every decoded field is in the map, even when a conversion fails. */
  lemma ConversionErrorKeepsFields(payload: JsonValue, codecs: Codecs)
    requires codecs.jsonMarshal(payload).err.None?
    requires codecs.jsonUnmarshal(codecs.jsonMarshal(payload).bytes).err.None?
    ensures var members := codecs.jsonUnmarshal(codecs.jsonMarshal(payload).bytes).members;
      forall k :: k in ModelToMap(payload, codecs).values <==> exists i :: 0 <= i < |members| && members[i].0 == k
  {
    FlattenKeys(codecs.jsonUnmarshal(codecs.jsonMarshal(payload).bytes).members);
  }

  // ----- inbound -----

  datatype Received = Received(payload: JsonValue, userValues: map<string, JsonValue>, err: Option<Error>)

  /**
   * `receiveRequestFn`: only Binary and JSON with a non-empty body decode.
   * The decoder writes into the handler itself, so the user value then
   * stored is the handler's new payload.
   */
  function ReceiveOutcome(c: DataContract, payload: JsonValue, e: Exchange, codecs: Codecs): (r: Received)
    ensures c.dataType !in {Binary, JSON} || |e.postBody| == 0 ==> r == Received(payload, e.userValues, None)
    ensures c.dataType == Binary && |e.postBody| > 0 ==>
      r.err == codecs.msgpackUnmarshalHandler(e.postBody, payload).err
    ensures c.dataType == JSON && |e.postBody| > 0 ==>
      r.err == codecs.jsonUnmarshalHandler(e.postBody, payload).err
    ensures c.dataType in {Binary, JSON} && |e.postBody| > 0 ==>
      var d := if c.dataType == Binary then codecs.msgpackUnmarshalHandler(e.postBody, payload)
               else codecs.jsonUnmarshalHandler(e.postBody, payload);
      && (d.payload.Some? ==> r.payload == d.payload.value && r.userValues == e.userValues[UserValueKey(c) := d.payload.value])
      && (d.payload.None? ==> r.payload == payload && r.userValues == e.userValues)
  {
    if c.dataType !in {Binary, JSON} || |e.postBody| == 0 then Received(payload, e.userValues, None)
    else
      var d := if c.dataType == Binary then codecs.msgpackUnmarshalHandler(e.postBody, payload)
               else codecs.jsonUnmarshalHandler(e.postBody, payload);
      if d.payload.Some? then Received(d.payload.value, e.userValues[UserValueKey(c) := d.payload.value], d.err)
      else Received(payload, e.userValues, d.err)
  }

  method ReceiveRequestFn(d: DataHandler, ctx: RequestCtx, codecs: Codecs) returns (err: Option<Error>)
    modifies d, ctx
    ensures Received(d.payload, ctx.userValues, err) == ReceiveOutcome(old(d.contract), old(d.payload), old(ctx.State()), codecs)
    ensures d.contract == old(d.contract)
    ensures ctx.State() == old(ctx.State()).(userValues := ctx.userValues)
  {
    var body := ctx.postBody;
    var key := UserValueKey(d.contract);
    var t := d.contract.dataType;
    if t == Binary || t == JSON {
      if |body| == 0 {
        return None;
      }
      var r := if t == Binary then codecs.msgpackUnmarshalHandler(body, d.payload)
               else codecs.jsonUnmarshalHandler(body, d.payload);
      if r.payload.Some? {
        d.payload := r.payload.value;
        ctx.userValues := ctx.userValues[key := d.payload];
      }
      return r.err;
    }
    return None;
  }

  /**
   * `ReceiveRequest`: on a decode error the status is 400, the error text is
   * written and `next` is not called; otherwise `next` runs exactly once.
   */
  method ReceiveRequest(d: DataHandler, ctx: RequestCtx, next: Exchange -> Exchange, codecs: Codecs)
    returns (nextCalls: nat)
    modifies d, ctx
    ensures var r := ReceiveOutcome(old(d.contract), old(d.payload), old(ctx.State()), codecs);
      && d.payload == r.payload
      && d.contract == old(d.contract)
      && (r.err.Some? ==>
            nextCalls == 0
            && ctx.State() == old(ctx.State()).(userValues := r.userValues, status := StatusBadRequest,
                                                response := old(ctx.response) + r.err.value.text))
      && (r.err.None? ==>
            nextCalls == 1 && ctx.State() == next(old(ctx.State()).(userValues := r.userValues)))
  {
    nextCalls := 0;
    var err := ReceiveRequestFn(d, ctx, codecs);
    if err.Some? {
      ctx.status := StatusBadRequest;
      ctx.response := ctx.response + err.value.text;
      return;
    }
    var after := next(ctx.State());
    ctx.Load(after);
    nextCalls := nextCalls + 1;
  }

  // ----- outbound -----

  /** What `PrepareRouteRequest` needs for route parameters: every placeholder of the path has a value. */
  predicate ModelParamsBound(route: RouteContract, payload: JsonValue, codecs: Codecs)
  {
    var c := ModelToMap(payload, codecs);
    c.err.Some? || ParamsBound(route.path, c.values)
  }

  /**
   * `PrepareRouteRequest`: sets the route's declared method, then writes the
   * body (Binary, JSON, Form) or rewrites the URI (RouteParams,
   * QueryParams); no Content-Type is set, and other types do nothing.
   */
  method PrepareRouteRequest(d: DataHandler, req: Request, route: RouteContract, codecs: Codecs)
    returns (err: Option<Error>)
    requires d.contract.dataType == RouteParams ==> ModelParamsBound(route, d.payload, codecs)
    modifies req
    ensures req.httpMethod == route.httpMethod && req.headers == old(req.headers)
    ensures d.contract.dataType == Binary ==>
      var b := codecs.msgpackMarshalHandler(Binary, d.contract.key, d.payload);
      req.body == b.bytes && err == b.err && req.uri == old(req.uri)
    ensures d.contract.dataType == JSON ==>
      var b := codecs.jsonMarshal(d.payload);
      req.body == b.bytes && err == b.err && req.uri == old(req.uri)
    ensures d.contract.dataType == Form ==>
      var c := ModelToMap(d.payload, codecs);
      && err == c.err && req.uri == old(req.uri)
      && req.body == (if c.err.Some? then old(req.body) else codecs.encodeValues(c.values))
    ensures d.contract.dataType == RouteParams ==>
      var c := ModelToMap(d.payload, codecs);
      && err == c.err && req.body == old(req.body)
      && req.uri == (if c.err.Some? then old(req.uri)
                     else ReplaceFirst(old(req.uri), route.path, ReplaceRouteMatches(route.path, c.values)))
    ensures d.contract.dataType == QueryParams ==>
      var c := ModelToMap(d.payload, codecs);
      && err == c.err && req.body == old(req.body)
      && req.uri == (if c.err.Some? then old(req.uri) else old(req.uri) + "?" + codecs.encodeValues(c.values))
    ensures d.contract.dataType in {Unset, MultipartForm} ==>
      err == None && req.body == old(req.body) && req.uri == old(req.uri)
  {
    req.httpMethod := route.httpMethod;
    var t := d.contract.dataType;
    if t == Binary {
      var b := codecs.msgpackMarshalHandler(t, d.contract.key, d.payload);
      req.body := b.bytes;
      return b.err;
    } else if t == JSON {
      var b := codecs.jsonMarshal(d.payload);
      req.body := b.bytes;
      return b.err;
    } else if t == Form {
      var m, e := DataModelToMap(d.payload, codecs);
      if e.Some? {
        return e;
      }
      req.body := codecs.encodeValues(m);
      return None;
    } else if t == RouteParams {
      var m, e := DataModelToMap(d.payload, codecs);
      if e.Some? {
        return e;
      }
      var path := ReplaceRouteMatches(route.path, m);
      var uriStr := req.uri;
      req.uri := ReplaceFirst(uriStr, route.path, path);
      return None;
    } else if t == QueryParams {
      var m, e := DataModelToMap(d.payload, codecs);
      if e.Some? {
        return e;
      }
      var query := "?" + codecs.encodeValues(m);
      req.uri := req.uri + query;
      return None;
    }
    return None;
  }
}
