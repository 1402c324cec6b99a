/**
 * JavaScript values and plain objects as the components see them: the
 * fields of a form draft, the records the server returns and the payloads
 * handed to the API service.
 */
module JsValues {

  /** A handle for a browser `File` the user picked; its bytes are not modelled. */
  type FileRef = nat

  /**
   * A JavaScript value.  Numbers are exact reals (IEEE-754 rounding is not
   * modelled) with `NaN` kept apart; `File` is a picked image.
   */
  datatype JsValue =
    | Undefined
    | Null
    | Bool(b: bool)
    | Num(x: real)
    | NaN
    | Str(s: string)
    | File(file: FileRef)

  /** ToBoolean: `undefined`, `null`, `false`, `0`, `NaN` and `''` are falsy, everything else truthy. */
  predicate Truthy(v: JsValue)
    ensures Truthy(v) <==> v !in {Undefined, Null, Bool(false), Num(0.0), NaN, Str("")}
  {
    match v
    case Undefined => false
    case Null => false
    case Bool(b) => b
    case Num(x) => x != 0.0
    case NaN => false
    case Str(s) => s != ""
    case File(_) => true
  }

  /**
   * The JavaScript expression `v || fallback`: one of its operands, `v`
   * itself when truthy, and truthy exactly when either operand is.
   */
  function Or(v: JsValue, fallback: JsValue): (r: JsValue)
    ensures r == v || r == fallback
    ensures Truthy(v) ==> r == v
    ensures Truthy(r) <==> Truthy(v) || Truthy(fallback)
  {
    if Truthy(v) then v else fallback
  }

  /** `v !== null && v !== undefined`; a value that is not present is falsy. */
  predicate Present(v: JsValue)
    ensures !Present(v) ==> !Truthy(v)
  {
    v != Undefined && v != Null
  }

  /** One own property of a plain object. */
  datatype Entry = Entry(key: string, value: JsValue)

  /** The keys in property order (`Object.keys`). */
  function KeysOf(es: seq<Entry>): (ks: seq<string>)
    ensures |ks| == |es|
    ensures forall i :: 0 <= i < |es| ==> ks[i] == es[i].key
  {
    if es == [] then [] else [es[0].key] + KeysOf(es[1..])
  }

  predicate DistinctKeys(es: seq<Entry>) {
    forall i, j :: 0 <= i < j < |es| ==> es[i].key != es[j].key
  }

  /**
   * A plain object: its own properties in property order, each key once.
   * For keys that are not array indices, which is every key used here,
   * property order is insertion order.
   */
  type Obj = es: seq<Entry> | DistinctKeys(es)

  /**
   * `o[k]`: the value of property `k`, `undefined` when `o` has no such
   * property; so any other value read is one stored under `k`.
   */
  function Get(o: seq<Entry>, k: string): (v: JsValue)
    ensures v != Undefined ==> Entry(k, v) in o
  {
    if o == [] then Undefined
    else if o[0].key == k then o[0].value
    else Get(o[1..], k)
  }

  /** In an object, reading a property's key yields that property's value. */
  lemma {:induction false} GetAt(o: Obj, i: nat)
    requires i < |o|
    ensures Get(o, o[i].key) == o[i].value
  {
    if i > 0 {
      assert o[0].key != o[i].key;
      GetAt(o[1..], i - 1);
    }
  }

  /**
   * `{ ...o, [k]: v }`: property `k` gets value `v`, keeping its place when
   * `o` already has it and going last otherwise; the other properties keep
   * their order (and, by SetGet, their values).
   */
  function Set(o: Obj, k: string, v: JsValue): (r: Obj)
    ensures KeysOf(r) == if k in KeysOf(o) then KeysOf(o) else KeysOf(o) + [k]
  {
    if o == [] then
      [Entry(k, v)]
    else if o[0].key == k then
      var r := [Entry(k, v)] + o[1..];
      ReplaceHead(o, r);
      r
    else
      var rest := Set(o[1..], k, v);
      var r := [o[0]] + rest;
      ConsKeys(o, k, rest, r);
      r
  }

  lemma ReplaceHead(o: Obj, r: seq<Entry>)
    requires o != [] && r != [] && r[0].key == o[0].key && r[1..] == o[1..]
    ensures DistinctKeys(r) && KeysOf(r) == KeysOf(o)
  {
    assert KeysOf(r) == KeysOf(o);
  }

  lemma ConsKeys(o: Obj, k: string, rest: Obj, r: seq<Entry>)
    requires o != [] && o[0].key != k && r == [o[0]] + rest
    requires KeysOf(rest) == if k in KeysOf(o[1..]) then KeysOf(o[1..]) else KeysOf(o[1..]) + [k]
    ensures DistinctKeys(r)
    ensures KeysOf(r) == if k in KeysOf(o) then KeysOf(o) else KeysOf(o) + [k]
  {
    ConsKeysOrder(o, k, rest);
    HeadKeyNotInRest(o, k, rest);
    ConsDistinct(o[0], rest);
  }

  lemma ConsKeysOrder(o: Obj, k: string, rest: Obj)
    requires o != [] && o[0].key != k
    requires KeysOf(rest) == if k in KeysOf(o[1..]) then KeysOf(o[1..]) else KeysOf(o[1..]) + [k]
    ensures KeysOf([o[0]] + rest) == if k in KeysOf(o) then KeysOf(o) else KeysOf(o) + [k]
  {
    assert KeysOf(o) == [o[0].key] + KeysOf(o[1..]);
    assert KeysOf([o[0]] + rest) == [o[0].key] + KeysOf(rest);
    PrependKey(o[0].key, k, KeysOf(o[1..]), KeysOf(rest));
  }

  /** The key-order half of ConsKeysOrder, on the key sequences alone. */
  lemma PrependKey(h: string, k: string, t: seq<string>, rt: seq<string>)
    requires h != k && rt == if k in t then t else t + [k]
    ensures [h] + rt == if k in [h] + t then [h] + t else [h] + t + [k]
  {
    if k !in t {
      assert k !in [h] + t;
      assert [h] + (t + [k]) == [h] + t + [k];
    }
  }

  lemma HeadKeyNotInRest(o: Obj, k: string, rest: Obj)
    requires o != [] && o[0].key != k
    requires KeysOf(rest) == if k in KeysOf(o[1..]) then KeysOf(o[1..]) else KeysOf(o[1..]) + [k]
    ensures o[0].key !in KeysOf(rest)
  {
    assert KeysOf(o) == [o[0].key] + KeysOf(o[1..]);
    assert o[0].key !in KeysOf(o[1..]);
  }

  /** Putting a property in front of an object that lacks its key gives an object. */
  lemma ConsDistinct(e: Entry, rest: Obj)
    requires e.key !in KeysOf(rest)
    ensures DistinctKeys([e] + rest)
  {
    var r := [e] + rest;
    forall i, j | 0 <= i < j < |r| ensures r[i].key != r[j].key {
      assert r[j] == rest[j - 1];
      assert KeysOf(rest)[j - 1] == rest[j - 1].key;
      if i > 0 {
        assert r[i] == rest[i - 1];
      }
    }
  }

  /** After `Set(o, k, v)`, property `k` reads `v` and every other property reads as before. */
  lemma {:induction false} SetGet(o: Obj, k: string, v: JsValue, j: string)
    ensures Get(Set(o, k, v), k) == v
    ensures j != k ==> Get(Set(o, k, v), j) == Get(o, j)
  {
    if o != [] && o[0].key != k {
      SetGet(o[1..], k, v, j);
    }
  }

  /** Setting a property the object lacks appends it after all the others. */
  lemma {:induction false} SetNew(o: Obj, k: string, v: JsValue)
    requires k !in KeysOf(o)
    ensures Set(o, k, v) == o + [Entry(k, v)]
  {
    if o != [] {
      AbsentFromTail(o, k);
      SetNew(o[1..], k, v);
      SetCons(o, k, v);
      ConsAppend(o, Entry(k, v));
    }
  }

  lemma ConsAppend(o: seq<Entry>, e: Entry)
    requires o != []
    ensures [o[0]] + (o[1..] + [e]) == o + [e]
  {
    assert o == [o[0]] + o[1..];
  }

  /** A key an object lacks is neither its first key nor a key of the rest. */
  lemma AbsentFromTail(o: Obj, k: string)
    requires o != [] && k !in KeysOf(o)
    ensures o[0].key != k && k !in KeysOf(o[1..])
  {
    assert KeysOf(o)[0] == o[0].key;
    forall i | 0 <= i < |o| - 1 ensures KeysOf(o[1..])[i] != k {
      assert KeysOf(o[1..])[i] == KeysOf(o)[i + 1];
    }
  }

  /** Setting a key other than the first keeps the first property in front. */
  lemma SetCons(o: Obj, k: string, v: JsValue)
    requires o != [] && o[0].key != k
    ensures Set(o, k, v) == [o[0]] + Set(o[1..], k, v)
  {
  }

  predicate DistinctStrings(ks: seq<string>) {
    forall i, j :: 0 <= i < j < |ks| ==> ks[i] != ks[j]
  }

  /** An object literal `{ k0: v0, k1: v1, ... }` with its keys in writing order. */
  function FromFields(keys: seq<string>, values: seq<JsValue>): (o: Obj)
    requires |keys| == |values| && DistinctStrings(keys)
    ensures KeysOf(o) == keys
  {
    if keys == [] then []
    else
      var rest := FromFields(keys[1..], values[1..]);
      assert keys[0] !in KeysOf(rest) by {
        forall i | 0 <= i < |rest| ensures rest[i].key != keys[0] {
          assert KeysOf(rest)[i] == keys[1..][i];
        }
      }
      var o := [Entry(keys[0], values[0])] + rest;
      assert KeysOf(o) == [keys[0]] + KeysOf(rest);
      forall i, j | 0 <= i < j < |o| ensures o[i].key != o[j].key {
        assert KeysOf(o)[i] == keys[i] && KeysOf(o)[j] == keys[j];
      }
      o
  }

  /** Each key of an object literal reads the value written beside it. */
  lemma {:induction false} FromFieldsGet(keys: seq<string>, values: seq<JsValue>, i: nat)
    requires |keys| == |values| && DistinctStrings(keys) && i < |keys|
    ensures Get(FromFields(keys, values), keys[i]) == values[i]
  {
    var o := FromFields(keys, values);
    if i > 0 {
      assert keys[0] != keys[i];
      assert keys[1..][i - 1] == keys[i];
      FromFieldsGet(keys[1..], values[1..], i - 1);
    }
  }

  /** Setting the property at position `i` of an object literal is writing a different value there. */
  lemma {:induction false} SetFromFields(keys: seq<string>, values: seq<JsValue>, i: nat, v: JsValue)
    requires |keys| == |values| && DistinctStrings(keys) && i < |keys|
    ensures Set(FromFields(keys, values), keys[i], v) == FromFields(keys, values[i := v])
  {
    var o := FromFields(keys, values);
    var rest := FromFields(keys[1..], values[1..]);
    assert o == [Entry(keys[0], values[0])] + rest;
    assert values[i := v][1..] == if i == 0 then values[1..] else values[1..][i - 1 := v];
    if i > 0 {
      assert keys[0] != keys[i];
      assert keys[1..][i - 1] == keys[i];
      SetFromFields(keys[1..], values[1..], i - 1, v);
    }
  }
}
