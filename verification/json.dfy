/** The deserialised request body: a JSON value as the validator and the
    filter see it after the body parser has run. */
module Json {
  import opened Wrappers

  /** A JSON number, reduced to what the schema can tell apart: a finite
      number with an integer value (ajv's default test for `type:
      'integer'`, `x % 1` is zero) or any other finite number. The
      infinities that `JSON.parse` yields for literals such as `1e400` are
      not represented. */
  datatype Number = Int(value: int) | Fraction

  datatype Value =
    | Null
    | Bool(b: bool)
    | Str(s: string)
    | Num(n: Number)
    | Arr(items: seq<Value>)
    | Obj(members: seq<Member>)

  /** One property of an object. An object's members are listed in
      JavaScript's own-key order, the order in which `for (key in o)`
      visits them: keys that are array indices first, in ascending numeric
      order, then the other keys in insertion order. */
  datatype Member = Member(key: string, val: Value)

  /** Property access `o[key]`: the value of the first member named `key`,
      or None where JavaScript yields `undefined`. */
  function Get(ms: seq<Member>, key: string): (v: Option<Value>)
  {
    GetFrom(ms, key, 0)
  }

  /** The first member named `key` at position `i` or later. */
  function GetFrom(ms: seq<Member>, key: string, i: nat): (v: Option<Value>)
    requires i <= |ms|
    decreases |ms| - i
  {
    if i == |ms| then None
    else if ms[i].key == key then Some(ms[i].val)
    else GetFrom(ms, key, i + 1)
  }

  lemma {:induction false} GetFromFound(ms: seq<Member>, key: string, i: nat)
    requires i <= |ms|
    ensures GetFrom(ms, key, i).None? <==> forall j :: i <= j < |ms| ==> ms[j].key != key
    ensures GetFrom(ms, key, i).Some? ==> Member(key, GetFrom(ms, key, i).value) in ms
    decreases |ms| - i
  {
    if i < |ms| {
      GetFromFound(ms, key, i + 1);
    }
  }

  /** `o[key]` is `undefined` exactly when no member is named `key`, and
      otherwise is the value of a member named `key`. */
  lemma GetFound(ms: seq<Member>, key: string)
    ensures Get(ms, key).None? <==> forall m :: m in ms ==> m.key != key
    ensures Get(ms, key).Some? ==> Member(key, Get(ms, key).value) in ms
  {
    GetFromFound(ms, key, 0);
  }

  lemma {:induction false} GetFromFirst(ms: seq<Member>, i: nat, k: nat)
    requires k <= i < |ms|
    requires forall j :: k <= j < i ==> ms[j].key != ms[i].key
    ensures GetFrom(ms, ms[i].key, k) == Some(ms[i].val)
    decreases i - k
  {
    if k < i {
      GetFromFirst(ms, i, k + 1);
    }
  }

  /** `o[key]` is the value of the first member named `key`. */
  lemma GetFirst(ms: seq<Member>, i: nat)
    requires i < |ms|
    requires forall j :: 0 <= j < i ==> ms[j].key != ms[i].key
    ensures Get(ms, ms[i].key) == Some(ms[i].val)
  {
    GetFromFirst(ms, i, 0);
  }
}
