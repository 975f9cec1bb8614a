// JSON values (RFC 8259) as encoding/json hands them to Go code: objects
// decoded into map[string]any, arrays into []any, numbers into numbers.
// The text form is not modelled: a Go string holding JSON text is modelled by
// the value that text denotes.

module Json {
  import opened Base

  datatype Json =
    | Null
    | Bool(b: bool)
    | Number(n: int)
    | String(s: string)
    | Array(items: seq<Json>)
    | Object(members: seq<(string, Json)>)

  /** A Go `string` field that holds JSON text; `NoText` is the empty string. */
  datatype JsonText = NoText | Text(value: Json)

  /**
   * `m[key]` on the map[string]any that encoding/json builds from an object:
   * when a key occurs more than once the last occurrence wins.
   */
  function Get(members: seq<(string, Json)>, key: string): Option<Json>
    decreases |members|
  {
    if |members| == 0 then None
    else if members[|members| - 1].0 == key then Some(members[|members| - 1].1)
    else Get(members[..|members| - 1], key)
  }

  /**
   * Get finds a key exactly when some member has it, and then it returns the
   * value of the last member that has it.
   */
  lemma {:induction false} GetFindsLast(members: seq<(string, Json)>, key: string)
    ensures Get(members, key).None? <==> forall i :: 0 <= i < |members| ==> members[i].0 != key
    ensures Get(members, key).Some? ==>
      exists i :: 0 <= i < |members| && members[i] == (key, Get(members, key).value) &&
                  forall j :: i < j < |members| ==> members[j].0 != key
    decreases |members|
  {
    if |members| > 0 && members[|members| - 1].0 != key {
      var init := members[..|members| - 1];
      GetFindsLast(init, key);
      assert forall i :: 0 <= i < |init| ==> init[i] == members[i];
    }
  }

  /** A key bound at exactly one index is found there. */
  lemma GetUnique(members: seq<(string, Json)>, key: string, i: int)
    requires 0 <= i < |members| && members[i].0 == key
    requires forall j :: 0 <= j < |members| && j != i ==> members[j].0 != key
    ensures Get(members, key) == Some(members[i].1)
  {
    GetFindsLast(members, key);
  }

  /** Looking a key up in a concatenation: the right-hand part wins. */
  lemma {:induction false} GetAppend(a: seq<(string, Json)>, b: seq<(string, Json)>, key: string)
    ensures Get(a + b, key) == if Get(b, key).Some? then Get(b, key) else Get(a, key)
    decreases |b|
  {
    if |b| > 0 {
      var ab := a + b;
      assert ab[|ab| - 1] == b[|b| - 1];
      assert ab[..|ab| - 1] == a + b[..|b| - 1];
      GetAppend(a, b[..|b| - 1], key);
    } else {
      assert a + b == a;
    }
  }

  /** Go's `m[key] != nil`: the key is bound to something other than JSON null. */
  predicate Present(members: seq<(string, Json)>, key: string) {
    var v := Get(members, key);
    v.Some? && v.value != Null
  }
}
