/** The already-parsed JSON document that the decoders consume. Turning bytes into
    this tree (serde_json's and encoding/json's text parsers) is not part of the model. */
module Json {

  /** A JSON value. Numbers are integers; an object keeps its members in document
      order, repeated keys included, because a repeated struct field is an error for
      serde's derived decoders. */
  datatype Json =
    | Null
    | Bool(b: bool)
    | Num(n: int)
    | Str(s: string)
    | Arr(items: seq<Json>)
    | Obj(members: seq<(string, Json)>)

  /** What an object holds under one key. */
  datatype Lookup = Absent | Present(value: Json) | Duplicated

  /** The member named `key`: absent, present exactly once, or repeated. */
  function LookupKey(members: seq<(string, Json)>, key: string): (r: Lookup)
    ensures r.Absent? <==> forall i :: 0 <= i < |members| ==> members[i].0 != key
    decreases |members|
  {
    if members == [] then Absent
    else
      var rest := LookupKey(members[1..], key);
      if members[0].0 != key then rest
      else if rest.Absent? then Present(members[0].1)
      else Duplicated
  }

  /** A key is `Present(v)` exactly when one member carries it, and its value is `v`. */
  lemma {:induction false} LookupKeyPresent(members: seq<(string, Json)>, key: string, v: Json)
    ensures LookupKey(members, key) == Present(v) <==>
      exists i :: 0 <= i < |members| && members[i] == (key, v) &&
        forall j :: 0 <= j < |members| && j != i ==> members[j].0 != key
    decreases |members|
  {
    if members != [] {
      var rest := members[1..];
      LookupKeyPresent(rest, key, v);
      if LookupKey(members, key) == Present(v) {
        if members[0].0 == key {
          assert members[0] == (key, v);
          assert forall j :: 0 <= j < |members| && j != 0 ==> members[j].0 != key by {
            forall j | 0 <= j < |members| && j != 0 ensures members[j].0 != key {
              assert members[j] == rest[j - 1];
            }
          }
        } else {
          var i :| 0 <= i < |rest| && rest[i] == (key, v) &&
            forall j :: 0 <= j < |rest| && j != i ==> rest[j].0 != key;
          assert members[i + 1] == (key, v);
          forall j | 0 <= j < |members| && j != i + 1 ensures members[j].0 != key {
            if j > 0 { assert members[j] == rest[j - 1]; }
          }
        }
      } else {
        forall i | 0 <= i < |members| && members[i] == (key, v)
          ensures exists j :: 0 <= j < |members| && j != i && members[j].0 == key
        {
          if i == 0 {
            assert members[0].0 == key;
            if LookupKey(rest, key).Absent? { assert false; }
            var k :| 0 <= k < |rest| && rest[k].0 == key;
            assert members[k + 1] == rest[k];
          } else {
            assert rest[i - 1] == (key, v);
            if members[0].0 == key {
              assert members[0].0 == key;
            } else {
              var k :| 0 <= k < |rest| && k != i - 1 && rest[k].0 == key;
              assert members[k + 1] == rest[k];
            }
          }
        }
      }
    }
  }

  /** No key occurs twice. */
  predicate DistinctKeys(members: seq<(string, Json)>)
  {
    forall i, j :: 0 <= i < j < |members| ==> members[i].0 != members[j].0
  }

  /** In an object without repeated keys every member is found under its key. */
  lemma DistinctKeysLookup(members: seq<(string, Json)>, i: nat)
    requires DistinctKeys(members) && i < |members|
    ensures LookupKey(members, members[i].0) == Present(members[i].1)
  {
    LookupKeyPresent(members, members[i].0, members[i].1);
    assert forall j :: 0 <= j < |members| && j != i ==> members[j].0 != members[i].0 by {
      forall j | 0 <= j < |members| && j != i ensures members[j].0 != members[i].0 {
        if j < i { assert members[j].0 != members[i].0; } else { assert members[i].0 != members[j].0; }
      }
    }
  }

  /** A member appended under another key does not change what `key` holds. */
  lemma {:induction false} LookupKeyAppendOther(members: seq<(string, Json)>, other: string, v: Json, key: string)
    requires other != key
    ensures LookupKey(members + [(other, v)], key) == LookupKey(members, key)
    decreases |members|
  {
    if members == [] {
      assert [] + [(other, v)] == [(other, v)];
    } else {
      assert (members + [(other, v)])[1..] == members[1..] + [(other, v)];
      LookupKeyAppendOther(members[1..], other, v, key);
    }
  }
}
