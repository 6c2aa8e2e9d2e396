/** The part of an HTTP response the handlers decide: a status code and a
    JSON body whose object members keep their insertion order. */
module Http {
  import opened Wrappers

  datatype Json =
    | Null
    | Bool(b: bool)
    | Str(s: string)
    | Object(members: seq<(string, Json)>)

  datatype Response = Response(status: nat, body: Json)

  /** The keys of an object body, in order. */
  function Keys(members: seq<(string, Json)>): (keys: seq<string>)
    ensures |keys| == |members|
    ensures forall i :: 0 <= i < |members| ==> keys[i] == members[i].0
  {
    if members == [] then [] else [members[0].0] + Keys(members[1..])
  }

  /** `body[key]` on an object's members: the first member named `key`. */
  function Lookup(members: seq<(string, Json)>, key: string): (r: Option<Json>)
    ensures r.Some? <==> key in Keys(members)
  {
    if members == [] then None
    else if members[0].0 == key then Some(members[0].1)
    else Lookup(members[1..], key)
  }

  /** The value found is that of the first member with the key. */
  lemma {:induction false} LookupAt(members: seq<(string, Json)>, i: nat, key: string)
    requires i < |members| && members[i].0 == key
    requires forall j :: 0 <= j < i ==> members[j].0 != key
    ensures Lookup(members, key) == Some(members[i].1)
  {
    if i > 0 {
      LookupAt(members[1..], i - 1, key);
    }
  }

  /** Members appended after the first member with the key do not change
      what is found. */
  lemma LookupInHead(head: seq<(string, Json)>, tail: seq<(string, Json)>, i: nat, key: string)
    requires i < |head| && head[i].0 == key
    requires forall j :: 0 <= j < i ==> head[j].0 != key
    ensures Lookup(head + tail, key) == Some(head[i].1)
  {
    LookupAt(head + tail, i, key);
  }

  /** `...(value && { key: value })`: the member is added only when the
      value is a non-empty string. */
  function Spread(key: string, value: Option<string>): (r: seq<(string, Json)>)
    ensures |r| <= 1
    ensures r != [] <==> value.Some? && value.value != ""
    ensures r != [] ==> r[0] == (key, Str(value.value))
  {
    if value.Some? && value.value != "" then [(key, Str(value.value))] else []
  }

  /** `res.status(500).json({ error, details })`. */
  function Failure(error: string, details: string): Response {
    Response(500, Object([("error", Str(error)), ("details", Str(details))]))
  }

  /** Every failure response says what failed and passes the cause on
      verbatim, under `details`. */
  lemma FailureCarriesCause(error: string, details: string)
    ensures Failure(error, details).status == 500
    ensures Lookup(Failure(error, details).body.members, "error") == Some(Str(error))
    ensures Lookup(Failure(error, details).body.members, "details") == Some(Str(details))
    ensures Keys(Failure(error, details).body.members) == ["error", "details"]
  {
  }
}
