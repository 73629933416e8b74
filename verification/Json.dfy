/** Parsed JSON as the service's Python code sees it: objects keep the order in which their
    keys were read, and a number is carried as the text `str()` prints for it. */
module Json {
  import opened Prelude

  datatype Json =
    | Null
    | Bool(b: bool)
    | Num(text: string, zero: bool)
    | Str(s: string)
    | Arr(elems: seq<Json>)
    | Obj(members: seq<Member>)

  datatype Member = Member(key: string, value: Json)

  /** Python truthiness: the test behind `if val:`. */
  predicate Truthy(v: Json) {
    match v
    case Null => false
    case Bool(b) => b
    case Num(_, zero) => !zero
    case Str(s) => s != ""
    case Arr(elems) => elems != []
    case Obj(members) => members != []
  }

  /** Falsy are null, false, the number zero and what is empty. */
  lemma FalsyIff(v: Json)
    ensures !Truthy(v) <==> v in {Null, Bool(false), Str(""), Arr([]), Obj([])} || (v.Num? && v.zero)
  {
  }

  predicate IsLeaf(v: Json) {
    !v.Arr? && !v.Obj?
  }

  /** `str(v)` of a leaf. */
  function LeafText(v: Json): string
    requires IsLeaf(v)
  {
    match v
    case Null => "None"
    case Bool(b) => if b then "True" else "False"
    case Num(text, _) => text
    case Str(s) => s
  }

  /** The value under a key, if the object has it. */
  function Lookup(members: seq<Member>, key: string): Option<Json> {
    if members == [] then None
    else if members[0].key == key then Some(members[0].value)
    else Lookup(members[1..], key)
  }

  /** `d.get(key)`: a missing key and a JSON null are both Python's None. */
  function Get(members: seq<Member>, key: string): Json {
    var found := Lookup(members, key);
    if found.Some? then found.value else Null
  }

  /** A Python dict holds each key once. */
  predicate DistinctKeys(members: seq<Member>) {
    forall i, j :: 0 <= i < j < |members| ==> members[i].key != members[j].key
  }

  lemma {:induction false} LookupAt(members: seq<Member>, i: nat)
    requires DistinctKeys(members) && i < |members|
    ensures Lookup(members, members[i].key) == Some(members[i].value)
  {
    if i > 0 {
      LookupAt(members[1..], i - 1);
    }
  }

  lemma {:induction false} LookupFinds(members: seq<Member>, key: string)
    ensures Lookup(members, key).Some? <==> exists i :: 0 <= i < |members| && members[i].key == key
  {
    if members != [] {
      LookupFinds(members[1..], key);
      if i :| 0 <= i < |members[1..]| && members[1..][i].key == key {
        assert members[i + 1].key == key;
      }
      if i :| 0 <= i < |members| && members[i].key == key {
        if i > 0 {
          assert members[1..][i - 1].key == key;
        }
      }
    }
  }
}
