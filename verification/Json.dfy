/** JSON values as a parser delivers them: object members keep their textual order, so a
    duplicate name is still visible.  Numbers are exact; lexing is not modelled. */
module Json {

  datatype Option<+T> = None | Some(value: T)

  datatype Member = Member(name: string, value: Json)

  datatype Json =
    | Null
    | Bool(b: bool)
    | Int(n: int)
    | Float(r: real)
    | Str(s: string)
    | Arr(items: seq<Json>)
    | Obj(members: seq<Member>)

  function Names(ms: seq<Member>): set<string> {
    set i | 0 <= i < |ms| :: ms[i].name
  }

  predicate DistinctNames(ms: seq<Member>) {
    forall i, j :: 0 <= i < j < |ms| ==> ms[i].name != ms[j].name
  }

  /** `dict.get`: the value of the first member called `name`. */
  function Lookup(ms: seq<Member>, name: string): Option<Json> {
    if ms == [] then None
    else if ms[0].name == name then Some(ms[0].value)
    else Lookup(ms[1..], name)
  }

  /** It finds a member exactly when there is one. */
  lemma {:induction false} LookupMeans(ms: seq<Member>, name: string)
    ensures Lookup(ms, name).Some? <==> name in Names(ms)
    ensures Lookup(ms, name).Some? ==> exists i :: 0 <= i < |ms| && ms[i] == Member(name, Lookup(ms, name).value)
  {
    if ms != [] && ms[0].name != name {
      LookupMeans(ms[1..], name);
      assert forall i :: 0 < i < |ms| ==> ms[i] == ms[1..][i - 1];
      assert forall i :: 0 <= i < |ms[1..]| ==> ms[1..][i] == ms[i + 1];
    }
  }

  lemma {:induction false} LookupAt(ms: seq<Member>, i: nat)
    requires DistinctNames(ms) && i < |ms|
    ensures Lookup(ms, ms[i].name) == Some(ms[i].value)
  {
    if i > 0 { LookupAt(ms[1..], i - 1); }
  }
}
