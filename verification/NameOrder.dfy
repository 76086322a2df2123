/** `sorted` on names: the order of strings by character code, and a list of a set's names in it. */
module NameOrder {

  /** `a <= b` in Python. */
  predicate AtMost(a: string, b: string) {
    a == "" || (b != "" && (a[0] < b[0] || (a[0] == b[0] && AtMost(a[1..], b[1..]))))
  }

  lemma {:induction false} Total(a: string, b: string)
    ensures AtMost(a, b) || AtMost(b, a)
    ensures AtMost(a, a)
  {
    if a != "" {
      Total(a[1..], if b == "" then "" else b[1..]);
    }
  }

  lemma {:induction false} Antisymmetric(a: string, b: string)
    requires AtMost(a, b) && AtMost(b, a)
    ensures a == b
  {
    if a != "" && b != "" {
      Antisymmetric(a[1..], b[1..]);
      assert a == [a[0]] + a[1..] && b == [b[0]] + b[1..];
    }
  }

  lemma {:induction false} Transitive(a: string, b: string, c: string)
    requires AtMost(a, b) && AtMost(b, c)
    ensures AtMost(a, c)
  {
    if a != "" && b != "" && c != "" && a[0] == b[0] == c[0] { Transitive(a[1..], b[1..], c[1..]); }
  }

  ghost function Prefix(names: seq<string>, n: nat): set<string>
    requires n <= |names|
  {
    set i | 0 <= i < n :: names[i]
  }

  /** Exactly the names of `all`, each once, in order. */
  ghost predicate Listing(names: seq<string>, all: set<string>) {
    && Prefix(names, |names|) == all
    && forall i, j :: 0 <= i < j < |names| ==> names[i] != names[j] && AtMost(names[i], names[j])
  }

  method Least(names: set<string>) returns (least: string)
    requires names != {}
    ensures least in names && forall name :: name in names ==> AtMost(least, name)
  {
    least :| least in names;
    var rest := names - {least};
    Total(least, least);
    while rest != {}
      invariant least in names && rest <= names
      invariant forall name :: name in names - rest ==> AtMost(least, name)
      decreases rest
    {
      var next :| next in rest;
      Total(least, next);
      Total(next, next);
      if !AtMost(least, next) {
        forall name | name in names - rest ensures AtMost(next, name) { Transitive(next, least, name); }
        least := next;
      }
      rest := rest - {next};
    }
  }

  lemma PrefixNone(names: seq<string>)
    ensures Prefix(names, 0) == {}
  {
  }

  lemma PrefixGrows(names: seq<string>, name: string)
    ensures Prefix(names + [name], |names| + 1) == Prefix(names, |names|) + {name}
  {
    var more := names + [name];
    forall other | other in Prefix(names, |names|) + {name} ensures other in Prefix(more, |more|) {
      if other == name {
        assert more[|names|] == name;
      } else {
        var i :| 0 <= i < |names| && names[i] == other;
        assert more[i] == other;
      }
    }
  }

  /** `sorted(names)`. */
  method Sorted(names: set<string>) returns (listed: seq<string>)
    ensures Listing(listed, names)
  {
    listed := [];
    var rest := names;
    while rest != {}
      invariant Listing(listed, names - rest) && rest <= names
      invariant forall i, name :: 0 <= i < |listed| && name in rest ==> AtMost(listed[i], name)
      decreases rest
    {
      var least := Least(rest);
      PrefixGrows(listed, least);
      forall i | 0 <= i < |listed| ensures listed[i] != least { assert listed[i] in Prefix(listed, |listed|); }
      listed, rest := listed + [least], rest - {least};
    }
  }
}
