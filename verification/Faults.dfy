/** Calls into the operating system that may fail, and processes that may die between any two of them. */
module Faults {
  import opened Json

  datatype Io = Good | Bad

  /** I/O outcomes to come; when they run out the process dies. */
  class Environment {
    var script: seq<Io>

    constructor (script: seq<Io>)
      ensures this.script == script
    {
      this.script := script;
    }

    method Take() returns (io: Option<Io>)
      modifies this
      ensures old(script) == [] ==> io == None && script == []
      ensures old(script) != [] ==> io == Some(old(script)[0]) && script == old(script)[1..]
    {
      if script == [] { return None; }
      io, script := Some(script[0]), script[1..];
    }
  }

  predicate AllGood(script: seq<Io>) { forall i :: 0 <= i < |script| ==> script[i].Good? }

  /** The next `k` calls work. */
  predicate Goods(script: seq<Io>, k: nat) { k <= |script| && forall i :: 0 <= i < k ==> script[i].Good? }

  /** At most `most` calls were made, and calls that worked so far leave only calls that work. */
  predicate Spent(before: seq<Io>, after: seq<Io>, most: nat) {
    |before| <= |after| + most && (AllGood(before) ==> AllGood(after))
  }

  /** How an operation ends: it returns, it raises, or its process dies inside it. */
  datatype Outcome = Returned | Raised | Died
}
