/** What every part uses: optional values, the next key of an iteration, and facts about sequences. */
module Basics {
  datatype Option<+T> = None | Some(value: T)

  /** The next key of a map iteration, in whatever order. */
  method PickAny<T(==)>(keys: set<T>) returns (key: T)
    requires keys != {}
    ensures key in keys
  {
    key :| key in keys;
  }

  lemma Reassociate<T>(a: seq<T>, b: seq<T>, c: seq<T>)
    ensures a + (b + c) == a + b + c
  {
  }

  lemma HeadApart<T>(a: seq<T>, b: seq<T>)
    requires a != []
    ensures a + b == [a[0]] + (a[1..] + b)
  {
  }
}
