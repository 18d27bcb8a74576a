/** Machine integers and the few wrappers that every module shares. */
module Basics {

  newtype uint64 = x: int | 0 <= x < 0x1_0000_0000_0000_0000
  newtype int64 = x: int | -0x8000_0000_0000_0000 <= x < 0x8000_0000_0000_0000
  newtype int32 = x: int | -0x8000_0000 <= x < 0x8000_0000

  datatype Option<+T> = None | Some(value: T)

  /** The elements of a sequence, as a set. */
  function Elems<T>(s: seq<T>): set<T> {
    set x | x in s
  }

  function Init<T>(s: seq<T>): seq<T>
    requires s != []
  {
    s[..|s| - 1]
  }

  function Last<T>(s: seq<T>): T
    requires s != []
  {
    s[|s| - 1]
  }

  lemma InitPrefix<T>(s: seq<T>, n: nat)
    requires n < |s|
    ensures s[..n + 1] != [] && Init(s[..n + 1]) == s[..n] && Last(s[..n + 1]) == s[n]
  {
  }

  lemma ElemsSnoc<T>(s: seq<T>)
    requires s != []
    ensures Elems(s) == Elems(Init(s)) + {Last(s)}
  {
    assert s == Init(s) + [Last(s)];
  }
}
