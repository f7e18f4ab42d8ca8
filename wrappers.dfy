/** Option and Result, the two failure-carrying wrappers the model uses.
    `Err` stands for a Python exception the source lets escape (a KeyError,
    an AttributeError on a malformed configuration, a missing file). */
module Wrappers {

  datatype Option<+T> = None | Some(value: T)

  datatype Result<+T> = Ok(value: T) | Err(error: string)

  /** Python's `x or default` for an optional value. */
  function OptionOr<T>(o: Option<T>, default: T): T
  {
    match o
    case Some(v) => v
    case None => default
  }

  /** The elements of a list, as a set. */
  function Elems<T(!new)>(s: seq<T>): (r: set<T>)
    ensures forall x :: x in r <==> x in s
  {
    set x | x in s
  }

  /** The keys of a map, listed in some order, each once. */
  method KeysOf<K(!new), V>(m: map<K, V>) returns (s: seq<K>)
    ensures Elems(s) == m.Keys
    ensures |s| == |m.Keys|
  {
    s := [];
    var rest := m.Keys;
    while rest != {}
      invariant rest <= m.Keys
      invariant Elems(s) == m.Keys - rest
      invariant |s| == |m.Keys - rest|
      decreases |rest|
    {
      var k :| k in rest;
      assert m.Keys - (rest - {k}) == (m.Keys - rest) + {k};
      s := s + [k];
      rest := rest - {k};
    }
  }
}
