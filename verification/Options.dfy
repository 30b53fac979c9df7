// The source's `option<T>` and nullable pointers, as values.
module Options {
  datatype Option<T> = None | Some(value: T)

  // The values of a sequence of results, the empty results dropped.
  function Somes<T>(rs: seq<Option<T>>): (vs: seq<T>)
    ensures |vs| <= |rs|
  {
    if rs == [] then [] else (if rs[0].Some? then [rs[0].value] else []) + Somes(rs[1..])
  }

  lemma {:induction false} SomesAppend<T>(a: seq<Option<T>>, b: seq<Option<T>>)
    ensures Somes(a + b) == Somes(a) + Somes(b)
  {
    if a == [] {
      assert a + b == b;
    } else {
      var c := a + b;
      assert c[0] == a[0];
      assert c[1..] == a[1..] + b;
      SomesAppend(a[1..], b);
    }
  }
}
