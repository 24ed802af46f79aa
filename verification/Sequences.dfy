/** Sequences of sequences, laid end to end. */
module Sequences {

  function Flatten<T>(batches: seq<seq<T>>): seq<T> {
    if batches == [] then [] else batches[0] + Flatten(batches[1..])
  }

  lemma {:induction false} FlattenSnoc<T>(batches: seq<seq<T>>, last: seq<T>)
    ensures Flatten(batches + [last]) == Flatten(batches) + last
  {
    if batches == [] {
      assert [last][1..] == [];
    } else {
      FlattenSnoc(batches[1..], last);
      assert (batches + [last])[1..] == batches[1..] + [last];
      AppendAssociates(batches[0], Flatten(batches[1..]), last);
    }
  }

  lemma FlattenCons<T>(first: seq<T>, rest: seq<seq<T>>)
    ensures Flatten([first] + rest) == first + Flatten(rest)
  {
    assert ([first] + rest)[1..] == rest;
  }

  lemma AppendAssociates<T>(a: seq<T>, b: seq<T>, c: seq<T>)
    ensures a + (b + c) == (a + b) + c
  {
  }
}
