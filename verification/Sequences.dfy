// Concatenation of a list of sequences, used for buffers, batches and chunks alike.
module Sequences {
  function Flatten<T>(ss: seq<seq<T>>): seq<T>
  {
    if ss == [] then [] else ss[0] + Flatten(ss[1..])
  }

  lemma {:induction false} FlattenConcat<T>(a: seq<seq<T>>, b: seq<seq<T>>)
    ensures Flatten(a + b) == Flatten(a) + Flatten(b)
  {
    if a == [] {
      assert a + b == b;
    } else {
      assert (a + b)[1..] == a[1..] + b;
      FlattenConcat(a[1..], b);
    }
  }

  lemma FlattenSnoc<T>(ss: seq<seq<T>>, s: seq<T>)
    ensures Flatten(ss + [s]) == Flatten(ss) + s
  {
    FlattenConcat(ss, [s]);
    assert Flatten([s]) == s + Flatten<T>([]);
  }

  lemma FlattenTake<T>(ss: seq<seq<T>>, k: nat)
    requires k < |ss|
    ensures Flatten(ss[..k + 1]) == Flatten(ss[..k]) + ss[k]
  {
    assert ss[..k + 1] == ss[..k] + [ss[k]];
    FlattenSnoc(ss[..k], ss[k]);
  }

  lemma FlattenDrop<T>(ss: seq<seq<T>>, k: nat)
    requires k < |ss|
    ensures Flatten(ss[k..]) == ss[k] + Flatten(ss[k + 1..])
  {
    assert ss[k..][1..] == ss[k + 1..];
  }

  lemma FlattenCut<T>(ss: seq<seq<T>>, k: nat)
    requires k <= |ss|
    ensures Flatten(ss) == Flatten(ss[..k]) + Flatten(ss[k..])
  {
    assert ss == ss[..k] + ss[k..];
    FlattenConcat(ss[..k], ss[k..]);
  }

  // The piece ss[k] sits in the flat sequence right after the pieces before it.
  lemma FlattenSplit<T>(ss: seq<seq<T>>, k: nat)
    requires k < |ss|
    ensures Flatten(ss) == Flatten(ss[..k]) + ss[k] + Flatten(ss[k + 1..])
    ensures Flatten(ss[..k + 1]) == Flatten(ss[..k]) + ss[k]
    ensures Flatten(ss[k..]) == ss[k] + Flatten(ss[k + 1..])
  {
    hide Flatten;
    FlattenTake(ss, k);
    FlattenDrop(ss, k);
    FlattenCut(ss, k);
  }
}
