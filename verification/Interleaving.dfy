/** Interleavings of sequences. */
module Interleaving {

  /** `out` is built by repeatedly appending to it the next element of some part: every part appears
      in order, nothing else appears. */
  ghost predicate Shuffle<T>(parts: seq<seq<T>>, out: seq<T>)
    decreases |out|
  {
    if out == [] then
      forall i :: 0 <= i < |parts| ==> parts[i] == []
    else
      exists i :: LastFrom(parts, out, i) && Shuffle(parts[i := parts[i][..|parts[i]| - 1]], out[..|out| - 1])
  }

  predicate LastFrom<T(==)>(parts: seq<seq<T>>, out: seq<T>, i: int) {
    0 <= i < |parts| && parts[i] != [] && out != [] && parts[i][|parts[i]| - 1] == out[|out| - 1]
  }

  /** Appending an element to one part and to the whole. */
  lemma ShuffleAppend<T>(parts: seq<seq<T>>, out: seq<T>, i: nat, x: T)
    requires Shuffle(parts, out) && i < |parts|
    ensures Shuffle(parts[i := parts[i] + [x]], out + [x])
  {
    var parts', out' := parts[i := parts[i] + [x]], out + [x];
    assert LastFrom(parts', out', i);
    assert parts'[i := parts'[i][..|parts'[i]| - 1]] == parts by {
      assert (parts[i] + [x])[..|parts[i]|] == parts[i];
    }
    assert out'[..|out'| - 1] == out;
  }

  /** Nothing is lost or added: the lengths of the parts add up to the length of the whole. */
  lemma {:induction false} ShuffleLength<T>(parts: seq<seq<T>>, out: seq<T>)
    requires Shuffle(parts, out)
    ensures TotalLength(parts) == |out|
    decreases |out|
  {
    if out == [] {
      EmptyParts(parts);
    } else {
      var i :| LastFrom(parts, out, i) && Shuffle(parts[i := parts[i][..|parts[i]| - 1]], out[..|out| - 1]);
      ShuffleLength(parts[i := parts[i][..|parts[i]| - 1]], out[..|out| - 1]);
      TotalUpdate(parts, i, parts[i][..|parts[i]| - 1]);
    }
  }

  function TotalLength<T>(parts: seq<seq<T>>): nat {
    if parts == [] then 0 else TotalLength(parts[..|parts| - 1]) + |parts[|parts| - 1]|
  }

  lemma {:induction false} EmptyParts<T>(parts: seq<seq<T>>)
    requires forall i :: 0 <= i < |parts| ==> parts[i] == []
    ensures TotalLength(parts) == 0
  {
    if parts != [] {
      EmptyParts(parts[..|parts| - 1]);
    }
  }

  lemma {:induction false} TotalUpdate<T>(parts: seq<seq<T>>, i: nat, part: seq<T>)
    requires i < |parts|
    ensures TotalLength(parts[i := part]) == TotalLength(parts) - |parts[i]| + |part|
  {
    var n := |parts| - 1;
    if i == n {
      assert parts[i := part][..n] == parts[..n];
    } else {
      assert parts[i := part][..n] == parts[..n][i := part];
      TotalUpdate(parts[..n], i, part);
    }
  }
}
