/** Numbered records, whatever they carry, and where a log of them is cut; and two facts about slices. */
module Frames {

  datatype Frame<T> = Frame(index: nat, body: T)

  /** Records numbered from `start` on. */
  function Framed<T>(start: nat, bodies: seq<T>): (r: seq<Frame<T>>)
    ensures |r| == |bodies|
  {
    seq(|bodies|, k requires 0 <= k < |bodies| => Frame(start + k, bodies[k]))
  }

  /** Position of the first frame that carries `index`, or the end. */
  function Position<T>(frames: seq<Frame<T>>, index: nat): (k: nat)
    ensures k <= |frames|
    ensures k < |frames| ==> frames[k].index == index
    ensures forall j :: 0 <= j < k ==> frames[j].index != index
  {
    if frames == [] || frames[0].index == index then 0 else 1 + Position(frames[1..], index)
  }

  lemma Rejoin<T>(s: seq<T>, i: nat, j: nat)
    requires i + j <= |s|
    ensures s[..i + j] + s[i..][j..] == s
  {
    DropDrop(s, i, j);
    TakeDrop(s, i + j);
  }

  lemma SliceTake<T>(s: seq<T>, i: nat, j: nat, k: nat)
    requires i + j <= k <= |s|
    ensures s[i..k][..j] == s[i..i + j]
  {
  }

  lemma TakeDrop<T>(s: seq<T>, k: nat)
    requires k <= |s|
    ensures s == s[..k] + s[k..]
  {
  }

  /** Dropping inside the first part of a concatenation. */
  lemma DropConcat<T>(a: seq<T>, b: seq<T>, d: nat)
    requires d <= |a|
    ensures (a + b)[d..] == a[d..] + b
  {
  }

  lemma DropTake<T>(s: seq<T>, d: nat, k: nat)
    requires d <= k <= |s|
    ensures s[..k][d..] == s[d..][..k - d]
  {
  }

  lemma TakeAll<T>(s: seq<T>)
    ensures s[..|s|] == s && s[0..] == s && s[0..|s|] == s
  {
  }

  lemma DropDrop<T>(s: seq<T>, i: nat, j: nat)
    requires i + j <= |s|
    ensures s[i..][j..] == s[i + j..]
  {
  }

  lemma DropSlice<T>(s: seq<T>, i: nat, j: nat, k: nat)
    requires j <= k && i + k <= |s|
    ensures s[i..][j..k] == s[i + j..i + k]
  {
    var a, b := s[i..][j..k], s[i + j..i + k];
    assert forall x :: 0 <= x < |a| ==> a[x] == s[i + j + x];
    assert a == b;
  }
}
