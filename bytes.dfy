/** Bytes and byte buffers: the elements of a `Uint8Array` and its concatenation. */
module Bytes {

  newtype byte = x: int | 0 <= x < 0x100

  /** The buffers of `parts` laid end to end, in order. */
  function Flatten(parts: seq<seq<byte>>): seq<byte>
  {
    if parts == [] then [] else parts[0] + Flatten(parts[1..])
  }

  /** `parts.reduce((acc, val) => acc + val.length, 0)`: a left fold over the lengths. */
  function TotalLength(parts: seq<seq<byte>>): nat
  {
    if parts == [] then 0 else TotalLength(parts[..|parts| - 1]) + |parts[|parts| - 1]|
  }

  lemma {:induction false} FlattenConcat(a: seq<seq<byte>>, b: seq<seq<byte>>)
    ensures Flatten(a + b) == Flatten(a) + Flatten(b)
  {
    if a == [] {
      assert a + b == b;
    } else {
      assert (a + b)[1..] == a[1..] + b;
      FlattenConcat(a[1..], b);
    }
  }

  /** Appending one buffer appends its bytes: the step of the copy loop. */
  lemma FlattenSnoc(parts: seq<seq<byte>>, x: seq<byte>)
    ensures Flatten(parts + [x]) == Flatten(parts) + x
  {
    FlattenConcat(parts, [x]);
    assert Flatten([x]) == x + Flatten([]);
  }

  /** The fold of the lengths is the length of the concatenation. */
  lemma {:induction false} FlattenLength(parts: seq<seq<byte>>)
    ensures |Flatten(parts)| == TotalLength(parts)
  {
    if parts != [] {
      var init := parts[..|parts| - 1];
      assert parts == init + [parts[|parts| - 1]];
      FlattenSnoc(init, parts[|parts| - 1]);
      FlattenLength(init);
    }
  }

  /** The concatenation is the parts before k, part k, and the parts after it. */
  lemma {:induction false} FlattenSplit(parts: seq<seq<byte>>, k: nat)
    requires k < |parts|
    ensures Flatten(parts) == Flatten(parts[..k]) + parts[k] + Flatten(parts[k + 1..])
  {
    if k == 0 {
      assert parts[..0] == [];
    } else {
      var tail := parts[1..];
      FlattenSplit(tail, k - 1);
      assert tail[..k - 1] == parts[..k][1..];
      assert tail[k - 1] == parts[k] && tail[k..] == parts[k + 1..];
      assert Flatten(parts[..k]) == parts[0] + Flatten(tail[..k - 1]);
    }
  }

  /** Part k occupies exactly the bytes from the summed lengths of the parts
      before it up to the summed lengths including it. */
  lemma PartAt(parts: seq<seq<byte>>, k: nat)
    requires k < |parts|
    ensures TotalLength(parts[..k + 1]) == TotalLength(parts[..k]) + |parts[k]|
    ensures TotalLength(parts[..k + 1]) <= |Flatten(parts)|
    ensures Flatten(parts)[TotalLength(parts[..k])..TotalLength(parts[..k + 1])] == parts[k]
  {
    assert parts[..k + 1][..k] == parts[..k];
    FlattenSplit(parts, k);
    FlattenLength(parts[..k]);
    var a, b, c := Flatten(parts[..k]), parts[k], Flatten(parts[k + 1..]);
    assert (a + b + c)[|a|..|a| + |b|] == b;
  }

  /** A concatenation begins with its first part and ends with its last. */
  lemma FirstAndLast(parts: seq<seq<byte>>)
    requires |parts| > 0
    ensures |Flatten(parts)| >= |parts[0]| && |Flatten(parts)| >= |parts[|parts| - 1]|
    ensures Flatten(parts)[..|parts[0]|] == parts[0]
    ensures Flatten(parts)[|Flatten(parts)| - |parts[|parts| - 1]|..] == parts[|parts| - 1]
  {
    var last := parts[|parts| - 1];
    assert parts == parts[..|parts| - 1] + [last];
    FlattenSnoc(parts[..|parts| - 1], last);
  }
}
