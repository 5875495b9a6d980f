/** Byte sequences, and copying them one after the other into a buffer. */
module Bytes {

  type Byte = bv8

  function Flatten(parts: seq<seq<Byte>>): seq<Byte> {
    if parts == [] then [] else Flatten(parts[..|parts| - 1]) + parts[|parts| - 1]
  }

  lemma FlattenStep(parts: seq<seq<Byte>>, k: nat)
    requires k < |parts|
    ensures Flatten(parts[..k + 1]) == Flatten(parts[..k]) + parts[k]
  {
    assert parts[..k + 1][..k] == parts[..k];
  }

  lemma {:induction false} FlattenGrows(parts: seq<seq<Byte>>, k: nat)
    requires k <= |parts|
    ensures |Flatten(parts[..k])| <= |Flatten(parts)|
    decreases |parts| - k
  {
    if k == |parts| {
      assert parts[..k] == parts;
    } else {
      FlattenStep(parts, k);
      FlattenGrows(parts, k + 1);
    }
  }

  lemma {:induction false} FlattenConcat(a: seq<seq<Byte>>, b: seq<seq<Byte>>)
    ensures Flatten(a + b) == Flatten(a) + Flatten(b)
  {
    if b == [] {
      assert a + b == a;
    } else {
      assert (a + b)[..|a + b| - 1] == a + b[..|b| - 1];
      FlattenConcat(a, b[..|b| - 1]);
    }
  }

  lemma FlattenCons(first: seq<Byte>, rest: seq<seq<Byte>>)
    ensures Flatten([first] + rest) == first + Flatten(rest)
  {
    FlattenConcat([first], rest);
    assert [first][..0] == [];
  }

  /** TypedArray.prototype.set: the rest of the buffer stays. */
  method SetAt(buffer: array<Byte>, part: seq<Byte>, offset: nat)
    requires offset + |part| <= buffer.Length
    modifies buffer
    ensures buffer[..offset + |part|] == old(buffer[..offset]) + part
    ensures buffer[offset + |part|..] == old(buffer[offset + |part|..])
  {
    for i := 0 to |part|
      invariant buffer[..offset + i] == old(buffer[..offset]) + part[..i]
      invariant buffer[offset + i..] == old(buffer[offset + i..])
    {
      buffer[offset + i] := part[i];
    }
  }

  /** Every part at the offset where the one before it ended: the parts fill the buffer. */
  method Concat(parts: seq<seq<Byte>>) returns (result: array<Byte>)
    ensures fresh(result) && result[..] == Flatten(parts)
  {
    var total := 0;
    for k := 0 to |parts|
      invariant total == |Flatten(parts[..k])|
    {
      FlattenStep(parts, k);
      total := total + |parts[k]|;
    }
    assert parts[..|parts|] == parts;
    result := new Byte[total];
    var offset := 0;
    for k := 0 to |parts|
      invariant offset == |Flatten(parts[..k])| <= total
      invariant result[..offset] == Flatten(parts[..k])
    {
      FlattenStep(parts, k);
      FlattenGrows(parts, k + 1);
      SetAt(result, parts[k], offset);
      offset := offset + |parts[k]|;
    }
  }
}
