/**
 The rope of buffers in front of the wire parser (src/utils.ts). Its meaning is one flat
 byte queue: appending adds at the back, reading takes from the front, and how the bytes
 are cut into buffers is never visible.
 */
module BufferPools {
  import opened Wrappers
  import opened Sequences
  import opened Bytes

  class BufferPool {
    var buffers: seq<seq<byte>>
    var length: nat

    ghost predicate Valid()
      reads this
    {
      length == |Flatten(buffers)|
    }

    ghost function Contents(): seq<byte>
      reads this
    {
      Flatten(buffers)
    }

    constructor ()
      ensures Valid() && Contents() == []
    {
      buffers, length := [], 0;
    }

    method Append(buffer: seq<byte>)
      requires Valid()
      modifies this
      ensures Valid() && Contents() == old(Contents()) + buffer
    {
      FlattenSnoc(buffers, buffer);
      buffers := buffers + [buffer];
      length := length + |buffer|;
    }

    method Peek(size: int) returns (r: Result<seq<byte>, string>)
      requires Valid()
      modifies this
      ensures Valid() && buffers == old(buffers) && length == old(length)
      ensures r == if size < 0 then Err("Argument \"size\" must be a non-negative number")
                   else if size > |Contents()| then Ok([])
                   else Ok(Contents()[..size])
    {
      r := Read(size, false);
    }

    method Read(size: int, consume: bool) returns (r: Result<seq<byte>, string>)
      requires Valid()
      modifies this
      ensures Valid()
      ensures r == if size < 0 then Err("Argument \"size\" must be a non-negative number")
                   else if size > |old(Contents())| then Ok([])
                   else Ok(old(Contents())[..size])
      ensures consume && 0 <= size <= |old(Contents())| ==> Contents() == old(Contents())[size..]
      ensures !consume || size < 0 || size > |old(Contents())| ==> buffers == old(buffers) && length == old(length)
    {
      if size < 0 {
        return Err("Argument \"size\" must be a non-negative number");
      }
      if size > length {
        return Ok([]);
      }
      ghost var whole := Flatten(buffers);
      if size == length {
        var all := Concat(buffers);
        assert all == whole[..size];
        r := Ok(all);
        if consume {
          buffers, length := [], 0;
        }
      } else if size <= |buffers[0]| {
        var first := buffers[0];
        assert first[..size] == whole[..size];
        r := Ok(first[..size]);
        if consume {
          buffers := buffers[0 := first[size..]];
          assert buffers[1..] == old(buffers)[1..];
          length := length - size;
        }
      } else {
        var result := ReadAcross(size, consume);
        r := Ok(result);
      }
    }

    // The read that runs past the first buffer: copy buffer by buffer into a fresh one.
    method ReadAcross(size: nat, consume: bool) returns (r: seq<byte>)
      requires Valid() && 0 < size < length
      modifies this
      ensures Valid() && r == old(Contents())[..size]
      ensures consume ==> Contents() == old(Contents())[size..]
      ensures !consume ==> buffers == old(buffers) && length == old(length)
    {
      ghost var ropes := buffers;
      assert ropes[..|ropes|] == ropes;
      assert Flatten(ropes[..0]) == [];
      hide Flatten;
      var result := new byte[size];
      var idx, offset, bytesToCopy := 0, 0, size;
      while bytesToCopy > |buffers[idx]|
        invariant 0 <= idx < |ropes| && 0 < bytesToCopy && 0 <= offset && offset + bytesToCopy == size
        invariant buffers == ropes && length == old(length)
        invariant result[..offset] == Flatten(ropes[..idx])
        decreases |ropes| - idx
      {
        FlattenSplit(ropes, idx);
        var bytesCopied := Copy(buffers[idx], result, offset, 0, |buffers[idx]|);
        assert result[..offset + bytesCopied] == result[..offset] + result[offset..offset + bytesCopied];
        offset := offset + bytesCopied;
        bytesToCopy := bytesToCopy - bytesCopied;
        idx := idx + 1;
      }
      FlattenSplit(ropes, idx);
      var bytesCopied := Copy(buffers[idx], result, offset, 0, bytesToCopy);
      r := result[..];
      assert r == result[..offset] + result[offset..offset + bytesCopied];
      CutWithin(ropes, idx, bytesToCopy);
      if consume {
        DropBefore(idx, bytesCopied, size);
      }
    }

    // The first `cut` bytes of buffer idx and all buffers before it are consumed.
    method DropBefore(idx: nat, cut: nat, size: nat)
      requires Valid() && idx < |buffers| && cut <= |buffers[idx]| && size == |Flatten(buffers[..idx])| + cut
      modifies this
      ensures Valid() && size <= |old(Contents())| && Contents() == old(Contents())[size..]
    {
      hide Flatten;
      ghost var ropes := buffers;
      CutWithin(ropes, idx, cut);
      buffers := buffers[idx := buffers[idx][cut..]];
      buffers := buffers[idx..];
      length := length - size;
      assert buffers == [ropes[idx][cut..]] + ropes[idx + 1..];
    }
  }

  // Cutting the rope inside buffer k: what lies before the cut and what is left after it.
  lemma CutWithin(ropes: seq<seq<byte>>, k: nat, cut: nat)
    requires k < |ropes| && cut <= |ropes[k]|
    ensures var at := |Flatten(ropes[..k])| + cut;
      && at <= |Flatten(ropes)|
      && Flatten(ropes)[..at] == Flatten(ropes[..k]) + ropes[k][..cut]
      && Flatten(ropes)[at..] == Flatten([ropes[k][cut..]] + ropes[k + 1..])
  {
    FlattenSplit(ropes, k);
    FlattenConcat([ropes[k][cut..]], ropes[k + 1..]);
    assert Flatten([ropes[k][cut..]]) == ropes[k][cut..] + Flatten<byte>([]);
  }

  // Buffer.concat
  method Concat(buffers: seq<seq<byte>>) returns (r: seq<byte>)
    ensures r == Flatten(buffers)
  {
    r := [];
    for i := 0 to |buffers|
      invariant r == Flatten(buffers[..i])
    {
      FlattenSplit(buffers, i);
      r := r + buffers[i];
    }
    assert buffers[..|buffers|] == buffers;
  }
}
