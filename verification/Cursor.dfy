/**
 A write cursor over a buffer of fixed size.
 */
module Cursor {
  import opened Types

  /** Parts written one after the other. */
  function Joined(parts: seq<Bytes>): Bytes {
    if parts == [] then [] else parts[0] + Joined(parts[1..])
  }

  class Writer {
    const buffer: array<Octet>
    var position: nat

    ghost predicate Valid()
      reads this
    {
      position <= buffer.Length
    }

    ghost function Written(): Bytes
      requires Valid()
      reads this, buffer
    {
      buffer[..position]
    }

    constructor (buffer: array<Octet>)
      ensures Valid() && this.buffer == buffer && position == 0
    {
      this.buffer, position := buffer, 0;
    }

    /** Appends octets when all of them fit. */
    method Put(bs: Bytes) returns (ok: bool)
      requires Valid()
      modifies this, buffer
      ensures Valid() && ok == (old(position) + |bs| <= buffer.Length)
      ensures Written() == if ok then old(Written()) + bs else old(Written())
    {
      ok := position + |bs| <= buffer.Length;
      if !ok {
        return;
      }
      for i := 0 to |bs|
        invariant Valid() && position == old(position)
        invariant buffer[..position] == old(buffer[..position])
        invariant buffer[position..position + i] == bs[..i]
      {
        buffer[position + i] := bs[i];
      }
      position := position + |bs|;
      assert buffer[..position] == buffer[..old(position)] + buffer[old(position)..position];
    }

    /** Appends parts one after the other until one does not fit. */
    method PutAll(parts: seq<Bytes>) returns (ok: bool)
      requires Valid()
      modifies this, buffer
      ensures Valid() && ok == (old(position) + |Joined(parts)| <= buffer.Length)
      ensures old(Written()) <= Written()
      ensures ok ==> Written() == old(Written()) + Joined(parts)
    {
      ok := true;
      ghost var start := Written();
      ghost var done: Bytes := [];
      assert [] + Joined(parts) == Joined(parts);
      for i := 0 to |parts|
        invariant Valid() && Written() == start + done && done + Joined(parts[i..]) == Joined(parts)
      {
        assert parts[i..][1..] == parts[i + 1..];
        assert |done| + |parts[i]| <= |Joined(parts)|;
        ok := Put(parts[i]);
        if !ok {
          return;
        }
        assert done + (parts[i] + Joined(parts[i + 1..])) == done + parts[i] + Joined(parts[i + 1..]);
        assert start + done + parts[i] == start + (done + parts[i]);
        done := done + parts[i];
      }
      assert done + [] == done;
    }

    /** Overwrites an octet already written. */
    method Patch(i: nat, x: Octet)
      requires Valid() && i < position
      modifies buffer
      ensures Written() == old(Written())[i := x]
    {
      buffer[i] := x;
    }
  }
}
