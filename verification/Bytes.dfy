/** Byte copying as the kernel does it, and little-endian fields. */
module Bytes {

  /** `memcpy` (libs/string.c) and the loop of `my_memcpy`: forward, one byte at a time.  Copying down within one
      buffer is right even when the ranges overlap. */
  method Memcpy(a: array<int>, dest: nat, src: nat, len: nat)
    requires dest <= src && src + len <= a.Length
    modifies a
    ensures a[..] == Copied(old(a[..]), dest, src, len)
  {
    hide Copied;
    var i := 0;
    ghost var s := a[..];
    CopiedNone(s, dest, src);
    while i < len
      invariant 0 <= i <= len && a[..] == Copied(s, dest, src, i)
    {
      CopiedStep(s, dest, src, i);
      assert a[src + i] == a[..][src + i];
      a[dest + i] := a[src + i];
      i := i + 1;
    }
  }

  lemma CopiedNone(s: seq<int>, dest: nat, src: nat)
    requires dest <= |s| && src <= |s|
    ensures Copied(s, dest, src, 0) == s
  {
  }

  lemma CopiedStep(s: seq<int>, dest: nat, src: nat, i: nat)
    requires dest <= src && src + i < |s|
    ensures var c := Copied(s, dest, src, i); c[dest + i := c[src + i]] == Copied(s, dest, src, i + 1)
  {
    var c := Copied(s, dest, src, i);
    assert c[dest + i := c[src + i]] == Copied(s, dest, src, i + 1);
  }

  /** `len` elements of s from src on moved to dest. */
  function Copied(s: seq<int>, dest: nat, src: nat, len: nat): (r: seq<int>)
    requires dest + len <= |s| && src + len <= |s|
    ensures |r| == |s|
    ensures forall j :: 0 <= j < |s| ==> r[j] == if dest <= j < dest + len then s[j - dest + src] else s[j]
  {
    s[..dest] + s[src..src + len] + s[dest + len..]
  }

  /** The mailbox buffer: `buffer` and `buffer_idx`. */
  class MailBuffer {
    const buffer: array<int>
    var idx: nat

    ghost predicate Valid()
      reads this
    {
      buffer.Length == 64 && idx <= 64
    }

    ghost function Contents(): seq<int>
      reads this, buffer
      requires Valid()
    {
      buffer[..idx]
    }

    constructor ()
      ensures Valid() && Contents() == [] && fresh(buffer)
    {
      buffer, idx := new int[64](i => 0), 0;
    }

    /** The copy of `do_mbox_send`: the message goes behind the valid bytes. */
    method Append(msg: array<int>)
      requires Valid() && msg != buffer && idx + msg.Length <= 64
      modifies this`idx, buffer
      ensures Valid() && Contents() == old(Contents()) + msg[..]
    {
      var i := 0;
      while i < msg.Length
        invariant 0 <= i <= msg.Length && idx == old(idx) && buffer[..idx + i] == old(buffer[..idx]) + msg[..i]
      {
        buffer[idx + i] := msg[i];
        i := i + 1;
        assert msg[..i] == msg[..i - 1] + [msg[i - 1]];
      }
      idx := idx + msg.Length;
      assert msg[..i] == msg[..];
    }

    /** The copies of `do_mbox_recv`: the oldest bytes are handed out, the rest moves to the front. */
    method TakeFront(msg: array<int>)
      requires Valid() && msg != buffer && msg.Length <= idx
      modifies this`idx, buffer, msg
      ensures Valid() && msg[..] == old(Contents())[..msg.Length] && Contents() == old(Contents())[msg.Length..]
    {
      hide Copied;
      var i := 0;
      while i < msg.Length
        invariant 0 <= i <= msg.Length && buffer[..] == old(buffer[..]) && idx == old(idx) && msg[..i] == buffer[..i]
      {
        msg[i] := buffer[i];
        i := i + 1;
        assert buffer[..i] == buffer[..i - 1] + [buffer[i - 1]];
      }
      assert msg[..i] == msg[..];
      var remain := idx - msg.Length;
      FrontMoved(buffer[..], msg.Length, remain);
      Memcpy(buffer, 0, msg.Length, remain);
      idx := remain;
      assert buffer[..idx] == buffer[..][..idx];
    }
  }

  lemma FrontMoved(s: seq<int>, n: nat, remain: nat)
    requires n + remain <= |s|
    ensures Copied(s, 0, n, remain)[..remain] == s[..n + remain][n..]
  {
  }

  // ---------------------------------------------------------------- fields

  /** n as k bytes, the lowest first. */
  function Encode(n: int, k: nat): (r: seq<int>)
    ensures |r| == k && forall i :: 0 <= i < k ==> 0 <= r[i] < 256
    decreases k
  {
    if k == 0 then [] else [n % 256] + Encode(n / 256, k - 1)
  }

  function Decode(s: seq<int>): int {
    if s == [] then 0 else s[0] + 256 * Decode(s[1..])
  }

  function Pow256(k: nat): nat {
    if k == 0 then 1 else 256 * Pow256(k - 1)
  }

  lemma {:induction false} DecodeEncode(n: int, k: nat)
    requires 0 <= n < Pow256(k)
    ensures Decode(Encode(n, k)) == n
  {
    if k > 0 {
      DecodeEncode(n / 256, k - 1);
      assert Encode(n, k)[1..] == Encode(n / 256, k - 1);
    }
  }
}
