/** The bounded sample ring (src/ring.cpp) as a sliding window on everything ever pushed. */
module Ring {
  import opened Iq

  /** The oldest position still held after asking to drop everything before `target`. */
  function Discarded(earliest: nat, next: nat, target: nat): (e: nat)
    ensures earliest <= next ==> earliest <= e <= next
    ensures e <= target || e == earliest
  {
    if target <= earliest then earliest else if target >= next then next else target
  }

  lemma WrapAround(start: nat, k: nat, len: nat)
    requires start < len && k <= len
    ensures (start + k) % len == if start + k < len then start + k else start + k - len
  {
    if start + k >= len {
      assert start + k == 1 * len + (start + k - len);
    }
  }

  class IqRing {
    var buffer: array<Sample>
    var next: nat
    var start: nat
    var size: nat
    // Every sample pushed since the last reset, oldest first.
    ghost var history: seq<Sample>

    ghost predicate Valid()
      reads this, buffer
    {
      && size <= buffer.Length
      && size <= next == |history|
      && (start < buffer.Length || start == buffer.Length == 0)
      && forall k :: 0 <= k < size ==> buffer[Slot(k)] == history[next - size + k]
    }

    /** Index of the k-th held sample. */
    function Slot(k: nat): (r: nat)
      requires start < buffer.Length && k <= buffer.Length
      reads this
      ensures r < buffer.Length
      ensures r == (start + k) % buffer.Length
    {
      WrapAround(start, k, buffer.Length);
      if start + k < buffer.Length then start + k else start + k - buffer.Length
    }

    function Earliest(): nat
      requires size <= next
      reads this
    {
      next - size
    }

    constructor (capacity: nat)
      ensures Valid() && fresh(buffer) && buffer.Length == capacity
      ensures history == [] && next == 0 && Earliest() == 0
    {
      buffer := new Sample[capacity](_ => ZERO);
      next, start, size := 0, 0, 0;
      history := [];
    }

    method Reset(capacity: nat)
      modifies this
      ensures Valid() && fresh(buffer) && buffer.Length == capacity
      ensures history == [] && next == 0 && Earliest() == 0
    {
      buffer := new Sample[capacity](_ => ZERO);
      next, start, size := 0, 0, 0;
      history := [];
    }

    method Push(samples: seq<Sample>) returns (ok: bool)
      requires Valid()
      modifies this`next, this`size, this`history, buffer
      ensures Valid()
      ensures ok <==> samples == [] || old(size) + |samples| <= buffer.Length
      ensures history == if ok then old(history) + samples else old(history)
      ensures Earliest() == old(Earliest())
    {
      if samples == [] {
        return true;
      }
      if |samples| > buffer.Length || size + |samples| > buffer.Length {
        return false;
      }
      for n := 0 to |samples|
        invariant Valid()
        invariant history == old(history) + samples[..n]
        invariant size == old(size) + n && next == old(next) + n
      {
        var index := (start + size) % buffer.Length;
        assert index == Slot(size);
        label before:
        buffer[index] := samples[n];
        size := size + 1;
        next := next + 1;
        history := history + [samples[n]];
        forall k | 0 <= k < size
          ensures buffer[Slot(k)] == history[next - size + k]
        {
          if k < size - 1 {
            assert old@before(buffer[Slot(k)]) == old@before(history[next - size + k]);
          }
        }
        assert samples[..n + 1] == samples[..n] + [samples[n]];
      }
      assert samples[..|samples|] == samples;
      return true;
    }

    method Read(sequence: nat, out: array<Sample>) returns (ok: bool)
      requires Valid() && out != buffer
      modifies out
      ensures ok <==> out.Length == 0 || (Earliest() <= sequence && sequence + out.Length <= next)
      ensures ok && out.Length > 0 ==> out[..] == history[sequence..sequence + out.Length]
      ensures !ok ==> out[..] == old(out[..])
    {
      if out.Length == 0 {
        return true;
      }
      if sequence < Earliest() || sequence + out.Length > next || buffer.Length == 0 {
        return false;
      }
      var offset := sequence - Earliest();
      for n := 0 to out.Length
        invariant out[..n] == history[sequence..sequence + n]
        invariant Valid()
      {
        assert (start + offset + n) % buffer.Length == Slot(offset + n);
        out[n] := buffer[(start + offset + n) % buffer.Length];
        assert out[..n + 1] == out[..n] + [out[n]];
      }
      assert out[..out.Length] == out[..];
      return true;
    }

    method DiscardBefore(sequence: nat)
      requires Valid()
      modifies this`start, this`size
      ensures Valid()
      ensures Earliest() == Discarded(old(Earliest()), next, sequence)
    {
      var earliest := Earliest();
      if sequence <= earliest || size == 0 {
        return;
      }
      if sequence >= next {
        start := 0;
        size := 0;
        return;
      }
      var count := sequence - earliest;
      ghost var was := start;
      start := (start + count) % buffer.Length;
      size := size - count;
      forall k | 0 <= k < size
        ensures buffer[Slot(k)] == history[next - size + k]
      {
        WrapAround(was, count, buffer.Length);
        WrapAround(was, count + k, buffer.Length);
        WrapAround(start, k, buffer.Length);
        assert old(buffer[Slot(count + k)]) == history[next - size + k];
      }
    }
  }
}
