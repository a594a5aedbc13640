/** The accumulated output of a provider pass (internal/backend/forwarder/actor.go). */
module ProviderOutput {
  import opened Base

  const MIN_CAPACITY: nat := 4096
  const MAX_BYTES: nat := 4 * 1024 * 1024

  /** The bytes so far, the capacity of their slice, and how often it was allocated anew. */
  datatype Out = Out(bytes: string, cap: nat, allocations: nat)

  const NIL: Out := Out("", 0, 0)

  predicate Accepts(o: Out, delta: string, max: int) {
    delta == "" || (max > 0 && |delta| <= max - |o.bytes|)
  }

  function NextCapacity(cap: nat, required: nat, max: int): int {
    Min(Max(Max(cap * 2, MIN_CAPACITY), required), max)
  }

  function Append(o: Out, delta: string, max: int): Out {
    if delta == "" || !Accepts(o, delta, max) then o
    else if |o.bytes| + |delta| <= o.cap then o.(bytes := o.bytes + delta)
    else
      var next := NextCapacity(o.cap, |o.bytes| + |delta|, max);
      Out(o.bytes + delta, if next < 0 then 0 else next, o.allocations + 1)
  }

  function Run(deltas: seq<string>, max: int): Out {
    if deltas == [] then NIL else Append(Run(deltas[..|deltas| - 1], max), deltas[|deltas| - 1], max)
  }

  /** The deltas that fit when they arrived, joined. */
  function Accepted(deltas: seq<string>, max: int): string {
    if deltas == [] then ""
    else
      var before := Accepted(deltas[..|deltas| - 1], max);
      var d := deltas[|deltas| - 1];
      if |before| + |d| <= max then before + d else before
  }

  function Pow2(n: nat): nat {
    if n == 0 then 1 else 2 * Pow2(n - 1)
  }

  predicate Inv(o: Out, max: int) {
    && |o.bytes| <= o.cap <= Max(max, 0)
    && (o.allocations == 0 ==> o.cap == 0)
    && (o.allocations >= 1 ==> o.cap >= Min(max, MIN_CAPACITY * Pow2(o.allocations - 1)))
    && (o.allocations >= 2 ==> MIN_CAPACITY * Pow2(o.allocations - 2) < max)
  }

  lemma AppendKeepsInv(o: Out, delta: string, max: int)
    requires Inv(o, max)
    ensures Inv(Append(o, delta, max), max)
  {
    var required := |o.bytes| + |delta|;
    if delta != "" && Accepts(o, delta, max) && required > o.cap && o.allocations >= 1 {
      assert MIN_CAPACITY * Pow2(o.allocations) == 2 * (MIN_CAPACITY * Pow2(o.allocations - 1));
      assert o.cap < max;
    }
  }

  lemma {:induction false} RunKeepsInv(deltas: seq<string>, max: int)
    ensures Inv(Run(deltas, max), max)
  {
    if deltas != [] {
      RunKeepsInv(deltas[..|deltas| - 1], max);
      AppendKeepsInv(Run(deltas[..|deltas| - 1], max), deltas[|deltas| - 1], max);
    }
  }

  /** The output is the accepted deltas joined; neither it nor its slice exceeds the limit. */
  lemma {:induction false} OutputIsAccepted(deltas: seq<string>, max: int)
    ensures Run(deltas, max).bytes == Accepted(deltas, max)
    ensures |Run(deltas, max).bytes| <= Run(deltas, max).cap <= Max(max, 0)
  {
    RunKeepsInv(deltas, max);
    if deltas != [] {
      var before, d := deltas[..|deltas| - 1], deltas[|deltas| - 1];
      OutputIsAccepted(before, max);
      RunKeepsInv(before, max);
      if d == "" {
        assert Accepted(before, max) + d == Accepted(before, max);
      }
    }
  }

  lemma {:induction false} Pow2Grows(a: nat, b: nat)
    requires a <= b
    ensures Pow2(a) <= Pow2(b)
  {
    if a < b {
      Pow2Grows(a, b - 1);
    }
  }

  /** Allocations are logarithmic in the limit: with 4 MiB there are at most 11 of them. */
  lemma FewAllocations(deltas: seq<string>, max: int)
    ensures Run(deltas, max).allocations >= 2 ==> MIN_CAPACITY * Pow2(Run(deltas, max).allocations - 2) < max
    ensures max == MAX_BYTES ==> Run(deltas, max).allocations <= 11
  {
    RunKeepsInv(deltas, max);
    var n := Run(deltas, max).allocations;
    if n > 11 {
      Pow2Grows(10, n - 2);
      assert Pow2(10) == 1024 by {
        assert Pow2(5) == 32;
      }
    }
  }

  /** The slice: an array of which the first `len` bytes are in use. */
  class Accumulator {
    var data: array<char>
    var len: nat
    ghost var allocations: nat

    ghost predicate Valid()
      reads this
    {
      len <= data.Length
    }

    ghost function View(): Out
      requires Valid()
      reads this, data
    {
      Out(data[..len], data.Length, allocations)
    }

    constructor ()
      ensures Valid() && View() == NIL && fresh(data)
    {
      data := new char[0];
      len := 0;
      allocations := 0;
    }

    /** A larger array with the same bytes in use. */
    method Expand(required: nat, maxBytes: int)
      requires Valid() && data.Length < required <= maxBytes
      modifies this
      ensures Valid() && fresh(data) && len == old(len) && data[..len] == old(data[..len])
      ensures data.Length == NextCapacity(old(data.Length), required, maxBytes) >= required
      ensures allocations == old(allocations) + 1
    {
      var nextCapacity := data.Length * 2;
      if nextCapacity < MIN_CAPACITY {
        nextCapacity := MIN_CAPACITY;
      }
      if nextCapacity < required {
        nextCapacity := required;
      }
      if nextCapacity > maxBytes {
        nextCapacity := maxBytes;
      }
      var expanded := new char[nextCapacity];
      forall i | 0 <= i < len {
        expanded[i] := data[i];
      }
      data := expanded;
      allocations := allocations + 1;
    }

    /** Writes behind the bytes in use. */
    method Fill(delta: string)
      requires Valid() && len + |delta| <= data.Length
      modifies this`len, data
      ensures Valid() && len == old(len) + |delta| && data[..len] == old(data[..len]) + delta
    {
      var from := len;
      forall i | 0 <= i < |delta| {
        data[from + i] := delta[i];
      }
      len := from + |delta|;
      assert forall i :: 0 <= i < from ==> data[i] == old(data[i]);
      assert forall i :: from <= i < len ==> data[i] == delta[i - from];
    }

    method AppendProviderOutput(delta: string, maxBytes: int) returns (ok: bool)
      requires Valid()
      modifies this, data
      ensures Valid() && (data == old(data) || fresh(data))
      ensures ok == Accepts(old(View()), delta, maxBytes)
      ensures View() == Append(old(View()), delta, maxBytes)
    {
      if delta == "" {
        return true;
      }
      if maxBytes <= 0 || |delta| > maxBytes - len {
        return false;
      }
      ok := true;
      if len + |delta| > data.Length {
        Expand(len + |delta|, maxBytes);
      }
      Fill(delta);
    }
  }
}
