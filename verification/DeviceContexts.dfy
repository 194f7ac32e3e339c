/** Device contexts and the dynamic array that holds them. */
module DeviceContexts {
  import opened Types

  /** One context. Its mutex and condition variable live and die together, so a
      single number, given out by `pthread_mutex_init`, identifies both and with
      them the logical context, wherever the record is moved. */
  datatype DeviceContext = DeviceContext(
    lock: nat,
    handle: Handle,
    address: Address,
    connected: bool,
    disconnected: bool,
    discovered: bool,
    retrieved: bool,
    dbOut: Option<Loc>,
    countOut: Option<Loc>)

  function Zeroed(lock: nat): DeviceContext {
    DeviceContext(lock, NULL_HANDLE, ZERO_ADDRESS, false, false, false, false, None, None)
  }

  function FirstByHandle(items: seq<DeviceContext>, h: Handle): (r: Option<nat>)
    ensures r.None? ==> forall i :: 0 <= i < |items| ==> items[i].handle != h
    ensures r.Some? ==> r.value < |items| && items[r.value].handle == h
    ensures r.Some? ==> forall i :: 0 <= i < r.value ==> items[i].handle != h
  {
    if |items| == 0 then None
    else if items[0].handle == h then Some(0)
    else
      match FirstByHandle(items[1..], h)
      case None => None
      case Some(k) => Some(k + 1)
  }

  function FirstByAddress(items: seq<DeviceContext>, a: Address): (r: Option<nat>)
    ensures r.None? ==> forall i :: 0 <= i < |items| ==> items[i].address != a
    ensures r.Some? ==> r.value < |items| && items[r.value].address == a
    ensures r.Some? ==> forall i :: 0 <= i < r.value ==> items[i].address != a
  {
    if |items| == 0 then None
    else if items[0].address == a then Some(0)
    else
      match FirstByAddress(items[1..], a)
      case None => None
      case Some(k) => Some(k + 1)
  }

  function WithoutIndex<T>(s: seq<T>, k: nat): (r: seq<T>)
    requires k < |s|
    ensures |r| == |s| - 1
    ensures forall i :: 0 <= i < k ==> r[i] == s[i]
    ensures forall i :: k <= i < |r| ==> r[i] == s[i + 1]
  {
    s[..k] + s[k + 1..]
  }

  function Grown(capacity: nat): nat {
    if capacity == 0 then 4 else capacity * 2
  }

  function Pow2(k: nat): (r: nat)
    ensures r >= 1
  {
    if k == 0 then 1 else 2 * Pow2(k - 1)
  }

  ghost predicate IsCapacity(c: nat) {
    c == 0 || exists k: nat :: c == 4 * Pow2(k)
  }

  lemma GrownIsCapacity(c: nat)
    requires IsCapacity(c)
    ensures IsCapacity(Grown(c)) && Grown(c) > c
  {
    if c == 0 {
      assert 4 == 4 * Pow2(0);
    } else {
      var k: nat :| c == 4 * Pow2(k);
      assert Grown(c) == 4 * Pow2(k + 1);
    }
  }

  /** The array itself. `added` counts the adds so far and `copied` the entries
      that all reallocations together moved; the other fields are the source's. */
  class DeviceArray {
    var items: array<DeviceContext>
    var count: nat
    var capacity: nat
    ghost var added: nat
    ghost var copied: nat

    ghost predicate Valid()
      reads this
    {
      && items.Length == capacity
      && count <= capacity
      && count <= added
      && IsCapacity(capacity)
      && (capacity == 0 ==> copied == 0)
      && (capacity > 0 ==> copied == capacity - 4)
      && (capacity > 4 ==> capacity < 2 * added)
    }

    ghost function Contents(): seq<DeviceContext>
      requires Valid()
      reads this, items
    {
      items[..count]
    }

    constructor ()
      ensures Valid() && fresh(items)
      ensures Contents() == [] && capacity == 0 && added == 0
    {
      items := new DeviceContext[0];
      count := 0;
      capacity := 0;
      added := 0;
      copied := 0;
    }

    /** Appends a zeroed context with a freshly initialised mutex and condition
        variable, growing first when the array is full. A pointer into the old
        block survives exactly when there was room. */
    method AddNew(lock: nat) returns (index: nat)
      requires Valid()
      modifies this, items
      ensures Valid()
      ensures Contents() == old(Contents()) + [Zeroed(lock)]
      ensures index == old(count)
      ensures capacity == if old(count) < old(capacity) then old(capacity) else Grown(old(capacity))
      ensures items == old(items) <==> old(count) < old(capacity)
      ensures items != old(items) ==> fresh(items)
      ensures added == old(added) + 1
      ensures copied <= 2 * added
    {
      ghost var before := Contents();
      added := added + 1;
      if count == capacity {
        var newCapacity := Grown(capacity);
        GrownIsCapacity(capacity);
        var block := new DeviceContext[newCapacity](_ => Zeroed(0));
        forall i | 0 <= i < count {
          block[i] := items[i];
        }
        copied := copied + count;
        items := block;
        capacity := newCapacity;
      }
      assert items[..count] == before;
      index := count;
      items[index] := Zeroed(lock);
      count := count + 1;
      assert items[..count] == items[..index] + [Zeroed(lock)];
    }

    method FindByHandle(h: Handle) returns (found: Option<nat>)
      requires Valid()
      ensures found == FirstByHandle(Contents(), h)
    {
      for i := 0 to count
        invariant forall j :: 0 <= j < i ==> items[j].handle != h
      {
        if items[i].handle == h {
          return Some(i);
        }
      }
      return None;
    }

    method FindByAddress(a: Address) returns (found: Option<nat>)
      requires Valid()
      ensures found == FirstByAddress(Contents(), a)
    {
      for i := 0 to count
        invariant forall j :: 0 <= j < i ==> items[j].address != a
      {
        if items[i].address == a {
          return Some(i);
        }
      }
      return None;
    }

    /** The inner loop of a removal: moves the entries after `k` down by one. */
    static method CloseGap(block: array<DeviceContext>, k: nat, n: nat)
      requires k < n <= block.Length
      modifies block
      ensures block[..n - 1] == WithoutIndex(old(block[..n]), k)
    {
      ghost var was := block[..n];
      var j := k + 1;
      while j < n
        invariant k + 1 <= j <= n
        invariant forall m :: 0 <= m < k ==> block[m] == was[m]
        invariant forall m :: k <= m < j - 1 ==> block[m] == was[m + 1]
        invariant forall m :: j - 1 <= m < n ==> block[m] == was[m]
      {
        block[j - 1] := block[j];
        j := j + 1;
      }
      assert forall m :: 0 <= m < n - 1 ==> block[..n - 1][m] == WithoutIndex(was, k)[m];
    }

    /** Deletes the first context with this handle and closes the gap. */
    method Remove(h: Handle) returns (removed: bool)
      requires Valid()
      modifies this`count, items
      ensures Valid()
      ensures removed <==> exists i :: 0 <= i < |old(Contents())| && old(Contents())[i].handle == h
      ensures removed ==>
                var k := FirstByHandle(old(Contents()), h).value;
                Contents() == WithoutIndex(old(Contents()), k)
      ensures !removed ==> Contents() == old(Contents())
    {
      ghost var before := Contents();
      for i := 0 to count
        invariant forall j :: 0 <= j < i ==> before[j].handle != h
        invariant items[..count] == before
      {
        if items[i].handle == h {
          assert FirstByHandle(before, h) == Some(i);
          CloseGap(items, i, count);
          count := count - 1;
          assert before[i].handle == h;
          return true;
        }
      }
      return false;
    }
  }
}
