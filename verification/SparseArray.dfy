/** An array of optional components that grows when it is written beyond its end. */
module SparseArrays {
  import opened Options

  /** The slot of an index; beyond the end there is nothing. */
  function Slot<T>(data: seq<Option<T>>, i: nat): Option<T> { if i < |data| then data[i] else None }

  function Empty<T>(n: nat): (r: seq<Option<T>>)
    ensures |r| == n && forall i :: 0 <= i < n ==> r[i] == None
  {
    if n == 0 then [] else Empty(n - 1) + [None]
  }

  /** `resize`, when it makes the array longer. */
  function Grown<T>(data: seq<Option<T>>, n: nat): seq<Option<T>> {
    if n <= |data| then data else data + Empty(n - |data|)
  }

  function Put<T>(data: seq<Option<T>>, pos: nat, v: Option<T>): seq<Option<T>> { Grown(data, pos + 1)[pos := v] }

  function Erased<T>(data: seq<Option<T>>, pos: nat): seq<Option<T>> {
    if pos < |data| then data[pos := None] else data
  }

  /** Growing changes no slot, writing and erasing only the one they name. */
  lemma SlotsAfter<T>(data: seq<Option<T>>, pos: nat, v: Option<T>, i: nat)
    ensures Slot(Grown(data, pos + 1), i) == Slot(data, i)
    ensures Slot(Put(data, pos, v), i) == if i == pos then v else Slot(data, i)
    ensures Slot(Erased(data, pos), i) == if i == pos then None else Slot(data, i)
  {
  }

  /** The array is no longer than it must be: growing and writing make it as long as
      asked for if it was shorter, erasing keeps its length. */
  lemma LengthsAfter<T>(data: seq<Option<T>>, n: nat, v: Option<T>)
    ensures |Grown(data, n)| == if |data| < n then n else |data|
    ensures |Put(data, n, v)| == if |data| <= n then n + 1 else |data|
    ensures |Erased(data, n)| == |data|
  {
  }

  class SparseArray<T(==)> {
    var data: seq<Option<T>>

    constructor ()
      ensures data == []
    {
      data := [];
    }

    constructor Copy(other: SparseArray<T>)
      ensures data == other.data
    {
      data := other.data;
    }

    predicate Contains(index: nat)
      reads this
    {
      index < |data| && data[index].Some?
    }

    /** `resize(n)`; never called with less than the size. */
    method Resize(n: nat)
      requires |data| <= n
      modifies this
      ensures data == Grown(old(data), n)
    {
      while |data| < n
        invariant |data| <= n && data == old(data) + Empty(|data| - |old(data)|)
        invariant |old(data)| <= |data|
        decreases n - |data|
      {
        data := data + [None];
      }
    }

    /** `operator[]` on an array that may change. */
    method At(idx: nat) returns (slot: Option<T>)
      modifies this
      ensures data == Grown(old(data), idx + 1) && slot == Slot(old(data), idx)
    {
      if idx >= |data| {
        Resize(idx + 1);
      }
      slot := data[idx];
    }

    method InsertAt(pos: nat, component: T)
      modifies this
      ensures data == Put(old(data), pos, Some(component))
    {
      if pos >= |data| {
        Resize(pos + 1);
      }
      data := data[pos := Some(component)];
    }

    method EmplaceAt(pos: nat, component: T)
      modifies this
      ensures data == Put(old(data), pos, Some(component))
    {
      if pos >= |data| {
        Resize(pos + 1);
      }
      data := data[pos := Some(component)];
    }

    method Erase(pos: nat)
      modifies this
      ensures data == Erased(old(data), pos)
    {
      if pos < |data| {
        data := data[pos := None];
      }
    }

    /** The first index of a value; `None` stands for the converted -1. */
    method GetIndex(value: Option<T>) returns (r: Option<nat>)
      ensures r.Some? ==> r.value < |data| && data[r.value] == value && value !in data[..r.value]
      ensures r.None? <==> value !in data
    {
      var i := 0;
      while i < |data| && data[i] != value
        invariant i <= |data| && value !in data[..i]
      {
        i := i + 1;
      }
      r := if i < |data| then Some(i) else None;
    }
  }
}
