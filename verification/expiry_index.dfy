/** The exact, removable min-heap of expiries kept by the hub registries and, with a
    tie-break on the key, by the replay-nonce cache. Each live key owns one heap node and the
    node's position is stored with the key, so a consumed entry leaves the heap at once. */
module ExpiryIndexes {
  import opened Options

  datatype Entry<+K> = Entry(key: K, expiresAt: int)

  /** Strict heap order: earlier expiry first, `tie` decides between equal expiries. */
  predicate Less<K>(tie: K -> int, a: Entry<K>, b: Entry<K>) {
    a.expiresAt < b.expiresAt || (a.expiresAt == b.expiresAt && tie(a.key) < tie(b.key))
  }

  /** Node `j` is not smaller than its parent. */
  predicate OrderedAt<K>(tie: K -> int, h: seq<Entry<K>>, j: nat)
    requires 0 < j < |h|
  {
    !Less(tie, h[j], h[(j - 1) / 2])
  }

  ghost predicate HeapOrdered<K>(tie: K -> int, h: seq<Entry<K>>, n: nat)
    requires n <= |h|
  {
    forall j | 0 < j < n :: OrderedAt(tie, h, j)
  }

  /** Heap order everywhere except between `c` and its neighbours; the children of `c` still
      respect the parent of `c`. */
  ghost predicate OrderedAround<K>(tie: K -> int, h: seq<Entry<K>>, n: nat, c: nat)
    requires c < n <= |h|
  {
    && (forall j | 0 < j < n && j != c && (j - 1) / 2 != c :: OrderedAt(tie, h, j))
    && (forall j | 0 < j < n && (j - 1) / 2 == c && c > 0 :: !Less(tie, h[j], h[(c - 1) / 2]))
  }

  ghost predicate ChildrenOrdered<K>(tie: K -> int, h: seq<Entry<K>>, n: nat, c: nat)
    requires c < n <= |h|
  {
    forall j | 0 < j < n && (j - 1) / 2 == c :: OrderedAt(tie, h, j)
  }

  /** Positions and keys point at each other. */
  ghost predicate BackPointers<K>(h: seq<Entry<K>>, index: map<K, nat>) {
    && (forall i | 0 <= i < |h| :: h[i].key in index && index[h[i].key] == i)
    && (forall k | k in index :: index[k] < |h| && h[index[k]].key == k)
  }

  /** The plain key-to-expiry map the index stands for. */
  ghost function Contents<K>(h: seq<Entry<K>>, index: map<K, nat>): map<K, int>
    requires BackPointers(h, index)
  {
    map k | k in index :: h[index[k]].expiresAt
  }

  /** A heap-ordered sequence has its minimum expiry at the root. */
  lemma {:induction false} RootIsMinimum<K>(tie: K -> int, h: seq<Entry<K>>, i: nat)
    requires HeapOrdered(tie, h, |h|)
    requires i < |h|
    ensures h[0].expiresAt <= h[i].expiresAt
  {
    if i > 0 {
      assert OrderedAt(tie, h, i);
      RootIsMinimum(tie, h, (i - 1) / 2);
    }
  }

  class ExpiryIndex<K(!new, ==)> {
    const tie: K -> int
    var heap: seq<Entry<K>>
    var index: map<K, nat>

    /** The key-to-expiry map this index stands for. */
    ghost var expiries: map<K, int>

    ghost predicate Valid()
      reads this
    {
      && BackPointers(heap, index)
      && HeapOrdered(tie, heap, |heap|)
      && expiries == Contents(heap, index)
    }

    constructor (tie: K -> int)
      ensures Valid() && expiries == map[] && this.tie == tie
    {
      this.tie := tie;
      heap, index, expiries := [], map[], map[];
    }

    method Swap(i: nat, j: nat)
      requires i < |heap| && j < |heap|
      requires BackPointers(heap, index)
      modifies `heap, `index
      ensures heap == old(heap)[i := old(heap)[j]][j := old(heap)[i]]
      ensures BackPointers(heap, index)
      ensures Contents(heap, index) == old(Contents(heap, index))
    {
      heap := heap[i := heap[j]][j := heap[i]];
      index := index[heap[i].key := i][heap[j].key := j];
    }

    /** `up` of container/heap: lift node `start` while it is smaller than its parent. */
    method Up(start: nat, n: nat)
      requires start < n <= |heap|
      requires BackPointers(heap, index)
      requires OrderedAround(tie, heap, n, start) && ChildrenOrdered(tie, heap, n, start)
      modifies `heap, `index
      ensures BackPointers(heap, index) && |heap| == old(|heap|)
      ensures Contents(heap, index) == old(Contents(heap, index))
      ensures heap[n..] == old(heap)[n..]
      ensures HeapOrdered(tie, heap, n)
    {
      var j: nat := start;
      while j > 0 && Less(tie, heap[j], heap[(j - 1) / 2])
        invariant j < n <= |heap| == old(|heap|)
        invariant BackPointers(heap, index)
        invariant Contents(heap, index) == old(Contents(heap, index))
        invariant heap[n..] == old(heap)[n..]
        invariant OrderedAround(tie, heap, n, j) && ChildrenOrdered(tie, heap, n, j)
        decreases j
      {
        var i := (j - 1) / 2;
        UpStep(tie, heap, n, j);
        Swap(j, i);
        j := i;
      }
      Settled(tie, heap, n, j);
    }

    /** `down` of container/heap over the first `n` nodes; reports whether `start` moved. */
    method Down(start: nat, n: nat) returns (moved: bool)
      requires start < n <= |heap|
      requires BackPointers(heap, index)
      requires OrderedAround(tie, heap, n, start)
      modifies `heap, `index
      ensures BackPointers(heap, index) && |heap| == old(|heap|)
      ensures Contents(heap, index) == old(Contents(heap, index))
      ensures heap[n..] == old(heap)[n..]
      ensures moved ==> HeapOrdered(tie, heap, n)
      ensures !moved ==> heap == old(heap) && ChildrenOrdered(tie, heap, n, start)
    {
      var i: nat := start;
      while 2 * i + 1 < n
        invariant start <= i < n <= |heap| == old(|heap|)
        invariant BackPointers(heap, index)
        invariant Contents(heap, index) == old(Contents(heap, index))
        invariant heap[n..] == old(heap)[n..]
        invariant OrderedAround(tie, heap, n, i)
        invariant i == start ==> heap == old(heap)
        invariant i != start ==> i > 0 && OrderedAt(tie, heap, i)
        decreases n - i
      {
        var j := SmallerChild(tie, heap, n, i);
        if !Less(tie, heap[j], heap[i]) {
          assert ChildrenOrdered(tie, heap, n, i);
          break;
        }
        DownStep(tie, heap, n, i, j);
        Swap(i, j);
        i := j;
      }
      moved := i > start;
      if moved {
        Settled(tie, heap, n, i);
      }
    }

    /** Restores the order after the node at `i` changed: `down`, else `up`. */
    method Restore(i: nat, n: nat)
      requires i < n <= |heap|
      requires BackPointers(heap, index)
      requires OrderedAround(tie, heap, n, i)
      modifies `heap, `index
      ensures BackPointers(heap, index) && |heap| == old(|heap|)
      ensures Contents(heap, index) == old(Contents(heap, index))
      ensures heap[n..] == old(heap)[n..]
      ensures HeapOrdered(tie, heap, n)
    {
      var moved := Down(i, n);
      if !moved {
        Up(i, n);
      }
    }

    method Add(key: K, expiresAt: int) returns (added: bool)
      requires Valid()
      modifies this
      ensures Valid()
      ensures added <==> key !in old(expiries)
      ensures expiries == if added then old(expiries)[key := expiresAt] else old(expiries)
    {
      if key in index {
        return false;
      }
      ghost var was := heap;
      index := index[key := |heap|];
      heap := heap + [Entry(key, expiresAt)];
      assert forall j | 0 < j < |was| :: OrderedAt(tie, was, j) ==> OrderedAt(tie, heap, j);
      Up(|heap| - 1, |heap|);
      expiries := expiries[key := expiresAt];
      added := true;
    }

    /** Drops the last node together with its key. */
    method Pop()
      requires heap != [] && BackPointers(heap, index)
      requires HeapOrdered(tie, heap, |heap| - 1)
      modifies this
      ensures Valid()
      ensures expiries == old(Contents(heap, index)) - {old(heap[|heap| - 1].key)}
    {
      ghost var whole := heap;
      var n := |heap| - 1;
      index := index - {heap[n].key};
      heap := heap[..n];
      assert forall j | 0 < j < n :: OrderedAt(tie, whole, j) ==> OrderedAt(tie, heap, j);
      expiries := Contents(heap, index);
    }

    method Remove(key: K) returns (removed: bool)
      requires Valid()
      modifies this
      ensures Valid()
      ensures removed <==> key in old(expiries)
      ensures expiries == old(expiries) - {key}
    {
      if key !in index {
        return false;
      }
      var i, n := index[key], |heap| - 1;
      if i != n {
        SwapOutAround(tie, heap, i);
        Swap(i, n);
        assert heap[n..] == [old(heap[i])];
        Restore(i, n);
        assert heap[n] == heap[n..][0];
      }
      Pop();
      removed := true;
    }

    /** heap.Fix after moving the key's expiry: how the nonce cache re-keys a device. */
    method Rekey(key: K, expiresAt: int)
      requires Valid() && key in expiries
      modifies this
      ensures Valid()
      ensures expiries == old(expiries)[key := expiresAt]
    {
      var i := index[key];
      RekeyAround(tie, heap, i, Entry(key, expiresAt));
      heap := heap[i := Entry(key, expiresAt)];
      Restore(i, |heap|);
      expiries := expiries[key := expiresAt];
    }

    /** A minimum-expiry key exactly when some key has expired. */
    method OldestExpired(now: int) returns (oldest: Option<K>)
      requires Valid()
      ensures oldest.Some? <==> exists k :: k in expiries && expiries[k] <= now
      ensures oldest.Some? ==> oldest.value in expiries && expiries[oldest.value] <= now
      ensures oldest.Some? ==> forall k | k in expiries :: expiries[oldest.value] <= expiries[k]
    {
      if heap == [] {
        return None;
      }
      var root := heap[0];
      assert expiries[root.key] == root.expiresAt;
      forall k | k in expiries
        ensures root.expiresAt <= expiries[k]
      {
        RootIsMinimum(tie, heap, index[k]);
      }
      oldest := if now < root.expiresAt then None else Some(root.key);
    }

    method Reset()
      modifies this
      ensures Valid() && expiries == map[]
    {
      heap, index, expiries := [], map[], map[];
    }
  }

  /** The child of `i` that `down` compares with: the left one unless the right is smaller. */
  function SmallerChild<K>(tie: K -> int, h: seq<Entry<K>>, n: nat, i: nat): (j: nat)
    requires 2 * i + 1 < n <= |h|
    ensures i < j < n && (j - 1) / 2 == i
    ensures forall k | 0 < k < n && (k - 1) / 2 == i :: !Less(tie, h[k], h[j])
  {
    if 2 * i + 2 < n && Less(tie, h[2 * i + 2], h[2 * i + 1]) then 2 * i + 2 else 2 * i + 1
  }

  lemma Settled<K>(tie: K -> int, h: seq<Entry<K>>, n: nat, c: nat)
    requires c < n <= |h|
    requires OrderedAround(tie, h, n, c) && ChildrenOrdered(tie, h, n, c)
    requires c > 0 ==> OrderedAt(tie, h, c)
    ensures HeapOrdered(tie, h, n)
  {
  }

  lemma UpStep<K>(tie: K -> int, h: seq<Entry<K>>, n: nat, j: nat)
    requires 0 < j < n <= |h|
    requires OrderedAround(tie, h, n, j) && ChildrenOrdered(tie, h, n, j)
    requires Less(tie, h[j], h[(j - 1) / 2])
    ensures var i := (j - 1) / 2; var h' := h[j := h[i]][i := h[j]];
            OrderedAround(tie, h', n, i) && ChildrenOrdered(tie, h', n, i)
  {
    var i := (j - 1) / 2;
    var h' := h[j := h[i]][i := h[j]];
    forall k | 0 < k < n && (k - 1) / 2 == i
      ensures OrderedAt(tie, h', k)
    {
      if k != j {
        assert OrderedAt(tie, h, k);
      }
    }
    forall k | 0 < k < n && k != i && (k - 1) / 2 != i
      ensures OrderedAt(tie, h', k)
    {
      if (k - 1) / 2 != j {
        assert OrderedAt(tie, h, k);
      }
    }
    forall k | 0 < k < n && (k - 1) / 2 == i && i > 0
      ensures !Less(tie, h'[k], h'[(i - 1) / 2])
    {
      assert OrderedAt(tie, h, i);
      if k != j {
        assert OrderedAt(tie, h, k);
      }
    }
  }

  lemma DownStep<K>(tie: K -> int, h: seq<Entry<K>>, n: nat, i: nat, j: nat)
    requires i < n <= |h|
    requires OrderedAround(tie, h, n, i)
    requires i < j < n && (j - 1) / 2 == i
    requires Less(tie, h[j], h[i])
    requires forall k | 0 < k < n && (k - 1) / 2 == i :: !Less(tie, h[k], h[j])
    ensures var h' := h[i := h[j]][j := h[i]];
            OrderedAround(tie, h', n, j) && OrderedAt(tie, h', j)
  {
    var h' := h[i := h[j]][j := h[i]];
    forall k | 0 < k < n && k != j && (k - 1) / 2 != j
      ensures OrderedAt(tie, h', k)
    {
      if k != i && (k - 1) / 2 != i {
        assert OrderedAt(tie, h, k);
      }
    }
    forall k | 0 < k < n && (k - 1) / 2 == j
      ensures !Less(tie, h'[k], h'[(j - 1) / 2])
    {
      assert OrderedAt(tie, h, k);
    }
  }

  lemma SwapOutAround<K>(tie: K -> int, h: seq<Entry<K>>, i: nat)
    requires i < |h| - 1
    requires HeapOrdered(tie, h, |h|)
    ensures OrderedAround(tie, h[i := h[|h| - 1]][|h| - 1 := h[i]], |h| - 1, i)
  {
    var n := |h| - 1;
    var h' := h[i := h[n]][n := h[i]];
    forall j | 0 < j < n && j != i && (j - 1) / 2 != i
      ensures OrderedAt(tie, h', j)
    {
      assert OrderedAt(tie, h, j);
    }
    forall j | 0 < j < n && (j - 1) / 2 == i && i > 0
      ensures !Less(tie, h'[j], h'[(i - 1) / 2])
    {
      assert OrderedAt(tie, h, j) && OrderedAt(tie, h, i);
    }
  }

  lemma RekeyAround<K>(tie: K -> int, h: seq<Entry<K>>, i: nat, e: Entry<K>)
    requires i < |h|
    requires HeapOrdered(tie, h, |h|)
    ensures OrderedAround(tie, h[i := e], |h|, i)
  {
    var h' := h[i := e];
    forall j | 0 < j < |h| && j != i && (j - 1) / 2 != i
      ensures OrderedAt(tie, h', j)
    {
      assert OrderedAt(tie, h, j);
    }
    forall j | 0 < j < |h| && (j - 1) / 2 == i && i > 0
      ensures !Less(tie, h'[j], h'[(i - 1) / 2])
    {
      assert OrderedAt(tie, h, j) && OrderedAt(tie, h, i);
    }
  }
}
