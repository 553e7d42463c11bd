/** The webhook delivery cache (internal/webhook/github/dedupe.go): a ring of the last accepted IDs
    and a set for looking them up, against a window over the history of accepted IDs. */
module Dedupe {
  const DEFAULT_DEDUPE_SIZE := 1000

  // ---- The window ----

  /** Entry k is one of the last n. */
  predicate Recent(accepted: seq<string>, n: nat, k: int) {
    0 <= k < |accepted| && |accepted| - k <= n
  }

  /** The ID is among the last n accepted. */
  ghost predicate InWindow(accepted: seq<string>, n: nat, id: string) {
    exists k :: Recent(accepted, n, k) && accepted[k] == id
  }

  /** What the cache knows: the window, and the empty ID for ever once it was accepted. */
  ghost predicate Remembered(accepted: seq<string>, n: nat, id: string) {
    InWindow(accepted, n, id) || (id == "" && "" in accepted)
  }

  ghost function Accept(accepted: seq<string>, n: nat, id: string): seq<string> {
    if Remembered(accepted, n, id) then accepted else accepted + [id]
  }

  /** What is accepted of a sequence of deliveries. */
  ghost function AcceptedOf(ids: seq<string>, n: nat): seq<string> {
    if ids == [] then [] else Accept(AcceptedOf(ids[..|ids| - 1], n), n, ids[|ids| - 1])
  }

  /** No ID is accepted twice within n. */
  ghost predicate Spaced(accepted: seq<string>, n: nat) {
    forall j, k :: 0 <= j < k < |accepted| && k - j <= n ==> accepted[j] != accepted[k]
  }

  lemma SpacedGrows(accepted: seq<string>, n: nat, id: string)
    requires Spaced(accepted, n) && !Remembered(accepted, n, id)
    ensures Spaced(accepted + [id], n)
  {
    forall j | 0 <= j < |accepted| && |accepted| - j <= n
      ensures accepted[j] != id
    {
      assert Recent(accepted, n, j);
    }
  }

  lemma {:induction false} AcceptedSpaced(ids: seq<string>, n: nat)
    ensures Spaced(AcceptedOf(ids, n), n)
    decreases |ids|
  {
    if ids != [] {
      var before, id := AcceptedOf(ids[..|ids| - 1], n), ids[|ids| - 1];
      AcceptedSpaced(ids[..|ids| - 1], n);
      if !Remembered(before, n, id) {
        SpacedGrows(before, n, id);
      }
    }
  }

  lemma {:induction false} AcceptedGrows(ids: seq<string>, n: nat, i: nat)
    requires i <= |ids|
    ensures AcceptedOf(ids[..i], n) <= AcceptedOf(ids, n)
    decreases |ids|
  {
    if i == |ids| {
      assert ids[..i] == ids;
    } else {
      assert ids[..|ids| - 1][..i] == ids[..i];
      AcceptedGrows(ids[..|ids| - 1], n, i);
    }
  }

  /** A delivery accepted once is refused when it comes again, unless n others were accepted since. */
  lemma RedeliveryCaught(ids: seq<string>, n: nat, i: nat)
    requires 0 < n && i < |ids| && !Remembered(AcceptedOf(ids[..i], n), n, ids[i])
    requires |AcceptedOf(ids, n)| <= |AcceptedOf(ids[..i], n)| + n
    ensures AcceptedOf(ids + [ids[i]], n) == AcceptedOf(ids, n)
  {
    var a, all := |AcceptedOf(ids[..i], n)|, AcceptedOf(ids, n);
    assert ids[..i + 1][..i] == ids[..i];
    AcceptedGrows(ids, n, i + 1);
    assert AcceptedOf(ids[..i + 1], n)[a] == ids[i];
    assert all[a] == ids[i];
    assert Recent(all, n, a);
    assert (ids + [ids[i]])[..|ids|] == ids;
  }

  /** Once n others were accepted the same delivery passes again, if it has an ID. */
  lemma ForgottenAfterWindow(ids: seq<string>, n: nat, id: string)
    requires 0 < n && id != "" && !InWindow(AcceptedOf(ids, n), n, id)
    ensures AcceptedOf(ids + [id], n) == AcceptedOf(ids, n) + [id]
  {
    assert (ids + [id])[..|ids|] == ids;
  }

  // ---- The cache ----

  /** The slot of the k-th accepted ID: k modulo n. */
  function Slot(k: nat, n: nat): (slot: nat)
    requires 0 < n
    ensures slot < n
  {
    if k < n then k else Slot(k - n, n)
  }

  lemma {:induction false} NextSlot(k: nat, n: nat)
    requires 0 < n
    ensures Slot(k + 1, n) == if Slot(k, n) + 1 == n then 0 else Slot(k, n) + 1
    decreases k
  {
    if n <= k {
      NextSlot(k - n, n);
    }
  }

  /** Within a window two IDs have the same slot only if they are n apart. */
  lemma {:induction false} SameSlot(j: nat, k: nat, n: nat)
    requires 0 < n && j < k <= j + n
    ensures Slot(j, n) == Slot(k, n) <==> k == j + n
    decreases j
  {
    if n <= j {
      SameSlot(j - n, k - n, n);
    }
  }

  /** Every slot in use belongs to one of the last n accepted IDs. */
  lemma {:induction false} SlotOwner(j: nat, m: nat, n: nat) returns (k: nat)
    requires j < n && j < m
    ensures k < m && m - k <= n && Slot(k, n) == j
    decreases m
  {
    k := j;
    if n < m - j {
      k := SlotOwner(j, m - n, n);
      k := k + n;
    }
  }

  /** The ring after the IDs in `accepted`: each in its slot, oldest overwritten. */
  ghost predicate RingHolds(ring: seq<string>, accepted: seq<string>) {
    && 0 < |ring|
    && (forall k :: 0 <= k < |accepted| && |accepted| - k <= |ring| ==> ring[Slot(k, |ring|)] == accepted[k])
    && (forall j :: |accepted| <= j < |ring| ==> ring[j] == "")
  }

  lemma RingAdvances(ring: seq<string>, accepted: seq<string>, id: string)
    requires RingHolds(ring, accepted)
    ensures RingHolds(ring[Slot(|accepted|, |ring|) := id], accepted + [id])
  {
    var n, m := |ring|, |accepted|;
    forall k | 0 <= k < m && m + 1 - k <= n
      ensures ring[Slot(m, n) := id][Slot(k, n)] == accepted[k]
    {
      SameSlot(k, m, n);
    }
  }

  /** The head slot holds what is about to leave the window. */
  lemma HeadIsOldest(ring: seq<string>, accepted: seq<string>)
    requires RingHolds(ring, accepted)
    ensures ring[Slot(|accepted|, |ring|)] == if |accepted| < |ring| then "" else accepted[|accepted| - |ring|]
  {
    var n, m := |ring|, |accepted|;
    if n <= m {
      SameSlot(m - n, m, n);
    }
  }

  /** What leaves and what enters the window when one more ID is accepted. */
  lemma WindowMoves(accepted: seq<string>, n: nat, id: string, other: string)
    requires 0 < n && Spaced(accepted, n)
    ensures InWindow(accepted + [id], n, other) <==>
      other == id || (InWindow(accepted, n, other) && !(n <= |accepted| && other == accepted[|accepted| - n]))
  {
    var m, longer := |accepted|, accepted + [id];
    assert longer[m] == id && Recent(longer, n, m);
    if InWindow(longer, n, other) && other != id {
      var k :| Recent(longer, n, k) && longer[k] == other;
      assert Recent(accepted, n, k) && accepted[k] == other;
    }
    if k :| Recent(accepted, n, k) && accepted[k] == other && !(n <= m && other == accepted[m - n]) {
      assert Recent(longer, n, k) && longer[k] == other;
    }
  }

  ghost predicate Knows(seen: set<string>, accepted: seq<string>, n: nat) {
    forall id :: id in seen <==> Remembered(accepted, n, id)
  }

  /** The cache's fields, for this history. */
  ghost predicate Represents(seen: set<string>, ring: seq<string>, head: nat, accepted: seq<string>, n: nat) {
    && 0 < n == |ring| && head == Slot(|accepted|, n)
    && RingHolds(ring, accepted) && Spaced(accepted, n) && Knows(seen, accepted, n)
  }

  function Forget(seen: set<string>, oldest: string): set<string> {
    if oldest == "" then seen else seen - {oldest}
  }

  lemma EvictRepresents(seen: set<string>, ring: seq<string>, head: nat, accepted: seq<string>, n: nat, id: string)
    requires Represents(seen, ring, head, accepted, n) && id !in seen
    ensures
      var head' := if head + 1 == n then 0 else head + 1;
      Represents(Forget(seen, ring[head]) + {id}, ring[head := id], head', accepted + [id], n)
  {
    assert RingHolds(ring[head := id], accepted + [id]) by {
      RingAdvances(ring, accepted, id);
    }
    assert Spaced(accepted + [id], n) by {
      SpacedGrows(accepted, n, id);
    }
    assert Knows(Forget(seen, ring[head]) + {id}, accepted + [id], n) by {
      HeadIsOldest(ring, accepted);
      SeenAdvances(seen, accepted, n, id, ring[head]);
    }
    NextSlot(|accepted|, n);
  }

  lemma SeenAdvances(seen: set<string>, accepted: seq<string>, n: nat, id: string, oldest: string)
    requires 0 < n && Spaced(accepted, n) && Knows(seen, accepted, n)
    requires id !in seen && oldest == if |accepted| < n then "" else accepted[|accepted| - n]
    ensures Knows(Forget(seen, oldest) + {id}, accepted + [id], n)
  {
    forall other
      ensures other in Forget(seen, oldest) + {id} <==> Remembered(accepted + [id], n, other)
    {
      WindowMoves(accepted, n, id, other);
    }
  }

  class DedupeCache {
    var seen: set<string>
    const ring: array<string>
    var head: nat
    const capacity: nat
    ghost var accepted: seq<string>

    ghost predicate Valid()
      reads this, ring
    {
      Represents(seen, ring[..], head, accepted, capacity)
    }

    constructor (capacity: int)
      ensures Valid() && fresh(ring) && accepted == []
      ensures this.capacity == if capacity <= 0 then DEFAULT_DEDUPE_SIZE else capacity
    {
      var size := if capacity <= 0 then DEFAULT_DEDUPE_SIZE else capacity;
      this.capacity := size;
      seen, head, accepted := {}, 0, [];
      ring := new string[size](_ => "");
    }

    /** Whether this delivery was seen within the window; if not it is remembered. */
    method Seen(id: string) returns (found: bool)
      requires Valid()
      modifies this, ring
      ensures Valid()
      ensures found == Remembered(old(accepted), capacity, id)
      ensures accepted == Accept(old(accepted), capacity, id)
    {
      if id in seen {
        return true;
      }
      Remember(id);
      return false;
    }

    /** The ID takes the head slot, whose ID is forgotten. */
    method Remember(id: string)
      requires Valid() && id !in seen
      modifies this, ring
      ensures Valid() && accepted == old(accepted) + [id]
    {
      EvictRepresents(seen, ring[..], head, accepted, capacity, id);
      Overwrite(id);
      accepted := accepted + [id];
    }

    method Overwrite(id: string)
      requires head < capacity == ring.Length
      modifies this`seen, this`head, ring
      ensures seen == Forget(old(seen), old(ring[head])) + {id}
      ensures ring[..] == old(ring[..])[old(head) := id]
      ensures head == if old(head) + 1 == capacity then 0 else old(head) + 1
    {
      var oldest := ring[head];
      if oldest != "" {
        seen := seen - {oldest};
      }
      ring[head] := id;
      seen := seen + {id};
      head := (head + 1) % capacity;
    }
  }

  // ---- The size of the map ----

  ghost function NonEmptySlots(ring: seq<string>): set<string> {
    set id | id in ring && id != ""
  }

  /** The map holds the non-empty ring slots, and the empty ID once it was accepted. */
  lemma SeenIsRing(cache: DedupeCache)
    requires cache.Valid()
    ensures cache.seen == NonEmptySlots(cache.ring[..]) + (if "" in cache.accepted then {""} else {})
  {
    var ring, accepted := cache.ring[..], cache.accepted;
    forall id
      ensures id in cache.seen <==> (id in ring && id != "") || (id == "" && "" in accepted)
    {
      if id != "" {
        SlotsAreWindow(ring, accepted, id);
      }
    }
  }

  lemma SlotsAreWindow(ring: seq<string>, accepted: seq<string>, id: string)
    requires RingHolds(ring, accepted) && id != ""
    ensures id in ring <==> InWindow(accepted, |ring|, id)
  {
    var n, m := |ring|, |accepted|;
    if k :| Recent(accepted, n, k) && accepted[k] == id {
      assert ring[Slot(k, n)] == id;
    }
    if id in ring {
      var j :| 0 <= j < n && ring[j] == id;
      assert j < m;
      var k := SlotOwner(j, m, n);
      assert Recent(accepted, n, k) && accepted[k] == ring[j];
    }
  }

  ghost function Elements(s: seq<string>): set<string> {
    set id | id in s
  }

  lemma {:induction false} DistinctSize(s: seq<string>)
    requires forall j, k :: 0 <= j < k < |s| ==> s[j] != s[k]
    ensures |Elements(s)| == |s|
    decreases |s|
  {
    if s == [] {
      assert Elements(s) == {};
    } else {
      var n := |s| - 1;
      DistinctSize(s[..n]);
      assert s == s[..n] + [s[n]];
      assert Elements(s) == Elements(s[..n]) + {s[n]};
    }
  }

  /** The window as a sequence of distinct IDs. */
  lemma WindowDistinct(accepted: seq<string>, n: nat) returns (w: seq<string>)
    requires Spaced(accepted, n)
    ensures |w| == (if |accepted| < n then |accepted| else n) && |Elements(w)| == |w|
    ensures forall id :: id in w <==> InWindow(accepted, n, id)
  {
    var base := if |accepted| < n then 0 else |accepted| - n;
    w := accepted[base..];
    forall id
      ensures id in w <==> InWindow(accepted, n, id)
    {
      if id in w {
        var i :| 0 <= i < |w| && w[i] == id;
        assert Recent(accepted, n, base + i) && accepted[base + i] == id;
      }
      if k :| Recent(accepted, n, k) && accepted[k] == id {
        assert w[k - base] == id;
      }
    }
    DistinctSize(w);
  }

  /** The map stays within the capacity exactly as long as no empty ID has left the window. */
  lemma SizeBounded(cache: DedupeCache)
    requires cache.Valid()
    ensures |cache.seen| <= cache.capacity <==> ("" in cache.accepted ==> InWindow(cache.accepted, cache.capacity, ""))
  {
    var accepted, n := cache.accepted, cache.capacity;
    var w := WindowDistinct(accepted, n);
    if "" in accepted && "" !in w {
      assert cache.seen == Elements(w) + {""};
      var k :| 0 <= k < |accepted| && accepted[k] == "";
      assert !Recent(accepted, n, k);
    } else {
      assert cache.seen == Elements(w);
    }
  }
}
