/** The resize loop: growing and shrinking one order at a time towards a target that
    may change under it.  Every size is a power of two, given by its order. */
module Resize {
  import opened Sequences
  import opened SplitOrder
  import opened BitScan

  /** What the resize does to the table, order by order: buckets of `order` are the
      indices from half its power of two up. */
  datatype Event =
    | Alloc(order: nat)
    | Populate(order: nat)
    | SetSize(order: nat)
    | Sync
    | Remove(order: nat)
    | Free(order: nat)

  /** What holds after some events: the published size, the highest order whose buckets
      are linked and whose memory is there; whether a grace period has passed since the
      size went down; and from which order on the buckets were unlinked before the last
      grace period. */
  datatype Phase = Phase(size: nat, linked: nat, alloc: nat, quiet: bool, clean: nat)

  /** What each event needs.  Readers may use every bucket below a size they loaded, and
      hold on to an unlinked one until a grace period has passed. */
  predicate Allowed(p: Phase, e: Event) {
    match e
    case Alloc(i) => i == p.alloc + 1
    case Populate(i) => i == p.linked + 1 && i <= p.alloc
    case SetSize(i) => i <= p.linked
    case Sync => true
    case Remove(i) => i == p.linked && p.size < i && p.quiet
    case Free(i) => i == p.alloc && p.linked < i && p.clean <= i
  }

  function After(p: Phase, e: Event): Phase
    requires Allowed(p, e)
  {
    match e
    case Alloc(i) => p.(alloc := i)
    case Populate(i) => p.(linked := i)
    case SetSize(i) => p.(size := i, quiet := p.quiet && p.size <= i)
    case Sync => p.(quiet := true, clean := p.linked + 1)
    case Remove(i) => p.(linked := i - 1, clean := if p.clean <= i then i + 1 else p.clean)
    case Free(i) => p.(alloc := i - 1)
  }

  /** The phase after a log of events, or None if one of them was out of place. */
  function Replay(p: Phase, log: seq<Event>): Option<Phase>
    decreases |log|
  {
    if log == [] then Some(p)
    else
      var before := Replay(p, log[..|log| - 1]);
      if before.Some? && Allowed(before.value, log[|log| - 1]) then Some(After(before.value, log[|log| - 1])) else None
  }

  lemma ReplayNext(p: Phase, log: seq<Event>, e: Event, q: Phase)
    requires Replay(p, log) == Some(q) && Allowed(q, e)
    ensures Replay(p, log + [e]) == Some(After(q, e))
  {
    assert (log + [e])[..|log|] == log;
  }

  ghost predicate NoSync(log: seq<Event>, r: nat, k: nat) {
    forall m {:trigger log[m]} | r < m < k && m < |log| :: log[m] != Sync
  }

  lemma {:induction false} PrefixReplays(p: Phase, log: seq<Event>, k: nat)
    requires Replay(p, log).Some? && k <= |log|
    ensures Replay(p, log[..k]).Some?
    decreases |log|
  {
    if k < |log| {
      PrefixReplays(p, log[..|log| - 1], k);
      assert log[..|log| - 1][..k] == log[..k];
    } else {
      assert log[..k] == log;
    }
  }

  /** The phase before event `k`, which allows it. */
  lemma At(p: Phase, log: seq<Event>, k: nat) returns (q: Phase)
    requires Replay(p, log).Some? && k < |log|
    ensures Replay(p, log[..k]) == Some(q) && Allowed(q, log[k]) && Replay(p, log[..k + 1]) == Some(After(q, log[k]))
  {
    PrefixReplays(p, log, k + 1);
    assert log[..k + 1][..k] == log[..k];
    q := Replay(p, log[..k]).value;
  }

  lemma {:induction false} StillDirty(p: Phase, log: seq<Event>, r: nat, k: nat, i: nat)
    requires Replay(p, log).Some? && r < k <= |log| && log[r] == Remove(i) && NoSync(log, r, k)
    ensures Replay(p, log[..k]).Some? && Replay(p, log[..k]).value.clean > i
  {
    var q := At(p, log, k - 1);
    if r < k - 1 { StillDirty(p, log, r, k - 1, i); }
  }

  /** Between unlinking the buckets of an order and freeing their memory a grace period
      passes. */
  lemma FreedAfterGracePeriod(p: Phase, log: seq<Event>, r: nat, k: nat, i: nat)
    requires Replay(p, log).Some? && r < k < |log| && log[r] == Remove(i) && log[k] == Free(i)
    ensures !NoSync(log, r, k)
  {
    var q := At(p, log, k);
    if NoSync(log, r, k) { StillDirty(p, log, r, k, i); }
  }

  lemma {:induction false} StillLoud(p: Phase, log: seq<Event>, r: nat, k: nat)
    requires Replay(p, log).Some? && r < k <= |log| && Replay(p, log[..r]).Some? && NoSync(log, r, k)
    requires log[r].SetSize? && log[r].order < Replay(p, log[..r]).value.size
    ensures Replay(p, log[..k]).Some? && !Replay(p, log[..k]).value.quiet
  {
    var q := At(p, log, k - 1);
    if r < k - 1 { StillLoud(p, log, r, k - 1); }
  }

  /** Between lowering the size and unlinking a bucket a grace period passes, so that no
      reader that loaded the old size is still in its section. */
  lemma RemovedAfterGracePeriod(p: Phase, log: seq<Event>, r: nat, k: nat)
    requires Replay(p, log).Some? && r < k < |log| && Replay(p, log[..r]).Some? && log[k].Remove?
    requires log[r].SetSize? && log[r].order < Replay(p, log[..r]).value.size
    ensures !NoSync(log, r, k)
  {
    var q := At(p, log, k);
    if NoSync(log, r, k) { StillLoud(p, log, r, k); }
  }

  /** The value of `resize_target` at each of the loop's loads, as an order; the loads of
      `in_progress_destroy`. */
  type Targets = nat -> nat
  type Destroys = nat -> bool

  /** From load `n` on the target is `order`. */
  ghost predicate Stable(targets: Targets, n: nat, order: nat) {
    forall k: nat {:trigger targets(k)} | n <= k :: targets(k) == order
  }

  /** A table that is being destroyed stays so. */
  ghost predicate Final(destroys: Destroys) {
    forall j: nat, k: nat {:trigger destroys(j), destroys(k)} | j <= k && destroys(j) :: destroys(k)
  }

  class Table {
    var size: nat
    var loads: nat
    var log: seq<Event>
    ghost const start: Phase
    ghost var now: Phase

    /** The log is in order; between resizes exactly the buckets below the size are
        linked and allocated. */
    ghost predicate Valid()
      reads this
    {
      Replay(start, log) == Some(now) && size == Pow2(now.size) && now.size < 64 && now.linked == now.size
    }

    ghost predicate Settled()
      reads this
    {
      Valid() && now.alloc == now.size
    }

    constructor (ghost order: nat, size: nat)
      requires order < 64 && size == Pow2(order)
      ensures Settled() && now.size == order
    {
      this.size, loads, log := size, 0, [];
      start := Phase(order, order, order, true, order + 1);
      now := Phase(order, order, order, true, order + 1);
    }

    method Note(e: Event)
      requires Replay(start, log) == Some(now) && Allowed(now, e)
      modifies this`log, this`now
      ensures Replay(start, log) == Some(now) && now == After(old(now), e) && log == old(log) + [e]
    {
      ReplayNext(start, log, e, now);
      log, now := log + [e], After(now, e);
    }

    method Load(targets: Targets) returns (value: nat)
      modifies this`loads
      ensures value == Pow2(targets(old(loads))) && loads == old(loads) + 1
    {
      value := Pow2(targets(loads));
      loads := loads + 1;
    }

    /** `init_table`. */
    method InitTable(first: nat, last: nat, targets: Targets, destroys: Destroys, ghost n: nat, ghost order: nat)
      requires Settled() && first == now.size + 1 <= last + 1 && last < 64
      modifies this
      ensures Settled() && old(now.size) <= now.size && old(loads) <= loads && old(log) <= log
      ensures Stable(targets, n, order) && n <= old(loads) && last == order ==> now.size == order || destroys(loads)
    {
      var i := first;
      while i <= last
        invariant Settled() && first <= i <= last + 1 && now.size == i - 1 && old(loads) <= loads && old(log) <= log
        invariant old(now.size) <= now.size
        invariant Stable(targets, n, order) && n <= old(loads) && last == order ==> n <= loads
      {
        var target := Load(targets);
        Compare(targets(loads - 1), i);
        if target < Pow2(i) { break; }
        Note(Alloc(i));
        Note(Populate(i));
        size := Pow2(i);
        Note(SetSize(i));
        i := i + 1;
        if destroys(loads) { break; }
      }
    }

    /** `fini_table`: on every way out the buckets unlinked are freed, each after a grace
        period of its own. */
    method FiniTable(first: nat, last: nat, targets: Targets, destroys: Destroys, ghost n: nat, ghost order: nat)
      requires Settled() && 1 <= first <= last == now.size
      modifies this
      ensures Settled() && now.size <= old(now.size) && old(loads) <= loads && old(log) <= log
      ensures Stable(targets, n, order) && n <= old(loads) && first == order + 1 ==>
                now.size == order || destroys(loads)
    {
      var i := last;
      var freeByRcu: nat := 0;
      while i >= first
        invariant Valid() && first - 1 <= i == now.size && now.size <= old(now.size)
        invariant old(loads) <= loads && old(log) <= log
        invariant if freeByRcu == 0 then now.alloc == now.size else freeByRcu == now.alloc == now.size + 1
      {
        var target := Load(targets);
        Compare(i - 1, targets(loads - 1));
        if target > Pow2(i - 1) { break; }
        freeByRcu := Lower(i, freeByRcu);
        i := i - 1;
        if destroys(loads) { break; }
      }
      Finish(freeByRcu);
    }

    /** The last buckets unlinked are freed, after one more grace period. */
    method Finish(freeByRcu: nat)
      requires Valid()
      requires if freeByRcu == 0 then now.alloc == now.size else freeByRcu == now.alloc == now.size + 1
      modifies this`log, this`now
      ensures Settled() && now.size == old(now.size) && old(log) <= log
    {
      if freeByRcu != 0 {
        Note(Sync);
        Note(Free(freeByRcu));
      }
    }

    /** One order of `fini_table`: the size goes down, readers that may have loaded it are
        waited for, and only then are its buckets unlinked. */
    method Lower(i: nat, freeByRcu: nat) returns (f: nat)
      requires Valid() && 1 <= i == now.size
      requires if freeByRcu == 0 then now.alloc == now.size else freeByRcu == now.alloc == now.size + 1
      modifies this`size, this`log, this`now
      ensures Valid() && now.size == i - 1 && f == i == now.alloc && old(log) <= log
    {
      size := Pow2(i - 1);
      Note(SetSize(i - 1));
      Note(Sync);
      if freeByRcu != 0 { Note(Free(freeByRcu)); }
      Note(Remove(i));
      f := i;
    }

    lemma Compare(a: nat, b: nat)
      ensures Pow2(a) < Pow2(b) <==> a < b
    {
      if a < b { Pow2Grows(a, b); } else { Pow2Grows(b, a); }
    }

    /** Growing or shrinking towards a target that was loaded. */
    method Approach(target: nat, ghost to: nat, targets: Targets, destroys: Destroys, ghost n: nat, ghost order: nat)
      requires Settled() && target == Pow2(to) && to < 64
      modifies this
      ensures Settled() && old(log) <= log && loads >= old(loads)
      ensures Stable(targets, n, order) && n <= old(loads) && to == order ==> now.size == order || destroys(loads)
    {
      var oldOrder := SizeOrder(size, now.size);
      var newOrder := SizeOrder(target, to);
      Compare(oldOrder, newOrder);
      Compare(newOrder, oldOrder);
      if size < target {
        InitTable(oldOrder + 1, newOrder, targets, destroys, n, order);
      } else if size > target {
        FiniTable(newOrder + 1, oldOrder, targets, destroys, n, order);
      }
    }

    /** One turn of `_do_cds_lfht_resize`: `done` when the target is what the size is. */
    method Turn(targets: Targets, destroys: Destroys, ghost n: nat, ghost order: nat) returns (done: bool)
      requires Settled() && forall k: nat {:trigger targets(k)} :: targets(k) < 64
      modifies this
      ensures Settled() && old(log) <= log && loads > old(loads)
      ensures done <==> now.size == targets(loads - 1)
      ensures Stable(targets, n, order) && Final(destroys) && n <= old(loads) ==> done || destroys(loads)
    {
      var target := Load(targets);
      Approach(target, targets(loads - 1), targets, destroys, n, order);
      target := Load(targets);
      Compare(now.size, targets(loads - 1));
      Compare(targets(loads - 1), now.size);
      done := size == target;
    }

    /** `_do_cds_lfht_resize`: the loop ends once the target holds still, with the size at
        the target unless the table is being destroyed. */
    method DoResize(targets: Targets, destroys: Destroys, ghost n: nat, ghost order: nat)
      requires Settled() && Stable(targets, n, order) && Final(destroys)
      requires forall k: nat {:trigger targets(k)} :: targets(k) < 64
      modifies this
      ensures Settled() && old(log) <= log
      ensures destroys(loads) || (loads > 0 && now.size == targets(loads - 1))
    {
      while true
        invariant Settled() && old(log) <= log
        decreases if loads < n then n - loads + 1 else if destroys(loads) then 0 else 1
      {
        if destroys(loads) { break; }
        var done := Turn(targets, destroys, n, order);
        if done { break; }
      }
    }
  }
}
