/*
 * `HandlerGroup`: the handles registered for one event class, kept in one
 * bucket per `EventPriority`. A bucket is a chain of nodes whose head is the
 * newest handle; here each chain is the sequence of its handles, head first.
 * The group's iterator walks the buckets from LOWEST to HIGHEST.
 */
module HandlerGroups {
  import opened JavaLang

  datatype EventPriority = LOWEST | LOW | NORMAL | HIGH | HIGHEST

  /** `EventPriority.values().length`. */
  const PRIORITIES: nat := 5

  /** `getOrdinal`: the bucket index of a priority, in declaration order. */
  function Ordinal(p: EventPriority): (n: nat)
    ensures n < PRIORITIES
  {
    match p
    case LOWEST => 0
    case LOW => 1
    case NORMAL => 2
    case HIGH => 3
    case HIGHEST => 4
  }

  /** Distinct priorities have distinct buckets. */
  lemma OrdinalInjective(p: EventPriority, q: EventPriority)
    ensures Ordinal(p) == Ordinal(q) <==> p == q
  {
  }

  /** The handles of all buckets, bucket after bucket. */
  function Flatten<H>(buckets: seq<seq<H>>): seq<H> {
    if |buckets| == 0 then [] else Flatten(buckets[..|buckets| - 1]) + buckets[|buckets| - 1]
  }

  /** Flattening one more bucket appends that bucket. */
  lemma FlattenStep<H>(buckets: seq<seq<H>>, k: nat)
    requires k < |buckets|
    ensures Flatten(buckets[..k + 1]) == Flatten(buckets[..k]) + buckets[k]
  {
    assert buckets[..k + 1][..k] == buckets[..k];
  }

  /** Flattening distributes over concatenation of bucket lists. */
  lemma {:induction false} FlattenAppend<H>(a: seq<seq<H>>, b: seq<seq<H>>)
    ensures Flatten(a + b) == Flatten(a) + Flatten(b)
    decreases |b|
  {
    if |b| == 0 {
      assert a + b == a;
    } else {
      var b' := b[..|b| - 1];
      assert (a + b)[..|a + b| - 1] == a + b';
      FlattenAppend(a, b');
    }
  }

  /** A prefix of the buckets flattens to a prefix of the whole. */
  lemma FlattenPrefixLength<H>(buckets: seq<seq<H>>, k: nat)
    requires k <= |buckets|
    ensures |Flatten(buckets[..k])| <= |Flatten(buckets)|
  {
    assert buckets == buckets[..k] + buckets[k..];
    FlattenAppend(buckets[..k], buckets[k..]);
  }

  /** Empty buckets add nothing: skipping from `s` to `k` over empty buckets keeps the flattened prefix. */
  lemma {:induction false} FlattenSkipsEmpty<H>(buckets: seq<seq<H>>, s: nat, k: nat)
    requires s <= k <= |buckets|
    requires forall j :: s <= j < k ==> |buckets[j]| == 0
    ensures Flatten(buckets[..k]) == Flatten(buckets[..s])
    decreases k - s
  {
    if s < k {
      FlattenSkipsEmpty(buckets, s, k - 1);
      FlattenStep(buckets, k - 1);
    }
  }

  /**
   * Adding a handle at bucket `o` puts it after every handle of a lower
   * priority and before every other handle of its own or a higher priority.
   */
  lemma PrependPlacesHandle<H>(buckets: seq<seq<H>>, o: nat, h: H)
    requires o < |buckets|
    ensures Flatten(buckets[o := [h] + buckets[o]]) == Flatten(buckets[..o]) + [h] + Flatten(buckets[o..])
  {
    var nb := buckets[o := [h] + buckets[o]];
    assert nb == buckets[..o] + [[h] + buckets[o]] + buckets[o + 1..];
    FlattenAppend(buckets[..o] + [[h] + buckets[o]], buckets[o + 1..]);
    FlattenAppend(buckets[..o], [[h] + buckets[o]]);
    assert buckets[o..] == [buckets[o]] + buckets[o + 1..];
    FlattenAppend([buckets[o]], buckets[o + 1..]);
    assert Flatten([[h] + buckets[o]]) == [h] + buckets[o] by {
      assert [[h] + buckets[o]][..0] == [];
    }
    assert Flatten([buckets[o]]) == buckets[o] by {
      assert [buckets[o]][..0] == [];
    }
  }

  /** The index of the first non-empty bucket at or after `from`, or `|buckets|` when there is none. */
  function NextNonEmpty<H>(buckets: seq<seq<H>>, from: nat): (k: nat)
    ensures from >= |buckets| ==> k == |buckets|
    ensures from < |buckets| ==> from <= k <= |buckets|
    ensures k < |buckets| ==> |buckets[k]| > 0
    ensures forall j :: from <= j < k && j < |buckets| ==> |buckets[j]| == 0
    decreases |buckets| - from
  {
    if from >= |buckets| then |buckets|
    else if |buckets[from]| > 0 then from
    else NextNonEmpty(buckets, from + 1)
  }

  /** With one bucket per priority, the flattened group is the five chains one after the other. */
  lemma FlattenFive<H>(b: seq<seq<H>>)
    requires |b| == PRIORITIES
    ensures Flatten(b) == b[0] + b[1] + b[2] + b[3] + b[4]
  {
    assert b[..0] == [];
    FlattenStep(b, 0);
    FlattenStep(b, 1);
    FlattenStep(b, 2);
    FlattenStep(b, 3);
    FlattenStep(b, 4);
    assert b[..5] == b;
  }

  /** The position of a node: its bucket and its place in the bucket's chain. */
  datatype Cursor = Cursor(bucket: nat, index: nat)

  class HandlerGroup<H> {
    /** One chain per priority ordinal, newest handle first; the length is the list's size. */
    var priorityNodes: seq<seq<H>>

    /** Every priority has its bucket. */
    ghost predicate Valid()
      reads this
    {
      |priorityNodes| == PRIORITIES
    }

    /**
     * The constructor as written: `new ArrayList<>(PRIORITIES)` reserves
     * capacity but holds no elements, so the list has no bucket at all.
     */
    constructor AsWritten()
      ensures priorityNodes == []
    {
      priorityNodes := [];
    }

    /** The evidently intended constructor: one empty bucket per priority. */
    constructor ()
      ensures Valid()
      ensures priorityNodes == [[], [], [], [], []]
    {
      priorityNodes := [[], [], [], [], []];
    }

    /**
     * `addHandle`: the new handle becomes the head of its priority's chain.
     * Reading a bucket the list does not hold throws IndexOutOfBoundsException.
     */
    method AddHandle(handle: H, priority: EventPriority) returns (r: Outcome<()>)
      modifies this
      ensures Ordinal(priority) >= |old(priorityNodes)| ==>
                r == Throws(IndexOutOfBoundsException) && priorityNodes == old(priorityNodes)
      ensures Ordinal(priority) < |old(priorityNodes)| ==>
                r == Ok(()) && priorityNodes == old(priorityNodes)[Ordinal(priority) := [handle] + old(priorityNodes)[Ordinal(priority)]]
    {
      var o := Ordinal(priority);
      if o >= |priorityNodes| {
        return Throws(IndexOutOfBoundsException);
      }
      var priorityCurrent := priorityNodes[o];
      priorityNodes := priorityNodes[o := [handle] + priorityCurrent];
      return Ok(());
    }

    /** `getHandles()`: every chain walked in bucket order, LOWEST first. */
    method GetHandles() returns (handles: seq<H>)
      ensures handles == Flatten(priorityNodes)
    {
      handles := [];
      var k := 0;
      while k < |priorityNodes|
        invariant 0 <= k <= |priorityNodes|
        invariant handles == Flatten(priorityNodes[..k])
      {
        var node := 0;
        while node < |priorityNodes[k]|
          invariant 0 <= node <= |priorityNodes[k]|
          invariant handles == Flatten(priorityNodes[..k]) + priorityNodes[k][..node]
        {
          handles := handles + [priorityNodes[k][node]];
          node := node + 1;
        }
        assert priorityNodes[k][..node] == priorityNodes[k];
        FlattenStep(priorityNodes, k);
        k := k + 1;
      }
      assert priorityNodes[..k] == priorityNodes;
    }

    /** `getHandles(priority)`: the chain of one priority, newest first; a missing bucket throws. */
    method GetHandlesAt(priority: EventPriority) returns (r: Outcome<seq<H>>)
      ensures Ordinal(priority) >= |priorityNodes| ==> r == Throws(IndexOutOfBoundsException)
      ensures Ordinal(priority) < |priorityNodes| ==> r == Ok(priorityNodes[Ordinal(priority)])
    {
      var o := Ordinal(priority);
      if o >= |priorityNodes| {
        return Throws(IndexOutOfBoundsException);
      }
      var handles := [];
      var node := 0;
      while node < |priorityNodes[o]|
        invariant 0 <= node <= |priorityNodes[o]|
        invariant handles == priorityNodes[o][..node]
      {
        handles := handles + [priorityNodes[o][node]];
        node := node + 1;
      }
      assert priorityNodes[o][..node] == priorityNodes[o];
      return Ok(handles);
    }

    /** A for-each loop over the group: `hasNext` before every `next`, until `hasNext` fails. */
    method ForEach() returns (seen: seq<H>)
      requires Valid()
      ensures seen == Flatten(priorityNodes)
    {
      var it := new HandleIterator(this);
      var b := priorityNodes;
      seen := [];
      ghost var g: nat := 0;
      ghost var i: nat := 0;
      while true
        invariant it.group == this && priorityNodes == b && it.Valid()
        invariant !it.advancedGroup
        invariant it.last.None? ==> it.currentGroup == 0 && seen == []
        invariant it.last.Some? ==> it.last == Some(Cursor(g, i)) && it.currentGroup == g && Emitted(b, g, i, seen)
        invariant |seen| <= |Flatten(b)|
        decreases |Flatten(b)| - |seen|
      {
        ghost var started := it.last.Some?;
        ghost var within := it.HasSuccessor();
        var more := it.HasNext();
        if !more {
          if started {
            EmittedAll(b, g, i, seen);
          } else {
            FlattenSkipsEmpty(b, 0, |b|);
            assert b[..|b|] == b;
          }
          return;
        }
        var h := it.Next();
        var c := it.last.value;
        if within {
          EmitWithin(b, g, i, seen);
        } else if started {
          EmitAcross(b, g, i, c.bucket, seen);
        } else {
          EmitFirst(b, c.bucket);
        }
        seen := seen + [h.value];
        g, i := c.bucket, c.index;
        EmittedBound(b, g, i, seen);
      }
    }
  }

  /** After a for-each has returned the node at (`g`, `i`), it has seen every handle up to that node. */
  ghost predicate Emitted<H>(b: seq<seq<H>>, g: nat, i: nat, seen: seq<H>) {
    g < |b| && i < |b[g]| && seen == Flatten(b[..g]) + b[g][..i + 1]
  }

  lemma EmittedBound<H>(b: seq<seq<H>>, g: nat, i: nat, seen: seq<H>)
    requires Emitted(b, g, i, seen)
    ensures |seen| <= |Flatten(b)|
  {
    FlattenStep(b, g);
    FlattenPrefixLength(b, g + 1);
  }

  /** The next node of the same chain extends what was seen by one handle. */
  lemma EmitWithin<H>(b: seq<seq<H>>, g: nat, i: nat, seen: seq<H>)
    requires Emitted(b, g, i, seen) && i + 1 < |b[g]|
    ensures Emitted(b, g, i + 1, seen + [b[g][i + 1]])
  {
    assert b[g][..i + 2] == b[g][..i + 1] + [b[g][i + 1]];
  }

  /** At the end of a chain, the head of the next non-empty bucket follows. */
  lemma EmitAcross<H>(b: seq<seq<H>>, g: nat, i: nat, k: nat, seen: seq<H>)
    requires Emitted(b, g, i, seen) && i + 1 == |b[g]|
    requires g < k < |b| && |b[k]| > 0
    requires forall j :: g + 1 <= j < k ==> |b[j]| == 0
    ensures Emitted(b, k, 0, seen + [b[k][0]])
  {
    assert b[g][..i + 1] == b[g];
    FlattenStep(b, g);
    FlattenSkipsEmpty(b, g + 1, k);
    assert b[k][..1] == [b[k][0]];
  }

  /** The first handle seen is the head of the first non-empty bucket. */
  lemma EmitFirst<H>(b: seq<seq<H>>, k: nat)
    requires k < |b| && |b[k]| > 0
    requires forall j :: 0 <= j < k ==> |b[j]| == 0
    ensures Emitted(b, k, 0, [b[k][0]])
  {
    FlattenSkipsEmpty(b, 0, k);
    assert b[..0] == [];
    assert b[k][..1] == [b[k][0]];
  }

  /** At the end of a chain with only empty buckets after it, everything has been seen. */
  lemma EmittedAll<H>(b: seq<seq<H>>, g: nat, i: nat, seen: seq<H>)
    requires Emitted(b, g, i, seen) && i + 1 == |b[g]|
    requires forall j :: g + 1 <= j < |b| ==> |b[j]| == 0
    ensures seen == Flatten(b)
  {
    assert b[g][..i + 1] == b[g];
    FlattenStep(b, g);
    FlattenSkipsEmpty(b, g + 1, |b|);
    assert b[..|b|] == b;
  }

  /**
   * The group's iterator. `last` is the node returned last, `currentGroup`
   * the bucket being read, and `advancedGroup` records that `hasNext` has
   * already stepped past the bucket of `last`.
   */
  class HandleIterator<H> {
    const group: HandlerGroup<H>
    var currentGroup: int
    var advancedGroup: bool
    var last: Option<Cursor>

    ghost predicate Valid()
      reads this, group
    {
      group.Valid() && 0 <= currentGroup < PRIORITIES
      && (last.Some? ==> last.value.bucket < PRIORITIES && last.value.index < |group.priorityNodes[last.value.bucket]|)
    }

    /** A node of `last` has a successor in its chain. */
    ghost predicate HasSuccessor()
      reads this, group
      requires Valid()
    {
      last.Some? && last.value.index + 1 < |group.priorityNodes[last.value.bucket]|
    }

    constructor (group: HandlerGroup<H>)
      requires group.Valid()
      ensures this.group == group && Valid()
      ensures currentGroup == 0 && !advancedGroup && last == None
    {
      this.group := group;
      currentGroup := 0;
      advancedGroup := false;
      last := None;
    }

    /**
     * The scan shared by `hasNext` and `next`: from `currentGroup`, read
     * buckets until one is non-empty, then step back onto it.
     */
    method ScanFrom() returns (found: bool)
      requires group.Valid() && 0 <= currentGroup <= PRIORITIES
      modifies this
      ensures last == old(last) && advancedGroup == old(advancedGroup)
      ensures found <==> NextNonEmpty(group.priorityNodes, old(currentGroup)) < PRIORITIES
      ensures currentGroup == if found then NextNonEmpty(group.priorityNodes, old(currentGroup)) else PRIORITIES - 1
    {
      ghost var start := currentGroup;
      var b := group.priorityNodes;
      found := false;
      while currentGroup < PRIORITIES && !found
        invariant start <= currentGroup <= PRIORITIES
        invariant NextNonEmpty(b, start) == if found then currentGroup - 1 else NextNonEmpty(b, currentGroup)
        invariant found ==> currentGroup >= 1
        invariant last == old(last) && advancedGroup == old(advancedGroup)
      {
        found := |b[currentGroup]| > 0;
        currentGroup := currentGroup + 1;
      }
      currentGroup := currentGroup - 1;
    }

    /** `hasNext`: true while the current chain continues or a later bucket is non-empty. */
    method HasNext() returns (more: bool)
      requires Valid()
      modifies this
      ensures Valid() && last == old(last)
      ensures old(HasSuccessor()) ==> more && unchanged(this)
      ensures !old(HasSuccessor()) ==>
                var start := if old(last).Some? && !old(advancedGroup) then old(currentGroup) + 1 else old(currentGroup);
                var k := NextNonEmpty(group.priorityNodes, start);
                && advancedGroup == (old(advancedGroup) || old(last).Some?)
                && (more <==> k < PRIORITIES)
                && currentGroup == if more then k else PRIORITIES - 1
    {
      if last.Some? {
        if last.value.index + 1 < |group.priorityNodes[last.value.bucket]| {
          return true;
        }
        if !advancedGroup {
          currentGroup := currentGroup + 1;
          advancedGroup := true;
        }
      }
      more := ScanFrom();
    }

    /**
     * `next`: the successor in the current chain, else the head of the first
     * non-empty bucket from `currentGroup` on, else nothing.
     */
    method Next() returns (h: Option<H>)
      requires Valid()
      modifies this
      ensures Valid() && !advancedGroup
      ensures old(HasSuccessor()) ==>
                last == Some(Cursor(old(last).value.bucket, old(last).value.index + 1))
                && currentGroup == old(currentGroup)
                && h == Some(group.priorityNodes[last.value.bucket][last.value.index])
      ensures !old(HasSuccessor()) ==>
                var k := NextNonEmpty(group.priorityNodes, old(currentGroup));
                if k < PRIORITIES then
                  last == Some(Cursor(k, 0)) && currentGroup == k && h == Some(group.priorityNodes[k][0])
                else
                  last == None && currentGroup == PRIORITIES - 1 && h == None
    {
      advancedGroup := false;
      if last.Some? {
        var c := last.value;
        if c.index + 1 < |group.priorityNodes[c.bucket]| {
          last := Some(Cursor(c.bucket, c.index + 1));
          return Some(group.priorityNodes[c.bucket][c.index + 1]);
        }
        last := None;
      }
      var found := ScanFrom();
      if found {
        last := Some(Cursor(currentGroup, 0));
        return Some(group.priorityNodes[currentGroup][0]);
      }
      return None;
    }
  }

  /**
   * The group as written: the first `addHandle` throws, whatever the
   * priority, and the group stays without handles.
   */
  method AsWrittenAddThrows<H>(handle: H, priority: EventPriority) returns (added: Outcome<()>, handles: seq<H>)
    ensures added == Throws(IndexOutOfBoundsException)
    ensures handles == []
  {
    var group := new HandlerGroup<H>.AsWritten();
    added := group.AddHandle(handle, priority);
    handles := group.GetHandles();
  }

  /**
   * The corrected group: handles added at the same priority come back newest
   * first, and a handle of a lower priority comes before them.
   */
  method CorrectedOrder<H>(first: H, second: H, low: H) returns (handles: seq<H>, normal: Outcome<seq<H>>)
    ensures handles == [low, second, first]
    ensures normal == Ok([second, first])
  {
    var group := new HandlerGroup<H>();
    var _ := group.AddHandle(first, NORMAL);
    assert [first] + [] == [first];
    assert group.priorityNodes == [[], [], [first], [], []];
    var _ := group.AddHandle(second, NORMAL);
    assert [second] + [first] == [second, first];
    assert group.priorityNodes == [[], [], [second, first], [], []];
    var _ := group.AddHandle(low, LOWEST);
    assert [low] + [] == [low];
    handles := group.GetHandles();
    normal := group.GetHandlesAt(NORMAL);
    assert group.priorityNodes == [[low], [], [second, first], [], []];
    FlattenFive(group.priorityNodes);
    assert [low] + [] + [second, first] + [] + [] == [low, second, first];
  }
}
