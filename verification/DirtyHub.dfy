/** storage/DirtyHub.h: a set of uids in 64 shards, each under its own lock. */
module DirtyHub {
  import opened Collections
  import opened WriteBehindModel

  ghost predicate AtHome(shards: seq<set<Uid>>) {
    |shards| == SHARDS && forall k, u :: 0 <= k < SHARDS && u in shards[k] ==> ShardOf(u) == k
  }

  ghost predicate Dirty(shards: seq<set<Uid>>, u: Uid)
    requires |shards| == SHARDS
  {
    u in shards[ShardOf(u)]
  }

  // ---------------------------------------------------------------- stealing while others mark

  datatype HubStep = Marks(u: Uid) | Visits(order: seq<Uid>)

  /** A steal in progress: the shards, the next shard to visit and what was taken so far. */
  datatype Steal = Steal(shards: seq<set<Uid>>, next: nat, out: seq<Uid>)

  ghost predicate StealEnabled(s: Steal, step: HubStep) {
    && |s.shards| == SHARDS
    && (step.Visits? ==> s.next < SHARDS && Lists(step.order, s.shards[s.next]))
  }

  ghost function StealStep(s: Steal, step: HubStep): Steal
    requires StealEnabled(s, step)
  {
    match step
    case Marks(u) => s.(shards := s.shards[ShardOf(u) := s.shards[ShardOf(u)] + {u}])
    case Visits(order) => Steal(s.shards[s.next := {}], s.next + 1, s.out + order)
  }

  ghost predicate StealValid(s: Steal, steps: seq<HubStep>)
    decreases |steps|
  {
    steps == [] || (StealEnabled(s, steps[0]) && StealValid(StealStep(s, steps[0]), steps[1..]))
  }

  ghost function StealRun(s: Steal, steps: seq<HubStep>): (r: Steal)
    requires |s.shards| == SHARDS && StealValid(s, steps)
    ensures |r.shards| == SHARDS
    decreases |steps|
  {
    if steps == [] then s else StealRun(StealStep(s, steps[0]), steps[1..])
  }

  ghost predicate Taken(s: Steal) {
    && AtHome(s.shards) && s.next <= SHARDS && NoDup(s.out)
    && forall u :: u in s.out ==> ShardOf(u) < s.next
  }

  lemma TakenStep(s: Steal, step: HubStep)
    requires Taken(s) && StealEnabled(s, step)
    ensures Taken(StealStep(s, step))
  {
    if step.Visits? { NoDupConcat(s.out, step.order); }
  }

  /** However marks interleave with the shard visits: nothing is taken twice, what was dirty and not
      yet passed is taken or still dirty, and nothing but old dirt and new marks ever shows up. */
  lemma {:induction false} StealProgress(s: Steal, steps: seq<HubStep>, u: Uid)
    requires Taken(s) && StealValid(s, steps)
    ensures var r := StealRun(s, steps);
      && Taken(r)
      && (u in r.out || Dirty(r.shards, u) <==> u in s.out || Dirty(s.shards, u) || Marks(u) in steps)
      && s.next <= r.next
      && (Dirty(r.shards, u) ==>
          Marks(u) in steps || (Dirty(s.shards, u) && !(s.next <= ShardOf(u) < r.next)))
      && (Dirty(s.shards, u) && s.next <= ShardOf(u) < r.next ==> u in r.out)
      && (u in s.out ==> u in r.out)
    decreases |steps|
  {
    if steps != [] {
      var s' := StealStep(s, steps[0]);
      TakenStep(s, steps[0]);
      StealProgress(s', steps[1..], u);
      assert Marks(u) in steps <==> Marks(u) == steps[0] || Marks(u) in steps[1..];
    }
  }

  /** A finished steal, seen from outside: it takes every uid that was dirty when it began, takes no
      uid twice, and between them the result and the shards hold exactly the old dirt and the uids
      marked meanwhile. This is a single set whose steal removes at least all earlier marks. */
  lemma InterleavedSteal(shards: seq<set<Uid>>, steps: seq<HubStep>, u: Uid)
    requires AtHome(shards) && StealValid(Steal(shards, 0, []), steps)
    requires StealRun(Steal(shards, 0, []), steps).next == SHARDS
    ensures var r := StealRun(Steal(shards, 0, []), steps);
      && NoDup(r.out) && AtHome(r.shards)
      && (Dirty(shards, u) ==> u in r.out)
      && (u in r.out || Dirty(r.shards, u) <==> Dirty(shards, u) || Marks(u) in steps)
      && (Marks(u) !in steps ==> !Dirty(r.shards, u))
  {
    StealProgress(Steal(shards, 0, []), steps, u);
  }

  // ---------------------------------------------------------------- the class

  class DirtyHub {
    const shards: array<set<Uid>>

    ghost predicate Valid()
      reads this, shards
    {
      shards.Length == SHARDS && AtHome(shards[..])
    }

    constructor ()
      ensures Valid() && fresh(shards) && shards[..] == NoneDirty()
    {
      shards := new set<Uid>[SHARDS](_ => {});
    }

    method MarkDirty(uid: Uid)
      requires Valid()
      modifies shards
      ensures Valid()
      ensures shards[..] == old(shards[..])[ShardOf(uid) := old(shards[..])[ShardOf(uid)] + {uid}]
      ensures shards.Length == 64 && uid in shards[uid % 64]
    {
      shards[ShardOf(uid)] := shards[ShardOf(uid)] + {uid};
    }

    /** With no mark in between, the steal lists exactly the dirty uids and leaves none. */
    method StealAll() returns (out: seq<Uid>)
      requires Valid()
      modifies shards
      ensures Valid() && shards[..] == NoneDirty()
      ensures NoDup(out) && forall u :: u in out <==> Dirty(old(shards[..]), u)
      ensures |out| == DirtyCount(old(shards[..]), SHARDS)
    {
      out := [];
      for k := 0 to shards.Length
        invariant Valid()
        invariant forall j :: 0 <= j < k ==> shards[j] == {}
        invariant forall j :: k <= j < SHARDS ==> shards[j] == old(shards[j])
        invariant NoDup(out) && |out| == DirtyCount(old(shards[..]), k)
        invariant forall u :: u in out <==> Dirty(old(shards[..]), u) && ShardOf(u) < k
      {
        var order := InOrder(shards[k]);
        NoDupConcat(out, order);
        out := out + order;
        shards[k] := {};
      }
    }
  }

  /** The set's own iteration order, which is unspecified. */
  method InOrder(s: set<Uid>) returns (order: seq<Uid>)
    ensures Lists(order, s) && |order| == |s|
  {
    order := [];
    var left := s;
    while left != {}
      invariant left <= s && NoDup(order) && |order| + |left| == |s|
      invariant forall u :: u in order <==> u in s && u !in left
    {
      var u :| u in left;
      order, left := order + [u], left - {u};
    }
  }
}
