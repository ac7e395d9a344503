/**
 * Re-scaling an application's units (`remove_units` and `add_units`).
 *
 * Both operations read the unit topology once, through the replaced
 * `total_units`, decide what to ask for from that single snapshot, and then
 * issue their requests to the units endpoint.
 */
module Scaling {
  import opened Wrappers
  import opened Units
  import opened Api
  import opened Doubles

  /**
   * The removals `remove_units` asks for, given one snapshot and the number
   * of units to keep per process: one removal per group, in snapshot order,
   * of `count - keep` units. A group that has `keep` units or fewer is
   * skipped. The plan is itself a topology: process name and units to remove.
   * It holds at most one removal per group.
   */
  function RemovalPlan(t: Topology, keep: nat): (plan: Topology)
    ensures |plan| <= |t|
  {
    if t == [] then []
    else (if t[0].count > keep then [Group(t[0].process, t[0].count - keep)] else []) + RemovalPlan(t[1..], keep)
  }

  /**
   * With the default `keep` of zero and no empty groups (as `total_units`
   * produces), the plan is the snapshot itself: every group is removed
   * entirely, in enumeration order.
   */
  lemma {:induction false} RemovalPlanDefaultKeep(t: Topology)
    requires Positive(t)
    ensures RemovalPlan(t, 0) == t
  {
    if t != [] {
      assert t[0] in t;
      assert forall g | g in t[1..] :: g in t;
      RemovalPlanDefaultKeep(t[1..]);
      assert t == [t[0]] + t[1..];
    }
  }

  /** The DELETE requests that carry out a removal plan, in plan order. */
  function Deletes(app: string, plan: Topology): (reqs: seq<Request>)
    ensures |reqs| == |plan|
    ensures forall i | 0 <= i < |plan| :: reqs[i] == DeleteUnits(app, plan[i].process, plan[i].count)
  {
    seq(|plan|, i requires 0 <= i < |plan| => DeleteUnits(app, plan[i].process, plan[i].count))
  }

  lemma {:induction false} RemovalPlanAppend(a: Topology, b: Topology, keep: nat)
    ensures RemovalPlan(a + b, keep) == RemovalPlan(a, keep) + RemovalPlan(b, keep)
  {
    if a == [] {
      assert a + b == b;
    } else {
      assert (a + b)[1..] == a[1..] + b;
      RemovalPlanAppend(a[1..], b, keep);
    }
  }

  /** What the plan's head contributes and what the rest of the snapshot contributes. */
  lemma RemovalPlanCons(t: Topology, keep: nat)
    requires t != []
    ensures t[0].count > keep ==> RemovalPlan(t, keep) == [Group(t[0].process, t[0].count - keep)] + RemovalPlan(t[1..], keep)
    ensures t[0].count <= keep ==> RemovalPlan(t, keep) == RemovalPlan(t[1..], keep)
  {
  }

  /** The plan mentions no process the snapshot lacks, never twice, and never with nothing to remove. */
  lemma {:induction false} RemovalPlanWellFormed(t: Topology, keep: nat)
    requires Distinct(t)
    ensures Distinct(RemovalPlan(t, keep)) && Positive(RemovalPlan(t, keep))
    ensures Names(RemovalPlan(t, keep)) <= Names(t)
  {
    if t != [] {
      var rest := RemovalPlan(t[1..], keep);
      RemovalPlanWellFormed(t[1..], keep);
      RemovalPlanCons(t, keep);
      NamesCons(t[0], t[1..]);
      assert t == [t[0]] + t[1..];
      if t[0].count > keep {
        var g := Group(t[0].process, t[0].count - keep);
        NamesCons(g, rest);
        assert ([g] + rest)[1..] == rest;
        assert forall h | h in [g] + rest :: h == g || h in rest;
      }
    }
  }

  /**
   * Per process, the plan asks for exactly what the snapshot holds beyond
   * `keep`: `count - keep` units for a process that has more than `keep`,
   * nothing for any other process.
   */
  lemma {:induction false} RemovalPlanCounts(t: Topology, keep: nat)
    requires Distinct(t)
    ensures forall n :: CountOf(RemovalPlan(t, keep), n) == if CountOf(t, n) > keep then CountOf(t, n) - keep else 0
  {
    if t != [] {
      var rest := RemovalPlan(t[1..], keep);
      RemovalPlanCounts(t[1..], keep);
      RemovalPlanCons(t, keep);
      CountOfAbsent(t[1..], t[0].process);
      if t[0].count > keep {
        var g := Group(t[0].process, t[0].count - keep);
        assert ([g] + rest)[1..] == rest;
      }
    }
  }

  /**
   * One removal per process group exceeding `keep`, and none for the others:
   * the plan's processes are exactly those with more than `keep` units, each
   * once, each with `count - keep` units to remove.
   */
  lemma RemovalPlanPerProcess(t: Topology, keep: nat)
    requires Distinct(t)
    ensures Distinct(RemovalPlan(t, keep)) && Positive(RemovalPlan(t, keep))
    ensures Names(RemovalPlan(t, keep)) == set n | n in Names(t) && CountOf(t, n) > keep
    ensures forall n :: CountOf(RemovalPlan(t, keep), n) == if CountOf(t, n) > keep then CountOf(t, n) - keep else 0
  {
    var plan := RemovalPlan(t, keep);
    RemovalPlanWellFormed(t, keep);
    RemovalPlanCounts(t, keep);
    forall n ensures n in Names(plan) <==> n in Names(t) && CountOf(t, n) > keep {
      CountOfPositive(plan, n);
      if n !in Names(t) {
        CountOfAbsent(t, n);
      }
    }
  }

  /**
   * The number of removal requests is the number of process groups with
   * more than `keep` units, whatever the replies turn out to be.
   */
  lemma RemovalPlanSize(t: Topology, keep: nat)
    requires Distinct(t)
    ensures |RemovalPlan(t, keep)| == |set n | n in Names(t) && CountOf(t, n) > keep|
  {
    RemovalPlanPerProcess(t, keep);
    DistinctNamesCount(RemovalPlan(t, keep));
  }

  /** Where a process name first stands in a topology. */
  function Position(t: Topology, name: string): (i: nat)
    requires name in Names(t)
    ensures i < |t| && t[i].process == name
  {
    assert t[0] in t;
    if t[0].process == name then 0
    else
      NamesCons(t[0], t[1..]);
      assert t == [t[0]] + t[1..];
      1 + Position(t[1..], name)
  }

  /** Position in a topology of a name that its first group does not carry. */
  lemma PositionTail(t: Topology, x: string)
    requires t != [] && x in Names(t[1..]) && x != t[0].process
    ensures x in Names(t) && Position(t, x) == 1 + Position(t[1..], x)
  {
  }

  /** A planned removal is always for a process of the snapshot. */
  lemma {:induction false} RemovalPlanFrom(t: Topology, keep: nat, k: nat)
    requires k < |RemovalPlan(t, keep)|
    ensures RemovalPlan(t, keep)[k].process in Names(t)
  {
    RemovalPlanCons(t, keep);
    NamesCons(t[0], t[1..]);
    assert t == [t[0]] + t[1..];
    if t[0].count > keep && k == 0 {
    } else {
      var off := if t[0].count > keep then 1 else 0;
      assert RemovalPlan(t, keep)[k] == RemovalPlan(t[1..], keep)[k - off];
      RemovalPlanFrom(t[1..], keep, k - off);
    }
  }

  /** A removal planned for the rest of a distinct snapshot stands one place further in the whole. */
  lemma RemovalPlanTail(t: Topology, keep: nat, k: nat)
    requires t != [] && Distinct(t)
    requires k < |RemovalPlan(t[1..], keep)|
    ensures RemovalPlan(t[1..], keep)[k].process in Names(t[1..])
    ensures RemovalPlan(t[1..], keep)[k].process in Names(t)
    ensures Position(t, RemovalPlan(t[1..], keep)[k].process) == 1 + Position(t[1..], RemovalPlan(t[1..], keep)[k].process)
  {
    RemovalPlanFrom(t[1..], keep, k);
    PositionTail(t, RemovalPlan(t[1..], keep)[k].process);
  }

  lemma {:induction false} RemovalPlanOrderAt(t: Topology, keep: nat, a: nat, b: nat)
    requires Distinct(t)
    requires a < b < |RemovalPlan(t, keep)|
    ensures RemovalPlan(t, keep)[a].process in Names(t) && RemovalPlan(t, keep)[b].process in Names(t)
    ensures Position(t, RemovalPlan(t, keep)[a].process) < Position(t, RemovalPlan(t, keep)[b].process)
  {
    var plan := RemovalPlan(t, keep);
    var rest := RemovalPlan(t[1..], keep);
    RemovalPlanCons(t, keep);
    var x, y;
    if t[0].count <= keep {
      assert plan == rest;
      x, y := rest[a].process, rest[b].process;
      RemovalPlanTail(t, keep, a);
      RemovalPlanTail(t, keep, b);
      RemovalPlanOrderAt(t[1..], keep, a, b);
    } else {
      assert plan == [Group(t[0].process, t[0].count - keep)] + rest;
      y := rest[b - 1].process;
      assert plan[b].process == y;
      RemovalPlanTail(t, keep, b - 1);
      if a == 0 {
        x := t[0].process;
        assert t[0] in t;
      } else {
        x := rest[a - 1].process;
        RemovalPlanTail(t, keep, a - 1);
        RemovalPlanOrderAt(t[1..], keep, a - 1, b - 1);
      }
      assert plan[a].process == x;
    }
    assert x in Names(t) && y in Names(t) && Position(t, x) < Position(t, y);
  }

  /** The plan issues its removals in the order the snapshot enumerates the processes. */
  lemma RemovalPlanKeepsOrder(t: Topology, keep: nat)
    requires Distinct(t)
    ensures forall a, b | 0 <= a < b < |RemovalPlan(t, keep)| ::
              RemovalPlan(t, keep)[a].process in Names(t) && RemovalPlan(t, keep)[b].process in Names(t) &&
              Position(t, RemovalPlan(t, keep)[a].process) < Position(t, RemovalPlan(t, keep)[b].process)
  {
    forall a, b | 0 <= a < b < |RemovalPlan(t, keep)|
      ensures RemovalPlan(t, keep)[a].process in Names(t) && RemovalPlan(t, keep)[b].process in Names(t) &&
              Position(t, RemovalPlan(t, keep)[a].process) < Position(t, RemovalPlan(t, keep)[b].process)
    {
      RemovalPlanOrderAt(t, keep, a, b);
    }
  }

  lemma DeletesAppend(app: string, p: Topology, q: Topology)
    ensures Deletes(app, p + q) == Deletes(app, p) + Deletes(app, q)
  {
  }

  /** Walking one more group of the snapshot adds at most one DELETE, for that group. */
  lemma RemovalStep(app: string, t: Topology, i: nat, keep: nat)
    requires i < |t|
    ensures Deletes(app, RemovalPlan(t[..i + 1], keep)) ==
            Deletes(app, RemovalPlan(t[..i], keep)) +
            (if t[i].count > keep then [DeleteUnits(app, t[i].process, t[i].count - keep)] else [])
  {
    assert t[..i + 1] == t[..i] + [t[i]];
    RemovalPlanAppend(t[..i], [t[i]], keep);
    assert [t[i]][1..] == [];
    DeletesAppend(app, RemovalPlan(t[..i], keep), RemovalPlan([t[i]], keep));
  }

  /**
   * The walk over one snapshot: for every group with more than `keep` units,
   * in enumeration order, one request to remove `count - keep` of them. A
   * failed removal does not stop the walk; the result is true exactly when
   * every issued removal succeeded.
   */
  method IssueRemovals(t: Topology, api: Script<Request, Status>, app: string, keep: nat)
    returns (allRemoved: bool)
    requires api.Valid()
    modifies api
    ensures api.log == old(api.log) + Deletes(app, RemovalPlan(t, keep))
    ensures allRemoved == api.AllReplies(|old(api.log)|, |api.log|, Is2xx)
  {
    ghost var start := |api.log|;
    allRemoved := true;
    var i := 0;
    while i < |t|
      invariant 0 <= i <= |t|
      invariant api.log == old(api.log) + Deletes(app, RemovalPlan(t[..i], keep))
      invariant allRemoved == api.AllReplies(start, |api.log|, Is2xx)
    {
      var g := t[i];
      if g.count > keep {
        var status := api.Call(DeleteUnits(app, g.process, g.count - keep));
        api.AllRepliesExtend(start, |api.log| - 1, Is2xx);
        allRemoved := allRemoved && Is2xx(status);
      }
      RemovalStep(app, t, i, keep);
      i := i + 1;
    }
    assert t[..i] == t;
  }

  /**
   * `remove_units(app, keep)`: takes one topology snapshot from
   * `total_units` and issues the removals of its plan (`IssueRemovals`). The
   * result is true exactly when all of them succeeded (vacuously true when
   * none was needed). When the snapshot itself cannot be taken the error
   * propagates (None) and nothing is sent.
   */
  method RemoveUnits(totalUnits: Mock<Topology>, api: Script<Request, Status>, app: string, keep: nat := 0)
    returns (ok: Option<bool>)
    requires api.Valid()
    modifies totalUnits, api
    ensures totalUnits.calls == old(totalUnits.calls) + (if ok.Some? then 1 else 0)
    ensures old(totalUnits.Upcoming()).None? ==> ok == None && api.log == old(api.log)
    ensures old(totalUnits.Upcoming()).Some? ==>
              && api.log == old(api.log) + Deletes(app, RemovalPlan(old(totalUnits.Upcoming()).value, keep))
              && ok == Some(api.AllReplies(|old(api.log)|, |api.log|, Is2xx))
  {
    var snapshot := totalUnits.Call();
    if snapshot.None? {
      return None;
    }
    var allRemoved := IssueRemovals(snapshot.value, api, app, keep);
    return Some(allRemoved);
  }

  /**
   * How many units `add_units` asks for to bring a current total up to a
   * target: the least number that reaches the target, so zero when the
   * target is already met.
   */
  function UnitsToAdd(current: int, target: int): (n: nat)
    ensures current + n >= target
    ensures n > 0 ==> current + n == target
  {
    if target > current then target - current else 0
  }

  /**
   * `add_units(app, target)`: reads the current total from `total_units`
   * once and, when it is below the target, issues a single add of the
   * difference; the result is that call's success. At or above the target no
   * call is issued and the result is true. When the total cannot be read the
   * error propagates (None) and nothing is sent.
   */
  method AddUnits(totalUnits: Mock<int>, api: Script<Request, Status>, app: string, target: int)
    returns (ok: Option<bool>)
    requires api.Valid()
    modifies totalUnits, api
    ensures totalUnits.calls == old(totalUnits.calls) + (if ok.Some? then 1 else 0)
    ensures old(totalUnits.Upcoming()).None? ==> ok == None && api.log == old(api.log)
    ensures old(totalUnits.Upcoming()).Some? ==>
              var n := UnitsToAdd(old(totalUnits.Upcoming()).value, target);
              if n == 0 then ok == Some(true) && api.log == old(api.log)
              else api.log == old(api.log) + [PutUnits(app, n)] && ok == Some(Is2xx(api.ReplyAt(|old(api.log)|)))
  {
    var current := totalUnits.Call();
    if current.None? {
      return None;
    }
    var n := UnitsToAdd(current.value, target);
    if n == 0 {
      return Some(true);
    }
    var status := api.Call(PutUnits(app, n));
    return Some(Is2xx(status));
  }
}
