/**
 * Units and unit topologies.
 *
 * The control plane reports an application's running units as a list; the
 * deployer groups them by their process label into a topology: one
 * (process name, unit count) group per label. A topology is modelled as a
 * sequence of groups with distinct names, so that its enumeration order is
 * explicit. The model enumerates groups in the order their labels first
 * occur; that order is a choice of the model, not something the deployer
 * is known to guarantee.
 */
module Units {

  /** One running unit. Of its fields only the process label is modelled. */
  datatype Unit = Unit(processName: string)

  /** A process group: a process name and how many units it has. */
  datatype Group = Group(process: string, count: nat)

  /** A topology snapshot, in the model's enumeration order. */
  type Topology = seq<Group>

  /** The process names a topology mentions. */
  function Names(t: Topology): set<string>
  {
    set g | g in t :: g.process
  }

  /** No process name appears twice: the topology is a well-formed dictionary. */
  predicate Distinct(t: Topology)
  {
    t == [] || (t[0].process !in Names(t[1..]) && Distinct(t[1..]))
  }

  /** Every group has at least one unit. */
  predicate Positive(t: Topology)
  {
    forall g | g in t :: g.count > 0
  }

  /** The count a topology gives a process name; an absent name counts zero. */
  function CountOf(t: Topology, name: string): nat
  {
    if t == [] then 0
    else if t[0].process == name then t[0].count
    else CountOf(t[1..], name)
  }

  /** The dictionary a topology stands for. */
  function AsMap(t: Topology): map<string, nat>
  {
    map n | n in Names(t) :: CountOf(t, n)
  }

  /** The process labels that occur in a list of units. */
  function ProcessNames(units: seq<Unit>): set<string>
  {
    set u | u in units :: u.processName
  }

  /** How many units of the list carry the label `name`. */
  function Occurrences(units: seq<Unit>, name: string): nat
  {
    if units == [] then 0
    else Occurrences(units[..|units| - 1], name) + (if units[|units| - 1].processName == name then 1 else 0)
  }

  lemma NamesCons(g: Group, t: Topology)
    ensures Names([g] + t) == {g.process} + Names(t)
  {
  }

  /** In a well-formed topology there are as many names as groups. */
  lemma {:induction false} DistinctNamesCount(t: Topology)
    requires Distinct(t)
    ensures |Names(t)| == |t|
  {
    if t != [] {
      NamesCons(t[0], t[1..]);
      assert t == [t[0]] + t[1..];
      DistinctNamesCount(t[1..]);
    }
  }

  lemma {:induction false} CountOfAbsent(t: Topology, name: string)
    requires name !in Names(t)
    ensures CountOf(t, name) == 0
  {
    if t != [] {
      assert t[0] in t;
      assert Names(t[1..]) <= Names(t) by {
        forall h | h in t[1..] ensures h in t { }
      }
      CountOfAbsent(t[1..], name);
    }
  }

  /** In a topology without empty groups, a name has a positive count exactly when it is present. */
  lemma CountOfPositive(t: Topology, n: string)
    requires Positive(t)
    ensures CountOf(t, n) > 0 <==> n in Names(t)
  {
  }

  /**
   * Counts one more unit labelled `name`: its group grows by one, or a new
   * group of one is appended at the end.
   */
  function Tally(t: Topology, name: string): (r: Topology)
    requires Distinct(t) && Positive(t)
    ensures Distinct(r) && Positive(r)
    ensures Names(r) == Names(t) + {name}
    ensures forall n :: CountOf(r, n) == CountOf(t, n) + (if n == name then 1 else 0)
  {
    if t == [] then [Group(name, 1)]
    else if t[0].process == name then
      NamesCons(t[0], t[1..]);
      NamesCons(Group(name, t[0].count + 1), t[1..]);
      assert t == [t[0]] + t[1..];
      [Group(name, t[0].count + 1)] + t[1..]
    else
      var rest := Tally(t[1..], name);
      NamesCons(t[0], t[1..]);
      NamesCons(t[0], rest);
      assert t == [t[0]] + t[1..];
      assert ([t[0]] + rest)[1..] == rest;
      [t[0]] + rest
  }

  /**
   * Groups a unit list by process label (`total_units`). Every label that
   * occurs gets exactly one group, whose count is the number of units that
   * carry it; labels that do not occur get none, so no units give no groups.
   */
  function TotalUnits(units: seq<Unit>): (t: Topology)
    ensures Distinct(t) && Positive(t)
    ensures Names(t) == ProcessNames(units)
    ensures forall n :: CountOf(t, n) == Occurrences(units, n)
  {
    if units == [] then []
    else
      var init := units[..|units| - 1];
      var last := units[|units| - 1];
      assert units == init + [last];
      assert ProcessNames(units) == ProcessNames(init) + {last.processName} by {
        forall u | u in units ensures u in init || u == last { }
      }
      Tally(TotalUnits(init), last.processName)
  }

  /** Where a label first occurs in a unit list. */
  function FirstAt(units: seq<Unit>, name: string): (i: nat)
    requires name in ProcessNames(units)
    ensures i < |units| && units[i].processName == name
    ensures forall j | 0 <= j < i :: units[j].processName != name
  {
    assert units[0] in units;
    if units[0].processName == name then 0
    else
      assert ProcessNames(units) == {units[0].processName} + ProcessNames(units[1..]) by {
        assert units == [units[0]] + units[1..];
      }
      1 + FirstAt(units[1..], name)
  }

  lemma FirstAtSnoc(init: seq<Unit>, last: Unit, name: string)
    requires name in ProcessNames(init + [last])
    ensures name in ProcessNames(init) ==> FirstAt(init + [last], name) == FirstAt(init, name)
    ensures name !in ProcessNames(init) ==> FirstAt(init + [last], name) == |init|
  {
    var i := FirstAt(init + [last], name);
    if name in ProcessNames(init) {
      var k := FirstAt(init, name);
      assert (init + [last])[k] == init[k];
      assert i < |init| ==> (init + [last])[i] == init[i];
    } else {
      assert forall j | 0 <= j < |init| :: (init + [last])[j] == init[j] && init[j] in init;
    }
  }

  /** Tally keeps every group where it stands; only a new name adds a group, at the end. */
  lemma {:induction false} TallyAt(t: Topology, name: string, k: nat)
    requires Distinct(t) && Positive(t)
    requires k < |Tally(t, name)|
    ensures k < |t| ==> Tally(t, name)[k].process == t[k].process
    ensures k >= |t| ==> k == |t| && name !in Names(t) && Tally(t, name)[k].process == name
  {
    if t != [] {
      NamesCons(t[0], t[1..]);
      if t[0].process != name && k > 0 {
        TallyAt(t[1..], name, k - 1);
      }
    }
  }

  lemma TotalUnitsSnoc(init: seq<Unit>, last: Unit)
    ensures TotalUnits(init + [last]) == Tally(TotalUnits(init), last.processName)
  {
  }

  /** A group's name is among the labels of the units it was counted from. */
  lemma GroupNameOccurs(units: seq<Unit>, k: nat)
    requires k < |TotalUnits(units)|
    ensures TotalUnits(units)[k].process in ProcessNames(units)
  {
  }

  lemma {:induction false} TotalUnitsOrderAt(units: seq<Unit>, a: nat, b: nat)
    requires a < b < |TotalUnits(units)|
    ensures TotalUnits(units)[a].process in ProcessNames(units) && TotalUnits(units)[b].process in ProcessNames(units)
    ensures FirstAt(units, TotalUnits(units)[a].process) < FirstAt(units, TotalUnits(units)[b].process)
  {
    var init := units[..|units| - 1];
    var last := units[|units| - 1];
    assert units == init + [last];
    var t0 := TotalUnits(init);
    var t := TotalUnits(units);
    TotalUnitsSnoc(init, last);
    GroupNameOccurs(units, a);
    GroupNameOccurs(units, b);
    var x, y := t[a].process, t[b].process;
    FirstAtSnoc(init, last, x);
    FirstAtSnoc(init, last, y);
    TallyAt(t0, last.processName, a);
    TallyAt(t0, last.processName, b);
    GroupNameOccurs(init, a);
    if b < |t0| {
      GroupNameOccurs(init, b);
      TotalUnitsOrderAt(init, a, b);
    }
    assert FirstAt(units, x) < FirstAt(units, y);
  }

  /**
   * Groups appear in the order in which their labels first occur in the
   * unit list: the model's choice of enumeration order.
   */
  lemma TotalUnitsInFirstOccurrenceOrder(units: seq<Unit>)
    ensures forall a, b | 0 <= a < b < |TotalUnits(units)| ::
              TotalUnits(units)[a].process in ProcessNames(units) && TotalUnits(units)[b].process in ProcessNames(units) &&
              FirstAt(units, TotalUnits(units)[a].process) < FirstAt(units, TotalUnits(units)[b].process)
  {
    forall a, b | 0 <= a < b < |TotalUnits(units)|
      ensures TotalUnits(units)[a].process in ProcessNames(units) && TotalUnits(units)[b].process in ProcessNames(units) &&
              FirstAt(units, TotalUnits(units)[a].process) < FirstAt(units, TotalUnits(units)[b].process)
    {
      TotalUnitsOrderAt(units, a, b);
    }
  }
}
