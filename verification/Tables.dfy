/**
 * The process table as the object the source mutates (usecases/src/table.rs); the functions of
 * ProcessTable say what each change makes of the list of records.
 */
module Tables {
  import opened Graphs
  import opened Model
  import opened ProcessTable
  import DepGraph

  lemma {:induction false} PutAt(records: seq<Record>, name: Name, i: nat, updated: Record)
    requires i < |records| && records[i].runtime.name == name
    requires forall j :: 0 <= j < i ==> records[j].runtime.name != name
    ensures Put(records, name, updated) == records[i := updated]
    ensures Find(records, name) == Some(records[i])
    ensures Remove(records, name) == records[..i] + records[i + 1..]
  {
    if i == 0 {
      assert records[0 := updated] == [updated] + records[1..];
      assert records[..0] + records[1..] == records[1..];
    } else {
      var rest := records[1..];
      forall j | 0 <= j < i - 1 ensures rest[j].runtime.name != name {
        assert rest[j] == records[j + 1];
      }
      PutAt(rest, name, i - 1, updated);
      assert records[i := updated] == [records[0]] + rest[i - 1 := updated];
      assert records[..i] + records[i + 1..] == [records[0]] + (rest[..i - 1] + rest[i..]);
    }
  }

  lemma {:induction false} AbsentName(records: seq<Record>, name: Name)
    requires forall r <- records :: r.runtime.name != name
    ensures Find(records, name).None? && Remove(records, name) == records
    ensures forall updated: Record :: Put(records, name, updated) == records
  {
    if records != [] {
      forall r <- records[1..] ensures r in records {
      }
      assert records[0] in records;
      AbsentName(records[1..], name);
    }
  }

  class Table {
    var records: seq<Record>

    constructor ()
      ensures records == []
    {
      records := [];
    }

    /** The position of the first record named `name`, or the length. */
    method Position(name: Name) returns (i: nat)
      ensures i <= |records| && (i < |records| ==> records[i].runtime.name == name)
      ensures forall j :: 0 <= j < i ==> records[j].runtime.name != name
    {
      i := 0;
      while i < |records| && records[i].runtime.name != name
        invariant i <= |records|
        invariant forall j :: 0 <= j < i ==> records[j].runtime.name != name
      {
        i := i + 1;
      }
    }

    /** A change through `find_by_name_mut`. */
    method Replace(name: Name, updated: Record)
      modifies this
      ensures records == Put(old(records), name, updated)
    {
      hide Put, Find, ProcessTable.Remove;
      var i := Position(name);
      if i < |records| {
        PutAt(records, name, i, updated);
        records := records[i := updated];
      } else {
        AbsentName(records, name);
      }
    }

    method Remove(name: Name) returns (removed: Option<Record>)
      modifies this
      ensures removed == Find(old(records), name)
      ensures records == ProcessTable.Remove(old(records), name)
    {
      hide Put, Find, ProcessTable.Remove;
      var i := Position(name);
      if i == |records| {
        AbsentName(records, name);
        return None;
      }
      PutAt(records, name, i, records[i]);
      removed := Some(records[i]);
      records := records[..i] + records[i + 1..];
    }

    method Restore(record: Record)
      modifies this
      ensures records == old(records) + [record]
    {
      records := records + [record];
    }

    /** `lowest_free_pm_id`: the scan over the sorted ids, up to the first gap. */
    method LowestFreePmId() returns (candidate: nat)
      ensures candidate == ProcessTable.LowestFreePmId(records)
    {
      hide Sorted;
      var taken := Sorted(IdsOf(records));
      candidate := 1;
      assert taken[0..] == taken;
      var i := 0;
      while i < |taken| && taken[i] <= candidate
        invariant i <= |taken|
        invariant ScanIds(taken[i..], candidate) == ScanIds(taken, 1)
      {
        assert taken[i..][1..] == taken[i + 1..];
        if taken[i] == candidate {
          candidate := SaturatingInc(candidate, U32_MAX);
        }
        i := i + 1;
      }
    }

    method Upsert(spec: Spec, nowMs: nat) returns (pmId: nat)
      modifies this
      ensures records == ProcessTable.Upsert(old(records), spec, nowMs)
      ensures Has(records, spec.name) ==> pmId == Find(records, spec.name).value.runtime.pmId
    {
      hide Put, ProcessTable.Remove, ProcessTable.LowestFreePmId;
      var i := Position(spec.name);
      if i < |records| {
        var existing := records[i].(spec := spec);
        PutAt(records, spec.name, i, existing);
        records := records[i := existing];
        PutAt(records, spec.name, i, existing);
        return existing.runtime.pmId;
      }
      AbsentName(records, spec.name);
      pmId := LowestFreePmId();
      var newcomer := Record(spec, NewRuntime(pmId, spec.name, nowMs));
      FindInAppended(records, newcomer, spec.name);
      records := records + [newcomer];
    }

    /** `dependency_order`: the sorted names, or the table's own order when they cannot be sorted. */
    method DependencyOrder() returns (order: seq<Name>)
      ensures order == ProcessTable.DependencyOrder(records)
    {
      hide DepGraph.TopoSort;
      var sorted := DepGraph.Sort(DependencyNodes(records));
      match sorted
      case Ordered(names) => order := names;
      case _ => order := NamesOf(records);
    }
  }
}
