/** The process table: an ordered list of records, found by name or id (usecases/src/table.rs). */
module ProcessTable {
  import opened Graphs
  import opened Model
  import DepGraph

  function Find(records: seq<Record>, name: Name): (found: Option<Record>)
    ensures found.Some? ==> found.value.runtime.name == name
  {
    if records == [] then None
    else if records[0].runtime.name == name then Some(records[0])
    else Find(records[1..], name)
  }

  predicate Has(records: seq<Record>, name: Name) {
    Find(records, name).Some?
  }

  lemma {:induction false} FindIsExact(records: seq<Record>, name: Name)
    ensures Has(records, name) ==> Find(records, name).value in records
    ensures !Has(records, name) <==> forall r <- records :: r.runtime.name != name
  {
    if records != [] {
      FindIsExact(records[1..], name);
      assert records == [records[0]] + records[1..];
    }
  }

  predicate Matches(selector: Selector, record: Record) {
    match selector
    case All => false
    case Id(id) => id == record.runtime.pmId
    case ByName(name) => name == record.runtime.name
  }

  function FindBy(records: seq<Record>, selector: Selector): (found: Option<Record>)
    ensures found.Some? ==> found.value in records && Matches(selector, found.value)
  {
    if records == [] then None
    else if Matches(selector, records[0]) then Some(records[0])
    else FindBy(records[1..], selector)
  }

  function NamesOf(records: seq<Record>): (names: seq<Name>)
    ensures |names| == |records|
    ensures forall i :: 0 <= i < |records| ==> names[i] == records[i].runtime.name
  {
    if records == [] then [] else [records[0].runtime.name] + NamesOf(records[1..])
  }

  function IdsOf(records: seq<Record>): (ids: seq<nat>)
    ensures |ids| == |records|
    ensures forall i :: 0 <= i < |records| ==> ids[i] == records[i].runtime.pmId
  {
    if records == [] then [] else [records[0].runtime.pmId] + IdsOf(records[1..])
  }

  /** The in-place update of the first record named `name`; every other record stays where it is. */
  function Put(records: seq<Record>, name: Name, updated: Record): (after: seq<Record>)
    ensures |after| == |records|
    ensures updated.runtime.name == name ==>
              forall other {:trigger Find(after, other)} :: Find(after, other) ==
                if other == name && Has(records, name) then Some(updated) else Find(records, other)
    ensures updated.runtime.name == name ==> NamesOf(after) == NamesOf(records)
    ensures Has(records, name) && updated.runtime.pmId == Find(records, name).value.runtime.pmId ==>
              IdsOf(after) == IdsOf(records)
    ensures !Has(records, name) ==> after == records
  {
    if records == [] then []
    else if records[0].runtime.name == name then [updated] + records[1..]
    else [records[0]] + Put(records[1..], name, updated)
  }

  /** `lowest_free_pm_id`: the scan of the sorted ids in use. */
  function ScanIds(taken: seq<nat>, candidate: nat): nat {
    if taken == [] then candidate
    else if taken[0] > candidate then candidate
    else if taken[0] == candidate then ScanIds(taken[1..], SaturatingInc(candidate, U32_MAX))
    else ScanIds(taken[1..], candidate)
  }

  function Insert(x: nat, sorted: seq<nat>): seq<nat> {
    if sorted == [] || x <= sorted[0] then [x] + sorted else [sorted[0]] + Insert(x, sorted[1..])
  }

  function Sorted(ids: seq<nat>): seq<nat> {
    if ids == [] then [] else Insert(ids[0], Sorted(ids[1..]))
  }

  function LowestFreePmId(records: seq<Record>): nat {
    ScanIds(Sorted(IdsOf(records)), 1)
  }

  function Upsert(records: seq<Record>, spec: Spec, nowMs: nat): seq<Record> {
    match Find(records, spec.name)
    case Some(existing) => Put(records, spec.name, existing.(spec := spec))
    case None => records + [Record(spec, NewRuntime(LowestFreePmId(records), spec.name, nowMs))]
  }

  function Remove(records: seq<Record>, name: Name): (after: seq<Record>)
    ensures forall r :: r in after ==> r in records
    ensures forall other :: other != name ==> Find(after, other) == Find(records, other)
  {
    if records == [] then []
    else if records[0].runtime.name == name then RemoveHead(records, name)
    else [records[0]] + Remove(records[1..], name)
  }

  function RemoveHead(records: seq<Record>, name: Name): (after: seq<Record>)
    requires records != [] && records[0].runtime.name == name
    ensures after == records[1..]
    ensures forall other :: other != name ==> Find(after, other) == Find(records, other)
  {
    records[1..]
  }

  function DependencyNodes(records: seq<Record>): (nodes: seq<DepGraph.Node>)
    ensures |nodes| == |records|
    ensures forall i :: 0 <= i < |records| ==> nodes[i] == records[i].spec.DependencyNode()
  {
    if records == [] then [] else [records[0].spec.DependencyNode()] + DependencyNodes(records[1..])
  }

  function DependencyOrder(records: seq<Record>): seq<Name> {
    match DepGraph.TopoSort(DependencyNodes(records))
    case Ordered(order) => order
    case _ => NamesOf(records)
  }

  /**
   * What every reachable table satisfies: distinct names, distinct ids from 1 up, declarations filed
   * under their own name, and a pid on everything that is not settled.
   */
  ghost predicate TableOk(records: seq<Record>) {
    && NoDup(NamesOf(records))
    && NoDup(IdsOf(records))
    && (forall name :: Has(records, name) ==> RecordOk(Find(records, name).value))
  }

  predicate RecordOk(record: Record) {
    && record.runtime.pmId >= 1
    && record.spec.name == record.runtime.name
    && (!record.runtime.status.IsSettled() ==> record.runtime.pid.Some?)
  }

  lemma {:induction false} FindIsUnique(records: seq<Record>, r: Record)
    requires NoDup(NamesOf(records)) && r in records
    ensures Find(records, r.runtime.name) == Some(r)
  {
    if records[0] != r {
      var i :| 0 <= i < |records| && records[i] == r;
      assert NamesOf(records)[0] != NamesOf(records)[i];
      assert NamesOf(records[1..]) == NamesOf(records)[1..];
      FindIsUnique(records[1..], r);
    }
  }

  lemma {:induction false} FindInAppended(records: seq<Record>, extra: Record, name: Name)
    ensures Find(records + [extra], name) ==
              if Has(records, name) then Find(records, name)
              else if extra.runtime.name == name then Some(extra) else None
  {
    if records != [] {
      assert (records + [extra])[1..] == records[1..] + [extra];
      FindInAppended(records[1..], extra, name);
    }
  }

  lemma AppendKeepsNoDup<T>(s: seq<T>, x: T)
    requires NoDup(s) && x !in s
    ensures NoDup(s + [x])
  {
    NoDupConcat(s, [x]);
  }

  lemma {:induction false} NamesAppend(records: seq<Record>, extra: Record)
    ensures NamesOf(records + [extra]) == NamesOf(records) + [extra.runtime.name]
    ensures IdsOf(records + [extra]) == IdsOf(records) + [extra.runtime.pmId]
  {
  }

  /** A record that keeps its name, id and consistency may replace the old one. */
  lemma PutKeepsTable(records: seq<Record>, name: Name, updated: Record)
    requires TableOk(records) && Has(records, name) && RecordOk(updated)
    requires updated.runtime.name == name && updated.runtime.pmId == Find(records, name).value.runtime.pmId
    ensures TableOk(Put(records, name, updated))
  {
  }

  lemma {:induction false} RemoveKeepsTable(records: seq<Record>, name: Name)
    requires TableOk(records)
    ensures TableOk(Remove(records, name)) && !Has(Remove(records, name), name)
  {
    RemoveKeepsDistinct(records, name);
    forall other | Has(Remove(records, name), other) ensures RecordOk(Find(Remove(records, name), other).value) {
      assert other != name;
      assert Find(Remove(records, name), other) == Find(records, other);
    }
  }

  lemma {:induction false} RemoveKeepsDistinct(records: seq<Record>, name: Name)
    requires NoDup(NamesOf(records)) && NoDup(IdsOf(records))
    ensures NoDup(NamesOf(Remove(records, name))) && NoDup(IdsOf(Remove(records, name)))
    ensures !Has(Remove(records, name), name)
  {
    if records != [] {
      var rest := records[1..];
      NamesSplit(records);
      if records[0].runtime.name == name {
        FindIsExact(rest, name);
      } else {
        RemoveKeepsDistinct(rest, name);
        var kept := Remove(rest, name);
        forall r <- kept ensures r.runtime.name != records[0].runtime.name && r.runtime.pmId != records[0].runtime.pmId {
          NamesHold(rest, r);
        }
        NamesSplit([records[0]] + kept);
      }
    }
  }

  lemma NamesHold(records: seq<Record>, r: Record)
    requires r in records
    ensures r.runtime.name in NamesOf(records) && r.runtime.pmId in IdsOf(records)
  {
    var i :| 0 <= i < |records| && records[i] == r;
    assert NamesOf(records)[i] == r.runtime.name && IdsOf(records)[i] == r.runtime.pmId;
  }

  lemma NamesSplit(records: seq<Record>)
    requires records != []
    ensures NoDup(NamesOf(records)) <==>
              NoDup(NamesOf(records[1..])) && forall r <- records[1..] :: r.runtime.name != records[0].runtime.name
    ensures NoDup(IdsOf(records)) <==>
              NoDup(IdsOf(records[1..])) && forall r <- records[1..] :: r.runtime.pmId != records[0].runtime.pmId
  {
    var rest := records[1..];
    NoDupCons(records[0].runtime.name, NamesOf(rest));
    NoDupCons(records[0].runtime.pmId, IdsOf(rest));
    UnusedIn(rest, records[0].runtime.name, records[0].runtime.pmId);
    assert NamesOf(records) == [records[0].runtime.name] + NamesOf(rest);
    assert IdsOf(records) == [records[0].runtime.pmId] + IdsOf(rest);
  }

  lemma {:induction false} UnusedIn(records: seq<Record>, name: Name, id: nat)
    ensures name in NamesOf(records) <==> exists r <- records :: r.runtime.name == name
    ensures id in IdsOf(records) <==> exists r <- records :: r.runtime.pmId == id
  {
    if records != [] {
      UnusedIn(records[1..], name, id);
      assert records == [records[0]] + records[1..];
    }
  }

  // ----- the least free id -----

  ghost predicate Ascending(s: seq<nat>) {
    forall i, j :: 0 <= i < j < |s| ==> s[i] <= s[j]
  }

  lemma {:induction false} InsertSorts(x: nat, sorted: seq<nat>)
    requires Ascending(sorted)
    ensures Ascending(Insert(x, sorted))
    ensures |Insert(x, sorted)| == |sorted| + 1
    ensures forall y :: y in Insert(x, sorted) <==> y == x || y in sorted
  {
    if sorted != [] && x > sorted[0] {
      InsertSorts(x, sorted[1..]);
      assert sorted == [sorted[0]] + sorted[1..];
      var rest := Insert(x, sorted[1..]);
      forall y <- rest ensures sorted[0] <= y {
        if y != x {
          assert y in sorted[1..];
        }
      }
      assert forall k :: 0 <= k < |rest| ==> rest[k] in rest;
    } else {
      assert sorted == [] || sorted[0] in sorted;
    }
  }

  lemma {:induction false} SortedSorts(ids: seq<nat>)
    ensures Ascending(Sorted(ids)) && |Sorted(ids)| == |ids|
    ensures forall y :: y in Sorted(ids) <==> y in ids
  {
    if ids != [] {
      SortedSorts(ids[1..]);
      InsertSorts(ids[0], Sorted(ids[1..]));
      assert ids == [ids[0]] + ids[1..];
    }
  }

  /** The scan stops at the least number from `candidate` up that the sorted ids leave free. */
  lemma {:induction false} ScanFindsLeast(taken: seq<nat>, candidate: nat)
    requires Ascending(taken) && candidate + |taken| <= U32_MAX
    ensures var free := ScanIds(taken, candidate);
            && candidate <= free <= candidate + |taken|
            && free !in taken
            && forall k :: candidate <= k < free ==> k in taken
  {
    if taken != [] {
      assert taken == [taken[0]] + taken[1..];
      if taken[0] == candidate {
        ScanFindsLeast(taken[1..], candidate + 1);
      } else if taken[0] < candidate {
        ScanFindsLeast(taken[1..], candidate);
      }
    }
  }

  /** A new record gets the least id from 1 up that no record uses. */
  lemma LowestFreeIsLeast(records: seq<Record>)
    requires |records| < U32_MAX
    ensures LowestFreePmId(records) >= 1
    ensures LowestFreePmId(records) !in IdsOf(records)
    ensures forall k :: 1 <= k < LowestFreePmId(records) ==> k in IdsOf(records)
  {
    SortedSorts(IdsOf(records));
    ScanFindsLeast(Sorted(IdsOf(records)), 1);
  }

  lemma UpsertKeepsTable(records: seq<Record>, spec: Spec, nowMs: nat)
    requires TableOk(records) && |records| < U32_MAX
    ensures TableOk(Upsert(records, spec, nowMs))
    ensures Has(Upsert(records, spec, nowMs), spec.name)
    ensures Find(Upsert(records, spec, nowMs), spec.name).value.spec == spec
    ensures forall other :: other != spec.name ==>
              Find(Upsert(records, spec, nowMs), other) == Find(records, other)
    ensures |Upsert(records, spec, nowMs)| == |records| + if Has(records, spec.name) then 0 else 1
  {
    match Find(records, spec.name)
    case Some(existing) =>
      PutKeepsTable(records, spec.name, existing.(spec := spec));
    case None =>
      var newcomer := Record(spec, NewRuntime(LowestFreePmId(records), spec.name, nowMs));
      LowestFreeIsLeast(records);
      NamesAppend(records, newcomer);
      FindIsExact(records, spec.name);
      AppendKeepsNoDup(NamesOf(records), spec.name);
      AppendKeepsNoDup(IdsOf(records), newcomer.runtime.pmId);
      forall other ensures Find(records + [newcomer], other) ==
          if Has(records, other) then Find(records, other) else if other == spec.name then Some(newcomer) else None {
        FindInAppended(records, newcomer, other);
      }
  }
}
