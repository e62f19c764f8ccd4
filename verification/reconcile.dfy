/**
 * Reconciling the tracked records with what the container engine reports:
 * the per-record status report of `getStatus`/`listContainers` and the
 * record filter of `cleanup`, stated as functions of the records and of the
 * engine's answers to `podman inspect`. An id missing from the answers is an
 * inspect that failed (the container is gone, or its output did not parse).
 */
module Reconcile {
  import opened Fleet

  // ---------------------------------------------------------------------------
  // Status report (getStatus, listContainers)
  // ---------------------------------------------------------------------------

  /** A record as `getStatus` reports it: the stored fields, the live status and an uptime (null as None). */
  datatype StatusEntry = StatusEntry(
    id: string,
    name: string,
    port: int,
    status: string,
    created: string,
    uptime: Option<string>)

  datatype StatusReport = StatusReport(total: int, containers: seq<StatusEntry>)

  /** JavaScript's `value || fallback` on an optional string: the empty string is falsy too. */
  function OrElse(value: Option<string>, fallback: string): (r: string)
    ensures value.Some? && value.value != "" ==> r == value.value
    ensures value.None? || value.value == "" ==> r == fallback
  {
    if value.Some? && value.value != "" then value.value else fallback
  }

  /** What inspecting `id` gives: None when the inspect fails. */
  function Inspected(inspections: map<string, Inspection>, id: string): Option<Inspection>
  {
    if id in inspections then Some(inspections[id]) else None
  }

  /** The report entry of one record, given the outcome of its inspect. */
  function EntryFor(r: ContainerRecord, found: Option<Inspection>): StatusEntry
  {
    match found
    case None => StatusEntry(r.id, r.name, r.port, "not_found", r.created, None)
    case Some(i) => StatusEntry(r.id, r.name, r.port, OrElse(i.status, "unknown"), r.created,
      Some(OrElse(i.startedAt, r.created)))
  }

  /** One entry per record, in record order. */
  function Entries(rs: seq<ContainerRecord>, inspections: map<string, Inspection>): (es: seq<StatusEntry>)
    ensures |es| == |rs|
    ensures forall k :: 0 <= k < |rs| ==> es[k] == EntryFor(rs[k], Inspected(inspections, rs[k].id))
  {
    if rs == [] then [] else [EntryFor(rs[0], Inspected(inspections, rs[0].id))] + Entries(rs[1..], inspections)
  }

  /** What `getStatus` returns for the records `rs`. */
  function Status(rs: seq<ContainerRecord>, inspections: map<string, Inspection>): StatusReport
  {
    StatusReport(|rs|, Entries(rs, inspections))
  }

  /** The inspect commands `getStatus` issues, one per record in order. */
  function InspectEffects(rs: seq<ContainerRecord>): (e: seq<Effect>)
    ensures |e| == |rs|
    ensures forall k :: 0 <= k < |rs| ==> e[k] == Podman(Inspect(rs[k].id))
  {
    seq(|rs|, k requires 0 <= k < |rs| => Podman(Inspect(rs[k].id)))
  }

  /**
   * The report has one entry per record, in order. Entry k keeps the id,
   * name, port and creation time of record k. Its status is the inspected
   * status, or "unknown" when the engine gave none, or "not_found" with no
   * uptime when the inspect failed. Its uptime is the start time the engine
   * gave, or else the creation time.
   */
  lemma StatusEntries(rs: seq<ContainerRecord>, inspections: map<string, Inspection>, k: nat)
    requires k < |rs|
    ensures Status(rs, inspections).total == |rs| == |Status(rs, inspections).containers|
    ensures var e, r := Status(rs, inspections).containers[k], rs[k];
      && e.id == r.id && e.name == r.name && e.port == r.port && e.created == r.created
      && (r.id !in inspections ==> e.status == "not_found" && e.uptime == None)
      && (r.id in inspections ==>
            var st := inspections[r.id].status;
            var started := inspections[r.id].startedAt;
            && (st.Some? && st.value != "" ==> e.status == st.value)
            && (st.None? || st.value == "" ==> e.status == "unknown")
            && (started.Some? && started.value != "" ==> e.uptime == Some(started.value))
            && (started.None? || started.value == "" ==> e.uptime == Some(r.created)))
  {
  }

  /** Reporting on a longer list reports on each part in turn. */
  lemma {:induction false} EntriesAppend(a: seq<ContainerRecord>, b: seq<ContainerRecord>, inspections: map<string, Inspection>)
    ensures Entries(a + b, inspections) == Entries(a, inspections) + Entries(b, inspections)
  {
    if a != [] {
      assert (a + b)[1..] == a[1..] + b;
      EntriesAppend(a[1..], b, inspections);
    } else {
      assert a + b == b;
    }
  }

  // ---------------------------------------------------------------------------
  // Cleanup
  // ---------------------------------------------------------------------------

  /** `exited` and `stopped` are the statuses cleanup removes. */
  predicate Terminated(i: Inspection)
  {
    i.status == Some("exited") || i.status == Some("stopped")
  }

  /** Cleanup keeps a record exactly when its inspect succeeds with a status other than exited/stopped. */
  predicate Keeps(inspections: map<string, Inspection>, r: ContainerRecord)
  {
    r.id in inspections && !Terminated(inspections[r.id])
  }

  /** The records cleanup keeps, in their original order. */
  function Survivors(rs: seq<ContainerRecord>, inspections: map<string, Inspection>): (s: seq<ContainerRecord>)
    ensures |s| <= |rs|
  {
    if rs == [] then []
    else if Keeps(inspections, rs[0]) then [rs[0]] + Survivors(rs[1..], inspections)
    else Survivors(rs[1..], inspections)
  }

  /** A record survives exactly when it was tracked and cleanup keeps it. */
  lemma {:induction false} SurvivorsMembers(rs: seq<ContainerRecord>, inspections: map<string, Inspection>, r: ContainerRecord)
    ensures r in Survivors(rs, inspections) <==> r in rs && Keeps(inspections, r)
  {
    if rs != [] {
      SurvivorsMembers(rs[1..], inspections, r);
      assert rs == [rs[0]] + rs[1..];
    }
  }

  /** Filtering a concatenation filters each part: the survivors keep their relative order. */
  lemma {:induction false} SurvivorsAppend(a: seq<ContainerRecord>, b: seq<ContainerRecord>, inspections: map<string, Inspection>)
    ensures Survivors(a + b, inspections) == Survivors(a, inspections) + Survivors(b, inspections)
  {
    if a != [] {
      assert (a + b)[0] == a[0];
      assert (a + b)[1..] == a[1..] + b;
      SurvivorsAppend(a[1..], b, inspections);
    } else {
      assert a + b == b;
    }
  }

  /** A second cleanup against the same engine answers keeps everything. */
  lemma {:induction false} SurvivorsIdempotent(rs: seq<ContainerRecord>, inspections: map<string, Inspection>)
    ensures Survivors(Survivors(rs, inspections), inspections) == Survivors(rs, inspections)
  {
    if rs != [] {
      SurvivorsIdempotent(rs[1..], inspections);
      if Keeps(inspections, rs[0]) {
        var s := Survivors(rs, inspections);
        assert s[0] == rs[0] && s[1..] == Survivors(rs[1..], inspections);
      }
    }
  }

  /** `containers.filter(c => c.id !== id)` */
  function RemoveId(rs: seq<ContainerRecord>, id: string): seq<ContainerRecord>
  {
    if rs == [] then []
    else if rs[0].id != id then [rs[0]] + RemoveId(rs[1..], id)
    else RemoveId(rs[1..], id)
  }

  /** The records whose id is not in `ids`, in order. */
  function Without(rs: seq<ContainerRecord>, ids: set<string>): seq<ContainerRecord>
  {
    if rs == [] then []
    else if rs[0].id !in ids then [rs[0]] + Without(rs[1..], ids)
    else Without(rs[1..], ids)
  }

  lemma {:induction false} WithoutNothing(rs: seq<ContainerRecord>)
    ensures Without(rs, {}) == rs
  {
    if rs != [] {
      WithoutNothing(rs[1..]);
    }
  }

  /** Removing one more id from a filtered list is filtering by one more id. */
  lemma {:induction false} RemoveIdWithout(rs: seq<ContainerRecord>, ids: set<string>, id: string)
    ensures RemoveId(Without(rs, ids), id) == Without(rs, ids + {id})
  {
    if rs != [] {
      RemoveIdWithout(rs[1..], ids, id);
    }
  }

  /** The ids cleanup has dropped after visiting `visited`. */
  ghost function DroppedIds(visited: seq<ContainerRecord>, inspections: map<string, Inspection>): set<string>
  {
    set r | r in visited && !Keeps(inspections, r) :: r.id
  }

  /** Visiting one more record drops its id exactly when cleanup does not keep it. */
  lemma DroppedIdsStep(visited: seq<ContainerRecord>, r: ContainerRecord, inspections: map<string, Inspection>)
    ensures DroppedIds(visited + [r], inspections)
      == DroppedIds(visited, inspections) + (if Keeps(inspections, r) then {} else {r.id})
  {
    var a, b := DroppedIds(visited + [r], inspections), DroppedIds(visited, inspections) + (if Keeps(inspections, r) then {} else {r.id});
    forall id | id in a ensures id in b {
      var q :| q in visited + [r] && !Keeps(inspections, q) && q.id == id;
      if q != r {
        assert q in visited;
      }
    }
    forall id | id in b ensures id in a {
      if id in DroppedIds(visited, inspections) {
        var q :| q in visited && !Keeps(inspections, q) && q.id == id;
        assert q in visited + [r];
      } else {
        assert r in visited + [r];
      }
    }
  }

  /** Visiting one more record drops its id from the filtered list exactly when cleanup does not keep it. */
  lemma VisitFilters(rs: seq<ContainerRecord>, visited: seq<ContainerRecord>, r: ContainerRecord,
                     inspections: map<string, Inspection>)
    ensures Without(rs, DroppedIds(visited + [r], inspections))
      == if Keeps(inspections, r) then Without(rs, DroppedIds(visited, inspections))
         else RemoveId(Without(rs, DroppedIds(visited, inspections)), r.id)
  {
    DroppedIdsStep(visited, r, inspections);
    if !Keeps(inspections, r) {
      RemoveIdWithout(rs, DroppedIds(visited, inspections), r.id);
    } else {
      assert DroppedIds(visited + [r], inspections) == DroppedIds(visited, inspections);
    }
  }

  /** Once every record has been visited, dropping the dropped ids leaves exactly the survivors. */
  lemma {:induction false} WithoutDropped(rs: seq<ContainerRecord>, all: seq<ContainerRecord>, inspections: map<string, Inspection>)
    requires forall r :: r in rs ==> r in all
    ensures Without(rs, DroppedIds(all, inspections)) == Survivors(rs, inspections)
  {
    if rs != [] {
      WithoutDropped(rs[1..], all, inspections);
      var r := rs[0];
      if Keeps(inspections, r) {
        forall q | q in all && !Keeps(inspections, q)
          ensures q.id != r.id
        {
        }
        assert r.id !in DroppedIds(all, inspections);
      } else {
        assert r.id in DroppedIds(all, inspections);
      }
    }
  }

  /** What cleanup issues for one visited record: its inspect, and its rm when it is terminated. */
  function CleanupStep(r: ContainerRecord, inspections: map<string, Inspection>): seq<Effect>
  {
    [Podman(Inspect(r.id))]
    + (if r.id in inspections && Terminated(inspections[r.id]) then [Podman(Remove(r.id))] else [])
  }

  /** What cleanup issues for the visited records, in visiting order. */
  function CleanupEffects(visited: seq<ContainerRecord>, inspections: map<string, Inspection>): seq<Effect>
  {
    if visited == [] then []
    else CleanupEffects(visited[..|visited| - 1], inspections) + CleanupStep(visited[|visited| - 1], inspections)
  }

  /**
   * Cleanup issues `podman rm` for an id exactly when some record has that id
   * and was inspected as exited or stopped; never for a record whose inspect
   * failed, and never for a running one.
   */
  lemma {:induction false} RemovesOnlyTerminated(visited: seq<ContainerRecord>, inspections: map<string, Inspection>, id: string)
    ensures Podman(Remove(id)) in CleanupEffects(visited, inspections) <==>
      exists r :: r in visited && r.id == id && id in inspections && Terminated(inspections[id])
  {
    if visited != [] {
      var init, last := visited[..|visited| - 1], visited[|visited| - 1];
      RemovesOnlyTerminated(init, inspections, id);
      assert visited == init + [last];
      if exists r :: r in visited && r.id == id && id in inspections && Terminated(inspections[id]) {
        var r :| r in visited && r.id == id && id in inspections && Terminated(inspections[id]);
        if r != last {
          assert r in init;
        }
      }
    }
  }

  /**
   * Every visited record is inspected, and its inspect is the first effect of
   * its step: it comes right after the effects of the records visited before it.
   */
  lemma {:induction false} CleanupInspectsEach(visited: seq<ContainerRecord>, inspections: map<string, Inspection>, k: nat)
    requires k < |visited|
    ensures Podman(Inspect(visited[k].id)) in CleanupEffects(visited, inspections)
    ensures |CleanupEffects(visited[..k], inspections)| < |CleanupEffects(visited, inspections)|
    ensures CleanupEffects(visited, inspections)[|CleanupEffects(visited[..k], inspections)|] == Podman(Inspect(visited[k].id))
  {
    var init := visited[..|visited| - 1];
    if k < |visited| - 1 {
      CleanupInspectsEach(init, inspections, k);
      assert init[k] == visited[k];
      assert init[..k] == visited[..k];
    } else {
      assert visited[..k] == init;
      assert CleanupStep(visited[k], inspections)[0] == Podman(Inspect(visited[k].id));
    }
  }

  // ---------------------------------------------------------------------------
  // Stop-all
  // ---------------------------------------------------------------------------

  /** The stop commands `stopAllContainers` issues, one per record in order. */
  function StopEffects(rs: seq<ContainerRecord>): (e: seq<Effect>)
    ensures |e| == |rs|
    ensures forall k :: 0 <= k < |rs| ==> e[k] == Podman(Stop(rs[k].id))
  {
    seq(|rs|, k requires 0 <= k < |rs| => Podman(Stop(rs[k].id)))
  }
}
