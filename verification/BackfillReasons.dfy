/** The reasons that the manifest of a backfill gives for what is not covered. */
module BackfillReasons {
  import opened Common
  import opened SearchProjection
  import opened BackfillWalk
  import opened SearchBackfill
  import opened BackfillRun

  function UncoveredIds(refs: seq<Reference>): set<string> { set i | 0 <= i < |refs| && !Covered(refs[i]) ::
                                                            refs[i].id }

  lemma {:induction false} MarkedAre(reasons: map<string, Incomplete>, refs: seq<Reference>)
    ensures MarkUncovered(reasons, refs).Keys == reasons.Keys + UncoveredIds(refs)
    ensures forall id | id in UncoveredIds(refs) :: MarkUncovered(reasons, refs)[id] == FailClosed
    ensures forall id | id in reasons && id !in UncoveredIds(refs) :: MarkUncovered(reasons, refs)[id] == reasons[id]
  {
    if refs != [] {
      var front, last := refs[..|refs| - 1], refs[|refs| - 1];
      MarkedAre(reasons, front);
      assert UncoveredIds(refs) == UncoveredIds(front) + if Covered(last) then {} else {last.id} by {
        forall i | 0 <= i < |front| && !Covered(front[i]) ensures front[i].id in UncoveredIds(refs) {
          assert refs[i] == front[i];
        }
      }
    }
  }

  lemma UncoveredConcat(a: seq<Reference>, b: seq<Reference>)
    ensures UncoveredIds(a + b) == UncoveredIds(a) + UncoveredIds(b)
  {
    forall id | id in UncoveredIds(a) + UncoveredIds(b) ensures id in UncoveredIds(a + b) {
      if id in UncoveredIds(a) {
        var i :| 0 <= i < |a| && !Covered(a[i]) && a[i].id == id;
        assert (a + b)[i] == a[i];
      } else {
        var i :| 0 <= i < |b| && !Covered(b[i]) && b[i].id == id;
        assert (a + b)[|a| + i] == b[i];
      }
    }
  }

  /** No partition of any folder has the name of a pending marker. */
  lemma NoMarkerIsPartition(refs: seq<Reference>, folders: seq<Folder>, n: nat, f: Folder)
    requires n <= |folders| && RefsFit(refs, folders, n)
    ensures PendingMarker(f.id) !in UncoveredIds(refs)
  {
    forall i | 0 <= i < |refs| ensures refs[i].id != PendingMarker(f.id) {
      assert FromOneOf(refs[i], folders, n);
      var k :| 0 <= k < n && RefOf(refs[i], folders[k]);
      var m: nat :| refs[i].id == PartitionId(folders[k].id, m);
      PartitionIdsDistinct(folders[k].id, m, f.id, 0);
    }
  }

  /** A page that is not covered failed its checks, a folder that is not done waits for what stopped it. */
  ghost predicate ReasonsFit(c: Coverage, folders: seq<Folder>, states: seq<FolderState>, errors: seq<Stop>, stop: Stop,
                             n: nat)
    requires n <= |folders| == |states| == |errors|
  {
    && c.reasons.Keys == UncoveredIds(c.refs) + Markers(folders, states, n)
    && (forall id | id in UncoveredIds(c.refs) :: c.reasons[id] == FailClosed)
    && forall i | 0 <= i < n && !states[i].done :: WaitsFor(c.reasons, folders[i], Why(errors[i], stop))
  }

  ghost predicate WaitsFor(reasons: map<string, Incomplete>, f: Folder, why: Stop) {
    PendingMarker(f.id) in reasons && reasons[PendingMarker(f.id)] == Pending(why)
  }

  lemma FolderReasons(c: Coverage, folders: seq<Folder>, states: seq<FolderState>, errors: seq<Stop>, stop: Stop,
                      n: nat)
    requires n < |folders| == |states| == |errors| && ReasonsFit(c, folders, states, errors, stop, n)
    requires GoodFolders(folders)
    requires RefsFit(c.refs + states[n].partitions, folders, n + 1)
    ensures ReasonsFit(AddFolder(c, folders[n], states[n], Why(errors[n], stop)), folders, states, errors, stop, n + 1)
  {
    var refs := states[n].partitions;
    MarkedAre(c.reasons, refs);
    UncoveredConcat(c.refs, refs);
    MarkersGrow(folders, states, n);
    forall i | 0 <= i <= n ensures PendingMarker(folders[i].id) !in UncoveredIds(c.refs + refs) {
      NoMarkerIsPartition(c.refs + refs, folders, n + 1, folders[i]);
    }
    var c' := AddFolder(c, folders[n], states[n], Why(errors[n], stop));
    forall i | 0 <= i <= n && !states[i].done ensures WaitsFor(c'.reasons, folders[i], Why(errors[i], stop)) {
      if i < n {
        assert WaitsFor(c.reasons, folders[i], Why(errors[i], stop));
        PartitionIdsDistinct(folders[i].id, 0, folders[n].id, 0);
      }
    }
  }

  lemma NothingWaits(folders: seq<Folder>, states: seq<FolderState>, errors: seq<Stop>, stop: Stop)
    requires |folders| == |states| == |errors|
    ensures ReasonsFit(Coverage([], [], map[], true, true), folders, states, errors, stop, 0)
  {
  }

  lemma NextReasons(folders: seq<Folder>, states: seq<FolderState>, errors: seq<Stop>, stop: Stop, n: nat)
    requires n < |folders| == |states| == |errors| && GoodFolders(folders)
    requires ReasonsFit(CoverageOf(folders, states, errors, stop, n), folders, states, errors, stop, n)
    requires RefsFit(CoverageOf(folders, states, errors, stop, n + 1).refs, folders, n + 1)
    ensures ReasonsFit(CoverageOf(folders, states, errors, stop, n + 1), folders, states, errors, stop, n + 1)
  {
    FolderReasons(CoverageOf(folders, states, errors, stop, n), folders, states, errors, stop, n);
  }

  lemma CoveragesRefsFit(folders: seq<Folder>, states: seq<FolderState>, errors: seq<Stop>, stop: Stop, n: nat)
    requires n <= |folders| == |states| == |errors| && GoodFolders(folders)
    requires AllOwnIds(folders, states)
    ensures RefsFit(CoverageOf(folders, states, errors, stop, n).refs, folders, n)
  {
    CoverageFits(folders, states, errors, stop, n);
  }

  lemma NextCoverage(folders: seq<Folder>, states: seq<FolderState>, errors: seq<Stop>, stop: Stop, n: nat)
    requires n < |folders| == |states| == |errors| && GoodFolders(folders) && AllOwnIds(folders, states)
    requires ReasonsFit(CoverageOf(folders, states, errors, stop, n), folders, states, errors, stop, n)
    ensures ReasonsFit(CoverageOf(folders, states, errors, stop, n + 1), folders, states, errors, stop, n + 1)
  {
    CoveragesRefsFit(folders, states, errors, stop, n + 1);
    NextReasons(folders, states, errors, stop, n);
  }

  lemma {:induction false} CoverageReasons(folders: seq<Folder>, states: seq<FolderState>, errors: seq<Stop>,
                                           stop: Stop, n: nat)
    requires n <= |folders| == |states| == |errors| && GoodFolders(folders)
    requires AllOwnIds(folders, states)
    ensures ReasonsFit(CoverageOf(folders, states, errors, stop, n), folders, states, errors, stop, n)
  {
    if n == 0 {
      NothingWaits(folders, states, errors, stop);
    } else {
      CoverageReasons(folders, states, errors, stop, n - 1);
      NextCoverage(folders, states, errors, stop, n - 1);
    }
  }

  lemma UncoveredAreTheRest(refs: seq<Reference>)
    requires DistinctIds(refs)
    ensures UncoveredIds(refs) == Ids(refs) - CoveredIds(refs)
  {
  }

  /** There is a reason for exactly what is incomplete: a partition that is not covered failed closed, and the
      rest of a folder waits for its own error, or without one for what stopped the invocation. */
  ghost predicate ReasonsHold(root: Root<Incomplete>, refs: seq<Reference>, folders: seq<Folder>,
                              states: seq<FolderState>, errors: seq<Stop>, stop: Stop)
    requires |folders| == |states| == |errors|
  {
    && root.reasons.Keys == root.incomplete
    && (forall i | 0 <= i < |refs| && !Covered(refs[i]) ::
          refs[i].id in root.reasons && root.reasons[refs[i].id] == FailClosed)
    && (forall i | 0 <= i < |folders| && !states[i].done ::
          WaitsFor(root.reasons, folders[i], if errors[i] == NoStop then stop else errors[i]))
  }

  /** So it is in every manifest that a run publishes. */
  lemma ReasonsAreTrue(folders: seq<Folder>, states: seq<FolderState>, errors: seq<Stop>, stop: Stop,
                       startedAt: string)
    requires AllOwnIds(folders, states) && |errors| == |folders| && GoodFolders(folders)
    ensures RootOf(folders, states, errors, stop, startedAt).Ok?
    ensures ReasonsHold(RootOf(folders, states, errors, stop, startedAt).value,
                        CoverageOf(folders, states, errors, stop, |folders|).refs, folders, states, errors, stop)
  {
    var c := CoverageOf(folders, states, errors, stop, |folders|);
    RootIsAccepted(folders, states, errors, stop, startedAt);
    CoverageReasons(folders, states, errors, stop, |folders|);
    CoveragesRefsFit(folders, states, errors, stop, |folders|);
    KeptReasons(c, folders, states, errors, stop, startedAt);
  }

  lemma KeptReasons(c: Coverage, folders: seq<Folder>, states: seq<FolderState>, errors: seq<Stop>, stop: Stop,
                    startedAt: string)
    requires |folders| == |states| == |errors| && RootFrom(c, startedAt).Ok?
    requires Exact(RootFrom(c, startedAt).value, c.refs, folders, states)
    requires ReasonsFit(c, folders, states, errors, stop, |folders|) && RefsFit(c.refs, folders, |folders|)
    ensures ReasonsHold(RootFrom(c, startedAt).value, c.refs, folders, states, errors, stop)
  {
    UncoveredAreTheRest(c.refs);
    MarkersAreNotCovered(c.refs, folders, states);
    PublishedReasons(c, startedAt);
    AllAreKept(c, folders, states, RootFrom(c, startedAt).value);
    FitIsHeld(c, folders, states, errors, stop, RootFrom(c, startedAt).value);
  }

  lemma FitIsHeld(c: Coverage, folders: seq<Folder>, states: seq<FolderState>, errors: seq<Stop>, stop: Stop,
                  root: Root<Incomplete>)
    requires |folders| == |states| == |errors| && ReasonsFit(c, folders, states, errors, stop, |folders|)
    requires root.reasons == c.reasons && root.incomplete == c.reasons.Keys
    ensures ReasonsHold(root, c.refs, folders, states, errors, stop)
  {
    forall i | 0 <= i < |c.refs| && !Covered(c.refs[i]) ensures c.refs[i].id in UncoveredIds(c.refs) {}
  }

  lemma PublishedReasons(c: Coverage, startedAt: string)
    requires RootFrom(c, startedAt).Ok?
    ensures ReasonsKept(c, RootFrom(c, startedAt).value)
  {
  }

  predicate ReasonsKept(c: Coverage, root: Root<Incomplete>) {
    root.reasons == map id | id in c.reasons && id in root.incomplete :: c.reasons[id]
  }

  lemma AllAreKept(c: Coverage, folders: seq<Folder>, states: seq<FolderState>, root: Root<Incomplete>)
    requires |folders| == |states| && Exact(root, c.refs, folders, states) && ReasonsKept(c, root)
    requires UncoveredIds(c.refs) == Ids(c.refs) - CoveredIds(c.refs)
    requires Markers(folders, states, |folders|) !! CoveredIds(c.refs)
    requires c.reasons.Keys == UncoveredIds(c.refs) + Markers(folders, states, |folders|)
    ensures root.reasons == c.reasons && c.reasons.Keys == root.incomplete
  {
    assert root.incomplete == c.reasons.Keys;
  }

  lemma MarkersAreNotCovered(refs: seq<Reference>, folders: seq<Folder>, states: seq<FolderState>)
    requires |folders| == |states| && RefsFit(refs, folders, |folders|)
    ensures Markers(folders, states, |folders|) !! CoveredIds(refs)
  {
    forall k, i | 0 <= k < |folders| && 0 <= i < |refs| ensures PendingMarker(folders[k].id) != refs[i].id {
      assert FromOneOf(refs[i], folders, |folders|);
      var j :| 0 <= j < |folders| && RefOf(refs[i], folders[j]);
      var m: nat :| refs[i].id == PartitionId(folders[j].id, m);
      PartitionIdsDistinct(folders[j].id, m, folders[k].id, 0);
    }
  }

  /** In the manifest of an invocation that was stopped, the first folder that is not done waits for what
      stopped it. */
  lemma StopIsTheReason(b: Backfill, startedAt: string, start: Core, r: Report)
    requires b.Reported(startedAt, start, r) && r.stop != NoStop && GoodFolders(b.src.folders)
    ensures |b.file.value.core.folders| == |b.src.folders|
    ensures var c := Current(b.file.value.core.folders, 0);
            c < |b.src.folders| && WaitsFor(b.root.value.reasons, b.src.folders[c], r.stop)
  {
    var core, errors := b.file.value.core, b.file.value.errors;
    WalkOwnsIds(b.src, b.limits, startedAt, core.pages);
    AllDoneIffNoCurrent(core);
    ReasonsAreTrue(b.src.folders, core.folders, errors, r.stop, startedAt);
  }
}
