/** What the checks on the published search index say: when a partition or a manifest is refused, which messages
    count as the same, and what a published one holds. */
module ProjectionMeaning {
  import opened Common
  import opened SearchProjection

  // ----- one message -----

  /** A message has an identity if and only if its folder is a safe id and it has UIDVALIDITY and UID, or neither
      of them but a mailbox id. */
  lemma IdentifiedIff(o: Occurrence)
    ensures var l := o.locator;
            Identity(o).Some? <==>
              SafeId(Strip(l.folderId))
              && ((Strip(l.uidvalidity) != "" && Strip(l.uid) != "")
                  || (Strip(l.uidvalidity) == Strip(l.uid) == "" && Strip(l.mailboxId) != ""))
  {
  }

  /** Two messages are the same if and only if they are in one folder and have the same UIDVALIDITY and UID, or,
      where UIDs are missing, the same mailbox id and content. */
  lemma SameIff(a: Occurrence, b: Occurrence)
    requires Identity(a).Some? && Identity(b).Some?
    ensures var l, m := a.locator, b.locator;
            Identity(a) == Identity(b) <==>
              Strip(l.folderId) == Strip(m.folderId) && Strip(l.uidvalidity) == Strip(m.uidvalidity)
              && Strip(l.uid) == Strip(m.uid)
              && (Strip(l.uid) == "" ==> Strip(l.mailboxId) == Strip(m.mailboxId) && a.raw == b.raw)
  {
  }

  // ----- a partition -----

  predicate Repeats(os: seq<Occurrence>) { exists i, j :: 0 <= i < j < |os| && Identity(os[i]) == Identity(os[j]) }

  predicate Unidentified(os: seq<Occurrence>) { exists o :: o in os && Identity(o) == None }

  /** A partition holds what it was given, and is refused exactly for a message without identity, an unsafe id,
      or two messages that are the same. */
  lemma PartitionMeans(id: string, folderId: string, name: string, os: seq<Occurrence>, at: string, complete: bool,
                       authoritative: bool)
    ensures match PublishPartition(id, folderId, name, os, at, complete, authoritative)
            case Ok(ref) =>
              && !Unidentified(os) && !Repeats(os) && SafeId(ref.id) && SafeId(ref.folderId)
              && ref.id == Strip(id) && ref.folderId == Strip(folderId) && ref.folderName == name && ref.records == os
              && ref.generatedAt == at && (ref.complete <==> complete) && (ref.authoritative <==> authoritative)
            case Err(BadLocator) => Unidentified(os)
            case Err(UnsafeId) => !SafeId(Strip(id)) || !SafeId(Strip(folderId))
            case Err(DuplicateOccurrence) => Repeats(os)
            case Err(_) => false
  {
    if !AllIdentified(os) {
      var i :| 0 <= i < |os| && Identity(os[i]).None?;
      assert os[i] in os;
    }
  }

  // ----- the manifest -----

  predicate AnyUnsafe(ids: seq<string>) { exists id :: id in ids && !SafeId(Strip(id)) }

  function Stripped(ids: seq<string>): set<string> { set id | id in ids :: Strip(id) }

  /** The ids of the partitions that are both complete and authoritative. */
  function Authoritative(ps: seq<Reference>): set<string> {
    set p | p in ps && p.complete && p.authoritative :: p.id
  }

  predicate Twice(ps: seq<Reference>) { exists i, j :: 0 <= i < j < |ps| && ps[i].id == ps[j].id }

  /** Some partition was not expected, or the incomplete ids are not exactly the expected ones without the
      covered ones. */
  predicate Inexact(ps: seq<Reference>, expected: set<string>, incomplete: set<string>) {
    || (exists p :: p in ps && p.id !in expected)
    || (exists id :: id in incomplete && (id !in expected || id in Authoritative(ps)))
    || (exists id :: id in expected && id !in incomplete && id !in Authoritative(ps))
  }

  /** Something that is expected is missing or not covered, or the run has no authority. */
  predicate Unfinished(ps: seq<Reference>, expected: set<string>, authoritative: bool) {
    !authoritative || exists id :: id in expected && id !in Authoritative(ps)
  }

  lemma MeaningsOfSets(ps: seq<Reference>, ids: seq<string>)
    ensures CoveredIds(ps) == Authoritative(ps) && forall p | p in ps :: p.id in Ids(ps)
    ensures AllSafe(ids) <==> !AnyUnsafe(ids)
    ensures AllSafe(ids) ==> SafeIds(ids) == Stripped(ids)
  {
    forall i | 0 <= i < |ps| ensures ps[i] in ps && (Covered(ps[i]) ==> ps[i].id in Authoritative(ps)) {}
    forall i | 0 <= i < |ids| ensures ids[i] in ids {}
    if AllSafe(ids) {
      forall i | 0 <= i < |ids| ensures SafeId(Strip(ids[i])) && RequireSafeId(ids[i]).value == Strip(ids[i]) {
        assert RequireSafeId(ids[i]).Some?;
      }
      forall id | id in ids ensures Strip(id) in SafeIds(ids) {
        var i :| 0 <= i < |ids| && ids[i] == id;
        assert RequireSafeId(ids[i]).value in SafeIds(ids);
      }
    }
  }

  lemma TwiceIff(ps: seq<Reference>)
    ensures |Ids(ps)| != |ps| <==> Twice(ps)
  {
    DistinctIdsCount(ps);
  }

  lemma InexactIff(ps: seq<Reference>, expected: set<string>, incomplete: set<string>)
    ensures !(Ids(ps) <= expected) || incomplete != expected - Authoritative(ps) <==> Inexact(ps, expected, incomplete)
  {
    if !(Ids(ps) <= expected) {
      var id :| id in Ids(ps) && id !in expected;
      var i :| 0 <= i < |ps| && ps[i].id == id;
      assert ps[i] in ps;
    }
    if exists p :: p in ps && p.id !in expected {
      var p :| p in ps && p.id !in expected;
      assert p.id in Ids(ps);
    }
  }

  lemma UnfinishedIff(ps: seq<Reference>, expected: set<string>, incomplete: set<string>, authoritative: bool)
    requires !Inexact(ps, expected, incomplete)
    ensures authoritative && Authoritative(ps) == Ids(ps) && expected == Ids(ps) && incomplete == {}
            <==> !Unfinished(ps, expected, authoritative)
  {
    InexactIff(ps, expected, incomplete);
    if !Unfinished(ps, expected, authoritative) {
      forall id | id in Authoritative(ps) ensures id in Ids(ps) {
        var p :| p in ps && p.complete && p.authoritative && p.id == id;
      }
    }
  }

  /** A manifest is published exactly when no partition comes twice, the ids are safe, the coverage is exact, and
      it claims to be complete only when nothing is missing; then it holds what it was given. */
  lemma RootMeans<R>(ps: seq<Reference>, expectedIds: seq<string>, complete: bool, authoritative: bool,
                     incompleteIds: seq<string>, reasons: map<string, R>, at: string)
    ensures var expected, incomplete := Stripped(expectedIds), Stripped(incompleteIds);
            match PublishRoot(ps, expectedIds, complete, authoritative, incompleteIds, reasons, at)
            case Ok(root) =>
              && !Twice(ps) && !AnyUnsafe(expectedIds) && !AnyUnsafe(incompleteIds)
              && !Inexact(ps, expected, incomplete) && (complete ==> !Unfinished(ps, expected, authoritative))
              && (root.complete <==> complete) && (root.authoritative <==> authoritative) && root.generatedAt == at
              && root.expected == expected && root.incomplete == incomplete && root.completeIds == Authoritative(ps)
              && (forall p :: p in root.partitions <==> p in ps)
              && (forall id :: id in root.reasons <==> id in reasons && id in incomplete)
              && (forall id | id in root.reasons :: root.reasons[id] == reasons[id])
            case Err(DuplicatePartition) => Twice(ps)
            case Err(UnsafeId) => AnyUnsafe(expectedIds) || AnyUnsafe(incompleteIds)
            case Err(CoverageInexact) => Inexact(ps, expected, incomplete)
            case Err(NotComplete) => complete && Unfinished(ps, expected, authoritative)
            case Err(_) => false
  {
    var expected, incomplete := Stripped(expectedIds), Stripped(incompleteIds);
    TwiceIff(ps);
    MeaningsOfSets(ps, expectedIds);
    MeaningsOfSets(ps, incompleteIds);
    if !AnyUnsafe(expectedIds) && !AnyUnsafe(incompleteIds) {
      InexactIff(ps, expected, incomplete);
      if !Inexact(ps, expected, incomplete) { UnfinishedIff(ps, expected, incomplete, authoritative); }
    }
  }
}
