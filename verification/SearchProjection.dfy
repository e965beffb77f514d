/** The published search index: partition files, and the root manifest with its coverage guards. */
module SearchProjection {
  import opened Common

  type Byte = b: int | 0 <= b < 256
  type Raw = seq<Byte>

  // ----- identifiers -----

  predicate AlphaNumeric(c: char) { 'a' <= c <= 'z' || 'A' <= c <= 'Z' || '0' <= c <= '9' }

  predicate IdChar(c: char) { AlphaNumeric(c) || c == '.' || c == '_' || c == ':' || c == '-' }

  predicate SafeId(s: string) {
    1 <= |s| <= 200 && AlphaNumeric(s[0]) && forall i :: 0 <= i < |s| ==> IdChar(s[i])
  }

  function RequireSafeId(s: string): Option<string> {
    if SafeId(Strip(s)) then Some(Strip(s)) else None
  }

  function Padded(n: nat): string {
    var digits := Decimal(n);
    if |digits| < 8 then seq(8 - |digits|, _ => '0') + digits else digits
  }

  function PartitionId(folderId: string, page: nat): string { folderId + ":p" + Padded(page) }

  function PendingMarker(folderId: string): string { folderId + ":pending" }

  lemma PaddedNumber(n: nat)
    ensures AllDigits(Padded(n)) && |Padded(n)| >= 8 && Number(Padded(n)) == n
  {
    NumberOfDecimal(n);
    if |Decimal(n)| < 8 {
      NumberIgnoresLeadingZeros(8 - |Decimal(n)|, Decimal(n));
    }
  }

  /** A text that ends in ":p" and digits determines both parts. */
  lemma LastColonSplits(a: string, x: string, b: string, y: string)
    requires AllDigits(x) && AllDigits(y) && a + ":p" + x == b + ":p" + y
    ensures a == b && x == y
  {
    var s, t := a + ":p" + x, b + ":p" + y;
    assert s[|a| + 1] == 'p' && t[|b| + 1] == 'p';
    assert forall i | |a| + 2 <= i < |s| :: s[i] == x[i - |a| - 2];
    assert forall i | |b| + 2 <= i < |t| :: t[i] == y[i - |b| - 2];
    assert |a| == |b|;
    assert s[..|a|] == a && t[..|b|] == b;
    assert s[|a| + 2..] == x && t[|b| + 2..] == y;
  }

  /** Distinct pages have distinct partition ids, and none is a pending marker. */
  lemma PartitionIdsDistinct(f: string, n: nat, g: string, m: nat)
    ensures PartitionId(f, n) == PartitionId(g, m) <==> f == g && n == m
    ensures PartitionId(f, n) != PendingMarker(g)
    ensures PendingMarker(f) == PendingMarker(g) <==> f == g
  {
    PaddedNumber(n);
    PaddedNumber(m);
    if PartitionId(f, n) == PartitionId(g, m) {
      LastColonSplits(f, Padded(n), g, Padded(m));
    }
    var s, t := PartitionId(f, n), PendingMarker(g);
    assert s[|s| - 1] == Padded(n)[|Padded(n)| - 1];
    assert t[|t| - 1] == 'g';
    if PendingMarker(f) == PendingMarker(g) {
      assert PendingMarker(f)[..|f|] == f && PendingMarker(g)[..|g|] == g;
    }
  }

  // ----- partitions -----

  datatype Locator = Locator(folderId: string, mailboxId: string, uidvalidity: string, uid: string, quarantine: bool)

  /** The identity of a message in a folder: by UID where UIDs are stable, otherwise by the backend's
      mailbox id together with the content. */
  datatype OccurrenceId = ByUid(folderId: string, uidvalidity: string, uid: string)
                        | ByMailbox(folderId: string, mailboxId: string, raw: Raw)

  datatype ProjectionError =
    | UnsafeId | BadLocator | DuplicateOccurrence | DuplicatePartition | CoverageInexact | NotComplete

  datatype Occurrence = Occurrence(locator: Locator, raw: Raw, content: string)

  function Identity(o: Occurrence): Option<OccurrenceId> {
    var validity, uid, mailbox := Strip(o.locator.uidvalidity), Strip(o.locator.uid), Strip(o.locator.mailboxId);
    if !SafeId(Strip(o.locator.folderId)) || (validity == "") != (uid == "") then None
    else if uid != "" then Some(ByUid(Strip(o.locator.folderId), validity, uid))
    else if mailbox != "" then Some(ByMailbox(Strip(o.locator.folderId), mailbox, o.raw))
    else None
  }

  predicate AllIdentified(os: seq<Occurrence>) { forall i :: 0 <= i < |os| ==> Identity(os[i]).Some? }

  predicate DistinctOccurrences(os: seq<Occurrence>) {
    forall i, j :: 0 <= i < j < |os| ==> Identity(os[i]) != Identity(os[j])
  }

  /** A reference to a published partition file.  The file name digests the whole content, so the
      reference stands for the content; the records are listed in page order. */
  datatype Reference = Reference(
    id: string, folderId: string, folderName: string, records: seq<Occurrence>, generatedAt: string,
    complete: bool, authoritative: bool)

  function PublishPartition(id: string, folderId: string, folderName: string, os: seq<Occurrence>,
                            generatedAt: string, complete: bool, authoritative: bool): Result<Reference,
                                ProjectionError>
  {
    if !AllIdentified(os) then Err(BadLocator)
    else if RequireSafeId(id).None? || RequireSafeId(folderId).None? then Err(UnsafeId)
    else if !DistinctOccurrences(os) then Err(DuplicateOccurrence)
    else Ok(Reference(RequireSafeId(id).value, RequireSafeId(folderId).value, folderName, os, generatedAt, complete,
                      authoritative))
  }

  // ----- the root manifest -----

  /** The manifest with its coverage; lists that the file sorts are sets here. */
  datatype Root<R> = Root(
    generatedAt: string, complete: bool, authoritative: bool, expected: set<string>, completeIds: set<string>,
    incomplete: set<string>, reasons: map<string, R>, partitions: set<Reference>)

  function Ids(ps: seq<Reference>): set<string> { set i | 0 <= i < |ps| :: ps[i].id }

  predicate Covered(p: Reference) { p.complete && p.authoritative }

  function CoveredIds(ps: seq<Reference>): set<string> { set i | 0 <= i < |ps| && Covered(ps[i]) :: ps[i].id }

  predicate AllSafe(ids: seq<string>) { forall i :: 0 <= i < |ids| ==> RequireSafeId(ids[i]).Some? }

  function SafeIds(ids: seq<string>): set<string>
    requires AllSafe(ids)
  {
    set i | 0 <= i < |ids| :: RequireSafeId(ids[i]).value
  }

  lemma CoveredMembers(ps: seq<Reference>)
    ensures forall i | 0 <= i < |ps| :: ps[i].id in Ids(ps)
    ensures forall id | id in CoveredIds(ps) :: exists i :: 0 <= i < |ps| && ps[i].id == id && Covered(ps[i])
    ensures forall i | 0 <= i < |ps| && Covered(ps[i]) :: ps[i].id in CoveredIds(ps)
  {
  }

  function PublishRoot<R>(ps: seq<Reference>, expectedIds: seq<string>, complete: bool, authoritative: bool,
                       incompleteIds: seq<string>, reasons: map<string, R>, generatedAt: string)
    : (r: Result<Root<R>, ProjectionError>)
    ensures r.Ok? ==> HonestCoverage(r.value, ps)
  {
    var actual := Ids(ps);
    if |actual| != |ps| then Err(DuplicatePartition)
    else if !AllSafe(expectedIds) || !AllSafe(incompleteIds) then Err(UnsafeId)
    else
      var expected, incomplete, covered := SafeIds(expectedIds), SafeIds(incompleteIds), CoveredIds(ps);
      if !(actual <= expected) || incomplete != expected - covered then Err(CoverageInexact)
      else if complete && !(authoritative && covered == actual && expected == actual && incomplete == {})
          then Err(NotComplete)
      else
        CoveredMembers(ps);
        Ok(Root(generatedAt, complete, authoritative, expected, covered, incomplete,
                map k | k in reasons && k in incomplete :: reasons[k], set i | 0 <= i < |ps| :: ps[i]))
  }

  /** What a published manifest says about the partitions it was given. */
  ghost predicate HonestCoverage<R>(root: Root<R>, ps: seq<Reference>) {
    && (forall i :: 0 <= i < |ps| ==> ps[i].id in root.expected && ps[i] in root.partitions)
    && root.completeIds + root.incomplete == root.expected && root.completeIds !! root.incomplete
    && (forall i :: 0 <= i < |ps| && ps[i].id in root.incomplete ==> !Covered(ps[i]))
    && (root.complete ==> root.authoritative && root.incomplete == {} && root.expected == Ids(ps)
                          && forall id :: id in root.expected ==>
                             exists i :: 0 <= i < |ps| && ps[i].id == id && Covered(ps[i]))
  }

  predicate DistinctIds(ps: seq<Reference>) { forall i, j :: 0 <= i < j < |ps| ==> ps[i].id != ps[j].id }

  lemma DistinctFront(ps: seq<Reference>, last: Reference)
    ensures DistinctIds(ps + [last]) <==> DistinctIds(ps) && last.id !in Ids(ps)
  {
    var all := ps + [last];
    if DistinctIds(all) {
      forall i, j | 0 <= i < j < |ps| ensures ps[i].id != ps[j].id { assert all[i].id != all[j].id; }
      forall i | 0 <= i < |ps| ensures ps[i].id != last.id { assert all[i].id != all[|ps|].id; }
    }
  }

  lemma {:induction false} DistinctIdsCount(ps: seq<Reference>)
    ensures |Ids(ps)| <= |ps|
    ensures |Ids(ps)| == |ps| <==> DistinctIds(ps)
  {
    if ps != [] {
      var front, last := ps[..|ps| - 1], ps[|ps| - 1];
      DistinctIdsCount(front);
      assert front + [last] == ps;
      DistinctFront(front, last);
      assert Ids(ps) == Ids(front) + {last.id};
    }
  }

  predicate SafePlain(ids: seq<string>) { forall i :: 0 <= i < |ids| ==> SafeId(ids[i]) }

  lemma SafeIsUnchanged(id: string)
    requires SafeId(id)
    ensures RequireSafeId(id) == Some(id)
  {
    StripKeeps(id);
  }

  lemma PlainIds(ids: seq<string>)
    requires SafePlain(ids)
    ensures AllSafe(ids) && SafeIds(ids) == set i | 0 <= i < |ids| :: ids[i]
  {
    forall i | 0 <= i < |ids| ensures RequireSafeId(ids[i]) == Some(ids[i]) {
      SafeIsUnchanged(ids[i]);
    }
  }
}
