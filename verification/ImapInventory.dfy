/** The native IMAP inventory: a snapshot of a folder's UIDs by EXAMINE, UID SEARCH and EXAMINE against
    a mailbox that other clients change in between, and the pages served from it. */
module ImapInventory {
  import opened Common
  import opened SearchBackfill

  // ----- the server's side -----

  /** A mailbox at one moment (section 2.3.1.1 of RFC 3501). */
  datatype Box = Box(validity: nat, next: nat, uids: set<nat>)

  predicate BoxOk(b: Box) { forall u | u in b.uids :: 0 < u < b.next }

  /** What can happen to a mailbox over time: UIDNEXT only grows, a new message gets a UID that was
      still free, messages disappear, and a reset takes a UIDVALIDITY that is larger than before. */
  predicate Evolves(a: Box, b: Box) {
    || a.validity < b.validity
    || (a.validity == b.validity && a.next <= b.next && forall u | u in b.uids :: u in a.uids || a.next <= u)
  }

  /** The states of the mailbox over time. */
  predicate History(boxes: seq<Box>) {
    && (forall t | 0 <= t < |boxes| :: BoxOk(boxes[t]))
    && (forall t | 0 <= t < |boxes| - 1 :: Evolves(boxes[t], boxes[t + 1]))
  }

  lemma {:induction false} EvolvesOver(boxes: seq<Box>, t: nat, u: nat)
    requires History(boxes) && t <= u < |boxes|
    ensures Evolves(boxes[t], boxes[u])
    decreases u - t
  {
    if t < u {
      EvolvesOver(boxes, t + 1, u);
      assert Evolves(boxes[t], boxes[t + 1]);
    }
  }

  // ----- the client's side -----

  /** The untagged data of one EXAMINE as text; "" when it is missing. */
  datatype Examined = Examined(uidvalidity: string, uidnext: string, messages: string)

  function FromLastSpace(s: string): string {
    if s == "" || IsSpace(s[|s| - 1]) then "" else FromLastSpace(s[..|s| - 1]) + [s[|s| - 1]]
  }

  function StripBrackets(s: string): string {
    if s != "" && s[0] in "[]" then StripBrackets(s[1..])
    else if s != "" && s[|s| - 1] in "[]" then StripBrackets(s[..|s| - 1])
    else s
  }

  /** The last word without brackets; there is none in blank text. */
  function LastWord(s: string): Option<string> {
    var word := FromLastSpace(TrimRight(s));
    if word == "" then None else Some(StripBrackets(word))
  }

  datatype SnapshotError = NoWord | Protocol | UidvalidityRace | SnapshotRace | PartialScan

  datatype Snapshot = Snapshot(uidvalidity: string, uidnext: string, uids: seq<int>)

  predicate Ascending(uids: seq<int>) { forall i, j | 0 <= i < j < |uids| :: uids[i] < uids[j] }

  predicate Positive(uids: seq<int>) { forall i | 0 <= i < |uids| :: uids[i] > 0 }

  /** The checks on the three answers, in the program's order. */
  function Accept(first: Examined, found: seq<int>, last: Examined): Result<Snapshot, SnapshotError> {
    var validity, next := LastWord(first.uidvalidity), LastWord(first.uidnext);
    if validity.None? || next.None? then Err(NoWord)
    else if validity.value == "" || next.value == "" then Err(Protocol)
    else if !Ascending(found) || !Positive(found) then Err(Protocol)
    else
      var endValidity, endNext := LastWord(last.uidvalidity), LastWord(last.uidnext);
      var count, endCount := LastWord(first.messages), LastWord(last.messages);
      if endValidity.None? || endNext.None? || count.None? || endCount.None? then Err(NoWord)
      else if endValidity != validity then Err(UidvalidityRace)
      else if endNext != next || endCount != count then Err(SnapshotRace)
      else if endCount.value == "" || !AllDigits(endCount.value) || Number(endCount.value) != |found|
          then Err(PartialScan)
      else Ok(Snapshot(validity.value, next.value, found))
  }

  /** The answer announces the numbers of this moment. */
  predicate Announces(e: Examined, b: Box) {
    && LastWord(e.uidvalidity) == Some(Decimal(b.validity))
    && LastWord(e.uidnext) == Some(Decimal(b.next))
    && LastWord(e.messages) == Some(Decimal(|b.uids|))
  }

  /** The search answers with the UIDs of this moment, in some order. */
  predicate Lists(found: seq<int>, b: Box) {
    && (forall u: nat | u in b.uids :: u in found)
    && forall i | 0 <= i < |found| :: found[i] >= 0 && (found[i] as nat) in b.uids
  }

  lemma DecimalInjective(a: nat, b: nat)
    ensures Decimal(a) == Decimal(b) <==> a == b
  {
    NumberOfDecimal(a);
    NumberOfDecimal(b);
  }

  /** Fewer messages cannot be as many. */
  lemma SameSizeSubset(a: set<nat>, b: set<nat>)
    requires b <= a && |b| == |a|
    ensures a == b
  {
    assert a == b + (a - b);
  }

  /** A box that evolves back to the same numbers never changed. */
  lemma SameNumbersSameBox(a: Box, m: Box, b: Box)
    requires Evolves(a, m) && Evolves(m, b) && BoxOk(m) && BoxOk(b)
    requires a.validity == b.validity && a.next == b.next && |a.uids| == |b.uids|
    ensures a == m == b
  {
    assert m.uids <= a.uids;
    assert b.uids <= m.uids;
    SameSizeSubset(a.uids, b.uids);
  }

  lemma {:induction false} AscendingCount(found: seq<int>, uids: set<nat>)
    requires Ascending(found)
    requires forall u: nat | u in uids :: u in found
    requires forall i | 0 <= i < |found| :: found[i] >= 0 && (found[i] as nat) in uids
    ensures |found| == |uids|
  {
    if found == [] {
      assert uids == {};
    } else {
      var front, top := found[..|found| - 1], found[|found| - 1];
      var u: nat := top;
      forall v: nat | v in uids - {u} ensures v in front {
        assert v in found;
      }
      AscendingCount(front, uids - {u});
    }
  }

  /** A snapshot is accepted exactly when the mailbox was the same at both EXAMINEs and the search came
      back in order; the UIDs are then those of the mailbox at every moment in between. */
  lemma SnapshotIsExact(boxes: seq<Box>, t1: nat, t2: nat, t3: nat, first: Examined, found: seq<int>, last: Examined)
    requires History(boxes) && t1 <= t2 <= t3 < |boxes|
    requires Announces(first, boxes[t1]) && Lists(found, boxes[t2]) && Announces(last, boxes[t3])
    ensures Accept(first, found, last).Ok? <==>
              boxes[t1] == boxes[t3] && forall i, j | 0 <= i < j < |found| :: found[i] < found[j]
    ensures Accept(first, found, last).Ok? ==>
              && Accept(first, found, last).value.uids == found
              && forall t | t1 <= t <= t3 :: boxes[t] == boxes[t2]
  {
    var a, b := boxes[t1], boxes[t3];
    DecimalInjective(a.validity, b.validity);
    DecimalInjective(a.next, b.next);
    DecimalInjective(|a.uids|, |b.uids|);
    NumberOfDecimal(|b.uids|);
    forall t | t1 <= t <= t3 ensures Evolves(a, boxes[t]) && Evolves(boxes[t], b) {
      EvolvesOver(boxes, t1, t);
      EvolvesOver(boxes, t, t3);
    }
    if a.validity == b.validity && a.next == b.next && |a.uids| == |b.uids| {
      forall t | t1 <= t <= t3 ensures boxes[t] == a { SameNumbersSameBox(a, boxes[t], b); }
    }
    if Ascending(found) {
      AscendingCount(found, boxes[t2].uids);
    }
  }

  // ----- pages of a snapshot -----

  datatype FetchError = NotPositive | NoSnapshot(error: SnapshotError)

  function EnvelopeOf(uid: int): Envelope
    requires uid >= 0
  {
    Envelope(Decimal(uid), Decimal(uid))
  }

  function Min(a: int, b: int): int { if a <= b then a else b }

  /** The UIDs of one page of the snapshot. */
  function Selected(uids: seq<int>, page: nat, size: nat): (selected: seq<int>)
    requires page >= 1 && size >= 1
    ensures Positive(uids) ==> Positive(selected)
  {
    var start := (page - 1) * size;
    uids[Min(start, |uids|)..Min(start + size, |uids|)]
  }

  function EnvelopesOf(uids: seq<int>): seq<Envelope>
    requires Positive(uids)
  {
    seq(|uids|, i requires 0 <= i < |uids| => EnvelopeOf(uids[i]))
  }

  function PageAt(uids: seq<int>, page: nat, size: nat): Page
    requires page >= 1 && size >= 1 && Positive(uids)
  {
    Page(EnvelopesOf(Selected(uids, page, size)), (page - 1) * size + |Selected(uids, page, size)| < |uids|)
  }

  class Inventory {
    var states: map<string, Snapshot>

    constructor ()
      ensures states == map[]
    {
      states := map[];
    }

    predicate Valid()
      reads this
    {
      forall id | id in states :: Ascending(states[id].uids) && Positive(states[id].uids)
    }

    /** One snapshot; `first`, `found` and `last` are the answers to the three commands. */
    method TakeSnapshot(id: string, first: Examined, found: seq<int>, last: Examined)
      returns (r: Result<Snapshot, SnapshotError>)
      requires Valid()
      modifies this
      ensures Valid()
      ensures r == Accept(first, found, last)
      ensures states == if r.Ok? then old(states)[id := r.value] else old(states)
    {
      var validity, next := LastWord(first.uidvalidity), LastWord(first.uidnext);
      if validity.None? || next.None? {
        return Err(NoWord);
      }
      if validity.value == "" || next.value == "" {
        return Err(Protocol);
      }
      if !Ascending(found) || !Positive(found) {
        return Err(Protocol);
      }
      var endValidity, endNext := LastWord(last.uidvalidity), LastWord(last.uidnext);
      var count, endCount := LastWord(first.messages), LastWord(last.messages);
      if endValidity.None? || endNext.None? || count.None? || endCount.None? {
        return Err(NoWord);
      }
      if endValidity != validity {
        return Err(UidvalidityRace);
      }
      if endNext != next || endCount != count {
        return Err(SnapshotRace);
      }
      if endCount.value == "" || !AllDigits(endCount.value) || Number(endCount.value) != |found| {
        return Err(PartialScan);
      }
      var state := Snapshot(validity.value, next.value, found);
      states := states[id := state];
      r := Ok(state);
    }

    /** The loop over the selected UIDs. */
    static method ListEnvelopes(selected: seq<int>) returns (items: seq<Envelope>)
      requires Positive(selected)
      ensures items == EnvelopesOf(selected)
    {
      items := [];
      for j := 0 to |selected|
        invariant items == EnvelopesOf(selected[..j])
      {
        items := items + [EnvelopeOf(selected[j])];
      }
      assert selected[..|selected|] == selected;
    }

    /** The remembered snapshot, or a new one. */
    function Remembered(id: string, first: Examined, found: seq<int>, last: Examined): Result<Snapshot, SnapshotError>
      reads this
    {
      if id in states then Ok(states[id]) else Accept(first, found, last)
    }

    method StateOf(id: string, first: Examined, found: seq<int>, last: Examined)
      returns (r: Result<Snapshot, SnapshotError>)
      requires Valid()
      modifies this
      ensures Valid()
      ensures r == old(Remembered(id, first, found, last))
      ensures r.Ok? ==> Positive(r.value.uids)
      ensures states == if r.Ok? then old(states)[id := r.value] else old(states)
    {
      if id in states {
        r := Ok(states[id]);
      } else {
        r := TakeSnapshot(id, first, found, last);
      }
    }

    static method ServePage(uids: seq<int>, page: nat, size: nat) returns (r: Page)
      requires page >= 1 && size >= 1 && Positive(uids)
      ensures r == PageAt(uids, page, size)
    {
      var selected := Selected(uids, page, size);
      var items := ListEnvelopes(selected);
      r := Page(items, (page - 1) * size + |selected| < |uids|);
    }

    /** One page of the folder's snapshot. */
    method FetchPage(id: string, page: int, size: int, first: Examined, found: seq<int>, last: Examined)
      returns (r: Result<Page, FetchError>)
      requires Valid()
      modifies this
      ensures Valid()
      ensures page < 1 || size < 1 ==> r == Err(NotPositive) && states == old(states)
      ensures page >= 1 && size >= 1 ==>
                match old(Remembered(id, first, found, last))
                case Ok(state) => states == old(states)[id := state] && Positive(state.uids)
                    && r == Ok(PageAt(state.uids, page, size))
                case Err(error) => states == old(states) && r == Err(NoSnapshot(error))
      ensures page >= 1 && size >= 1 && id in old(states) ==>
                states == old(states) && Positive(states[id].uids) && r == Ok(PageAt(states[id].uids, page, size))
    {
      if page < 1 || size < 1 {
        return Err(NotPositive);
      }
      var state := StateOf(id, first, found, last);
      if state.Err? {
        return Err(NoSnapshot(state.error));
      }
      var served := ServePage(state.value.uids, page, size);
      r := Ok(served);
    }
  }

  /** Page n ends the folder exactly when it reaches the last UID. */
  lemma LastPage(uids: seq<int>, page: nat, size: nat)
    requires page >= 1 && size >= 1 && Positive(uids)
    ensures PageAt(uids, page, size).hasMore <==> page * size < |uids|
  {
    assert (page - 1) * size + size == page * size;
  }

  /** The items of the first n pages. */
  function ItemsUpTo(uids: seq<int>, n: nat, size: nat): seq<Envelope>
    requires size >= 1 && Positive(uids)
  {
    if n == 0 then [] else ItemsUpTo(uids, n - 1, size) + PageAt(uids, n, size).items
  }

  lemma PartsArePositive(uids: seq<int>, from: nat, to: nat)
    requires Positive(uids) && from <= to <= |uids|
    ensures Positive(uids[from..to])
  {
  }

  /** The UIDs of the first n pages. */
  function Leading(uids: seq<int>, n: nat, size: nat): (leading: seq<int>)
    ensures Positive(uids) ==> Positive(leading)
  {
    if Positive(uids) then PartsArePositive(uids, 0, Min(n * size, |uids|)); uids[..Min(n * size, |uids|)]
    else uids[..Min(n * size, |uids|)]
  }

  lemma NextSlice(uids: seq<int>, n: nat, size: nat)
    requires n >= 1 && size >= 1
    ensures Leading(uids, n - 1, size) + Selected(uids, n, size) == Leading(uids, n, size)
  {
    assert (n - 1) * size + size == n * size;
  }

  lemma EnvelopesConcat(a: seq<int>, b: seq<int>)
    requires Positive(a) && Positive(b)
    ensures Positive(a + b) && EnvelopesOf(a + b) == EnvelopesOf(a) + EnvelopesOf(b)
  {
  }

  lemma {:induction false} PagesArePrefix(uids: seq<int>, n: nat, size: nat)
    requires size >= 1 && Positive(uids)
    ensures ItemsUpTo(uids, n, size) == EnvelopesOf(Leading(uids, n, size))
  {
    if n == 0 {
      NothingLeads(uids, size);
    } else {
      PagesArePrefix(uids, n - 1, size);
      NextSlice(uids, n, size);
      EnvelopesConcat(Leading(uids, n - 1, size), Selected(uids, n, size));
    }
  }

  lemma NothingLeads(uids: seq<int>, size: nat)
    ensures Leading(uids, 0, size) == []
  {
  }

  /** Reading pages from 1 until one says that there are no more yields every UID of the snapshot once,
      in order. */
  lemma PagesYieldEveryUid(uids: seq<int>, n: nat, size: nat)
    requires n >= 1 && size >= 1 && Positive(uids) && !PageAt(uids, n, size).hasMore
    ensures ItemsUpTo(uids, n, size) == EnvelopesOf(uids)
  {
    LastPage(uids, n, size);
    PagesArePrefix(uids, n, size);
    assert uids[..|uids|] == uids;
  }
}
