/** How the answers of the server are read, why a snapshot is refused, and what one page holds. */
module ImapAnswers {
  import opened Common
  import opened ImapInventory

  // ----- reading numbers -----

  predicate NoSpace(s: string) { forall i | 0 <= i < |s| :: !IsSpace(s[i]) }

  lemma {:induction false} LastWordIs(front: string, space: char, word: string)
    requires IsSpace(space) && word != "" && NoSpace(word)
    ensures FromLastSpace(front + [space] + word) == word
  {
    var s, n := front + [space] + word, |word| - 1;
    if n == 0 {
      assert s[..|s| - 1] == front + [space] && word == [word[0]];
      assert FromLastSpace(front + [space]) == "";
    } else {
      assert s[..|s| - 1] == front + [space] + word[..n] && word == word[..n] + [word[n]];
      LastWordIs(front, space, word[..n]);
    }
  }

  lemma BracketsGo(core: string)
    requires core != "" && core[0] !in "[]" && core[|core| - 1] !in "[]"
    ensures StripBrackets(core) == StripBrackets(core + "]") == core
  {
    assert (core + "]")[0] == core[0] && (core + "]")[..|core|] == core;
  }

  lemma WordIsRead(front: string, space: char, word: string)
    requires IsSpace(space) && word != "" && NoSpace(word)
    ensures LastWord(front + [space] + word) == Some(StripBrackets(word))
  {
    LastWordIs(front, space, word);
    EndIsKept(front + [space] + word);
  }

  /** The number at the end of an answer is read, with or without a closing bracket. */
  lemma NumberIsRead(front: string, n: nat, digits: string)
    requires digits == Decimal(n)
    ensures LastWord(front + [' '] + digits) == LastWord(front + [' '] + (digits + "]")) == Some(digits)
  {
    NumberOfDecimal(n);
    DigitsHaveNoSpace(digits);
    WordIsRead(front, ' ', digits);
    WordIsRead(front, ' ', digits + "]");
    BracketsGo(digits);
  }

  lemma DigitsHaveNoSpace(digits: string)
    requires AllDigits(digits) && digits != ""
    ensures NoSpace(digits) && NoSpace(digits + "]")
    ensures digits[0] !in "[]" && digits[|digits| - 1] !in "[]"
  {
    assert forall i | 0 <= i < |digits| :: '0' <= digits[i] <= '9';
  }

  lemma EndIsKept(s: string)
    requires s != "" && !IsSpace(s[|s| - 1])
    ensures TrimRight(s) == s
  {
  }

  // ----- why a snapshot is refused -----

  predicate InOrder(found: seq<int>) { forall i, j | 0 <= i < j < |found| :: found[i] < found[j] }

  /** The number of messages announced at the end is that of the UIDs that were found. */
  predicate CountIs(e: Examined, n: nat) {
    LastWord(e.messages).Some? && LastWord(e.messages).value != "" && AllDigits(LastWord(e.messages).value)
    && Number(LastWord(e.messages).value) == n
  }

  predicate AllWords(e: Examined) {
    LastWord(e.uidvalidity).Some? && LastWord(e.uidnext).Some? && LastWord(e.messages).Some?
  }

  /** Whatever a server answers: a snapshot is accepted only when both answers agree, and a refusal is for a
      reason that is true of the answers. */
  lemma AnswersMean(first: Examined, found: seq<int>, last: Examined)
    ensures match Accept(first, found, last)
            case Ok(s) =>
              && AllWords(first) && AllWords(last) && s.uidvalidity != "" && s.uidnext != "" && s.uids == found
              && LastWord(first.uidvalidity) == LastWord(last.uidvalidity) == Some(s.uidvalidity)
              && LastWord(first.uidnext) == LastWord(last.uidnext) == Some(s.uidnext)
              && LastWord(first.messages) == LastWord(last.messages) && CountIs(last, |found|)
              && InOrder(found) && forall i | 0 <= i < |found| :: found[i] > 0
            case Err(NoWord) => !AllWords(first) || !AllWords(last)
            case Err(Protocol) =>
              || LastWord(first.uidvalidity) == Some("") || LastWord(first.uidnext) == Some("")
              || !InOrder(found) || exists i :: 0 <= i < |found| && found[i] <= 0
            case Err(UidvalidityRace) => LastWord(first.uidvalidity) != LastWord(last.uidvalidity)
            case Err(SnapshotRace) =>
              && LastWord(first.uidvalidity) == LastWord(last.uidvalidity)
              && (LastWord(first.uidnext) != LastWord(last.uidnext)
                  || LastWord(first.messages) != LastWord(last.messages))
            case Err(PartialScan) => !CountIs(last, |found|)
  {
  }

  /** Against a mailbox whose answers are those of their moments, a snapshot is refused for exactly what is
      wrong: the search out of order, another UIDVALIDITY at the end, or another UIDNEXT or number of messages;
      it never looks partial. */
  lemma RefusalsMean(boxes: seq<Box>, t1: nat, t2: nat, t3: nat, first: Examined, found: seq<int>, last: Examined)
    requires History(boxes) && t1 <= t2 <= t3 < |boxes|
    requires Announces(first, boxes[t1]) && Lists(found, boxes[t2]) && Announces(last, boxes[t3])
    ensures var a, b := boxes[t1], boxes[t3];
            match Accept(first, found, last)
            case Ok(_) => InOrder(found) && a == b
            case Err(Protocol) => !InOrder(found)
            case Err(UidvalidityRace) => InOrder(found) && a.validity != b.validity
            case Err(SnapshotRace) => InOrder(found) && a.validity == b.validity
                                      && (a.next != b.next || |a.uids| != |b.uids|)
            case Err(_) => false
    ensures Accept(first, found, last).Ok? ==>
              Accept(first, found, last).value
              == Snapshot(Decimal(boxes[t2].validity), Decimal(boxes[t2].next), found)
  {
    var a, b := boxes[t1], boxes[t3];
    SnapshotIsExact(boxes, t1, t2, t3, first, found, last);
    DecimalInjective(a.validity, b.validity);
    DecimalInjective(a.next, b.next);
    DecimalInjective(|a.uids|, |b.uids|);
    NumberOfDecimal(a.validity);
    NumberOfDecimal(a.next);
    EvolvesOver(boxes, t1, t3);
    forall i | 0 <= i < |found| ensures found[i] > 0 {
      assert BoxOk(boxes[t2]) && (found[i] as nat) in boxes[t2].uids;
    }
    if a.validity == b.validity && a.next == b.next && |a.uids| == |b.uids| {
      SameNumbersSameBox(a, a, b);
    }
  }

  // ----- one page -----

  /** A page holds the UIDs from its start on: as many as its size while more follow, and in their order. */
  lemma PageHolds(uids: seq<int>, page: nat, size: nat, start: nat)
    requires page >= 1 && size >= 1 && Positive(uids) && start == (page - 1) * size
    ensures var p := PageAt(uids, page, size);
            && |p.items| <= size && (p.hasMore ==> |p.items| == size) && (p.hasMore <==> start + |p.items| < |uids|)
            && forall i | 0 <= i < |p.items| ::
                 start + i < |uids| && p.items[i].uid == p.items[i].mailboxId == Decimal(uids[start + i])
  {
    var selected := Selected(uids, page, size);
    assert selected == uids[Min(start, |uids|)..Min(start + size, |uids|)];
    ItemsHold(uids, page, size, start, selected);
  }

  lemma ItemsHold(uids: seq<int>, page: nat, size: nat, start: nat, selected: seq<int>)
    requires page >= 1 && size >= 1 && Positive(uids) && selected == Selected(uids, page, size)
    requires selected == uids[Min(start, |uids|)..Min(start + size, |uids|)]
    ensures |PageAt(uids, page, size).items| == |selected|
    ensures forall i | 0 <= i < |selected| ::
              var e := PageAt(uids, page, size).items[i];
              start + i < |uids| && e.uid == e.mailboxId == Decimal(uids[start + i])
  {
  }
}
