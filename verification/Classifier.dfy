/** Classifying messages around an unreliable model: parsing a batch answer, the bounded recursive split
    of a group, the safe fallback, and the rule context applied to every result. */
module Classifier {
  import opened Common

  datatype Category = Spam | Relevant | Appointment | Routine | Uncertain | Other(name: string)

  datatype Origin = Rule | Model | BatchModel | SafeFallback | ImportantFallback | LegitimacyGuard
                  | ImportantSender(of: Origin) | KnownContact(of: Origin)

  /** A result; `event` is the calendar event the model found, `details` stands for the remaining
      texts, which no decision looks at. */
  datatype Classification = Classification(
    category: Category, confidence: real, importance: int, forward: bool, event: Option<string>, origin: Origin,
        details: string)

  datatype Context = Context(
    forced: Option<Classification>, importantSender: bool, preventSpam: bool, knownContact: bool, boost: int)

  /** The rule context when the user has said that the message is no spam. */
  function RuleContext(evaluated: Context, forceNotSpam: bool): Context {
    if !forceNotSpam then evaluated
    else
      var c := evaluated.(preventSpam := true);
      if c.forced.Some? && c.forced.value.category == Spam then c.(forced := None) else c
  }

  function Fallback(ctx: Context): Classification {
    if ctx.forced.Some? then ctx.forced.value
    else if ctx.importantSender then Classification(Relevant, 0.96, 8, true, None, ImportantFallback, "")
    else Classification(Uncertain, 0.0, 5, false, None, SafeFallback, "")
  }

  function MaxReal(a: real, b: real): real { if a >= b then a else b }
  function MinReal(a: real, b: real): real { if a <= b then a else b }
  function Max(a: int, b: int): int { if a >= b then a else b }
  function Min(a: int, b: int): int { if a <= b then a else b }

  function ApplyContext(c: Classification, ctx: Context): Classification {
    if ctx.importantSender then
      c.(category := if c.category == Appointment || c.event.Some? then Appointment else Relevant,
         confidence := MaxReal(c.confidence, 0.96), importance := Max(c.importance, 8), forward := true,
         origin := ImportantSender(c.origin))
    else if ctx.preventSpam && c.category == Spam then
      c.(category := Uncertain, confidence := MinReal(c.confidence, 0.69), importance := Max(c.importance, 4),
         forward := false, origin := LegitimacyGuard)
    else if ctx.knownContact && ctx.boost > 0 && (c.category == Relevant || c.category == Appointment) then
      c.(importance := Min(10, c.importance + ctx.boost), origin := KnownContact(c.origin))
    else c
  }

  /** A message that must not be spam never becomes spam, whatever the model says. */
  lemma GuardedIsNeverSpam(c: Classification, ctx: Context)
    ensures ctx.preventSpam || ctx.importantSender ==> ApplyContext(c, ctx).category != Spam
    ensures ApplyContext(c, ctx).category == Spam ==> c.category == Spam
    ensures ApplyContext(c, ctx).forward && !c.forward ==> ctx.importantSender
  {
  }

  // ----- the answer to a batch request -----

  datatype Entry = Entry(id: string, data: Classification) | Malformed

  function LocalId(k: nat): string { "mail-" + Decimal(k + 1) }

  lemma LocalIdsDistinct(j: nat, k: nat)
    ensures LocalId(j) == LocalId(k) <==> j == k
  {
    if LocalId(j) == LocalId(k) {
      assert LocalId(j)[5..] == Decimal(j + 1) && LocalId(k)[5..] == Decimal(k + 1);
    }
    NumberOfDecimal(j + 1);
    NumberOfDecimal(k + 1);
  }

  function LocalIds(n: nat): seq<string> { seq(n, k requires 0 <= k < n => LocalId(k)) }

  /** The entries are exactly one for each of these ids, in any order. */
  ghost predicate Complete(entries: seq<Entry>, ids: seq<string>) {
    Wellformed(entries, ids, |entries|) && forall k | 0 <= k < |ids| :: HasEntry(entries, ids[k])
  }

  /** The first n entries have ids, all of them expected and none twice. */
  predicate Wellformed(entries: seq<Entry>, ids: seq<string>, n: nat)
    requires n <= |entries|
  {
    && (forall j | 0 <= j < n :: entries[j].Entry? && entries[j].id in ids)
    && (forall i, j | 0 <= i < j < n :: entries[i].id != entries[j].id)
  }

  ghost predicate HasEntry(entries: seq<Entry>, id: string) {
    exists j :: 0 <= j < |entries| && entries[j].Entry? && entries[j].id == id
  }

  /** The entry with this id holds this classification. */
  ghost predicate OwnEntry(entries: seq<Entry>, id: string, c: Classification) {
    exists j :: 0 <= j < |entries| && entries[j] == Entry(id, c)
  }

  /** The table holds exactly the first n entries. */
  ghost predicate TableOf(parsed: map<string, Classification>, entries: seq<Entry>, n: nat)
    requires n <= |entries| && forall j | 0 <= j < n :: entries[j].Entry?
  {
    && (forall id | id in parsed :: OwnEntry(entries, id, parsed[id]))
    && (forall id | id in parsed :: exists j :: 0 <= j < n && entries[j].id == id)
    && (forall j | 0 <= j < n :: entries[j].id in parsed)
  }

  /** The loop over the entries of the answer. */
  method ReadEntries(entries: seq<Entry>, ids: seq<string>) returns (r: Option<map<string, Classification>>)
    ensures r.Some? <==> Wellformed(entries, ids, |entries|)
    ensures r.Some? ==> TableOf(r.value, entries, |entries|)
  {
    var parsed: map<string, Classification> := map[];
    for j := 0 to |entries|
      invariant Wellformed(entries, ids, j) && TableOf(parsed, entries, j)
    {
      if entries[j].Malformed? || entries[j].id !in ids || entries[j].id in parsed {
        return None;
      }
      assert OwnEntry(entries, entries[j].id, entries[j].data);
      parsed := parsed[entries[j].id := entries[j].data];
    }
    r := Some(parsed);
  }

  /** Reading a batch answer: any unknown, repeated or missing id spoils all of it. */
  method ParseBatch(entries: seq<Entry>, ids: seq<string>) returns (r: Option<seq<Classification>>)
    ensures r == Answers(entries, ids)
  {
    var table := ReadEntries(entries, ids);
    if table.None? {
      return None;
    }
    var results := [];
    for k := 0 to |ids|
      invariant |results| == k
      invariant forall i | 0 <= i < k :: HasEntry(entries, ids[i]) && Lookup(entries, ids[i]) == Some(results[i])
    {
      if ids[k] !in table.value {
        return None;
      }
      OneEntryPerId(entries, ids[k], table.value[ids[k]]);
      results := results + [table.value[ids[k]]];
    }
    assert Complete(entries, ids);
    assert results == Answers(entries, ids).value;
    r := Some(results);
  }

  /** The first entry with this id. */
  function Lookup(entries: seq<Entry>, id: string): Option<Classification> {
    if entries == [] then None
    else if entries[0].Entry? && entries[0].id == id then Some(entries[0].data)
    else Lookup(entries[1..], id)
  }

  /** The identified answer is unique: an id has only one entry. */
  lemma {:induction false} OneEntryPerId(entries: seq<Entry>, id: string, c: Classification)
    requires forall i, j | 0 <= i < j < |entries| :: entries[i].Entry? && entries[j].Entry? ==>
               entries[i].id != entries[j].id
    ensures OwnEntry(entries, id, c) <==> Lookup(entries, id) == Some(c)
  {
    if entries != [] {
      var tail := entries[1..];
      assert forall i | 0 <= i < |tail| :: tail[i] == entries[i + 1];
      OneEntryPerId(tail, id, c);
      if OwnEntry(entries, id, c) {
        var j :| 0 <= j < |entries| && entries[j] == Entry(id, c);
        if j > 0 { assert tail[j - 1] == Entry(id, c); }
      }
    }
  }

  /** The answers of a complete batch, in the order of the ids. */
  ghost function Answers(entries: seq<Entry>, ids: seq<string>): Option<seq<Classification>> {
    if Complete(entries, ids) then
      Some(seq(|ids|, k requires 0 <= k < |ids| =>
                 var found := Lookup(entries, ids[k]); if found.Some? then found.value else Fallback(NO_RULE)))
    else None
  }

  const NO_RULE := Context(None, false, false, false, 0)

  lemma AnswersAreOwn(entries: seq<Entry>, ids: seq<string>, k: nat)
    requires Complete(entries, ids) && k < |ids|
    ensures OwnEntry(entries, ids[k], Answers(entries, ids).value[k])
  {
    assert HasEntry(entries, ids[k]);
    var j :| 0 <= j < |entries| && entries[j].Entry? && entries[j].id == ids[k];
    assert OwnEntry(entries, ids[k], entries[j].data);
    OneEntryPerId(entries, ids[k], entries[j].data);
  }
}
