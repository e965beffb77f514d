/** The greedy partition of the messages that need the model into groups for one request each. */
module ModelGroups {

  /** What the partition looks at: the estimated prompt size, whether the message is structurally heavy,
      and whether it carries a calendar invitation. */
  datatype Item = Item(index: nat, chars: nat, heavy: bool, calendar: bool)

  /** `size` is the batch size (1 when batching is off), `target` the character target of a group. */
  datatype Policy = Policy(size: nat, adaptive: bool, target: nat)

  predicate PolicyOk(p: Policy) { p.size >= 1 }

  function Chars(g: seq<Item>): nat {
    if g == [] then 0 else Chars(g[..|g| - 1]) + g[|g| - 1].chars
  }

  predicate HasHeavy(g: seq<Item>) { exists i :: 0 <= i < |g| && g[i].heavy }

  predicate HasCalendar(g: seq<Item>) { exists i :: 0 <= i < |g| && g[i].calendar }

  /** Whether the next message may join the group. */
  predicate Fits(p: Policy, g: seq<Item>, x: Item) {
    && |g| < p.size
    && (p.adaptive && p.size > 1 ==>
          Chars(g) + x.chars <= p.target && !(HasHeavy(g) && x.heavy) && !x.calendar && !HasCalendar(g))
  }

  /** Every message after the first fitted when it joined. */
  predicate Built(p: Policy, g: seq<Item>) {
    g != [] && forall j :: 1 <= j < |g| ==> Fits(p, g[..j], g[j])
  }

  function Concat(groups: seq<seq<Item>>): seq<Item> {
    if groups == [] then [] else Concat(groups[..|groups| - 1]) + groups[|groups| - 1]
  }

  /** A group is closed only when the next message does not fit. */
  predicate Greedy(p: Policy, groups: seq<seq<Item>>) {
    && (forall k :: 0 <= k < |groups| ==> Built(p, groups[k]))
    && (forall k :: 0 <= k < |groups| - 1 && groups[k + 1] != [] ==> !Fits(p, groups[k], groups[k + 1][0]))
  }

  // ----- the loops -----

  /** Nothing can join this group any more. */
  predicate Closed(p: Policy, g: seq<Item>) { |g| >= p.size || HasCalendar(g) }

  /** The group that is still open, its running size and its heavy flag. */
  predicate OpenGroup(p: Policy, current: seq<Item>, chars: nat, heavy: bool) {
    && chars == Chars(current) && heavy == HasHeavy(current)
    && (current != [] ==> Built(p, current) && |current| < p.size && !HasCalendar(current))
  }

  /** The open group could not have been part of the last closed one. */
  predicate Separate(p: Policy, groups: seq<seq<Item>>, current: seq<Item>) {
    groups != [] ==>
      if current == [] then Closed(p, groups[|groups| - 1]) else !Fits(p, groups[|groups| - 1], current[0])
  }

  lemma CloseGroup(p: Policy, groups: seq<seq<Item>>, g: seq<Item>)
    requires Greedy(p, groups) && Built(p, g) && Separate(p, groups, g)
    ensures Greedy(p, groups + [g]) && Concat(groups + [g]) == Concat(groups) + g
  {
    var all := groups + [g];
    assert all[..|all| - 1] == groups;
    forall k | 0 <= k < |all| - 1 && all[k + 1] != [] ensures !Fits(p, all[k], all[k + 1][0]) {
      if k + 1 < |groups| { assert all[k] == groups[k] && all[k + 1] == groups[k + 1]; }
    }
  }

  lemma Single(p: Policy, x: Item)
    ensures Built(p, [x]) && Chars([x]) == x.chars && HasHeavy([x]) == x.heavy && HasCalendar([x]) == x.calendar
  {
    assert [x][..0] == [] && [x][0] == x;
  }

  lemma Join(p: Policy, g: seq<Item>, x: Item)
    requires Built(p, g) && Fits(p, g, x)
    ensures Built(p, g + [x]) && Chars(g + [x]) == Chars(g) + x.chars
    ensures HasHeavy(g + [x]) == (HasHeavy(g) || x.heavy)
    ensures HasCalendar(g + [x]) == (HasCalendar(g) || x.calendar)
  {
    var all := g + [x];
    assert all[..|g|] == g && all[|g|] == x;
    forall j | 1 <= j < |all| ensures Fits(p, all[..j], all[j]) {
      if j < |g| { assert all[..j] == g[..j] && all[j] == g[j]; }
    }
    assert forall i | 0 <= i < |g| :: all[i] == g[i];
  }

  lemma ChunkIsBuilt(p: Policy, g: seq<Item>)
    requires (!p.adaptive || p.size == 1) && 1 <= |g| <= p.size
    ensures Built(p, g)
  {
  }

  /** Fixed groups of `size` messages. */
  method FixedGroups(p: Policy, items: seq<Item>) returns (groups: seq<seq<Item>>)
    requires PolicyOk(p) && (!p.adaptive || p.size == 1)
    ensures Concat(groups) == items && Greedy(p, groups)
  {
    groups := [];
    var offset := 0;
    while offset < |items|
      invariant 0 <= offset <= |items| && Concat(groups) == items[..offset] && Greedy(p, groups)
      invariant offset < |items| && groups != [] ==> |groups[|groups| - 1]| >= p.size
    {
      var end := if offset + p.size <= |items| then offset + p.size else |items|;
      var chunk := items[offset..end];
      ChunkIsBuilt(p, chunk);
      CloseGroup(p, groups, chunk);
      groups := groups + [chunk];
      assert items[..offset] + chunk == items[..end];
      offset := end;
    }
    assert items[..|items|] == items;
  }

  /** The groups closed so far, the open one, its running size and its heavy flag. */
  datatype State = State(groups: seq<seq<Item>>, current: seq<Item>, chars: nat, heavy: bool)

  predicate StateOk(p: Policy, s: State) {
    Greedy(p, s.groups) && OpenGroup(p, s.current, s.chars, s.heavy) && Separate(p, s.groups, s.current)
  }

  /** The messages taken so far. */
  function Taken(s: State): seq<Item> { Concat(s.groups) + s.current }

  lemma TakenOneMore(s: State, item: Item, r: State)
    requires r.groups == s.groups && r.current == s.current + [item]
    ensures Taken(r) == Taken(s) + [item]
  {
  }

  lemma NothingOpen(s: State)
    requires s.current == []
    ensures Taken(s) == Concat(s.groups)
  {
  }

  /** Closing the open group. */
  function Flush(s: State): State { State(s.groups + [s.current], [], 0, false) }

  lemma FlushKeeps(p: Policy, s: State)
    requires Greedy(p, s.groups) && Built(p, s.current) && Separate(p, s.groups, s.current)
    ensures Greedy(p, Flush(s).groups) && OpenGroup(p, [], 0, false)
    ensures Taken(Flush(s)) == Taken(s) == Concat(Flush(s).groups)
    ensures Flush(s).groups != [] && Flush(s).groups[|Flush(s).groups| - 1] == s.current
  {
    CloseGroup(p, s.groups, s.current);
    NothingOpen(Flush(s));
  }

  /** The message joins the open group, which is closed when it is full. */
  method Append(p: Policy, s: State, item: Item) returns (r: State)
    requires p.size > 1 && Greedy(p, s.groups) && OpenGroup(p, s.current, s.chars, s.heavy) && !item.calendar
    requires Separate(p, s.groups, s.current + [item])
    requires s.current != [] ==> Fits(p, s.current, item)
    ensures StateOk(p, r) && Taken(r) == Taken(s) + [item]
  {
    r := State(s.groups, s.current + [item], s.chars + item.chars, s.heavy || item.heavy);
    Extended(p, s.current, item);
    TakenOneMore(s, item, r);
    if |r.current| >= p.size {
      FlushKeeps(p, r);
      r := Flush(r);
    }
  }

  lemma Extended(p: Policy, g: seq<Item>, x: Item)
    requires g != [] ==> Built(p, g) && Fits(p, g, x)
    ensures Built(p, g + [x]) && Chars(g + [x]) == Chars(g) + x.chars
    ensures HasHeavy(g + [x]) == (HasHeavy(g) || x.heavy)
    ensures HasCalendar(g + [x]) == (HasCalendar(g) || x.calendar)
  {
    if g == [] {
      Single(p, x);
      assert g + [x] == [x];
    } else {
      Join(p, g, x);
    }
  }

  /** An invitation becomes a group of its own. */
  method Alone(p: Policy, groups: seq<seq<Item>>, item: Item) returns (r: State)
    requires Greedy(p, groups) && item.calendar && Separate(p, groups, [item])
    ensures StateOk(p, r) && Taken(r) == Concat(groups) + [item]
  {
    Single(p, item);
    CloseGroup(p, groups, [item]);
    r := State(groups + [[item]], [], 0, false);
    NothingOpen(r);
    assert r.groups[|r.groups| - 1] == [item];
  }

  /** What the loop checks is that the message does not fit. */
  lemma Exceeds(p: Policy, s: State, item: Item)
    requires p.size > 1 && p.adaptive && OpenGroup(p, s.current, s.chars, s.heavy) && s.current != []
    requires |s.current| >= p.size || s.chars + item.chars > p.target || (s.heavy && item.heavy) || item.calendar
    ensures !Fits(p, s.current, item) && Separate(p, Flush(s).groups, Flush(s).current + [item])
  {
    assert Flush(s).current + [item] == [item];
    assert Flush(s).groups[|s.groups|] == s.current;
  }

  lemma StillSeparate(p: Policy, groups: seq<seq<Item>>, current: seq<Item>, item: Item)
    requires p.size > 1 && p.adaptive && Separate(p, groups, current)
    ensures Separate(p, groups, current + [item])
  {
    assert (current + [item])[0] == if current == [] then item else current[0];
  }

  /** One turn of the adaptive loop. */
  method Take(p: Policy, s: State, item: Item) returns (r: State)
    requires p.size > 1 && p.adaptive && StateOk(p, s)
    ensures StateOk(p, r) && Taken(r) == Taken(s) + [item]
  {
    r := s;
    var wouldExceed := s.current != [] &&
      (|s.current| >= p.size || s.chars + item.chars > p.target || (s.heavy && item.heavy) || item.calendar);
    if wouldExceed {
      FlushKeeps(p, s);
      r := Flush(s);
      Exceeds(p, s, item);
    } else {
      StillSeparate(p, s.groups, s.current, item);
    }
    if item.calendar {
      assert r.current == [] && r.current + [item] == [item];
      NothingOpen(r);
      r := Alone(p, r.groups, item);
    } else {
      r := Append(p, r, item);
    }
  }

  /** The adaptive loop over the messages. */
  method AdaptiveGroups(p: Policy, items: seq<Item>) returns (groups: seq<seq<Item>>)
    requires p.size > 1 && p.adaptive
    ensures Concat(groups) == items && Greedy(p, groups)
  {
    var s := State([], [], 0, false);
    for i := 0 to |items|
      invariant StateOk(p, s) && Taken(s) == items[..i]
    {
      s := Take(p, s, items[i]);
    }
    assert items[..|items|] == items;
    if s.current != [] {
      FlushKeeps(p, s);
      s := Flush(s);
    }
    groups := s.groups;
  }

  method Groups(p: Policy, items: seq<Item>) returns (groups: seq<seq<Item>>)
    requires PolicyOk(p)
    ensures Concat(groups) == items && Greedy(p, groups)
  {
    if items == [] {
      return [];
    }
    if !p.adaptive || p.size == 1 {
      groups := FixedGroups(p, items);
    } else {
      groups := AdaptiveGroups(p, items);
    }
  }

  // ----- what the partition guarantees -----

  predicate AtMostOneHeavy(g: seq<Item>) { forall i, j :: 0 <= i < j < |g| ==> !(g[i].heavy && g[j].heavy) }

  /** The limits on one group. */
  predicate Conservative(p: Policy, g: seq<Item>) {
    && 1 <= |g| <= p.size
    && (p.adaptive && p.size > 1 ==>
          && (HasCalendar(g) ==> |g| == 1)
          && AtMostOneHeavy(g)
          && (|g| >= 2 ==> Chars(g) <= p.target))
  }

  lemma BuiltIsConservative(p: Policy, g: seq<Item>)
    requires PolicyOk(p) && Built(p, g)
    ensures Conservative(p, g)
  {
    if |g| >= 2 {
      var last := |g| - 1;
      assert Fits(p, g[..last], g[last]);
      if p.adaptive && p.size > 1 {
        forall j | 1 <= j < |g| ensures !g[j].calendar
            && !g[0].calendar { assert Fits(p, g[..j], g[j]) && g[..j][0] == g[0]; }
        forall i, j | 0 <= i < j < |g| ensures !(g[i].heavy && g[j].heavy) {
          assert Fits(p, g[..j], g[j]) && g[..j][i] == g[i];
        }
      }
    }
  }

  /** Every group keeps the limits; messages are neither lost nor reordered, as the groups concatenate
      to the input. */
  lemma GroupsAreConservative(p: Policy, groups: seq<seq<Item>>)
    requires PolicyOk(p) && Greedy(p, groups)
    ensures forall k :: 0 <= k < |groups| ==> Conservative(p, groups[k])
  {
    forall k | 0 <= k < |groups| ensures Conservative(p, groups[k]) { BuiltIsConservative(p, groups[k]); }
  }

  /** A message fits exactly when the group keeps its limits with it. */
  lemma FitsIff(p: Policy, g: seq<Item>, x: Item)
    requires g != [] && Conservative(p, g)
    ensures Fits(p, g, x) <==> Conservative(p, g + [x])
  {
    var more := g + [x];
    assert more[..|more| - 1] == g && more[|g|] == x && forall i | 0 <= i < |g| :: more[i] == g[i];
    assert HasCalendar(more) <==> HasCalendar(g) || x.calendar;
    if HasHeavy(g) && x.heavy {
      var i :| 0 <= i < |g| && g[i].heavy;
      assert more[i].heavy && more[|g|].heavy;
    }
  }

  /** No group is smaller than it must be: with the first message of the next one it would break a limit. */
  lemma GroupsAreMaximal(p: Policy, groups: seq<seq<Item>>, k: nat)
    requires PolicyOk(p) && Greedy(p, groups) && k + 1 < |groups|
    ensures groups[k + 1] != [] && !Conservative(p, groups[k] + [groups[k + 1][0]])
  {
    BuiltIsConservative(p, groups[k]);
    FitsIff(p, groups[k], groups[k + 1][0]);
  }

  /** No partition into groups of this size has fewer groups than n / size, rounded up. */
  lemma {:induction false} GroupCount(p: Policy, groups: seq<seq<Item>>)
    requires PolicyOk(p) && Greedy(p, groups)
    ensures |Concat(groups)| <= |groups| * p.size
  {
    if groups != [] {
      var front := groups[..|groups| - 1];
      BuiltIsConservative(p, groups[|groups| - 1]);
      forall k | 0 <= k < |front| - 1 && front[k + 1] != [] ensures !Fits(p, front[k], front[k + 1][0]) {
        assert front[k] == groups[k] && front[k + 1] == groups[k + 1];
      }
      GroupCount(p, front);
      assert |groups| * p.size == |front| * p.size + p.size;
    }
  }

  lemma {:induction false} ConcatFirst(groups: seq<seq<Item>>)
    requires groups != []
    ensures Concat(groups) == groups[0] + Concat(groups[1..])
  {
    var n := |groups| - 1;
    if n > 0 {
      assert groups[..n][0] == groups[0] && groups[..n][1..] == groups[1..][..n - 1];
      ConcatFirst(groups[..n]);
      assert groups[1..][n - 1] == groups[n];
    } else {
      assert groups[..0] == [] && groups[1..] == [];
    }
  }

  lemma GreedyTail(p: Policy, groups: seq<seq<Item>>)
    requires Greedy(p, groups) && groups != []
    ensures Greedy(p, groups[1..])
  {
    var tail := groups[1..];
    forall k | 0 <= k < |tail| - 1 && tail[k + 1] != [] ensures !Fits(p, tail[k], tail[k + 1][0]) {
      assert tail[k] == groups[k + 1] && tail[k + 1] == groups[k + 2];
    }
  }

  /** The message after the first group did not fit into it. */
  lemma NextDidNotFit(p: Policy, groups: seq<seq<Item>>)
    requires Greedy(p, groups) && groups != []
    ensures Concat(groups) == groups[0] + Concat(groups[1..])
    ensures |Concat(groups)| > |groups[0]| ==> !Fits(p, groups[0], Concat(groups)[|groups[0]|])
  {
    ConcatFirst(groups);
    if |groups| > 1 {
      ConcatFirst(groups[1..]);
      assert Built(p, groups[1]) && groups[1..][0] == groups[1];
      assert Concat(groups)[|groups[0]|] == groups[1][0];
    } else {
      assert groups[1..] == [];
    }
  }

  /** A group never grows past a message that does not fit. */
  lemma BuiltEndsThere(p: Policy, all: seq<Item>, g: seq<Item>, n: nat)
    requires Built(p, g) && g <= all && 1 <= n <= |all| && (n < |all| ==> !Fits(p, all[..n], all[n]))
    ensures |g| <= n
  {
    assert forall k | 0 <= k <= |g| :: g[..k] == all[..k];
  }

  /** So no greedy partition has a longer first group. */
  lemma FirstGroupsAgree(p: Policy, a: seq<seq<Item>>, b: seq<seq<Item>>)
    requires Greedy(p, a) && Greedy(p, b) && a != [] && b != [] && Concat(a) == Concat(b)
    ensures |a[0]| >= |b[0]|
  {
    NextDidNotFit(p, a);
    NextDidNotFit(p, b);
    var all := Concat(a);
    assert Built(p, a[0]) && Built(p, b[0]);
    assert a[0] == all[..|a[0]|];
    BuiltEndsThere(p, all, b[0], |a[0]|);
  }

  /** The greedy partition is unique: the groups are determined by the messages and the policy. */
  lemma {:induction false} GreedyIsUnique(p: Policy, a: seq<seq<Item>>, b: seq<seq<Item>>)
    requires Greedy(p, a) && Greedy(p, b) && Concat(a) == Concat(b)
    ensures a == b
    decreases |a|
  {
    if a == [] || b == [] {
      if a != [] { ConcatFirst(a); }
      if b != [] { ConcatFirst(b); }
    } else {
      FirstGroupsAgree(p, a, b);
      FirstGroupsAgree(p, b, a);
      ConcatFirst(a);
      ConcatFirst(b);
      assert a[0] == Concat(a)[..|a[0]|] && b[0] == Concat(b)[..|b[0]|];
      assert Concat(a[1..]) == Concat(a)[|a[0]|..] && Concat(b[1..]) == Concat(b)[|b[0]|..];
      GreedyTail(p, a);
      GreedyTail(p, b);
      GreedyIsUnique(p, a[1..], b[1..]);
      assert a == [a[0]] + a[1..] && b == [b[0]] + b[1..];
    }
  }
}
