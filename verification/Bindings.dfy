/** Chat bindings of a robot, the queue's table of targets, and the publication of a new table. */
module Bindings {
  import opened Wrappers

  // A 64-bit chat ID.
  type ChatId = x: int | -0x8000_0000_0000_0000 <= x < 0x8000_0000_0000_0000

  datatype Target = Target(chatId: ChatId, chatType: int)

  datatype Binding = Binding(target: Target, group: nat)

  // Bindings by chat ID; a chat is assigned to at most one group.
  type Book = map<ChatId, Binding>

  // The targets of every group.
  type Table = map<nat, seq<Target>>

  const UINT64_RANGE: nat := 0x1_0000_0000_0000_0000

  /* A group ID of zero means "unassigned". */
  predicate ValidBinding(b: Binding) {
    b.group != 0 && b.target.chatId > 0 && (b.target.chatType == 2 || b.target.chatType == 3)
  }

  ghost predicate ValidBook(book: Book) {
    forall chat: ChatId | chat in book :: book[chat].target.chatId == chat && ValidBinding(book[chat])
  }

  /* The group a target is bound to, zero when it is not bound. */
  function GroupIn(book: Book, target: Target): nat {
    if target.chatId in book && book[target.chatId].target == target then book[target.chatId].group else 0
  }

  function Assigned(book: Book, target: Target, group: nat): Book {
    if group == 0 then book - {target.chatId} else book[target.chatId := Binding(target, group)]
  }

  lemma AssignedKeepsValid(book: Book, target: Target, group: nat)
    requires ValidBook(book)
    requires group == 0 || ValidBinding(Binding(target, group))
    ensures ValidBook(Assigned(book, target, group))
  {
  }

  // ---------- the order of chats ----------

  predicate Ascending(chats: seq<Target>) { forall i, j | 0 <= i < j < |chats| :: chats[i].chatId < chats[j].chatId }

  predicate DistinctChats(chats: seq<Target>) { forall i, j | 0 <= i < j < |chats| :: chats[i].chatId != chats[j].chatId }

  /* Sorted by chat ID. */
  function Inserted(t: Target, sorted: seq<Target>): seq<Target> {
    if sorted == [] || t.chatId < sorted[0].chatId then [t] + sorted else [sorted[0]] + Inserted(t, sorted[1..])
  }

  function Sorted(chats: seq<Target>): seq<Target> {
    if chats == [] then [] else Inserted(chats[0], Sorted(chats[1..]))
  }

  lemma {:induction false} InsertedAscends(t: Target, sorted: seq<Target>)
    requires Ascending(sorted) && forall u | u in sorted :: u.chatId != t.chatId
    ensures Ascending(Inserted(t, sorted))
    ensures forall u :: u in Inserted(t, sorted) <==> u in sorted || u == t
  {
    if sorted != [] && t.chatId >= sorted[0].chatId {
      InsertedAscends(t, sorted[1..]);
      assert sorted == [sorted[0]] + sorted[1..];
      var rest := Inserted(t, sorted[1..]);
      forall i | 0 <= i < |rest| ensures sorted[0].chatId < rest[i].chatId { assert rest[i] in rest; }
    }
  }

  /* Sorting distinct chats leaves each of them listed, in ascending order. */
  lemma {:induction false} SortedAscends(chats: seq<Target>)
    requires DistinctChats(chats)
    ensures Ascending(Sorted(chats))
    ensures forall t :: t in Sorted(chats) <==> t in chats
  {
    if chats != [] {
      SortedAscends(chats[1..]);
      InsertedAscends(chats[0], Sorted(chats[1..]));
      assert chats == [chats[0]] + chats[1..];
    }
  }

  datatype AssignResult = Accepted | InvalidBinding | BindingChanged | WriteFailed

  class BindingStore {
    var bindings: Book

    constructor ()
      ensures bindings == map[] && ValidBook(bindings)
    {
      bindings := map[];
    }

    /** Assign or, with group zero, remove; `expected` makes it compare-and-set.
        The new book replaces the old one first and is rolled back when it cannot be written. */
    method Assign(target: Target, group: nat, expected: Option<nat>, writable: bool) returns (result: AssignResult)
      requires ValidBook(bindings)
      modifies this
      ensures ValidBook(bindings)
      ensures result == InvalidBinding <==>
              if group > 0 then !ValidBinding(Binding(target, group)) else target.chatId <= 0
      ensures result == BindingChanged <==>
              result != InvalidBinding && expected.Some? &&
              expected.value != (if target.chatId in old(bindings) then old(bindings)[target.chatId].group else 0)
      ensures result == WriteFailed ==> !writable
      ensures result == Accepted ==> writable && bindings == Assigned(old(bindings), target, group)
      ensures result != Accepted ==> bindings == old(bindings)
      ensures result == Accepted ==>
                && GroupIn(bindings, target) == group
                && (forall t: Target | t.chatId == target.chatId && t != target :: GroupIn(bindings, t) == 0)
                && (forall t: Target | t.chatId != target.chatId :: GroupIn(bindings, t) == GroupIn(old(bindings), t))
    {
      if group > 0 {
        if !ValidBinding(Binding(target, group)) {
          return InvalidBinding;
        }
      } else if target.chatId <= 0 {
        return InvalidBinding;
      }
      var currentGroup := 0;
      if target.chatId in bindings {
        currentGroup := bindings[target.chatId].group;
      }
      if expected.Some? && currentGroup != expected.value {
        return BindingChanged;
      }
      var next := bindings;
      if group == 0 {
        next := next - {target.chatId};
      } else {
        next := next[target.chatId := Binding(target, group)];
      }
      var previous := bindings;
      bindings := next;
      if !writable {
        bindings := previous;
        return WriteFailed;
      }
      return Accepted;
    }

    /** The book regrouped by study group: every binding is listed, under its own group only, in ascending order. */
    method Targets() returns (table: Table)
      requires ValidBook(bindings)
      ensures Lists(table, bindings)
      ensures forall g | g in table :: Ascending(table[g])
    {
      table := map[];
      var rest := bindings.Values;
      while rest != {}
        invariant rest <= bindings.Values
        invariant Lists(table, Outside(bindings, rest))
        invariant forall g | g in table :: DistinctChats(table[g])
        decreases |rest|
      {
        var binding :| binding in rest;
        ghost var before := Outside(bindings, rest);
        ghost var listed := table;
        var already := if binding.group in table then table[binding.group] else [];
        forall t | t in already ensures t.chatId != binding.target.chatId {
          assert Within(listed, binding.group, t);
          assert t.chatId in before;
        }
        table := table[binding.group := already + [binding.target]];
        rest := rest - {binding};
        ghost var after := Outside(bindings, rest);
        assert after == before[binding.target.chatId := binding];
        forall g, t ensures Within(table, g, t) <==> (g > 0 && GroupIn(after, t) == g) {
          assert Within(listed, g, t) <==> (g > 0 && GroupIn(before, t) == g);
          if g == binding.group {
            assert t in table[g] <==> t in already || t == binding.target;
          }
        }
      }
      assert Outside(bindings, rest) == bindings;
      table := SortTargets(table, bindings);
    }

    method SortTargets(table: Table, ghost book: Book) returns (sorted: Table)
      requires Lists(table, book) && forall g | g in table :: DistinctChats(table[g])
      ensures Lists(sorted, book) && forall g | g in sorted :: Ascending(sorted[g])
    {
      sorted := map g | g in table :: Sorted(table[g]);
      forall g | g in table ensures Ascending(Sorted(table[g])) && forall t :: t in Sorted(table[g]) <==> t in table[g] {
        SortedAscends(table[g]);
      }
      forall g, t ensures Within(sorted, g, t) <==> Within(table, g, t) {
      }
    }
  }

  ghost function Outside(book: Book, rest: set<Binding>): Book {
    map chat | chat in book && book[chat] !in rest :: book[chat]
  }

  predicate Within(table: Table, group: nat, target: Target) {
    group in table && target in table[group]
  }

  /* The table holds exactly the bindings of the book. */
  ghost predicate Lists(table: Table, book: Book) {
    forall g, t :: Within(table, g, t) <==> (g > 0 && GroupIn(book, t) == g)
  }

  /* A missing key reads as zero. */
  function VersionIn(m: map<Target, nat>, target: Target): nat {
    if target in m then m[target] else 0
  }

  /* An incremented version never reads as zero, the version of a target that was never bound. */
  function NextVersion(v: nat): nat {
    if (v + 1) % UINT64_RANGE == 0 then 1 else (v + 1) % UINT64_RANGE
  }

  function Bumped(versions: map<Target, nat>, changed: set<Target>): map<Target, nat> {
    map t | t in versions.Keys + changed ::
      if t in changed then NextVersion(VersionIn(versions, t)) else VersionIn(versions, t)
  }

  predicate NoDuplicates<T(==)>(s: seq<T>) {
    forall i, j | 0 <= i < j < |s| :: s[i] != s[j]
  }

  function Elements<T(==)>(s: seq<T>): set<T> {
    set x | x in s
  }

  class TargetQueue {
    var targets: Table
    var versions: map<Target, nat>

    constructor (table: Table)
      ensures targets == table
      ensures forall t :: VersionIn(versions, t) == (if exists g :: Within(table, g, t) then 1 else 0)
    {
      targets := table;
      versions := map[];
      new;
      var groups := GroupsByTarget(table);
      var rest := groups.Keys;
      while rest != {}
        invariant rest <= groups.Keys && targets == table
        invariant forall t :: VersionIn(versions, t) == (if t in groups && t !in rest then 1 else 0)
        decreases |rest|
      {
        var t :| t in rest;
        versions := versions[t := 1];
        rest := rest - {t};
      }
    }

    /** One critical section: whether the target is bound to the group, and under which version. */
    method TargetVersion(group: nat, target: Target) returns (version: nat, enabled: bool)
      ensures enabled <==> Within(targets, group, target)
      ensures version == if enabled then VersionIn(versions, target) else 0
    {
      var current := if group in targets then targets[group] else [];
      for i := 0 to |current|
        invariant target !in current[..i]
      {
        if current[i] == target {
          return VersionIn(versions, target), true;
        }
      }
      return 0, false;
    }

    /** First critical section of a publication: which leases have to be held. */
    method PlanTargets(table: Table) returns (changed: seq<Target>)
      ensures forall before, after | ValidBook(before) && ValidBook(after) && Lists(targets, before) && Lists(table, after) ::
                NoDuplicates(changed) && forall t :: t in changed <==> GroupIn(before, t) != GroupIn(after, t)
    {
      var previous := GroupsByTarget(targets);
      var next := GroupsByTarget(table);
      changed := ChangedTargets(previous, next);
      forall before, after | ValidBook(before) && ValidBook(after) && Lists(targets, before) && Lists(table, after)
        ensures NoDuplicates(changed) && forall t :: t in changed <==> GroupIn(before, t) != GroupIn(after, t)
      {
        GroupsMatchBook(targets, before, previous);
        GroupsMatchBook(table, after, next);
      }
    }

    /** Second critical section: every changed target gets a new version, then the table is replaced. */
    method PublishTargets(table: Table, changed: seq<Target>)
      requires NoDuplicates(changed)
      modifies this
      ensures targets == table
      ensures forall t :: VersionIn(versions, t) == VersionIn(Bumped(old(versions), Elements(changed)), t)
    {
      for i := 0 to |changed|
        invariant forall t :: VersionIn(versions, t) == VersionIn(Bumped(old(versions), Elements(changed[..i])), t)
      {
        assert changed[i] !in changed[..i];
        assert VersionIn(Bumped(old(versions), Elements(changed[..i])), changed[i]) == VersionIn(old(versions), changed[i]);
        assert Elements(changed[..i + 1]) == Elements(changed[..i]) + {changed[i]};
        var bumped := (VersionIn(versions, changed[i]) + 1) % UINT64_RANGE;
        if bumped == 0 {
          bumped := 1;
        }
        ghost var before := versions;
        versions := versions[changed[i] := bumped];
        forall t ensures VersionIn(versions, t) == VersionIn(Bumped(old(versions), Elements(changed[..i + 1])), t) {
          assert VersionIn(before, t) == VersionIn(Bumped(old(versions), Elements(changed[..i])), t);
        }
      }
      assert changed[..|changed|] == changed;
      targets := table;
    }
  }

  /** The table inverted. A target listed under several groups gets one of them. */
  method GroupsByTarget(table: Table) returns (groups: map<Target, nat>)
    ensures forall t :: t in groups <==> exists g :: Within(table, g, t)
    ensures forall t | t in groups :: Within(table, groups[t], t)
  {
    groups := map[];
    var rest := table.Keys;
    while rest != {}
      invariant rest <= table.Keys
      invariant forall t :: t in groups <==> exists g :: g !in rest && Within(table, g, t)
      invariant forall t | t in groups :: Within(table, groups[t], t)
      decreases |rest|
    {
      var g :| g in rest;
      ghost var before := groups;
      for i := 0 to |table[g]|
        invariant forall t :: t in groups <==> t in before || t in table[g][..i]
        invariant forall t | t in groups :: Within(table, groups[t], t)
      {
        assert Within(table, g, table[g][i]);
        groups := groups[table[g][i] := g];
      }
      rest := rest - {g};
      assert table[g][..|table[g]|] == table[g];
      forall t ensures t in groups <==> exists h :: h !in rest && Within(table, h, t) {
        if t in table[g] {
          assert Within(table, g, t);
        }
      }
    }
  }

  /** The targets whose group differs, a missing target counting as group zero: none is left out.
      A target is listed twice exactly when the old table had it under group zero and it is now bound. */
  method ChangedTargets(previous: map<Target, nat>, next: map<Target, nat>) returns (changed: seq<Target>)
    ensures forall t :: t in changed <==> VersionIn(previous, t) != VersionIn(next, t)
    ensures NoDuplicates(changed) <==>
            !exists t :: t in previous && previous[t] == 0 && t in next && next[t] != 0
  {
    changed := [];
    var rest := previous.Keys;
    while rest != {}
      invariant rest <= previous.Keys
      invariant forall t :: t in changed <==> t in previous && t !in rest && previous[t] != VersionIn(next, t)
      invariant NoDuplicates(changed)
      decreases |rest|
    {
      var t :| t in rest;
      if VersionIn(next, t) != previous[t] {
        changed := changed + [t];
      }
      rest := rest - {t};
    }
    rest := next.Keys;
    ghost var first := changed;
    ghost var second: seq<Target> := [];
    while rest != {}
      invariant rest <= next.Keys
      invariant changed == first + second && NoDuplicates(second)
      invariant forall t :: t in second <==> t in next && t !in rest && VersionIn(previous, t) == 0 && next[t] != 0
      decreases |rest|
    {
      var t :| t in rest;
      if VersionIn(previous, t) == 0 && next[t] != 0 {
        changed := changed + [t];
        second := second + [t];
      }
      rest := rest - {t};
    }
    NoDuplicatesConcat(first, second);
  }

  lemma NoDuplicatesConcat<T>(a: seq<T>, b: seq<T>)
    requires NoDuplicates(a) && NoDuplicates(b)
    ensures NoDuplicates(a + b) <==> !exists x :: x in a && x in b
  {
    if x :| x in a && x in b {
      var i :| 0 <= i < |a| && a[i] == x;
      var j :| 0 <= j < |b| && b[j] == x;
      assert (a + b)[i] == (a + b)[|a| + j];
    } else {
      forall i, j | 0 <= i < j < |a + b| ensures (a + b)[i] != (a + b)[j] {
        if i < |a| <= j {
          assert a[i] in a && b[j - |a|] in b;
        }
      }
    }
  }

  lemma GroupsMatchBook(table: Table, book: Book, groups: map<Target, nat>)
    requires ValidBook(book) && Lists(table, book)
    requires forall t :: t in groups <==> exists g :: Within(table, g, t)
    requires forall t | t in groups :: Within(table, groups[t], t)
    ensures forall t :: VersionIn(groups, t) == GroupIn(book, t)
    ensures forall t | t in groups :: groups[t] != 0
  {
    forall t ensures VersionIn(groups, t) == GroupIn(book, t) {
      if GroupIn(book, t) > 0 {
        assert Within(table, GroupIn(book, t), t);
      }
    }
  }
}
