/** The bounded directory listing: two passes over the children of a directory, each of which
    may see them in its own order. */
module DirectoryListing {
  import opened Ordering
  import opened Results
  import opened Sequences

  const MAX_ENTRIES: nat := 200
  const WINDOW: nat := MAX_ENTRIES + 1 + 64

  datatype ChildKind = Directory | File | Special

  /** A child, and whether the path boundary allows it. */
  datatype Child = Child(name: string, kind: ChildKind, allowed: bool)

  datatype Entry = Entry(name: string, isDirectory: bool)

  predicate Visible(c: Child) { c.allowed }

  /** An allowed file or directory. */
  predicate Listed(c: Child) { c.allowed && !c.kind.Special? }

  function EntryOf(c: Child): Entry { Entry(c.name, c.kind.Directory?) }

  function NameOf(c: Child): string { c.name }

  /** What the first pass looks at. */
  function Window(first: seq<Child>): seq<Child> { if |first| <= WINDOW then first else first[..WINDOW] }

  function Scanned(window: seq<Child>): set<string> { set c | c in window && Listed(c) :: c.name }

  /** A child the second pass does not skip. */
  function Unscanned(scanned: set<string>): Child -> bool { (c: Child) => c.allowed && c.name !in scanned }

  function NewlyListed(scanned: set<string>): Child -> bool { (c: Child) => Listed(c) && c.name !in scanned }

  /** The second pass meets an unscanned child when the list is already full. */
  predicate Overflows(window: seq<Child>, second: seq<Child>) {
    exists i | 0 <= i < |second| ::
      Unscanned(Scanned(window))(second[i]) &&
          |Filter(Listed, window)| + |Filter(NewlyListed(Scanned(window)), second[..i])| >= MAX_ENTRIES
  }

  function Collected(window: seq<Child>, second: seq<Child>): seq<Child> {
    Filter(Listed, window) + Filter(NewlyListed(Scanned(window)), second)
  }

  function FoldLeq(casefold: string -> string): (Entry, Entry) -> bool {
    (a: Entry, b: Entry) => StrLeq(casefold(a.name), casefold(b.name))
  }

  function Listing(
      isDirectory: bool, first: seq<Child>, second: seq<Child>,
      casefold: string -> string): Result<seq<Entry>> {
    if !isDirectory then Raise("not_a_directory")
    else if |Filter(Visible, Window(first))| > MAX_ENTRIES ||
        Overflows(Window(first), second) then Raise("list_limit_exceeded")
    else Ok(Sorted(FoldLeq(casefold), Map(EntryOf, Collected(Window(first), second))))
  }

  // ---------------------------------------------------------------- the two passes

  method ListDirectory(isDirectory: bool, first: seq<Child>, second: seq<Child>, casefold: string -> string)
    returns (r: Result<seq<Entry>>)
    ensures r == Listing(isDirectory, first, second, casefold)
  {
    if !isDirectory { return Raise("not_a_directory"); }
    var raised, entries := FirstPass(Window(first));
    if raised { return Raise("list_limit_exceeded"); }
    raised, entries := SecondPass(Window(first), second, entries);
    if raised { return Raise("list_limit_exceeded"); }
    r := Ok(Sorted(FoldLeq(casefold), entries));
  }

  method AddEntry(entries: seq<Entry>, child: Child) returns (entries': seq<Entry>)
    requires child.allowed
    ensures entries' == if Listed(child) then entries + [EntryOf(child)] else entries
  {
    entries' := entries;
    if child.kind.Directory? {
      entries' := entries + [Entry(child.name, true)];
    } else if child.kind.File? {
      entries' := entries + [Entry(child.name, false)];
    }
  }

  method FirstPass(window: seq<Child>) returns (raised: bool, entries: seq<Entry>)
    ensures raised <==> |Filter(Visible, window)| > MAX_ENTRIES
    ensures !raised ==> entries == Map(EntryOf, Filter(Listed, window))
  {
    entries := [];
    var visible := 0;
    for i := 0 to |window|
      invariant visible == |Filter(Visible, window[..i])| <= MAX_ENTRIES
      invariant entries == Map(EntryOf, Filter(Listed, window[..i]))
    {
      var child := window[i];
      TakeOneMore(window, i);
      FilterSnoc(Visible, window[..i], child);
      KeepSnoc(Listed, window[..i], child);
      if child.allowed {
        visible := visible + 1;
        if visible > MAX_ENTRIES {
          PrefixFilter(Visible, window, i + 1);
          return true, entries;
        }
        entries := AddEntry(entries, child);
      }
    }
    assert window[..|window|] == window;
    raised := false;
  }

  method SecondPass(
      window: seq<Child>, second: seq<Child>, found: seq<Entry>) returns (raised: bool, entries: seq<Entry>)
    requires found == Map(EntryOf, Filter(Listed, window))
    ensures raised <==> Overflows(window, second)
    ensures !raised ==> entries == Map(EntryOf, Collected(window, second))
  {
    hide Scanned, EntryOf, Unscanned, NewlyListed, Filter;
    var scanned := set e | e in found :: e.name;
    ScannedNames(window, found);
    entries := found;
    ghost var before := Filter(Listed, window);
    NothingYet(before, scanned, second);
    for i := 0 to |second|
      invariant entries == Map(EntryOf, before + Filter(NewlyListed(scanned), second[..i]))
      invariant forall j | 0 <= j < i ::
        !Unscanned(scanned)(second[j]) || |before| + |Filter(NewlyListed(scanned), second[..j])| < MAX_ENTRIES
    {
      var child := second[i];
      OneMore(before, scanned, second, i);
      if child.name in scanned || !child.allowed { continue; }
      if |entries| >= MAX_ENTRIES { return true, entries; }
      entries := AddEntry(entries, child);
    }
    assert second[..|second|] == second;
    raised := false;
  }

  lemma {:induction false} NothingYet(before: seq<Child>, scanned: set<string>, second: seq<Child>)
    ensures before + Filter(NewlyListed(scanned), second[..0]) == before
  {}

  lemma {:induction false} OneMore(before: seq<Child>, scanned: set<string>, second: seq<Child>, i: nat)
    requires i < |second|
    ensures var kept, child := NewlyListed(scanned), second[i];
      var now, next := before + Filter(kept, second[..i]), before + Filter(kept, second[..i + 1]);
      && Map(EntryOf, next) ==
          (if child.name !in scanned && Listed(child) then Map(EntryOf, now) + [EntryOf(child)] else Map(EntryOf, now))
      && (Unscanned(scanned)(child) <==> child.allowed && child.name !in scanned)
      && (child.name !in scanned && Listed(child) ==> child.allowed)
  {
    var kept, child := NewlyListed(scanned), second[i];
    TakeOneMore(second, i);
    KeepSnoc(kept, second[..i], child);
    MapSnoc(before, Filter(kept, second[..i]), child);
  }

  lemma {:induction false} KeepSnoc<A>(p: A -> bool, xs: seq<A>, x: A)
    ensures Filter(p, xs + [x]) == if p(x) then Filter(p, xs) + [x] else Filter(p, xs)
  {
    CollectSnoc(y => if p(y) then [y] else [], xs, x);
  }

  lemma {:induction false} MapSnoc(front: seq<Child>, xs: seq<Child>, x: Child)
    ensures Map(EntryOf, front + (xs + [x])) == Map(EntryOf, front + xs) + [EntryOf(x)]
  {}

  lemma {:induction false} PrefixFilter<A>(p: A -> bool, xs: seq<A>, n: nat)
    requires n <= |xs|
    ensures |Filter(p, xs[..n])| <= |Filter(p, xs)|
  {
    assert xs == xs[..n] + xs[n..];
    FilterAppend(p, xs[..n], xs[n..]);
  }

  lemma {:induction false} ScannedNames(window: seq<Child>, found: seq<Entry>)
    requires found == Map(EntryOf, Filter(Listed, window))
    ensures (set e | e in found :: e.name) == Scanned(window)
  {
    var kept := Filter(Listed, window);
    forall n ensures n in (set e | e in found :: e.name) <==> n in Scanned(window) {
      if n in Scanned(window) {
        var c :| c in window && Listed(c) && c.name == n;
        FilterMember(Listed, window, c);
        var i :| 0 <= i < |kept| && kept[i] == c;
        assert found[i] in found && found[i].name == n;
      }
      if e :| e in found && e.name == n {
        var i :| 0 <= i < |found| && found[i] == e;
        FilterMember(Listed, window, kept[i]);
      }
    }
  }

  // ---------------------------------------------------------------- an unchanged directory

  /** Both passes see the same children, each name once. */
  ghost predicate Unchanged(first: seq<Child>, second: seq<Child>) {
    multiset(first) == multiset(second) && Distinct(Map(NameOf, first))
  }

  lemma {:induction false} NamesIdentify(first: seq<Child>, a: Child, b: Child)
    requires Distinct(Map(NameOf, first)) && a in first && b in first && a.name == b.name
    ensures a == b
  {
    var i :| 0 <= i < |first| && first[i] == a;
    var j :| 0 <= j < |first| && first[j] == b;
    assert Map(NameOf, first)[i] == Map(NameOf, first)[j];
  }

  lemma {:induction false} WindowIsPrefix(first: seq<Child>)
    ensures Window(first) <= first && (|first| <= WINDOW ==> Window(first) == first)
  {}

  /** A listed child is scanned exactly when the first pass saw it. */
  lemma {:induction false} ScannedIff(first: seq<Child>, c: Child)
    requires Distinct(Map(NameOf, first)) && c in first
    ensures c.name in Scanned(Window(first)) <==> c in Window(first) && Listed(c)
  {
    WindowIsPrefix(first);
    if c.name in Scanned(Window(first)) {
      var d :| d in Window(first) && Listed(d) && d.name == c.name;
      assert d in first;
      NamesIdentify(first, c, d);
    }
  }

  lemma {:induction false} DistinctChildren(first: seq<Child>)
    requires Distinct(Map(NameOf, first))
    ensures Distinct(first)
  {
    forall i, j | 0 <= i < j < |first| ensures first[i] != first[j] {
      assert Map(NameOf, first)[i] != Map(NameOf, first)[j];
    }
  }

  lemma {:induction false} FilterKeepsDistinct<A>(p: A -> bool, xs: seq<A>)
    requires Distinct(xs)
    ensures Distinct(Filter(p, xs))
  {
    if xs != [] {
      var n := |xs| - 1;
      assert xs == xs[..n] + [xs[n]];
      FilterKeepsDistinct(p, xs[..n]);
      KeepSnoc(p, xs[..n], xs[n]);
      FilterMember(p, xs[..n], xs[n]);
      assert xs[n] !in xs[..n];
    }
  }

  /** The two passes together collect every allowed file and directory exactly once. */
  lemma {:induction false} CollectedOnce(first: seq<Child>, second: seq<Child>)
    requires Unchanged(first, second)
    ensures multiset(Collected(Window(first), second)) == multiset(Filter(Listed, first))
  {
    hide Window;
    var window := Window(first);
    var seen, added := Filter(Listed, window), Filter(NewlyListed(Scanned(window)), second);
    var all := Collected(window, second);
    WindowIsPrefix(first);
    DistinctChildren(first);
    DistinctPermutation(first, second);
    PermutationMembers(first, second);
    FilterKeepsDistinct(Listed, first);
    FilterKeepsDistinct(Listed, window);
    FilterKeepsDistinct(NewlyListed(Scanned(window)), second);
    forall c ensures c in seen <==> c in window && Listed(c) { FilterMember(Listed, window, c); }
    forall c ensures c in added <==> c in first && Listed(c) && c !in window {
      FilterMember(NewlyListed(Scanned(window)), second, c);
      if c in first { ScannedIff(first, c); }
    }
    forall c ensures c in all <==> c in Filter(Listed, first) { FilterMember(Listed, first, c); }
    DistinctJoin(seen, added);
    DistinctSameElements(all, Filter(Listed, first));
  }

  lemma {:induction false} DistinctJoin<A>(xs: seq<A>, ys: seq<A>)
    requires Distinct(xs) && Distinct(ys) && forall x | x in xs :: x !in ys
    ensures Distinct(xs + ys)
  {
    var all := xs + ys;
    forall i, j | 0 <= i < j < |all| ensures all[i] != all[j] {
      if i < |xs| && j >= |xs| { assert all[i] in xs && all[j] in ys; }
    }
  }

  /** A listing that succeeds on an unchanged directory holds each allowed file and directory once,
      in case-insensitive order, and no more than the limit. */
  lemma {:induction false} ListingIsComplete(first: seq<Child>, second: seq<Child>, casefold: string -> string)
    requires Unchanged(first, second) && Listing(true, first, second, casefold).Ok?
    ensures var entries := Listing(true, first, second, casefold).value;
      && multiset(entries) == multiset(Map(EntryOf, Filter(Listed, first)))
      && IsSorted(FoldLeq(casefold), entries)
      && |entries| == |Filter(Listed, first)| <= MAX_ENTRIES
  {
    hide Window, Collected, Overflows, Filter, FoldLeq, EntryOf;
    var all := Collected(Window(first), second);
    CollectedOnce(first, second);
    MapPermutation(EntryOf, all, Filter(Listed, first));
    FoldOrder(casefold);
    SortedIsSortedPermutation(FoldLeq(casefold), Map(EntryOf, all));
    PermutationMembers(all, Filter(Listed, first));
    CollectedFits(Window(first), second);
  }

  /** The entry of a child: its name, and whether it is a directory. */
  ghost predicate EntryFor(c: Child, e: Entry) {
    c.allowed && e.name == c.name && ((c.kind.Directory? && e.isDirectory) || (c.kind.File? && !e.isDirectory))
  }

  /** A listing of an unchanged directory by its entries: one for each allowed file and directory, no
      other and none twice, at most 200, in the code-point order of their folded names. */
  lemma {:induction false} ListingByEntries(first: seq<Child>, second: seq<Child>, casefold: string -> string)
    requires Unchanged(first, second) && Listing(true, first, second, casefold).Ok?
    ensures var entries := Listing(true, first, second, casefold).value;
      && (forall e :: e in entries <==> exists c :: c in first && EntryFor(c, e))
      && Distinct(entries) && |entries| <= 200
      && forall i, j | 0 <= i < j < |entries| :: StrLeq(casefold(entries[i].name), casefold(entries[j].name))
  {
    hide Listing, Filter, StrLeq;
    ListingIsComplete(first, second, casefold);
    var entries := Listing(true, first, second, casefold).value;
    var kept := Filter(Listed, first);
    PermutationMembers(entries, Map(EntryOf, kept));
    forall e ensures e in entries <==> exists c :: c in first && EntryFor(c, e) { EntryOfSome(first, e); }
    KeptDistinct(first);
    DistinctPermutation(Map(EntryOf, kept), entries);
    forall i, j | 0 <= i < j < |entries| ensures StrLeq(casefold(entries[i].name), casefold(entries[j].name)) {
      assert FoldLeq(casefold)(entries[i], entries[j]);
    }
  }

  lemma {:induction false} EntryOfSome(first: seq<Child>, e: Entry)
    ensures e in Map(EntryOf, Filter(Listed, first)) <==> exists c :: c in first && EntryFor(c, e)
  {
    hide Filter;
    var kept := Filter(Listed, first);
    if e in Map(EntryOf, kept) {
      var i :| 0 <= i < |kept| && Map(EntryOf, kept)[i] == e;
      FilterMember(Listed, first, kept[i]);
      assert EntryFor(kept[i], e);
    }
    if c :| c in first && EntryFor(c, e) {
      FilterMember(Listed, first, c);
      var i :| 0 <= i < |kept| && kept[i] == c;
      assert Map(EntryOf, kept)[i] == e;
    }
  }

  lemma {:induction false} KeptDistinct(first: seq<Child>)
    requires Distinct(Map(NameOf, first))
    ensures Distinct(Map(EntryOf, Filter(Listed, first)))
  {
    hide Filter;
    var kept := Filter(Listed, first);
    KeptNames(first);
    forall i, j | 0 <= i < j < |kept| ensures Map(EntryOf, kept)[i] != Map(EntryOf, kept)[j] {
      assert Map(NameOf, kept)[i] != Map(NameOf, kept)[j];
    }
  }

  lemma {:induction false} KeptNames(first: seq<Child>)
    requires Distinct(Map(NameOf, first))
    ensures Distinct(Map(NameOf, Filter(Listed, first)))
  {
    if first != [] {
      var rest := Filter(Listed, first[1..]);
      assert Map(NameOf, first)[1..] == Map(NameOf, first[1..]);
      KeptNames(first[1..]);
      assert Filter(Listed, first) == (if Listed(first[0]) then [first[0]] else []) + rest;
      if Listed(first[0]) {
        forall i | 0 <= i < |rest| ensures rest[i].name != first[0].name {
          FilterMember(Listed, first[1..], rest[i]);
          var j :| 0 <= j < |first[1..]| && first[1..][j] == rest[i];
          assert Map(NameOf, first)[j + 1] == rest[i].name && Map(NameOf, first)[0] == first[0].name;
        }
      } else {
        assert Filter(Listed, first) == rest;
      }
    }
  }

  lemma {:induction false} FoldOrder(casefold: string -> string)
    ensures TotalPreorder(FoldLeq(casefold))
  {
    StrOrder();
    var leq := FoldLeq(casefold);
    forall x, y, z | leq(x, y) && leq(y, z) ensures leq(x, z) {
      assert StrLeq(casefold(x.name), casefold(y.name)) && StrLeq(casefold(y.name), casefold(z.name));
    }
    forall x, y ensures leq(x, y) || leq(y, x) {
      assert StrLeq(casefold(x.name), casefold(y.name)) || StrLeq(casefold(y.name), casefold(x.name));
    }
  }

  /** Without an overflow the list never grows past the limit. */
  lemma {:induction false} CollectedFits(window: seq<Child>, second: seq<Child>)
    requires |Filter(Visible, window)| <= MAX_ENTRIES && !Overflows(window, second)
    ensures |Collected(window, second)| <= MAX_ENTRIES
  {
    FilterMonotone(Listed, Visible, window);
    var kept := NewlyListed(Scanned(window));
    var base := |Filter(Listed, window)|;
    for i := 0 to |second|
      invariant base + |Filter(kept, second[..i])| <= MAX_ENTRIES
    {
      TakeOneMore(second, i);
      FilterSnoc(kept, second[..i], second[i]);
    }
    assert second[..|second|] == second;
  }

  /** More allowed files and directories than the limit always raise; and a raise means more
      allowed children than the limit, of any kind. */
  lemma {:induction false} LimitIsEnforced(first: seq<Child>, second: seq<Child>, casefold: string -> string)
    requires Unchanged(first, second)
    ensures |Filter(Listed, first)| > MAX_ENTRIES ==>
        Listing(true, first, second, casefold) == Raise("list_limit_exceeded")
    ensures Listing(true, first, second, casefold).Raise? ==> |Filter(Visible, first)| > MAX_ENTRIES
  {
    if Listing(true, first, second, casefold).Ok? {
      ListingIsComplete(first, second, casefold);
    } else {
      WindowIsPrefix(first);
      PrefixFilter(Visible, first, |Window(first)|);
      if Overflows(Window(first), second) { OverflowMeansMany(first, second); }
    }
  }

  lemma {:induction false} OverflowMeansMany(first: seq<Child>, second: seq<Child>)
    requires Unchanged(first, second) && Overflows(Window(first), second)
    ensures |Filter(Visible, first)| > MAX_ENTRIES
  {
    hide Window;
    var window := Window(first);
    var scanned := Scanned(window);
    var i :| 0 <= i < |second| && Unscanned(scanned)(second[i])
      && |Filter(Listed, window)| + |Filter(NewlyListed(scanned), second[..i])| >= MAX_ENTRIES;
    var seen, added := Filter(Listed, window), Filter(NewlyListed(scanned), second[..i]);
    var some := seen + added + [second[i]];
    WindowIsPrefix(first);
    PermutationMembers(first, second);
    DistinctChildren(first);
    DistinctPermutation(first, second);
    FilterKeepsDistinct(Listed, window);
    FilterKeepsDistinct(NewlyListed(scanned), second[..i]);
    FilterKeepsDistinct(Visible, first);
    forall c | c in seen ensures c in window && Listed(c) && c in first && c.name in scanned {
      FilterMember(Listed, window, c);
    }
    forall c | c in added ensures c in second[..i] && c in second && Listed(c) && c.name !in scanned {
      FilterMember(NewlyListed(scanned), second[..i], c);
    }
    assert second[i] !in second[..i];
    DistinctJoin(seen, added);
    DistinctJoin(seen + added, [second[i]]);
    forall c | c in some ensures c in Filter(Visible, first) { FilterMember(Visible, first, c); }
    DistinctSubset(some, Filter(Visible, first));
  }

  lemma {:induction false} DistinctSubset<A>(xs: seq<A>, ys: seq<A>)
    requires Distinct(xs) && forall x | x in xs :: x in ys
    ensures |xs| <= |ys|
  {
    if xs != [] {
      assert xs[0] in ys;
      var k :| 0 <= k < |ys| && ys[k] == xs[0];
      var rest := ys[..k] + ys[k+1..];
      forall x | x in xs[1..] ensures x in rest {
        var j :| 0 <= j < |xs[1..]| && xs[1..][j] == x;
        assert xs[j + 1] == x && x != xs[0] && x in xs;
        var m :| 0 <= m < |ys| && ys[m] == x;
        assert if m < k then rest[m] == x else rest[m - 1] == x;
      }
      DistinctSubset(xs[1..], rest);
    }
  }

  /** In a directory the first pass sees whole, the listing succeeds exactly when at most 200
      children of any kind are allowed. */
  lemma {:induction false} SmallDirectoryExact(first: seq<Child>, second: seq<Child>, casefold: string -> string)
    requires Unchanged(first, second) && |first| <= 265
    ensures Listing(true, first, second, casefold).Ok? <==> |Filter(Visible, first)| <= 200
  {
    LimitIsEnforced(first, second, casefold);
  }

  /** At the limit exactly, a special file decides: with 200 listed children the listing fails when
      an allowed special file is met after the last of them. */
  lemma {:induction false} SpecialFileOverflows(
      first: seq<Child>, second: seq<Child>, casefold: string -> string, i: nat)
    requires Unchanged(first, second) && |Filter(Listed, first)| == MAX_ENTRIES
    requires i < |second| && second[i].allowed && second[i].kind.Special?
    requires forall c | c in second[i..] && Listed(c) :: c in Window(first)
    ensures Listing(true, first, second, casefold) == Raise("list_limit_exceeded")
  {
    hide Window;
    var window := Window(first);
    var kept := NewlyListed(Scanned(window));
    PermutationMembers(first, second);
    assert second == second[..i] + second[i..];
    FilterAppend(kept, second[..i], second[i..]);
    forall c | c in second[i..] ensures !kept(c) {
      assert c in second;
      ScannedIff(first, c);
    }
    NothingKept(kept, second[i..]);
    CollectedOnce(first, second);
    PermutationMembers(Collected(window, second), Filter(Listed, first));
    assert second[i] in second;
    ScannedIff(first, second[i]);
    assert Unscanned(Scanned(window))(second[i]);
  }

  lemma {:induction false} NothingKept<A>(p: A -> bool, xs: seq<A>)
    requires forall x | x in xs :: !p(x)
    ensures Filter(p, xs) == []
  {
    if xs != [] { NothingKept(p, xs[1..]); }
  }

  /** An allowed special file with no file or directory left to list from there on. */
  ghost predicate SpecialAtEnd(first: seq<Child>, second: seq<Child>, i: nat)
    requires i < |second|
  {
    && second[i].allowed && second[i].kind.Special?
    && forall c | c in second[i..] && Listed(c) :: c in Window(first)
  }

  /** Exactly when the listing succeeds on an unchanged directory: the window shows at most 200
      allowed children, at most 200 files and directories are allowed, and if they are exactly
      200, no allowed special file comes after the last of them. */
  lemma {:induction false} ListingExact(first: seq<Child>, second: seq<Child>, casefold: string -> string)
    requires Unchanged(first, second)
    ensures Listing(true, first, second, casefold).Ok? <==>
      && |Filter(Visible, if |first| <= 265 then first else first[..265])| <= 200
      && |Filter(Listed, first)| <= 200
      && (|Filter(Listed, first)| == 200 ==> forall i | 0 <= i < |second| :: !SpecialAtEnd(first, second, i))
  {
    LimitIsEnforced(first, second, casefold);
    if |Filter(Listed, first)| == MAX_ENTRIES {
      if i :| 0 <= i < |second| && SpecialAtEnd(first, second, i) { SpecialFileOverflows(first, second, casefold, i); }
    }
    if |Filter(Listed, first)| <= MAX_ENTRIES && Overflows(Window(first), second) {
      var i := OverflowIsSpecial(first, second);
    }
  }

  lemma {:induction false} OverflowIsSpecial(first: seq<Child>, second: seq<Child>) returns (i: nat)
    requires Unchanged(first, second) && |Filter(Listed, first)| <= MAX_ENTRIES && Overflows(Window(first), second)
    ensures |Filter(Listed, first)| == MAX_ENTRIES && i < |second| && SpecialAtEnd(first, second, i)
  {
    hide Window, Filter, Listed, Unchanged, SpecialAtEnd, Unscanned, NewlyListed, Scanned;
    var window := Window(first);
    i :| 0 <= i < |second| && Unscanned(Scanned(window))(second[i])
      && |Filter(Listed, window)| + |Filter(NewlyListed(Scanned(window)), second[..i])| >= MAX_ENTRIES;
    NothingLeft(first, second, i);
    NothingListed(first, second, i);
  }

  /** At an overflow with no more than 200 entries in all, none is left to list. */
  lemma {:induction false} NothingLeft(first: seq<Child>, second: seq<Child>, i: nat)
    requires Unchanged(first, second) && |Filter(Listed, first)| <= MAX_ENTRIES && i <= |second|
    requires |Filter(Listed, Window(first))| + |Filter(NewlyListed(Scanned(Window(first))), second[..i])| >= MAX_ENTRIES
    ensures |Filter(Listed, first)| == MAX_ENTRIES
    ensures Filter(NewlyListed(Scanned(Window(first))), second[i..]) == []
  {
    hide Window, Filter, Listed, NewlyListed, Scanned, Unchanged;
    var window := Window(first);
    var kept := NewlyListed(Scanned(window));
    CollectedOnce(first, second);
    PermutationMembers(Collected(window, second), Filter(Listed, first));
    assert second == second[..i] + second[i..];
    FilterAppend(kept, second[..i], second[i..]);
  }

  lemma {:induction false} NothingListed(first: seq<Child>, second: seq<Child>, i: nat)
    requires Unchanged(first, second) && i < |second|
    requires Filter(NewlyListed(Scanned(Window(first))), second[i..]) == []
    requires Unscanned(Scanned(Window(first)))(second[i])
    ensures SpecialAtEnd(first, second, i)
  {
    hide Window, Filter, Scanned;
    var kept := NewlyListed(Scanned(Window(first)));
    PermutationMembers(first, second);
    forall c | c in second[i..] && Listed(c) ensures c in Window(first) {
      FilterMember(kept, second[i..], c);
      assert c in second;
      ScannedIff(first, c);
    }
    FilterMember(kept, second[i..], second[i]);
    assert second[i..][0] == second[i];
  }
}
