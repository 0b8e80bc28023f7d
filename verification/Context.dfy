/** The bounded model context: source ranking, round-robin ordering and size-bounded filling. */
module Context {
  import opened Records
  import opened StableSort

  // ----- lexicographic keys, as Python compares tuples and strings

  predicate LexLeq(a: seq<int>, b: seq<int>) {
    a == [] || (b != [] && (a[0] < b[0] || (a[0] == b[0] && LexLeq(a[1..], b[1..]))))
  }

  lemma {:induction false} LexTotal(a: seq<int>, b: seq<int>)
    ensures LexLeq(a, b) || LexLeq(b, a)
  {
    if a != [] && b != [] && a[0] == b[0] {
      LexTotal(a[1..], b[1..]);
    }
  }

  lemma {:induction false} LexTransitive(a: seq<int>, b: seq<int>, c: seq<int>)
    requires LexLeq(a, b) && LexLeq(b, c)
    ensures LexLeq(a, c)
  {
    if a != [] && b != [] && c != [] && a[0] == b[0] == c[0] {
      LexTransitive(a[1..], b[1..], c[1..]);
    }
  }

  function CodePoints(s: string): seq<int> {
    seq(|s|, i requires 0 <= i < |s| => s[i] as int)
  }

  lemma KeyOrderIsTotal<T(!new)>(key: T -> seq<int>)
    ensures TotalPreorder((x, y) => LexLeq(key(x), key(y)))
  {
    forall x, y ensures LexLeq(key(x), key(y)) || LexLeq(key(y), key(x)) {
      LexTotal(key(x), key(y));
    }
    forall x, y, z | LexLeq(key(x), key(y)) && LexLeq(key(y), key(z)) ensures LexLeq(key(x), key(z)) {
      LexTransitive(key(x), key(y), key(z));
    }
  }

  // ----- _ordered

  function Priority(s: Source): int {
    match s
    case PAYMENT => 0 case DEPLOYMENT => 1 case KUBERNETES => 2 case PROMETHEUS => 3
    case TRACE => 4 case LOG => 5 case RUNBOOK => 6 case MEMORY => 7
  }

  function Flag(b: bool): int { if b then 1 else 0 }

  function RecentKey(preferred: set<string>, signaled: set<string>): Evidence -> seq<int> {
    (e: Evidence) =>
      [Flag(e.meta.id !in signaled), Flag(e.meta.id !in preferred), Flag(e.meta.source in {MEMORY, RUNBOOK}),
       -e.meta.observedAt, Priority(e.meta.source)] + CodePoints(e.meta.id)
  }

  function SourceKey(): Evidence -> seq<int> {
    (e: Evidence) => [Priority(e.meta.source)]
  }

  function ByKey<T>(key: T -> seq<int>): (T, T) -> bool {
    (x, y) => LexLeq(key(x), key(y))
  }

  datatype Ranked = Ranked(depth: nat, index: nat, item: Evidence)

  type Group = (Source, string)

  function GroupOf(e: Evidence): Group { (e.meta.source, e.meta.resource) }

  function InGroup(g: Group): Evidence -> bool { (e: Evidence) => GroupOf(e) == g }

  function RankedInGroup(g: Group): Ranked -> bool { (r: Ranked) => GroupOf(r.item) == g }

  /** Earlier members of the item's own group. */
  function DepthIn(s: seq<Evidence>, i: nat): nat
    requires i < |s|
  {
    |Filter(InGroup(GroupOf(s[i])), s[..i])|
  }

  function RankAll(ordered: seq<Evidence>): seq<Ranked> {
    seq(|ordered|, i requires 0 <= i < |ordered| => Ranked(DepthIn(ordered, i), i, ordered[i]))
  }

  function RoundKey(): Ranked -> seq<int> {
    (r: Ranked) => [r.depth, r.index]
  }

  function Items(rows: seq<Ranked>): seq<Evidence> {
    seq(|rows|, i requires 0 <= i < |rows| => rows[i].item)
  }

  function RankOrder(evidence: seq<Evidence>, preferred: set<string>, signaled: set<string>): seq<Evidence> {
    SortBy(ByKey(RecentKey(preferred, signaled)), evidence)
  }

  function RoundRobin(ordered: seq<Evidence>): seq<Evidence> {
    Items(SortBy(ByKey(RoundKey()), RankAll(ordered)))
  }

  function OrderedEvidence(evidence: seq<Evidence>, recent: bool, preferred: set<string>, signaled: set<string>)
    : seq<Evidence>
  {
    if recent then RoundRobin(RankOrder(evidence, preferred, signaled)) else SortBy(ByKey(SourceKey()), evidence)
  }

  ghost predicate CountsMembers(counts: map<Group, nat>, s: seq<Evidence>) {
    forall g :: (if g in counts then counts[g] else 0) == |Filter(InGroup(g), s)|
  }

  lemma CountsNothing()
    ensures CountsMembers(map[], [])
  {
  }

  lemma CountsStep(counts: map<Group, nat>, s: seq<Evidence>, i: nat)
    requires i < |s| && CountsMembers(counts, s[..i])
    ensures CountsMembers(counts[GroupOf(s[i]) := DepthIn(s, i) + 1], s[..i + 1])
  {
    var after := counts[GroupOf(s[i]) := DepthIn(s, i) + 1];
    forall g ensures (if g in after then after[g] else 0) == |Filter(InGroup(g), s[..i + 1])| {
      assert s[..i + 1] == s[..i] + [s[i]];
      FilterAppend(InGroup(g), s[..i], s[i]);
    }
  }

  /** The loop of `_ordered`, with the dictionary of group counts. */
  method Ordered(evidence: seq<Evidence>, recent: bool, preferred: set<string>, signaled: set<string>)
    returns (result: seq<Evidence>)
    ensures result == OrderedEvidence(evidence, recent, preferred, signaled)
  {
    hide LexLeq, Filter, SortBy, Priority;
    if !recent {
      return SortBy(ByKey(SourceKey()), evidence);
    }
    var ordered := SortBy(ByKey(RecentKey(preferred, signaled)), evidence);
    var counts: map<Group, nat> := map[];
    var ranked: seq<Ranked> := [];
    CountsNothing();
    for index := 0 to |ordered|
      invariant CountsMembers(counts, ordered[..index])
      invariant |ranked| == index && forall k :: 0 <= k < index ==> ranked[k] == RankAll(ordered)[k]
    {
      var entry := ordered[index];
      var group := GroupOf(entry);
      var depth := if group in counts then counts[group] else 0;
      assert depth == DepthIn(ordered, index);
      CountsStep(counts, ordered, index);
      counts := counts[group := depth + 1];
      ranked := ranked + [Ranked(depth, index, entry)];
    }
    assert ranked == RankAll(ordered);
    var sorted := SortBy(ByKey(RoundKey()), ranked);
    result := Items(sorted);
  }

  lemma {:induction false} ItemsOfFilter(g: Group, rows: seq<Ranked>)
    ensures Items(Filter(RankedInGroup(g), rows)) == Filter(InGroup(g), Items(rows))
  {
    if rows != [] {
      var front := rows[..|rows| - 1];
      ItemsOfFilter(g, front);
      assert Items(rows)[..|rows| - 1] == Items(front);
    }
  }

  lemma ItemsWithout(rows: seq<Ranked>, j: nat)
    requires j < |rows|
    ensures multiset(rows) == multiset(rows[..j] + rows[j + 1..]) + multiset{rows[j]}
    ensures multiset(Items(rows)) == multiset(Items(rows[..j] + rows[j + 1..])) + multiset{rows[j].item}
  {
    assert rows == rows[..j] + [rows[j]] + rows[j + 1..];
    assert Items(rows) == Items(rows[..j]) + [rows[j].item] + Items(rows[j + 1..]);
    assert Items(rows[..j] + rows[j + 1..]) == Items(rows[..j]) + Items(rows[j + 1..]);
  }

  lemma {:induction false} ItemsMultiset(a: seq<Ranked>, b: seq<Ranked>)
    requires multiset(a) == multiset(b)
    ensures multiset(Items(a)) == multiset(Items(b))
    decreases |a|
  {
    if a == [] {
      assert |multiset(b)| == 0;
    } else {
      assert a[0] in multiset(b);
      var j :| 0 <= j < |b| && b[j] == a[0];
      ItemsWithout(a, 0);
      ItemsWithout(b, j);
      var a', b' := a[..0] + a[1..], b[..j] + b[j + 1..];
      assert multiset(a') == multiset(a) - multiset{a[0]};
      assert multiset(b') == multiset(b) - multiset{a[0]};
      ItemsMultiset(a', b');
    }
  }

  /** Within one group the ranks count up: the member at filter position m has depth m. */
  lemma {:induction false} RankedGroupDepth(ordered: seq<Evidence>, n: nat, g: Group, m: nat)
    requires n <= |ordered|
    requires m < |Filter(RankedInGroup(g), RankAll(ordered)[..n])|
    ensures Filter(RankedInGroup(g), RankAll(ordered)[..n])[m].depth == m
    decreases n
  {
    var rows := RankAll(ordered)[..n];
    assert n > 0;
    assert rows[..n - 1] == RankAll(ordered)[..n - 1];
    if m < |Filter(RankedInGroup(g), rows[..n - 1])| {
      RankedGroupDepth(ordered, n - 1, g, m);
    } else {
      ItemsOfFilter(g, rows[..n - 1]);
      assert Items(rows[..n - 1]) == ordered[..n - 1];
    }
  }

  lemma RankedGroupInOrder(ordered: seq<Evidence>, g: Group, i: nat, j: nat)
    requires i < j < |ordered| && GroupOf(ordered[i]) == g && GroupOf(ordered[j]) == g
    ensures ByKey(RoundKey())(RankAll(ordered)[i], RankAll(ordered)[j])
  {
    FilterPrefix(InGroup(g), ordered, i, j);
    var a, b := RankAll(ordered)[i], RankAll(ordered)[j];
    assert a.depth <= b.depth;
    assert LexLeq([a.index], [b.index]);
    assert [a.depth, a.index][1..] == [a.index] && [b.depth, b.index][1..] == [b.index];
  }

  lemma {:induction false} FilterPrefix<T>(keep: T -> bool, s: seq<T>, i: nat, j: nat)
    requires i <= j <= |s|
    ensures |Filter(keep, s[..i])| <= |Filter(keep, s[..j])|
  {
    if i < j {
      FilterPrefix(keep, s, i, j - 1);
      assert s[..j][..j - 1] == s[..j - 1];
    }
  }

  /**
   Who comes first among the recent: supported mechanisms, preferred ids, observations before guidance, the newest.
   */
  predicate Precedes(x: Evidence, y: Evidence, preferred: set<string>, signaled: set<string>) {
    if (x.meta.id in signaled) != (y.meta.id in signaled) then x.meta.id in signaled
    else if (x.meta.id in preferred) != (y.meta.id in preferred) then x.meta.id in preferred
    else if (x.meta.source in {MEMORY, RUNBOOK}) != (y.meta.source in {MEMORY, RUNBOOK})
    then y.meta.source in {MEMORY, RUNBOOK}
    else if x.meta.observedAt != y.meta.observedAt then x.meta.observedAt > y.meta.observedAt
    else if x.meta.source != y.meta.source then Priority(x.meta.source) < Priority(y.meta.source)
    else LexLeq(CodePoints(x.meta.id), CodePoints(y.meta.id))
  }

  lemma LexHead(a: int, b: int, x: seq<int>, y: seq<int>)
    ensures LexLeq([a] + x, [b] + y) <==> a < b || (a == b && LexLeq(x, y))
  {
    assert ([a] + x)[1..] == x && ([b] + y)[1..] == y;
  }

  lemma SourceKeyMeans(x: Metadata, y: Metadata)
    ensures LexLeq([-x.observedAt] + ([Priority(x.source)] + CodePoints(x.id)),
                   [-y.observedAt] + ([Priority(y.source)] + CodePoints(y.id)))
      <==> if x.observedAt != y.observedAt then x.observedAt > y.observedAt
           else if x.source != y.source then Priority(x.source) < Priority(y.source)
           else LexLeq(CodePoints(x.id), CodePoints(y.id))
  {
    hide LexLeq, CodePoints;
    SamePrioritySource(x.source, y.source);
    LexHead(Priority(x.source), Priority(y.source), CodePoints(x.id), CodePoints(y.id));
    LexHead(-x.observedAt, -y.observedAt, [Priority(x.source)] + CodePoints(x.id),
            [Priority(y.source)] + CodePoints(y.id));
  }

  lemma SamePrioritySource(a: Source, b: Source)
    ensures Priority(a) == Priority(b) ==> a == b
  {
  }

  lemma FlagHead(a: bool, b: bool, x: seq<int>, y: seq<int>)
    ensures LexLeq([Flag(a)] + x, [Flag(b)] + y) <==> if a != b then b else LexLeq(x, y)
  {
    hide LexLeq;
    LexHead(Flag(a), Flag(b), x, y);
  }

  lemma RecentKeyMeans(x: Evidence, y: Evidence, preferred: set<string>, signaled: set<string>)
    ensures ByKey(RecentKey(preferred, signaled))(x, y) <==> Precedes(x, y, preferred, signaled)
  {
    hide LexLeq, CodePoints, Priority, Flag;
    var (a, b) := (x.meta, y.meta);
    var p1 := [-a.observedAt] + ([Priority(a.source)] + CodePoints(a.id));
    var q1 := [-b.observedAt] + ([Priority(b.source)] + CodePoints(b.id));
    var (p2, q2) := ([Flag(a.source in {MEMORY, RUNBOOK})] + p1, [Flag(b.source in {MEMORY, RUNBOOK})] + q1);
    var (p3, q3) := ([Flag(a.id !in preferred)] + p2, [Flag(b.id !in preferred)] + q2);
    SourceKeyMeans(a, b);
    FlagHead(a.source in {MEMORY, RUNBOOK}, b.source in {MEMORY, RUNBOOK}, p1, q1);
    FlagHead(a.id !in preferred, b.id !in preferred, p2, q2);
    FlagHead(a.id !in signaled, b.id !in signaled, p3, q3);
    assert RecentKey(preferred, signaled)(x) == [Flag(a.id !in signaled)] + p3;
    assert RecentKey(preferred, signaled)(y) == [Flag(b.id !in signaled)] + q3;
  }

  /** The ranks the rounds are dealt from follow that precedence. */
  lemma RanksFollowPrecedence(evidence: seq<Evidence>, preferred: set<string>, signaled: set<string>, i: nat, j: nat)
    requires i < j < |RankOrder(evidence, preferred, signaled)|
    ensures var ranks := RankOrder(evidence, preferred, signaled);
      Precedes(ranks[i], ranks[j], preferred, signaled)
  {
    hide LexLeq, Precedes;
    var key := RecentKey(preferred, signaled);
    KeyOrderIsTotal(key);
    assert TotalPreorder(ByKey(key));
    SortIsOrderedPermutation(ByKey(key), evidence);
    RecentKeyMeans(RankOrder(evidence, preferred, signaled)[i], RankOrder(evidence, preferred, signaled)[j], preferred,
                   signaled);
  }

  lemma RoundKeyDepth(a: Ranked, b: Ranked)
    requires ByKey(RoundKey())(a, b)
    ensures a.depth <= b.depth
  {
  }

  lemma RoundsAreOrdered(ordered: seq<Evidence>)
    ensures var rows, sorted := RankAll(ordered), SortBy(ByKey(RoundKey()), RankAll(ordered));
      && InRounds(sorted) && multiset(sorted) == multiset(rows) && Items(rows) == ordered
  {
    hide LexLeq, DepthIn;
    KeyOrderIsTotal(RoundKey());
    assert TotalPreorder(ByKey(RoundKey()));
    SortIsOrderedPermutation(ByKey(RoundKey()), RankAll(ordered));
  }

  ghost predicate InRounds(rows: seq<Ranked>) {
    StableSort.Ordered(ByKey(RoundKey()), rows)
  }

  lemma RoundsKeepGroups(ordered: seq<Evidence>, g: Group)
    ensures var rows, sorted := RankAll(ordered), SortBy(ByKey(RoundKey()), RankAll(ordered));
      && Filter(RankedInGroup(g), sorted) == Filter(RankedInGroup(g), rows)
      && Filter(InGroup(g), Items(sorted)) == Filter(InGroup(g), ordered)
  {
    hide LexLeq, DepthIn, Filter, SortBy;
    var rows, sorted := RankAll(ordered), SortBy(ByKey(RoundKey()), RankAll(ordered));
    KeyOrderIsTotal(RoundKey());
    assert TotalPreorder(ByKey(RoundKey()));
    forall i, j | 0 <= i < j < |rows| && RankedInGroup(g)(rows[i]) && RankedInGroup(g)(rows[j])
      ensures ByKey(RoundKey())(rows[i], rows[j])
    {
      RankedGroupInOrder(ordered, g, i, j);
    }
    SortKeepsGroup(ByKey(RoundKey()), rows, RankedInGroup(g));
    ItemsOfFilter(g, sorted);
    ItemsOfFilter(g, rows);
    assert Items(rows) == ordered;
  }

  /** A rearrangement of the ranked rows that keeps every group keeps every item's depth. */
  lemma DepthKept(ordered: seq<Evidence>, sorted: seq<Ranked>, i: nat)
    requires i < |sorted|
    requires forall g :: Filter(RankedInGroup(g), sorted) == Filter(RankedInGroup(g), RankAll(ordered))
    ensures DepthIn(Items(sorted), i) == sorted[i].depth
  {
    var g := GroupOf(sorted[i].item);
    assert Filter(RankedInGroup(g), sorted) == Filter(RankedInGroup(g), RankAll(ordered));
    FilterPosition(RankedInGroup(g), sorted, i);
    ItemsOfFilter(g, sorted[..i]);
    assert Items(sorted[..i]) == Items(sorted)[..i];
    assert RankAll(ordered)[..|ordered|] == RankAll(ordered);
    RankedGroupDepth(ordered, |ordered|, g, DepthIn(Items(sorted), i));
  }

  /** Nobody's later item comes before anybody's earlier one. */
  ghost predicate DealtInRounds(out: seq<Evidence>) {
    forall i, j :: 0 <= i < j < |out| ==> DepthIn(out, i) <= DepthIn(out, j)
  }

  /** Round robin: a permutation that keeps every group's sequence, in rounds of equal depth. */
  lemma RoundRobinIsFair(ordered: seq<Evidence>)
    ensures var out := RoundRobin(ordered);
      && multiset(out) == multiset(ordered)
      && (forall g :: Filter(InGroup(g), out) == Filter(InGroup(g), ordered))
      && DealtInRounds(out)
  {
    hide LexLeq, DepthIn, Filter, SortBy, InGroup;
    var rows, sorted := RankAll(ordered), SortBy(ByKey(RoundKey()), RankAll(ordered));
    RoundsAreOrdered(ordered);
    ItemsMultiset(sorted, rows);
    forall g
      ensures Filter(InGroup(g), RoundRobin(ordered)) == Filter(InGroup(g), ordered)
      ensures Filter(RankedInGroup(g), sorted) == Filter(RankedInGroup(g), rows)
    {
      RoundsKeepGroups(ordered, g);
    }
    forall i, j | 0 <= i < j < |sorted| ensures DepthIn(RoundRobin(ordered), i) <= DepthIn(RoundRobin(ordered), j) {
      DepthKept(ordered, sorted, i);
      DepthKept(ordered, sorted, j);
      RoundKeyDepth(sorted[i], sorted[j]);
    }
  }

  // ----- the plain order

  function PlainOrder(evidence: seq<Evidence>): seq<Evidence> {
    SortBy(ByKey(SourceKey()), evidence)
  }

  /** A permutation by source priority in which no group changes. */
  lemma PlainOrderBySource(evidence: seq<Evidence>)
    ensures var out := PlainOrder(evidence);
      && multiset(out) == multiset(evidence)
      && (forall i, j :: 0 <= i < j < |out| ==> Priority(out[i].meta.source) <= Priority(out[j].meta.source))
      && (forall g :: Filter(InGroup(g), out) == Filter(InGroup(g), evidence))
  {
    hide Filter, SortBy, InGroup;
    KeyOrderIsTotal(SourceKey());
    assert TotalPreorder(ByKey(SourceKey()));
    SortIsOrderedPermutation(ByKey(SourceKey()), evidence);
    forall g ensures Filter(InGroup(g), PlainOrder(evidence)) == Filter(InGroup(g), evidence) {
      SourceOrderKeepsGroup(evidence, g);
    }
  }

  lemma SourceOrderKeepsGroup(evidence: seq<Evidence>, g: Group)
    ensures Filter(InGroup(g), PlainOrder(evidence)) == Filter(InGroup(g), evidence)
  {
    KeyOrderIsTotal(SourceKey());
    assert TotalPreorder(ByKey(SourceKey()));
    SortKeepsGroup(ByKey(SourceKey()), evidence, InGroup(g));
  }

  /** The plain order with its ties spelled out. */
  function PlainKey(): Ranked -> seq<int> {
    (r: Ranked) => [Priority(r.item.meta.source), r.index]
  }

  lemma PlainKeyMeans(a: Ranked, b: Ranked)
    ensures var (p, q) := (Priority(a.item.meta.source), Priority(b.item.meta.source));
      && (ByKey(PlainKey())(a, b) <==> p < q || (p == q && a.index <= b.index))
      && (ByKey(SourceKey())(a.item, b.item) <==> p <= q)
  {
    hide Priority;
    var (p, q) := (Priority(a.item.meta.source), Priority(b.item.meta.source));
    LexHead(p, q, [a.index], [b.index]);
    assert [p] + [a.index] == [p, a.index] && [q] + [b.index] == [q, b.index];
    LexHead(a.index, b.index, [], []);
    assert [a.index] + [] == [a.index] && [b.index] + [] == [b.index];
    LexHead(p, q, [], []);
    assert [p] + [] == [p] && [q] + [] == [q];
  }

  lemma {:induction false} InsertRanked(rows: seq<Ranked>, x: Ranked)
    requires forall a :: a in rows ==> a.index < x.index
    ensures Items(Insert(ByKey(PlainKey()), rows, x)) == Insert(ByKey(SourceKey()), Items(rows), x.item)
  {
    hide LexLeq, Priority;
    if rows != [] {
      var front, last := rows[..|rows| - 1], rows[|rows| - 1];
      PlainKeyMeans(last, x);
      assert last in rows && Items(rows)[..|rows| - 1] == Items(front);
      if ByKey(PlainKey())(last, x) {
        assert Items(rows + [x]) == Items(rows) + [x.item];
      } else {
        InsertRanked(front, x);
        var inserted := Insert(ByKey(PlainKey()), front, x);
        assert Items(inserted + [last]) == Items(inserted) + [last.item];
      }
    }
  }

  lemma {:induction false} PlainOrderIsRanked(evidence: seq<Evidence>, n: nat)
    requires n <= |evidence|
    ensures Items(SortBy(ByKey(PlainKey()), RankAll(evidence)[..n])) == PlainOrder(evidence[..n])
  {
    hide LexLeq, Priority, DepthIn, Insert;
    if n > 0 {
      var rows := RankAll(evidence)[..n];
      var sorted := SortBy(ByKey(PlainKey()), rows[..n - 1]);
      assert rows[..n - 1] == RankAll(evidence)[..n - 1] && evidence[..n][..n - 1] == evidence[..n - 1];
      PlainOrderIsRanked(evidence, n - 1);
      KeyOrderIsTotal(PlainKey());
      assert TotalPreorder(ByKey(PlainKey()));
      SortIsOrderedPermutation(ByKey(PlainKey()), rows[..n - 1]);
      forall a | a in sorted ensures a.index < rows[n - 1].index {
        assert a in multiset(sorted);
        assert a in rows[..n - 1];
      }
      InsertRanked(sorted, rows[n - 1]);
    }
  }

  function PlainRows(evidence: seq<Evidence>): seq<Ranked> {
    SortBy(ByKey(PlainKey()), RankAll(evidence))
  }

  lemma PlainRowsAreOrdered(evidence: seq<Evidence>)
    ensures Items(PlainRows(evidence)) == PlainOrder(evidence)
    ensures multiset(PlainRows(evidence)) == multiset(RankAll(evidence))
    ensures StableSort.Ordered(ByKey(PlainKey()), PlainRows(evidence))
  {
    hide LexLeq, Priority, DepthIn, SortBy;
    KeyOrderIsTotal(PlainKey());
    assert TotalPreorder(ByKey(PlainKey()));
    SortIsOrderedPermutation(ByKey(PlainKey()), RankAll(evidence));
    PlainOrderIsRanked(evidence, |evidence|);
    assert RankAll(evidence)[..|evidence|] == RankAll(evidence) && evidence[..|evidence|] == evidence;
  }

  lemma PlainDepth(evidence: seq<Evidence>, i: nat)
    requires i < |PlainRows(evidence)|
    ensures |PlainOrder(evidence)| == |PlainRows(evidence)|
    ensures DepthIn(PlainOrder(evidence), i) == PlainRows(evidence)[i].depth
  {
    hide LexLeq, Priority, DepthIn, SortBy, Filter;
    PlainRowsAreOrdered(evidence);
    var rows := RankAll(evidence);
    KeyOrderIsTotal(PlainKey());
    assert TotalPreorder(ByKey(PlainKey()));
    forall g ensures Filter(RankedInGroup(g), PlainRows(evidence)) == Filter(RankedInGroup(g), rows) {
      forall i, j | 0 <= i < j < |rows| && RankedInGroup(g)(rows[i]) && RankedInGroup(g)(rows[j])
        ensures ByKey(PlainKey())(rows[i], rows[j])
      {
        PlainKeyMeans(rows[i], rows[j]);
      }
      SortKeepsGroup(ByKey(PlainKey()), rows, RankedInGroup(g));
    }
    DepthKept(evidence, PlainRows(evidence), i);
  }

  /**
   Every source before the last one present has at most one item per resource, and within a source the items were
   given in rounds.
   */
  ghost predicate GivenInRounds(evidence: seq<Evidence>) {
    && (forall i, j :: 0 <= i < |evidence| && 0 <= j < |evidence| ==>
          Priority(evidence[i].meta.source) < Priority(evidence[j].meta.source) ==> DepthIn(evidence, i) == 0)
    && (forall i, j :: 0 <= i < j < |evidence| ==>
          evidence[i].meta.source == evidence[j].meta.source ==> DepthIn(evidence, i) <= DepthIn(evidence, j))
  }

  /** An item of `i`'s group that has nobody of its group before it. */
  lemma {:induction false} FirstOfGroup(evidence: seq<Evidence>, i: nat) returns (first: nat)
    requires i < |evidence|
    ensures first <= i && GroupOf(evidence[first]) == GroupOf(evidence[i]) && DepthIn(evidence, first) == 0
  {
    hide Filter;
    first := i;
    if DepthIn(evidence, i) > 0 {
      var (keep, before) := (InGroup(GroupOf(evidence[i])), evidence[..i]);
      var x := Filter(keep, before)[0];
      FilterMember(keep, before, x);
      assert x in Filter(keep, before);
      var k :| 0 <= k < i && evidence[k] == x;
      first := FirstOfGroup(evidence, k);
    }
  }

  lemma RankedTwice(evidence: seq<Evidence>, i: nat, j: nat) returns (a: nat, b: nat)
    requires i < |evidence| && j < |evidence| && i != j
    requires ByKey(PlainKey())(RankAll(evidence)[i], RankAll(evidence)[j])
    ensures var rows := PlainRows(evidence);
      a < b < |rows| && rows[a] == RankAll(evidence)[i] && rows[b] == RankAll(evidence)[j]
  {
    hide LexLeq, Priority, DepthIn, SortBy;
    PlainRowsAreOrdered(evidence);
    var (rows, sorted) := (RankAll(evidence), PlainRows(evidence));
    assert rows[i] in multiset(sorted) && rows[j] in multiset(sorted);
    a :| 0 <= a < |sorted| && sorted[a] == rows[i];
    b :| 0 <= b < |sorted| && sorted[b] == rows[j];
    if b < a {
      assert ByKey(PlainKey())(sorted[b], sorted[a]);
      PlainKeyMeans(rows[i], rows[j]);
      PlainKeyMeans(rows[j], rows[i]);
    }
  }

  lemma PlainPairsInRounds(evidence: seq<Evidence>, i: nat, j: nat)
    requires DealtInRounds(PlainOrder(evidence))
    requires i < |evidence| && j < |evidence| && i != j
    requires ByKey(PlainKey())(RankAll(evidence)[i], RankAll(evidence)[j])
    ensures DepthIn(evidence, i) <= DepthIn(evidence, j)
  {
    hide LexLeq, Priority, DepthIn, SortBy, PlainOrder, PlainRows, ByKey;
    var a, b := RankedTwice(evidence, i, j);
    PlainDepth(evidence, a);
    PlainDepth(evidence, b);
  }

  lemma RoundsWereGiven(evidence: seq<Evidence>)
    requires DealtInRounds(PlainOrder(evidence))
    ensures GivenInRounds(evidence)
  {
    hide LexLeq, Priority, DepthIn, DealtInRounds, PlainOrder, ByKey;
    var rows := RankAll(evidence);
    forall i, j | 0 <= i < |evidence| && 0 <= j < |evidence|
                  && Priority(evidence[i].meta.source) < Priority(evidence[j].meta.source)
      ensures DepthIn(evidence, i) == 0
    {
      var first := FirstOfGroup(evidence, j);
      PlainKeyMeans(rows[i], rows[first]);
      PlainPairsInRounds(evidence, i, first);
    }
    forall i, j | 0 <= i < j < |evidence| && evidence[i].meta.source == evidence[j].meta.source
      ensures DepthIn(evidence, i) <= DepthIn(evidence, j)
    {
      PlainKeyMeans(rows[i], rows[j]);
      PlainPairsInRounds(evidence, i, j);
    }
  }

  lemma GivenRoundsStay(evidence: seq<Evidence>)
    requires GivenInRounds(evidence)
    ensures DealtInRounds(PlainOrder(evidence))
  {
    hide LexLeq, Priority, DepthIn, SortBy, ByKey;
    var (out, rows, sorted) := (PlainOrder(evidence), RankAll(evidence), PlainRows(evidence));
    PlainRowsAreOrdered(evidence);
    forall i, j | 0 <= i < j < |out| ensures DepthIn(out, i) <= DepthIn(out, j) {
      PlainDepth(evidence, i);
      PlainDepth(evidence, j);
      assert ByKey(PlainKey())(sorted[i], sorted[j]);
      PlainKeyMeans(sorted[i], sorted[j]);
      assert sorted[i] in multiset(rows) && sorted[j] in multiset(rows);
      var (a, b) := (sorted[i].index, sorted[j].index);
      assert rows[a] == sorted[i] && rows[b] == sorted[j];
      SamePrioritySource(evidence[a].meta.source, evidence[b].meta.source);
    }
  }

  /** Which orders are fair: the recent-first one always, the plain one exactly when the evidence came in rounds. */
  lemma DealtInRoundsExactly(evidence: seq<Evidence>, recent: bool, preferred: set<string>, signaled: set<string>)
    ensures DealtInRounds(OrderedEvidence(evidence, recent, preferred, signaled)) <==> recent || GivenInRounds(evidence)
  {
    hide DealtInRounds, GivenInRounds, RoundRobin, RankOrder, SortBy, ByKey;
    if recent {
      RoundRobinIsFair(RankOrder(evidence, preferred, signaled));
    } else {
      assert OrderedEvidence(evidence, recent, preferred, signaled) == PlainOrder(evidence);
      if DealtInRounds(PlainOrder(evidence)) {
        RoundsWereGiven(evidence);
      }
      if GivenInRounds(evidence) {
        GivenRoundsStay(evidence);
      }
    }
  }

  /** An item as far as the order looks at it. */
  function Sample(id: string, source: Source): Evidence {
    var meta := Metadata(id, "incident", source, 0, 0, "", "", "");
    Evidence(meta, Sha256(SourceArtifact(meta, "")))
  }

  lemma SampleRounds(a: Evidence, b: Evidence, c: Evidence)
    requires GroupOf(a) == GroupOf(b) != GroupOf(c)
    ensures DepthIn([a, b, c], 1) == 1 && DepthIn([a, b, c], 2) == 0
  {
    var (g, h) := (InGroup(GroupOf(b)), InGroup(GroupOf(c)));
    assert [a, b, c][..1] == [a] && [a, b, c][..2] == [a, b] && [a, b][..1] == [a] && [a][..0] == [];
    FilterAppend(g, [], a);
    FilterAppend(h, [], a);
    FilterAppend(h, [a], b);
    assert [] + [a] == [a] && [a] + [b] == [a, b];
  }

  lemma SampleOrder(a: Evidence, b: Evidence, c: Evidence)
    requires Priority(a.meta.source) <= Priority(b.meta.source) <= Priority(c.meta.source)
    ensures PlainOrder([a, b, c]) == [a, b, c]
  {
    hide LexLeq, Priority;
    var leq := ByKey(SourceKey());
    PlainKeyMeans(Ranked(0, 0, a), Ranked(0, 0, b));
    PlainKeyMeans(Ranked(0, 0, b), Ranked(0, 0, c));
    assert [a, b, c][..2] == [a, b] && [a, b][..1] == [a] && [a][..0] == [];
    assert SortBy(leq, [a]) == [a] && SortBy(leq, [a, b]) == [a, b];
  }

  /** Two snapshots of one source crowd out the first log when nothing is dealt. */
  lemma PlainOrderCrowdsOut()
    ensures var given := [Sample("a", PAYMENT), Sample("b", PAYMENT), Sample("c", LOG)];
      && Distinct(Ids(given)) && PlainOrder(given) == given && DepthIn(given, 1) > DepthIn(given, 2)
      && !DealtInRounds(OrderedEvidence(given, false, {}, {})) && DealtInRounds(OrderedEvidence(given, true, {}, {}))
  {
    hide LexLeq, SortBy, DepthIn, RoundRobin, RankOrder;
    var (a, b, c) := (Sample("a", PAYMENT), Sample("b", PAYMENT), Sample("c", LOG));
    assert Ids([a, b, c]) == ["a", "b", "c"] && "a"[0] != "b"[0] && "b"[0] != "c"[0] && "a"[0] != "c"[0];
    SampleRounds(a, b, c);
    SampleOrder(a, b, c);
    RoundRobinIsFair(RankOrder([a, b, c], {}, {}));
  }

  lemma OrderedIsPermutation(evidence: seq<Evidence>, recent: bool, preferred: set<string>, signaled: set<string>)
    ensures multiset(OrderedEvidence(evidence, recent, preferred, signaled)) == multiset(evidence)
  {
    if recent {
      var key := RecentKey(preferred, signaled);
      KeyOrderIsTotal(key);
      assert TotalPreorder(ByKey(key));
      SortIsOrderedPermutation(ByKey(key), evidence);
      RoundRobinIsFair(RankOrder(evidence, preferred, signaled));
    } else {
      KeyOrderIsTotal(SourceKey());
      assert TotalPreorder(ByKey(SourceKey()));
      SortIsOrderedPermutation(ByKey(SourceKey()), evidence);
    }
  }

  // ----- build_context

  /** Length of one entry's JSON text; an object is at least its two braces. */
  type EntryMeasure = f: Entry -> nat | forall e :: f(e) >= 2 witness (e: Entry) => 2

  /** How the host renders evidence: entry text length, projected facts and supported mechanisms. */
  datatype View = View(measure: EntryMeasure, facts: Evidence -> string, signals: seq<Evidence> -> set<string>)

  datatype Built = Built(context: ReasoningContext) | OutOfBounds | IntegrityError

  function Digits(n: nat): (d: nat)
    ensures d >= 1
  {
    if n < 10 then 1 else 1 + Digits(n / 10)
  }

  function EntriesLength(measure: EntryMeasure, entries: seq<Entry>): nat {
    if entries == [] then 0 else EntriesLength(measure, entries[..|entries| - 1]) + measure(entries[|entries| - 1])
  }

  /** Compact JSON of the bundle: 69 fixed characters, the entries, their commas and the count. */
  function JsonLength(measure: EntryMeasure, c: ReasoningContext): nat {
    69 + EntriesLength(measure, c.entries) + (if c.entries == [] then 0 else |c.entries| - 1) + Digits(c.omitted)
  }

  function WithEntry(c: ReasoningContext, entry: Entry): ReasoningContext
    requires c.omitted > 0
  {
    ReasoningContext(c.entries + [entry], c.omitted - 1)
  }

  function AppendEntry(measure: EntryMeasure, c: ReasoningContext, full: Entry, limit: nat): ReasoningContext
    requires c.omitted > 0
  {
    if JsonLength(measure, WithEntry(c, full)) <= limit then WithEntry(c, full)
    else if Rejects(measure, c, full.evidence, limit) then c
    else WithEntry(c, Entry(full.evidence, None))
  }

  /** Not even the metadata-only entry of this item fits. */
  predicate Rejects(measure: EntryMeasure, c: ReasoningContext, item: Evidence, limit: nat)
    requires c.omitted > 0
  {
    JsonLength(measure, WithEntry(c, Entry(item, None))) > limit
  }

  function Fill(view: View, ordered: seq<Evidence>, c: ReasoningContext,
                limit: nat, cap: nat): ReasoningContext
    requires c.omitted >= |ordered|
  {
    if ordered == [] || |c.entries| >= cap then c
    else
      var next := AppendEntry(view.measure, c, Entry(ordered[0], Some(view.facts(ordered[0]))), limit);
      Fill(view, ordered[1..], next, limit, cap)
  }

  predicate Admissible(evidence: seq<Evidence>, incident: string, verified: Evidence -> bool) {
    forall e :: e in evidence ==> e.meta.incident == incident && verified(e)
  }

  predicate InBounds(evidence: seq<Evidence>, limit: int, cap: int) {
    128 <= limit <= 24000 && 0 <= cap <= 64 && |evidence| <= 256
  }

  function BuildContext(evidence: seq<Evidence>, incident: string, verified: Evidence -> bool, view: View,
                        limit: int, cap: int, recent: bool, preferred: set<string>): Built
  {
    if !InBounds(evidence, limit, cap) then OutOfBounds
    else if !Distinct(Ids(evidence)) || !Admissible(evidence, incident, verified) then IntegrityError
    else
      var ordered := OrderedEvidence(evidence, recent, preferred, if recent then view.signals(evidence) else {});
      OrderedLength(evidence, recent, preferred, if recent then view.signals(evidence) else {});
      Built(Fill(view, ordered, ReasoningContext([], |evidence|), limit, cap))
  }

  method VerifyAll(evidence: seq<Evidence>, incident: string, verified: Evidence -> bool) returns (ok: bool)
    ensures ok == Admissible(evidence, incident, verified)
  {
    for i := 0 to |evidence|
      invariant Admissible(evidence[..i], incident, verified)
    {
      if evidence[i].meta.incident != incident || !verified(evidence[i]) {
        return false;
      }
    }
    assert evidence[..|evidence|] == evidence;
    ok := true;
  }

  method FillAll(view: View, ordered: seq<Evidence>, empty: ReasoningContext, limit: nat, cap: nat)
    returns (bundle: ReasoningContext)
    requires empty.omitted >= |ordered|
    ensures bundle == Fill(view, ordered, empty, limit, cap)
  {
    bundle := empty;
    var i := 0;
    while i < |ordered| && |bundle.entries| < cap
      invariant 0 <= i <= |ordered| && bundle.omitted >= |ordered| - i
      invariant Fill(view, ordered[i..], bundle, limit, cap) == Fill(view, ordered, empty, limit, cap)
    {
      assert ordered[i..][0] == ordered[i] && ordered[i..][1..] == ordered[i + 1..];
      bundle := AppendEntry(view.measure, bundle, Entry(ordered[i], Some(view.facts(ordered[i]))), limit);
      i := i + 1;
    }
  }

  /** `build_context` as written: verify everything, then fill in order until the item cap. */
  method Build(evidence: seq<Evidence>, incident: string, verified: Evidence -> bool, view: View,
               limit: int, cap: int, recent: bool, preferred: set<string>) returns (result: Built)
    ensures result == BuildContext(evidence, incident, verified, view, limit, cap, recent, preferred)
  {
    if !InBounds(evidence, limit, cap) {
      return OutOfBounds;
    }
    if !Distinct(Ids(evidence)) {
      return IntegrityError;
    }
    var ok := VerifyAll(evidence, incident, verified);
    if !ok {
      return IntegrityError;
    }
    var signaled := if recent then view.signals(evidence) else {};
    var ordered := Ordered(evidence, recent, preferred, signaled);
    OrderedLength(evidence, recent, preferred, signaled);
    var bundle := FillAll(view, ordered, ReasoningContext([], |evidence|), limit, cap);
    result := Built(bundle);
  }

  lemma OrderedLength(evidence: seq<Evidence>, recent: bool, preferred: set<string>, signaled: set<string>)
    ensures |OrderedEvidence(evidence, recent, preferred, signaled)| == |evidence|
  {
    OrderedIsPermutation(evidence, recent, preferred, signaled);
    assert |multiset(OrderedEvidence(evidence, recent, preferred, signaled))| == |multiset(evidence)|;
  }

  // ----- what the filled context promises

  predicate Subsequence<T(==)>(a: seq<T>, b: seq<T>) {
    a == [] || (b != [] && ((a[0] == b[0] && Subsequence(a[1..], b[1..])) || Subsequence(a, b[1..])))
  }

  lemma {:induction false} SubsequenceMembers<T>(a: seq<T>, b: seq<T>, x: T)
    requires Subsequence(a, b) && x in a
    ensures x in b
  {
    if a[0] == b[0] && Subsequence(a[1..], b[1..]) {
      if x != a[0] {
        SubsequenceMembers(a[1..], b[1..], x);
      }
    } else {
      SubsequenceMembers(a, b[1..], x);
    }
  }

  function EvidenceOf(entries: seq<Entry>): seq<Evidence> {
    seq(|entries|, i requires 0 <= i < |entries| => entries[i].evidence)
  }

  function ContextIds(c: ReasoningContext): set<string> {
    set e | e in c.entries :: e.evidence.meta.id
  }

  lemma {:induction false} DigitsStep(n: nat)
    ensures Digits(n) <= Digits(n + 1) <= Digits(n) + 1
  {
    if n >= 10 && n % 10 == 9 {
      DigitsStep(n / 10);
      assert (n + 1) / 10 == n / 10 + 1;
    } else if n >= 10 {
      assert (n + 1) / 10 == n / 10;
    }
  }

  lemma {:induction false} DigitsBelow(n: nat)
    requires n <= 256
    ensures Digits(n) <= 3
  {
    assert n / 10 / 10 < 10;
    assert Digits(n / 10 / 10) == 1;
    assert n >= 10 ==> Digits(n / 10) <= 2;
  }

  lemma LengthWithEntry(measure: EntryMeasure, c: ReasoningContext, entry: Entry)
    requires c.omitted > 0
    ensures JsonLength(measure, WithEntry(c, entry)) == 69 + EntriesLength(measure, c.entries) + measure(entry)
                                                        + |c.entries| + Digits(c.omitted - 1)
  {
    assert WithEntry(c, entry).entries[..|c.entries|] == c.entries;
  }

  /** A rejected item stays rejected however the bundle grows. */
  lemma RejectionPersists(measure: EntryMeasure, c: ReasoningContext, entry: Entry, item: Evidence, limit: nat)
    requires c.omitted > 1 && Rejects(measure, c, item, limit)
    ensures Rejects(measure, WithEntry(c, entry), item, limit)
  {
    LengthWithEntry(measure, c, Entry(item, None));
    LengthWithEntry(measure, WithEntry(c, entry), Entry(item, None));
    assert WithEntry(c, entry).entries[..|c.entries|] == c.entries;
    DigitsStep(c.omitted - 2);
  }

  lemma {:induction false} FillKeepsRejection(view: View, ordered: seq<Evidence>,
                                              c: ReasoningContext, limit: nat, cap: nat, item: Evidence)
    requires c.omitted > |ordered| && Rejects(view.measure, c, item, limit)
    ensures var r := Fill(view, ordered, c, limit, cap);
      r.omitted > 0 && Rejects(view.measure, r, item, limit)
  {
    if ordered != [] && |c.entries| < cap {
      var full := Entry(ordered[0], Some(view.facts(ordered[0])));
      var next := AppendEntry(view.measure, c, full, limit);
      if next != c {
        RejectionPersists(view.measure, c, next.entries[|c.entries|], item, limit);
      }
      FillKeepsRejection(view, ordered[1..], next, limit, cap, item);
    }
  }

  /** One step either leaves the bundle alone or appends the item, fully or as metadata, within the limit. */
  lemma AppendCases(view: View, item: Evidence, c: ReasoningContext, limit: nat)
    requires c.omitted > 0
    ensures var next := AppendEntry(view.measure, c, Entry(item, Some(view.facts(item))), limit);
      || (next == c && Rejects(view.measure, c, item, limit))
      || (JsonLength(view.measure, next) <= limit && next.omitted == c.omitted - 1
          && exists f :: f in {None, Some(view.facts(item))} && next.entries == c.entries + [Entry(item, f)])
  {
    var full := Entry(item, Some(view.facts(item)));
    if JsonLength(view.measure, WithEntry(c, full)) <= limit {
      assert WithEntry(c, full).entries == c.entries + [Entry(item, Some(view.facts(item)))];
    } else {
      assert WithEntry(c, Entry(item, None)).entries == c.entries + [Entry(item, None)];
    }
  }

  lemma {:induction false} FillCounts(view: View, ordered: seq<Evidence>, c: ReasoningContext, limit: nat, cap: nat)
    requires c.omitted >= |ordered|
    ensures var r := Fill(view, ordered, c, limit, cap);
      && c.entries <= r.entries
      && |r.entries| + r.omitted == |c.entries| + c.omitted
      && (|c.entries| <= cap ==> |r.entries| <= cap)
      && (JsonLength(view.measure, c) <= limit ==> JsonLength(view.measure, r) <= limit)
  {
    if ordered != [] && |c.entries| < cap {
      AppendCases(view, ordered[0], c, limit);
      var next := AppendEntry(view.measure, c, Entry(ordered[0], Some(view.facts(ordered[0]))), limit);
      FillCounts(view, ordered[1..], next, limit, cap);
    }
  }

  /** The entries `Fill` adds behind the bundle it starts from. */
  function Added(view: View, ordered: seq<Evidence>, c: ReasoningContext, limit: nat, cap: nat): seq<Entry>
    requires c.omitted >= |ordered|
  {
    FillCounts(view, ordered, c, limit, cap);
    Fill(view, ordered, c, limit, cap).entries[|c.entries|..]
  }

  /** What the first item contributes: nothing, if it was rejected, or one entry of its own. */
  lemma AddedStep(view: View, ordered: seq<Evidence>, c: ReasoningContext, limit: nat, cap: nat)
    requires c.omitted >= |ordered| > 0 && |c.entries| < cap
    ensures var next := AppendEntry(view.measure, c, Entry(ordered[0], Some(view.facts(ordered[0]))), limit);
      || (next == c && Rejects(view.measure, c, ordered[0], limit)
          && Added(view, ordered, c, limit, cap) == Added(view, ordered[1..], next, limit, cap))
      || exists f ::
           (f in {None, Some(view.facts(ordered[0]))}
            && Added(view, ordered, c, limit, cap)
               == [Entry(ordered[0], f)] + Added(view, ordered[1..], next, limit, cap))
  {
    hide JsonLength, Rejects;
    AppendCases(view, ordered[0], c, limit);
    var next := AppendEntry(view.measure, c, Entry(ordered[0], Some(view.facts(ordered[0]))), limit);
    FillCounts(view, ordered[1..], next, limit, cap);
    if next != c {
      var f :| f in {None, Some(view.facts(ordered[0]))} && next.entries == c.entries + [Entry(ordered[0], f)];
      assert Added(view, ordered, c, limit, cap)
          == [Entry(ordered[0], f)] + Added(view, ordered[1..], next, limit, cap);
    }
  }

  lemma {:induction false} AddedSubsequence(view: View, ordered: seq<Evidence>, c: ReasoningContext, limit: nat,
                                            cap: nat)
    requires c.omitted >= |ordered|
    ensures var added := Added(view, ordered, c, limit, cap);
      && Subsequence(EvidenceOf(added), ordered)
      && (forall e :: e in added ==> e.facts in {None, Some(view.facts(e.evidence))})
  {
    if ordered != [] && |c.entries| < cap {
      AddedStep(view, ordered, c, limit, cap);
      var next := AppendEntry(view.measure, c, Entry(ordered[0], Some(view.facts(ordered[0]))), limit);
      AddedSubsequence(view, ordered[1..], next, limit, cap);
      var added, later := Added(view, ordered, c, limit, cap), Added(view, ordered[1..], next, limit, cap);
      if added != later {
        assert EvidenceOf(added)[1..] == EvidenceOf(later);
      }
    }
  }

  lemma {:induction false} FillIsMaximal(view: View, ordered: seq<Evidence>, c: ReasoningContext, limit: nat, cap: nat,
                                         x: Evidence)
    requires c.omitted >= |ordered| && x in ordered
    requires |Fill(view, ordered, c, limit, cap).entries| < cap
    requires x !in EvidenceOf(Added(view, ordered, c, limit, cap))
    ensures var r := Fill(view, ordered, c, limit, cap);
      r.omitted > 0 && Rejects(view.measure, r, x, limit)
  {
    hide JsonLength, Rejects;
    FillCounts(view, ordered, c, limit, cap);
    AddedStep(view, ordered, c, limit, cap);
    var next := AppendEntry(view.measure, c, Entry(ordered[0], Some(view.facts(ordered[0]))), limit);
    var added, later := Added(view, ordered, c, limit, cap), Added(view, ordered[1..], next, limit, cap);
    if added == later && x == ordered[0] {
      FillKeepsRejection(view, ordered[1..], c, limit, cap, x);
    } else {
      assert added != later ==> EvidenceOf(added) == [ordered[0]] + EvidenceOf(later);
      FillIsMaximal(view, ordered[1..], next, limit, cap, x);
    }
  }

  /** An entry is reduced to its metadata only where the full entry would have passed the limit. */
  lemma {:induction false} FactsAreKeptWhereTheyFit(view: View, ordered: seq<Evidence>, c: ReasoningContext, limit: nat,
                                                    cap: nat, i: nat)
    requires c.omitted >= |ordered|
    requires |c.entries| <= i < |Fill(view, ordered, c, limit, cap).entries|
    requires Fill(view, ordered, c, limit, cap).entries[i].facts.None?
    ensures var r := Fill(view, ordered, c, limit, cap); var item := r.entries[i].evidence;
      && r.omitted + |r.entries| > i
      && JsonLength(view.measure, ReasoningContext(r.entries[..i] + [Entry(item, Some(view.facts(item)))],
                                                   r.omitted + |r.entries| - i - 1)) > limit
  {
    hide JsonLength, Rejects;
    FillCounts(view, ordered, c, limit, cap);
    var next := AppendEntry(view.measure, c, Entry(ordered[0], Some(view.facts(ordered[0]))), limit);
    AppendCases(view, ordered[0], c, limit);
    FillCounts(view, ordered[1..], next, limit, cap);
    if i < |next.entries| {
      assert Fill(view, ordered, c, limit, cap).entries[..i] == c.entries;
    } else {
      FactsAreKeptWhereTheyFit(view, ordered[1..], next, limit, cap, i);
    }
  }

  /** The selected bundle, for every input: order kept, nothing lost or invented, bounded, maximal. */
  lemma ContextIsSound(evidence: seq<Evidence>, incident: string, verified: Evidence -> bool, view: View,
                       limit: int, cap: int, recent: bool, preferred: set<string>)
    requires BuildContext(evidence, incident, verified, view, limit, cap, recent, preferred).Built?
    ensures
      var c := BuildContext(evidence, incident, verified, view, limit, cap, recent, preferred).context;
      var ordered := OrderedEvidence(evidence, recent, preferred, if recent then view.signals(evidence) else {});
      && multiset(ordered) == multiset(evidence)
      && Subsequence(EvidenceOf(c.entries), ordered)
      && (forall e :: e in c.entries ==> e.evidence in evidence && e.facts in {None, Some(view.facts(e.evidence))})
      && |c.entries| + c.omitted == |evidence|
      && JsonLength(view.measure, c) <= limit
      && |c.entries| <= cap
      && (|c.entries| < cap ==> forall x :: x in evidence && x !in EvidenceOf(c.entries) ==>
            c.omitted > 0 && Rejects(view.measure, c, x, limit))
      && ContextIds(c) <= (set x | x in Ids(evidence))
  {
    hide OrderedEvidence, Rejects, Subsequence;
    var signaled := if recent then view.signals(evidence) else {};
    var ordered := OrderedEvidence(evidence, recent, preferred, signaled);
    OrderedIsPermutation(evidence, recent, preferred, signaled);
    OrderedLength(evidence, recent, preferred, signaled);
    var empty := ReasoningContext([], |evidence|);
    DigitsBelow(|evidence|);
    assert JsonLength(view.measure, empty) <= limit;
    FillCounts(view, ordered, empty, limit, cap);
    AddedSubsequence(view, ordered, empty, limit, cap);
    var c := Fill(view, ordered, empty, limit, cap);
    assert c.entries[|empty.entries|..] == c.entries;
    forall x ensures x in ordered <==> x in evidence {
      assert x in multiset(ordered) <==> x in multiset(evidence);
    }
    forall x | x in ordered && x !in EvidenceOf(c.entries) && |c.entries| < cap
      ensures c.omitted > 0 && Rejects(view.measure, c, x, limit)
    {
      FillIsMaximal(view, ordered, empty, limit, cap, x);
    }
    forall e | e in c.entries ensures e.evidence in evidence && e.evidence.meta.id in Ids(evidence) {
      var i :| 0 <= i < |c.entries| && c.entries[i] == e;
      assert EvidenceOf(c.entries)[i] == e.evidence;
      SubsequenceMembers(EvidenceOf(c.entries), ordered, e.evidence);
      var k :| 0 <= k < |evidence| && evidence[k] == e.evidence;
      assert Ids(evidence)[k] == e.evidence.meta.id;
    }
  }
}
