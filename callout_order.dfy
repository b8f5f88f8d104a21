/** The order in which `_create_callouts` draws callouts: the timestamps are
    sorted, and for each one the callout list kept under that timestamp is
    popped, so callouts sharing a timestamp come out latest-declared first
    and none is dropped. */
module CalloutOrder {
  import opened Wrappers
  import opened Input

  /** A callout with its colour resolved (black when none is given). */
  datatype Callout = Callout(name: string, time: int, color: Color)

  function Resolve(c: CalloutSpec): Callout {
    Callout(c.name, c.time, c.color.GetOr(BLACK))
  }

  function ResolveAll(cs: seq<CalloutSpec>): (rs: seq<Callout>)
    ensures |rs| == |cs| && forall i :: 0 <= i < |cs| ==> rs[i] == Resolve(cs[i])
  {
    if cs == [] then [] else ResolveAll(cs[..|cs| - 1]) + [Resolve(cs[|cs| - 1])]
  }

  function Times(cs: seq<Callout>): (ts: seq<int>)
    ensures |ts| == |cs| && forall i :: 0 <= i < |cs| ==> ts[i] == cs[i].time
  {
    if cs == [] then [] else Times(cs[..|cs| - 1]) + [cs[|cs| - 1].time]
  }

  /** The callouts of `cs` at timestamp `t`, in their order in `cs`. */
  function At(cs: seq<Callout>, t: int): seq<Callout> {
    if cs == [] then []
    else At(cs[..|cs| - 1], t) + (if cs[|cs| - 1].time == t then [cs[|cs| - 1]] else [])
  }

  function Reverse<T>(s: seq<T>): seq<T> {
    if s == [] then [] else [s[|s| - 1]] + Reverse(s[..|s| - 1])
  }

  predicate SortedInts(s: seq<int>) {
    forall i, j :: 0 <= i < j < |s| ==> s[i] <= s[j]
  }

  predicate SortedTimes(cs: seq<Callout>) {
    forall i, j :: 0 <= i < j < |cs| ==> cs[i].time <= cs[j].time
  }

  // ----- list.sort() on the timestamps -----

  function InsertInt(x: int, s: seq<int>): seq<int> {
    if s == [] then [x]
    else if x <= s[0] then [x] + s
    else [s[0]] + InsertInt(x, s[1..])
  }

  lemma {:induction false} InsertIntMultiset(x: int, s: seq<int>)
    ensures multiset(InsertInt(x, s)) == multiset(s) + multiset{x}
  {
    if s != [] && x > s[0] {
      InsertIntMultiset(x, s[1..]);
      assert s == [s[0]] + s[1..];
    }
  }

  /** Every element of `InsertInt(x, s)` is `x` or an element of `s`. */
  lemma InsertIntBound(x: int, s: seq<int>, lo: int)
    requires lo <= x && forall k :: 0 <= k < |s| ==> lo <= s[k]
    ensures forall k :: 0 <= k < |InsertInt(x, s)| ==> lo <= InsertInt(x, s)[k]
  {
    InsertIntMultiset(x, s);
    forall k | 0 <= k < |InsertInt(x, s)| ensures lo <= InsertInt(x, s)[k] {
      var v := InsertInt(x, s)[k];
      assert v in multiset(InsertInt(x, s));
      if v != x {
        assert v in multiset(s);
      }
    }
  }

  lemma {:induction false} InsertIntSorted(x: int, s: seq<int>)
    requires SortedInts(s)
    ensures SortedInts(InsertInt(x, s))
  {
    if s != [] {
      var t := s[1..];
      if x <= s[0] {
        var r := [x] + s;
        forall i, j | 0 <= i < j < |r| ensures r[i] <= r[j] {
          assert r[j] == s[j - 1];
          if i > 0 {
            assert r[i] == s[i - 1];
          }
        }
      } else {
        assert SortedInts(t) && forall k :: 0 <= k < |t| ==> s[0] <= t[k] by {
          forall k | 0 <= k < |t| ensures s[0] <= t[k] {
            assert t[k] == s[k + 1];
          }
        }
        InsertIntSorted(x, t);
        InsertIntBound(x, t, s[0]);
        var r' := InsertInt(x, t);
        var r := [s[0]] + r';
        forall i, j | 0 <= i < j < |r| ensures r[i] <= r[j] {
          assert r[j] == r'[j - 1];
          if i > 0 {
            assert r[i] == r'[i - 1];
          }
        }
      }
    }
  }

  /** `sorted_dates.sort()`: the timestamps in ascending order, the same
      multiset of them. */
  function SortInts(s: seq<int>): (r: seq<int>)
    ensures SortedInts(r) && multiset(r) == multiset(s) && |r| == |s|
  {
    if s == [] then []
    else
      InsertIntSorted(s[0], SortInts(s[1..]));
      InsertIntMultiset(s[0], SortInts(s[1..]));
      assert s == [s[0]] + s[1..];
      InsertInt(s[0], SortInts(s[1..]))
  }

  // ----- A reference definition of the drawing order -----

  function InsertByTime(c: Callout, s: seq<Callout>): seq<Callout> {
    if s == [] then [c]
    else if c.time <= s[0].time then [c] + s
    else [s[0]] + InsertByTime(c, s[1..])
  }

  /** Stable insertion sort by timestamp. */
  function SortByTime(s: seq<Callout>): seq<Callout> {
    if s == [] then [] else InsertByTime(s[0], SortByTime(s[1..]))
  }

  /** The reference order: the declarations reversed, then stably sorted by
      timestamp. */
  function ProcessOrder(cs: seq<Callout>): seq<Callout> {
    SortByTime(Reverse(cs))
  }

  /** What the pops in `_create_callouts` promise: ascending timestamps,
      and at every timestamp exactly the callouts declared there, latest first. */
  ghost predicate IsProcessOrder(o: seq<Callout>, cs: seq<Callout>) {
    SortedTimes(o) && forall t :: At(o, t) == Reverse(At(cs, t))
  }

  lemma {:induction false} AtAppend(a: seq<Callout>, b: seq<Callout>, t: int)
    ensures At(a + b, t) == At(a, t) + At(b, t)
    decreases |b|
  {
    if b == [] {
      assert a + b == a;
    } else {
      assert (a + b)[..|a + b| - 1] == a + b[..|b| - 1];
      AtAppend(a, b[..|b| - 1], t);
    }
  }

  lemma AtSingle(c: Callout, t: int)
    ensures At([c], t) == if c.time == t then [c] else []
  {
    assert [c][..0] == [];
  }

  lemma {:induction false} AtInsert(c: Callout, s: seq<Callout>, t: int)
    ensures At(InsertByTime(c, s), t) == if c.time == t then [c] + At(s, t) else At(s, t)
  {
    AtSingle(c, t);
    if s == [] {
    } else if c.time <= s[0].time {
      AtAppend([c], s, t);
    } else {
      var r := InsertByTime(c, s[1..]);
      assert InsertByTime(c, s) == [s[0]] + r;
      assert s == [s[0]] + s[1..];
      AtInsert(c, s[1..], t);
      AtAppend([s[0]], r, t);
      AtAppend([s[0]], s[1..], t);
      AtSingle(s[0], t);
      if c.time == t {
        assert At([s[0]], t) == [];
        assert [] + At(s[1..], t) == At(s[1..], t);
        assert [] + At(r, t) == At(r, t);
      }
    }
  }

  lemma {:induction false} InsertByTimeSorted(c: Callout, s: seq<Callout>)
    requires SortedTimes(s)
    ensures SortedTimes(InsertByTime(c, s)) && |InsertByTime(c, s)| == |s| + 1
    ensures InsertByTime(c, s)[0] == c || (s != [] && InsertByTime(c, s)[0] == s[0])
  {
    if s != [] && c.time > s[0].time {
      InsertByTimeSorted(c, s[1..]);
    }
  }

  lemma {:induction false} SortByTimeGroups(s: seq<Callout>)
    ensures SortedTimes(SortByTime(s)) && |SortByTime(s)| == |s|
    ensures forall t :: At(SortByTime(s), t) == At(s, t)
  {
    if s != [] {
      SortByTimeGroups(s[1..]);
      InsertByTimeSorted(s[0], SortByTime(s[1..]));
      forall t ensures At(SortByTime(s), t) == At(s, t) {
        AtInsert(s[0], SortByTime(s[1..]), t);
        AtAppend([s[0]], s[1..], t);
        AtSingle(s[0], t);
        assert s == [s[0]] + s[1..];
      }
    }
  }

  lemma {:induction false} AtReverse(s: seq<Callout>, t: int)
    ensures At(Reverse(s), t) == Reverse(At(s, t))
    decreases |s|
  {
    if s != [] {
      var init, last := s[..|s| - 1], s[|s| - 1];
      AtReverse(init, t);
      AtAppend([last], Reverse(init), t);
      AtSingle(last, t);
      if last.time == t {
        var a := At(init, t) + [last];
        assert a[..|a| - 1] == At(init, t);
      } else {
        assert At(init, t) + [] == At(init, t);
      }
    }
  }

  lemma ReverseLength<T>(s: seq<T>)
    ensures |Reverse(s)| == |s|
  {
  }

  /** The reference order meets what the pops promise. */
  lemma ProcessOrderIsProcessOrder(cs: seq<Callout>)
    ensures IsProcessOrder(ProcessOrder(cs), cs) && |ProcessOrder(cs)| == |cs|
  {
    SortByTimeGroups(Reverse(cs));
    ReverseLength(cs);
    forall t ensures At(ProcessOrder(cs), t) == Reverse(At(cs, t)) {
      AtReverse(cs, t);
    }
  }

  lemma {:induction false} AtHasMember(s: seq<Callout>, i: int)
    requires 0 <= i < |s|
    ensures s[i] in At(s, s[i].time)
    decreases |s|
  {
    if i < |s| - 1 {
      AtHasMember(s[..|s| - 1], i);
    }
  }

  lemma {:induction false} AtMembersFromS(s: seq<Callout>, t: int, c: Callout)
    requires c in At(s, t)
    ensures c in s && c.time == t
    decreases |s|
  {
    if s != [] {
      if c in At(s[..|s| - 1], t) {
        AtMembersFromS(s[..|s| - 1], t, c);
      }
    }
  }

  lemma AtCons(x: Callout, s: seq<Callout>, t: int)
    ensures At([x] + s, t) == (if x.time == t then [x] else []) + At(s, t)
  {
    AtAppend([x], s, t);
    AtSingle(x, t);
  }

  /** In a sequence sorted by timestamp, a callout of the group at `t` is
      no earlier than the first element. */
  lemma HeadIsEarliest(a: seq<Callout>, t: int, c: Callout)
    requires SortedTimes(a) && a != [] && c in At(a, t)
    ensures a[0].time <= t
  {
    AtMembersFromS(a, t, c);
  }

  /** Two sequences with the same groups whose first elements share a
      timestamp start with the same callout and have the same groups after it. */
  lemma HeadsMatch(a: seq<Callout>, b: seq<Callout>)
    requires a != [] && b != [] && a[0].time == b[0].time
    requires forall t :: At(a, t) == At(b, t)
    ensures a[0] == b[0]
    ensures forall t :: At(a[1..], t) == At(b[1..], t)
  {
    var x, y := a[0], b[0];
    assert a == [x] + a[1..] && b == [y] + b[1..];
    AtCons(x, a[1..], x.time);
    AtCons(y, b[1..], x.time);
    assert At(a, x.time)[0] == x;
    forall t ensures At(a[1..], t) == At(b[1..], t) {
      TailGroup(a, b, t);
    }
  }

  lemma TailGroup(a: seq<Callout>, b: seq<Callout>, t: int)
    requires a != [] && b != [] && a[0] == b[0] && At(a, t) == At(b, t)
    ensures At(a[1..], t) == At(b[1..], t)
  {
    var x := a[0];
    assert a == [x] + a[1..] && b == [x] + b[1..];
    AtCons(x, a[1..], t);
    AtCons(x, b[1..], t);
    if x.time == t {
      assert At(a[1..], t) == At(a, t)[1..];
      assert At(b[1..], t) == At(b, t)[1..];
    } else {
      assert At(a, t) == [] + At(a[1..], t) == At(a[1..], t);
      assert At(b, t) == [] + At(b[1..], t) == At(b[1..], t);
    }
  }

  lemma SortedTail(a: seq<Callout>)
    requires SortedTimes(a) && a != []
    ensures SortedTimes(a[1..])
  {
    var t := a[1..];
    forall i, j | 0 <= i < j < |t| ensures t[i].time <= t[j].time {
      assert t[i] == a[i + 1] && t[j] == a[j + 1];
    }
  }

  /** A sequence sorted by timestamp is determined by its per-timestamp groups. */
  lemma {:induction false} SameGroupsSame(a: seq<Callout>, b: seq<Callout>)
    requires SortedTimes(a) && SortedTimes(b)
    requires forall t :: At(a, t) == At(b, t)
    ensures a == b
    decreases |a|
  {
    if a == [] || b == [] {
      EmptyGroups(a, b);
    } else {
      AtHasMember(a, 0);
      AtHasMember(b, 0);
      HeadIsEarliest(a, b[0].time, b[0]);
      HeadIsEarliest(b, a[0].time, a[0]);
      HeadsMatch(a, b);
      SortedTail(a);
      SortedTail(b);
      SameGroupsSame(a[1..], b[1..]);
      assert a == [a[0]] + a[1..] && b == [b[0]] + b[1..];
    }
  }

  /** Only the empty sequence has only empty groups. */
  lemma EmptyGroups(a: seq<Callout>, b: seq<Callout>)
    requires a == [] || b == []
    requires forall t :: At(a, t) == At(b, t)
    ensures a == b
  {
    if a != [] {
      AtHasMember(a, 0);
    }
    if b != [] {
      AtHasMember(b, 0);
    }
  }

  /** The promise of the pops fixes the order: it is the reference order. */
  lemma ProcessOrderUnique(o: seq<Callout>, cs: seq<Callout>)
    requires IsProcessOrder(o, cs)
    ensures o == ProcessOrder(cs)
  {
    ProcessOrderIsProcessOrder(cs);
    SameGroupsSame(o, ProcessOrder(cs));
  }

  /** A timestamp's group is as long as the number of times it occurs. */
  lemma {:induction false} AtCount(s: seq<Callout>, t: int)
    ensures |At(s, t)| == multiset(Times(s))[t]
    decreases |s|
  {
    if s != [] {
      AtCount(s[..|s| - 1], t);
      assert Times(s) == Times(s[..|s| - 1]) + [s[|s| - 1].time];
    }
  }

  lemma {:induction false} ReverseAppend<T>(a: seq<T>, b: seq<T>)
    ensures Reverse(a + b) == Reverse(b) + Reverse(a)
    decreases |b|
  {
    if b == [] {
      assert a + b == a;
    } else {
      assert (a + b)[..|a + b| - 1] == a + b[..|b| - 1];
      ReverseAppend(a, b[..|b| - 1]);
    }
  }

  lemma {:induction false} ReverseReverse<T>(s: seq<T>)
    ensures Reverse(Reverse(s)) == s
    decreases |s|
  {
    if s != [] {
      var init, last := s[..|s| - 1], s[|s| - 1];
      ReverseReverse(init);
      ReverseAppend([last], Reverse(init));
      assert Reverse([last]) == [last] + Reverse([last][..0]);
      assert s == init + [last];
    }
  }

  // ----- The pops -----

  /** Mid-way through the pops: `inv` holds, per timestamp, the callouts
      not yet popped, and what was popped (`popped`) is the tail of the
      declared group in reverse; timestamps without a key have no callouts. */
  ghost predicate PendingGroups(popped: seq<Callout>, cs: seq<Callout>, inv: map<int, seq<Callout>>) {
    forall t ::
      (t in inv ==> inv[t] + Reverse(At(popped, t)) == At(cs, t))
      && (t !in inv ==> At(cs, t) == [])
  }

  /** The pop never fails: while the popped timestamps are a prefix of the
      sorted timestamps, the next timestamp has a key with a callout left. */
  lemma PopAvailable(popped: seq<Callout>, cs: seq<Callout>, inv: map<int, seq<Callout>>, sorted: seq<int>, n: nat)
    requires n < |sorted| && multiset(sorted) == multiset(Times(cs)) && Times(popped) == sorted[..n]
    requires PendingGroups(popped, cs, inv)
    ensures sorted[n] in inv && |inv[sorted[n]]| > 0
  {
    var d := sorted[n];
    assert sorted == sorted[..n] + [d] + sorted[n + 1..];
    assert multiset(sorted)[d] >= multiset(sorted[..n])[d] + 1;
    AtCount(cs, d);
    AtCount(popped, d);
    ReverseLength(At(popped, d));
  }

  /** One pop keeps the bookkeeping: the popped callout belongs to the
      timestamp it was popped for, and it moves from `inv` to `popped`. */
  lemma PopStep(popped: seq<Callout>, cs: seq<Callout>, inv: map<int, seq<Callout>>, d: int)
    requires PendingGroups(popped, cs, inv) && d in inv && |inv[d]| > 0
    ensures var item := inv[d][|inv[d]| - 1];
      item.time == d && PendingGroups(popped + [item], cs, inv[d := inv[d][..|inv[d]| - 1]])
  {
    var group := inv[d];
    var item := group[|group| - 1];
    var inv' := inv[d := group[..|group| - 1]];
    assert item == At(cs, d)[|group| - 1];
    AtMembersFromS(cs, d, item);
    forall t
      ensures (t in inv' ==> inv'[t] + Reverse(At(popped + [item], t)) == At(cs, t)) && (t !in inv' ==> At(cs, t) == [])
    {
      if t == d {
        PopSameTime(popped, item, group, cs);
      } else {
        PopOtherTime(popped, item, t);
      }
    }
  }

  /** One more callout joins its own timestamp's group and no other. */
  lemma AtSnoc(s: seq<Callout>, c: Callout, t: int)
    ensures At(s + [c], t) == At(s, t) + (if c.time == t then [c] else [])
  {
    assert (s + [c])[..|s|] == s;
  }

  lemma PopSameTime(popped: seq<Callout>, item: Callout, group: seq<Callout>, cs: seq<Callout>)
    requires group != [] && item == group[|group| - 1]
    requires group + Reverse(At(popped, item.time)) == At(cs, item.time)
    ensures group[..|group| - 1] + Reverse(At(popped + [item], item.time)) == At(cs, item.time)
  {
    var a := At(popped, item.time);
    AtSnoc(popped, item, item.time);
    assert (a + [item])[..|a|] == a;
    assert Reverse(a + [item]) == [item] + Reverse(a);
    AppendAssoc(group[..|group| - 1], [item], Reverse(a));
    assert group[..|group| - 1] + [item] == group;
  }

  lemma PopOtherTime(popped: seq<Callout>, item: Callout, t: int)
    requires item.time != t
    ensures At(popped + [item], t) == At(popped, t)
  {
    AtSnoc(popped, item, t);
    assert At(popped, t) + [] == At(popped, t);
  }

  /** Popping `item` adds its timestamp to the popped ones. */
  lemma TimesSnoc(popped: seq<Callout>, item: Callout)
    ensures Times(popped + [item]) == Times(popped) + [item.time]
  {
    assert (popped + [item])[..|popped|] == popped;
  }

  /** The pop of iteration `n`: the list under `sorted[n]` is not empty,
      its last callout has that timestamp, and popping it extends the
      popped timestamps by `sorted[n]` and keeps the bookkeeping. */
  lemma PopNext(popped: seq<Callout>, cs: seq<Callout>, inv: map<int, seq<Callout>>, sorted: seq<int>, n: nat)
    requires n < |sorted| && multiset(sorted) == multiset(Times(cs)) && Times(popped) == sorted[..n]
    requires PendingGroups(popped, cs, inv)
    ensures sorted[n] in inv && |inv[sorted[n]]| > 0
    ensures var group := inv[sorted[n]];
      var item := group[|group| - 1];
      && item.time == sorted[n]
      && Times(popped + [item]) == sorted[..n + 1]
      && PendingGroups(popped + [item], cs, inv[sorted[n] := group[..|group| - 1]])
  {
    PopAvailable(popped, cs, inv, sorted, n);
    PopStep(popped, cs, inv, sorted[n]);
    var group := inv[sorted[n]];
    var item := group[|group| - 1];
    TimesSnoc(popped, item);
    TakeNext(sorted, n);
  }

  /** After all the pops each group was popped in full, so every
      timestamp's callouts came out latest-declared first. */
  lemma PopsComplete(popped: seq<Callout>, cs: seq<Callout>, inv: map<int, seq<Callout>>)
    requires multiset(Times(popped)) == multiset(Times(cs))
    requires PendingGroups(popped, cs, inv)
    ensures forall t :: At(popped, t) == Reverse(At(cs, t))
  {
    forall t ensures At(popped, t) == Reverse(At(cs, t)) {
      AtCount(cs, t);
      AtCount(popped, t);
      ReverseLength(At(popped, t));
      if t in inv {
        assert |inv[t]| == 0;
        assert inv[t] + Reverse(At(popped, t)) == Reverse(At(popped, t));
        ReverseReverse(At(popped, t));
      }
    }
  }

  // ----- The grouping loop -----

  /** One more declared callout extends the timestamps by its own and its
      timestamp's group by itself. */
  lemma GroupStep(rs: seq<Callout>, n: nat)
    requires n < |rs|
    ensures Times(rs[..n + 1]) == Times(rs[..n]) + [rs[n].time]
    ensures forall t :: At(rs[..n + 1], t) == At(rs[..n], t) + (if rs[n].time == t then [rs[n]] else [])
  {
    assert rs[..n + 1][..n] == rs[..n];
  }

  /** The first loop of `_create_callouts`: every declared timestamp in
      declaration order, and under each timestamp that occurs the list of
      its callouts (colour resolved) in declaration order. */
  method GroupByTime(cs: seq<CalloutSpec>) returns (dates: seq<int>, inv: map<int, seq<Callout>>)
    ensures dates == Times(ResolveAll(cs))
    ensures forall t :: (t in inv ==> inv[t] == At(ResolveAll(cs), t) && inv[t] != [])
                        && (t !in inv ==> At(ResolveAll(cs), t) == [])
  {
    ghost var rs := ResolveAll(cs);
    dates := [];
    inv := map[];
    for n := 0 to |cs|
      invariant dates == Times(rs[..n])
      invariant forall t :: (t in inv ==> inv[t] == At(rs[..n], t) && inv[t] != [])
                            && (t !in inv ==> At(rs[..n], t) == [])
    {
      var name := cs[n].name;
      var date := cs[n].time;
      var color := cs[n].color.GetOr(BLACK);
      dates := dates + [date];
      if date !in inv {
        inv := inv[date := []];
      }
      inv := inv[date := inv[date] + [Callout(name, date, color)]];
      GroupStep(rs, n);
      assert rs[n] == Callout(name, date, color);
    }
    assert rs[..|cs|] == rs;
  }

  /** Before any pop, the groups are the declared ones. */
  lemma PendingGroupsStart(cs: seq<Callout>, inv: map<int, seq<Callout>>)
    requires forall t :: (t in inv ==> inv[t] == At(cs, t)) && (t !in inv ==> At(cs, t) == [])
    ensures PendingGroups([], cs, inv)
  {
    forall t | t in inv ensures inv[t] + Reverse(At([], t)) == At(cs, t) {
      assert inv[t] + [] == inv[t];
    }
  }

  /** When the loop ends, the pops followed the sorted timestamps through
      to the end: they are the reference order. */
  lemma PopsAreProcessOrder(popped: seq<Callout>, cs: seq<Callout>, inv: map<int, seq<Callout>>, sorted: seq<int>)
    requires SortedInts(sorted) && multiset(sorted) == multiset(Times(cs))
    requires Times(popped) == sorted && PendingGroups(popped, cs, inv)
    ensures popped == ProcessOrder(cs)
  {
    PopsComplete(popped, cs, inv);
    forall i, j | 0 <= i < j < |popped| ensures popped[i].time <= popped[j].time {
      assert sorted[i] <= sorted[j];
    }
    ProcessOrderUnique(popped, cs);
  }
}
