/**
 * The `notifications` view of `pages/views.py`: the notifications, newest
 * first, are grouped by the host of their URL (`base_url`, "Unknown" when
 * the URL has none), and the groups are put in ascending order of host.
 */
module Views {
  import opened Urls

  /** A `Notification` row as the view reads it; `createdAt` orders the query. */
  datatype Notification = Notification(title: string, url: string, createdAt: int)

  const UnknownHost := "Unknown"

  /** `Notification.base_url`: the URL's network location, or "Unknown" when it is empty. */
  function BaseUrl(n: Notification): (r: string)
    ensures r != ""
  {
    var host := Netloc(n.url);
    if host != "" then host else UnknownHost
  }

  /** `order_by('-created_at')`: newest first. */
  predicate NewestFirst(qs: seq<Notification>) {
    forall i, j :: 0 <= i < j < |qs| ==> qs[i].createdAt >= qs[j].createdAt
  }

  /** The notifications with host `key`, in query order. */
  function OfKey(qs: seq<Notification>, key: string): (r: seq<Notification>)
    ensures |r| <= |qs|
  {
    if qs == [] then []
    else
      var last := qs[|qs| - 1];
      OfKey(qs[..|qs| - 1], key) + (if BaseUrl(last) == key then [last] else [])
  }

  /** A non-empty sequence is its front followed by its last element. */
  lemma SplitLast<T>(s: seq<T>)
    requires s != []
    ensures s == s[..|s| - 1] + [s[|s| - 1]]
  {
  }

  /** A notification is in the group of a key exactly when it is a notification with that host. */
  lemma {:induction false} OfKeyMembers(qs: seq<Notification>, key: string, n: Notification)
    ensures n in OfKey(qs, key) <==> n in qs && BaseUrl(n) == key
    decreases |qs|
  {
    if qs != [] {
      var m := |qs| - 1;
      var front, last := qs[..m], qs[m];
      OfKeyMembers(front, key, n);
      SplitLast(qs);
      assert n in qs <==> n in front || n == last;
      assert OfKey(qs, key) == OfKey(front, key) + (if BaseUrl(last) == key then [last] else []);
    }
  }

  /** A group is non-empty exactly when some notification has its host. */
  lemma OfKeyNonEmpty(qs: seq<Notification>, key: string)
    ensures OfKey(qs, key) != [] <==> exists j :: 0 <= j < |qs| && BaseUrl(qs[j]) == key
  {
    if OfKey(qs, key) != [] {
      OfKeyMembers(qs, key, OfKey(qs, key)[0]);
    }
    if j :| 0 <= j < |qs| && BaseUrl(qs[j]) == key {
      OfKeyMembers(qs, key, qs[j]);
    }
  }

  /** A group keeps the query's order: newest first within each group. */
  lemma {:induction false} OfKeyNewestFirst(qs: seq<Notification>, key: string)
    requires NewestFirst(qs)
    ensures NewestFirst(OfKey(qs, key))
    decreases |qs|
  {
    if qs != [] {
      var m := |qs| - 1;
      var last := qs[m];
      assert NewestFirst(qs[..m]);
      OfKeyNewestFirst(qs[..m], key);
      var front := OfKey(qs[..m], key);
      if BaseUrl(last) == key {
        var r := front + [last];
        assert OfKey(qs, key) == r;
        forall i, j | 0 <= i < j < |r|
          ensures r[i].createdAt >= r[j].createdAt
        {
          assert r[i] == front[i];
          if j == |front| {
            OfKeyMembers(qs[..m], key, front[i]);
          } else {
            assert r[j] == front[j];
          }
        }
      } else {
        assert OfKey(qs, key) == front + [];
      }
    }
  }

  /** Python's `<` on strings: lexicographic by code point, a proper prefix first. */
  predicate LexLess(a: string, b: string)
    decreases |a|
  {
    |b| > 0 && (|a| == 0 || a[0] < b[0] || (a[0] == b[0] && LexLess(a[1..], b[1..])))
  }

  lemma {:induction false} LexIrreflexive(a: string)
    ensures !LexLess(a, a)
    decreases |a|
  {
    if |a| > 0 {
      LexIrreflexive(a[1..]);
    }
  }

  lemma {:induction false} LexTransitive(a: string, b: string, c: string)
    requires LexLess(a, b) && LexLess(b, c)
    ensures LexLess(a, c)
    decreases |a|
  {
    if |a| > 0 && a[0] == b[0] && b[0] == c[0] {
      LexTransitive(a[1..], b[1..], c[1..]);
    }
  }

  lemma {:induction false} LexTotal(a: string, b: string)
    requires a != b
    ensures LexLess(a, b) || LexLess(b, a)
    decreases |a|
  {
    if |a| > 0 && |b| > 0 && a[0] == b[0] {
      assert a == [a[0]] + a[1..] && b == [b[0]] + b[1..];
      LexTotal(a[1..], b[1..]);
    }
  }

  /** A group: its host and its notifications. */
  type Group = (string, seq<Notification>)

  /** The groups are in strictly ascending order of host. */
  predicate StrictlySorted(items: seq<Group>) {
    forall i, j :: 0 <= i < j < |items| ==> LexLess(items[i].0, items[j].0)
  }

  /** `groups` holds exactly the non-empty groups of `qs`. */
  ghost predicate Grouped(groups: map<string, seq<Notification>>, qs: seq<Notification>) {
    forall k :: (k in groups <==> OfKey(qs, k) != []) && (k in groups ==> groups[k] == OfKey(qs, k))
  }

  /** `groups` with `n` appended to the list of its host, as `defaultdict(list)` does. */
  function AddTo(groups: map<string, seq<Notification>>, n: Notification): map<string, seq<Notification>> {
    var key := BaseUrl(n);
    if key in groups then groups[key := groups[key] + [n]] else groups[key := [n]]
  }

  /** One more notification extends only the group of its host. */
  lemma OfKeySnoc(pre: seq<Notification>, n: Notification, k: string)
    ensures OfKey(pre + [n], k) == OfKey(pre, k) + (if BaseUrl(n) == k then [n] else [])
  {
    assert (pre + [n])[..|pre|] == pre;
  }

  /** Appending one more notification keeps the groups exact. */
  lemma GroupedStep(groups: map<string, seq<Notification>>, pre: seq<Notification>, n: Notification)
    requires Grouped(groups, pre)
    ensures Grouped(AddTo(groups, n), pre + [n])
  {
    var next := AddTo(groups, n);
    forall k
      ensures k in next <==> OfKey(pre + [n], k) != []
      ensures k in next ==> next[k] == OfKey(pre + [n], k)
    {
      OfKeySnoc(pre, n, k);
    }
  }

  /** The loop filling the `defaultdict`: each notification is appended to the list of its host. */
  method GroupByHost(qs: seq<Notification>) returns (groups: map<string, seq<Notification>>)
    ensures forall k :: k in groups <==> OfKey(qs, k) != []
    ensures forall k :: k in groups ==> groups[k] == OfKey(qs, k)
  {
    groups := map[];
    var i := 0;
    while i < |qs|
      invariant 0 <= i <= |qs|
      invariant Grouped(groups, qs[..i])
    {
      var n := qs[i];
      assert qs[..i + 1] == qs[..i] + [n];
      GroupedStep(groups, qs[..i], n);
      if BaseUrl(n) in groups {
        groups := groups[BaseUrl(n) := groups[BaseUrl(n)] + [n]];
      } else {
        groups := groups[BaseUrl(n) := [n]];
      }
      i := i + 1;
    }
    assert qs[..|qs|] == qs;
  }

  /** `e` placed into the sorted `items` at its place by host. */
  function Insert(items: seq<Group>, e: Group): (r: seq<Group>)
    requires StrictlySorted(items)
    requires forall i :: 0 <= i < |items| ==> items[i].0 != e.0
    ensures StrictlySorted(r)
    ensures |r| == |items| + 1
    ensures forall x :: x in r <==> x in items || x == e
  {
    if items == [] then [e]
    else if LexLess(e.0, items[0].0) then
      forall j | 0 <= j < |items|
        ensures LexLess(e.0, items[j].0)
      {
        if j > 0 {
          LexTransitive(e.0, items[0].0, items[j].0);
        }
      }
      [e] + items
    else
      LexTotal(e.0, items[0].0);
      var rest := Insert(items[1..], e);
      assert forall x :: x in items[1..] ==> x in items;
      forall j | 0 <= j < |rest|
        ensures LexLess(items[0].0, rest[j].0)
      {
        if rest[j] != e {
          assert rest[j] in items[1..];
        }
      }
      [items[0]] + rest
  }

  /** `dict(sorted(groups.items()))`: the groups in ascending order of host. */
  method SortGroups(groups: map<string, seq<Notification>>) returns (items: seq<Group>)
    ensures StrictlySorted(items)
    ensures forall i :: 0 <= i < |items| ==> items[i].0 in groups && items[i].1 == groups[items[i].0]
    ensures forall k :: k in groups ==> exists i :: 0 <= i < |items| && items[i].0 == k
  {
    items := [];
    var rest := groups.Keys;
    while rest != {}
      invariant rest <= groups.Keys
      invariant StrictlySorted(items)
      invariant forall i :: 0 <= i < |items| ==> items[i].0 in groups && items[i].0 !in rest &&
                                                  items[i].1 == groups[items[i].0]
      invariant forall k :: k in groups && k !in rest ==> exists i :: 0 <= i < |items| && items[i].0 == k
      decreases |rest|
    {
      var k :| k in rest;
      var e := (k, groups[k]);
      var next := Insert(items, e);
      forall i | 0 <= i < |next|
        ensures next[i].0 in groups && next[i].0 !in rest - {k} && next[i].1 == groups[next[i].0]
      {
        assert next[i] in items || next[i] == e;
      }
      assert e in next;
      forall q | q in groups && q !in rest - {k}
        ensures exists i :: 0 <= i < |next| && next[i].0 == q
      {
        if q != k {
          var i :| 0 <= i < |items| && items[i].0 == q;
          assert items[i] in next;
        }
      }
      items, rest := next, rest - {k};
    }
  }

  /**
   * `notifications`: the groups of the query's notifications, in ascending
   * order of host; each group holds exactly the notifications with that
   * host, in query order, and is never empty.
   */
  method Notifications(qs: seq<Notification>) returns (items: seq<Group>)
    ensures StrictlySorted(items)
    ensures forall i :: 0 <= i < |items| ==> items[i].1 == OfKey(qs, items[i].0) && items[i].1 != []
    ensures forall j :: 0 <= j < |qs| ==> exists i :: 0 <= i < |items| && items[i].0 == BaseUrl(qs[j])
  {
    var groups := GroupByHost(qs);
    items := SortGroups(groups);
    forall j | 0 <= j < |qs|
      ensures BaseUrl(qs[j]) in groups
    {
      OfKeyNonEmpty(qs, BaseUrl(qs[j]));
    }
  }

  /** The total size of the groups. */
  function SizeSum(items: seq<Group>): nat {
    if items == [] then 0 else |items[0].1| + SizeSum(items[1..])
  }

  /** The number of groups with host `key`. */
  function Occurrences(items: seq<Group>, key: string): nat {
    if items == [] then 0 else (if items[0].0 == key then 1 else 0) + Occurrences(items[1..], key)
  }

  /** The groups that `Notifications` builds over `qs`, with one more notification at the end. */
  function Regroup(items: seq<Group>, qs: seq<Notification>): (r: seq<Group>)
    ensures |r| == |items| && forall i :: 0 <= i < |r| ==> r[i] == (items[i].0, OfKey(qs, items[i].0))
  {
    seq(|items|, i requires 0 <= i < |items| => (items[i].0, OfKey(qs, items[i].0)))
  }

  /** Adding a notification adds one to the size of each group with its host. */
  lemma {:induction false} SizeSumSnoc(items: seq<Group>, qs: seq<Notification>, n: Notification)
    ensures SizeSum(Regroup(items, qs + [n])) == SizeSum(Regroup(items, qs)) + Occurrences(items, BaseUrl(n))
    decreases |items|
  {
    if items != [] {
      assert (qs + [n])[..|qs|] == qs;
      assert Regroup(items, qs + [n])[1..] == Regroup(items[1..], qs + [n]);
      assert Regroup(items, qs)[1..] == Regroup(items[1..], qs);
      SizeSumSnoc(items[1..], qs, n);
    }
  }

  /** Some group has host `key`. */
  predicate HasKey(items: seq<Group>, key: string) {
    exists i :: 0 <= i < |items| && items[i].0 == key
  }

  /** Every notification's host has a group. */
  predicate Covers(items: seq<Group>, qs: seq<Notification>) {
    forall j :: 0 <= j < |qs| ==> HasKey(items, BaseUrl(qs[j]))
  }

  /** In strictly sorted groups a host occurs once if at all. */
  lemma {:induction false} OccursOnce(items: seq<Group>, key: string)
    requires StrictlySorted(items)
    ensures Occurrences(items, key) == if HasKey(items, key) then 1 else 0
    decreases |items|
  {
    if items != [] {
      assert StrictlySorted(items[1..]);
      OccursOnce(items[1..], key);
      if items[0].0 == key {
        LexIrreflexive(key);
        assert !HasKey(items[1..], key);
      } else if HasKey(items, key) {
        var i :| 0 <= i < |items| && items[i].0 == key;
        assert items[1..][i - 1].0 == key;
      } else {
        assert !HasKey(items[1..], key);
      }
    }
  }

  /**
   * Groups over distinct hosts that cover every notification's host hold
   * as many notifications together as there are.
   */
  lemma {:induction false} SizesAddUp(items: seq<Group>, qs: seq<Notification>)
    requires StrictlySorted(items) && Covers(items, qs)
    ensures SizeSum(Regroup(items, qs)) == |qs|
    decreases |qs|
  {
    if qs == [] {
      ZeroSizes(items);
    } else {
      var m := |qs| - 1;
      var front := qs[..m];
      SplitLast(qs);
      forall j | 0 <= j < m
        ensures HasKey(items, BaseUrl(front[j]))
      {
        assert front[j] == qs[j];
      }
      SizesAddUp(items, front);
      SizeSumSnoc(items, front, qs[m]);
      OccursOnce(items, BaseUrl(qs[m]));
    }
  }

  lemma {:induction false} ZeroSizes(items: seq<Group>)
    ensures SizeSum(Regroup(items, [])) == 0
    decreases |items|
  {
    if items != [] {
      assert Regroup(items, [])[1..] == Regroup(items[1..], []);
      ZeroSizes(items[1..]);
    }
  }

  /** The groups `Notifications` returns hold every notification once: their sizes add up to the count. */
  lemma GroupSizesSum(qs: seq<Notification>, items: seq<Group>)
    requires StrictlySorted(items)
    requires forall i :: 0 <= i < |items| ==> items[i].1 == OfKey(qs, items[i].0)
    requires forall j :: 0 <= j < |qs| ==> exists i :: 0 <= i < |items| && items[i].0 == BaseUrl(qs[j])
    ensures SizeSum(items) == |qs|
  {
    assert Covers(items, qs);
    SizesAddUp(items, qs);
    assert Regroup(items, qs) == items;
  }
}
