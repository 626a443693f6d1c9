/** Newest-first order on events, sorting, and the first k of a set. */
module Ordering {
  import opened Text
  import opened Events

  /** `a` is listed before `b`: later creation time, or the same time and a greater id. */
  predicate Before(a: Event, b: Event) {
    a.createdAt > b.createdAt || (a.createdAt == b.createdAt && Less(b.id, a.id))
  }

  lemma BeforeIsStrictOrder(a: Event, b: Event, c: Event)
    ensures !(Before(a, b) && Before(b, a))
    ensures Before(a, b) && Before(b, c) ==> Before(a, c)
    ensures a.id != b.id ==> Before(a, b) || Before(b, a)
    ensures a.id == b.id && a.createdAt == b.createdAt ==> !Before(a, b)
  {
    LessIrreflexive(a.id);
    LessTotal(a.id, b.id);
    if Less(a.id, b.id) && Less(b.id, a.id) {
      LessTransitive(a.id, b.id, a.id);
    }
    if Less(b.id, a.id) && Less(c.id, b.id) {
      LessTransitive(c.id, b.id, a.id);
    }
  }

  ghost predicate Descending(s: seq<Event>) {
    forall i, j :: 0 <= i < j < |s| ==> Before(s[i], s[j])
  }

  predicate DistinctIds(events: set<Event>) {
    forall a, b :: a in events && b in events && a.id == b.id ==> a == b
  }

  function Elements(s: seq<Event>): set<Event> {
    set e | e in s
  }

  ghost predicate IsFirst(e: Event, events: set<Event>) {
    e in events && forall x :: x in events && x != e ==> Before(e, x)
  }

  lemma {:induction false} HasFirst(events: set<Event>)
    requires events != {} && DistinctIds(events)
    ensures exists e :: IsFirst(e, events)
    decreases events
  {
    hide Before;
    var x :| x in events;
    var rest := events - {x};
    if rest == {} {
      assert events == {x};
      assert IsFirst(x, events);
    } else {
      HasFirst(rest);
      var m :| IsFirst(m, rest);
      BeforeIsStrictOrder(x, m, m);
      forall y | y in rest ensures Before(x, m) ==> Before(x, y) {
        BeforeIsStrictOrder(x, m, y);
      }
      assert IsFirst(if Before(x, m) then x else m, events);
    }
  }

  lemma FirstIsUnique(a: Event, b: Event, events: set<Event>)
    requires IsFirst(a, events) && IsFirst(b, events)
    ensures a == b
  {
    hide Before;
    BeforeIsStrictOrder(a, b, b);
  }

  ghost function First(events: set<Event>): (e: Event)
    requires events != {} && DistinctIds(events)
    ensures IsFirst(e, events)
  {
    HasFirst(events);
    var e :| IsFirst(e, events);
    e
  }

  /** The events of a set in listing order. */
  ghost function SortDesc(events: set<Event>): (s: seq<Event>)
    requires DistinctIds(events)
    ensures Descending(s) && Elements(s) == events && |s| == |events|
    decreases events
  {
    if events == {} then []
    else
      var e := First(events);
      var rest := SortDesc(events - {e});
      PrependFirst(e, rest, events);
      [e] + rest
  }

  lemma PrependFirst(e: Event, rest: seq<Event>, events: set<Event>)
    requires IsFirst(e, events) && Descending(rest) && Elements(rest) == events - {e} && |rest| == |events| - 1
    ensures Descending([e] + rest) && Elements([e] + rest) == events
  {
    hide Before;
    var s := [e] + rest;
    forall i, j | 0 <= i < j < |s| ensures Before(s[i], s[j]) {
      assert s[j] == rest[j - 1];
      assert rest[j - 1] in Elements(rest);
    }
    assert Elements(s) == {e} + Elements(rest);
  }

  /** Exactly the first k of a set, in order: whatever is left out comes after k listed events. */
  ghost predicate IsTop(t: seq<Event>, events: set<Event>, k: nat) {
    && Descending(t)
    && Elements(t) <= events
    && |t| <= k
    && forall x :: x in events && x !in t ==> |t| == k && forall i :: 0 <= i < |t| ==> Before(t[i], x)
  }

  /** The first k events of a set in listing order. */
  ghost function Top(events: set<Event>, k: nat): (t: seq<Event>)
    requires DistinctIds(events)
  {
    var s := SortDesc(events);
    if |s| <= k then s else s[..k]
  }

  lemma DescendingHasNoRepeats(s: seq<Event>)
    requires Descending(s)
    ensures |Elements(s)| == |s|
  {
    hide Before;
    if s != [] {
      var last := s[|s| - 1];
      var init := s[..|s| - 1];
      DescendingHasNoRepeats(init);
      if last in init {
        BeforeIsStrictOrder(last, last, last);
      }
      assert s == init + [last];
      assert Elements(s) == Elements(init) + {last};
    }
  }

  lemma PrefixIsTop(s: seq<Event>, events: set<Event>, k: nat)
    requires Descending(s) && Elements(s) == events && k < |s|
    ensures IsTop(s[..k], events, k)
  {
    hide Before;
    assert s == s[..k] + s[k..];
    assert Elements(s) == Elements(s[..k]) + Elements(s[k..]);
    forall x | x in events && x !in s[..k] ensures forall i :: 0 <= i < k ==> Before(s[..k][i], x) {
      assert x in Elements(s[k..]);
      var j :| 0 <= j < |s| - k && s[k..][j] == x;
      assert s[k + j] == x;
    }
  }

  lemma WholeIsTop(s: seq<Event>, events: set<Event>, k: nat)
    requires Descending(s) && Elements(s) == events && |s| <= k
    ensures IsTop(s, events, k)
  {
    hide Before;
    assert forall x :: x in events ==> x in Elements(s);
  }

  lemma TopIsTop(events: set<Event>, k: nat)
    requires DistinctIds(events)
    ensures IsTop(Top(events, k), events, k)
  {
    hide IsTop, SortDesc, Descending, DistinctIds, Elements;
    var s := SortDesc(events);
    if |s| > k {
      PrefixIsTop(s, events, k);
    } else {
      WholeIsTop(s, events, k);
    }
  }

  /** How many events of a set are listed before e. */
  ghost function Rank(e: Event, events: set<Event>): nat {
    |set x | x in events && Before(x, e)|
  }

  /** An event is among the first k exactly when fewer than k events of the set come before it. */
  lemma TopIffRank(events: set<Event>, k: nat, e: Event)
    requires DistinctIds(events) && e in events
    ensures e in Top(events, k) <==> Rank(e, events) < k
  {
    hide Before;
    var t := Top(events, k);
    TopIsTop(events, k);
    DescendingHasNoRepeats(t);
    var ahead := set x | x in events && Before(x, e);
    if e in t {
      var i :| 0 <= i < |t| && t[i] == e;
      forall x | x in ahead ensures x in t[..i] {
        AheadIsListed(t, events, k, i, x);
      }
      assert ahead <= Elements(t[..i]);
      SubsetSize(ahead, Elements(t[..i]));
      DescendingHasNoRepeats(t[..i]);
    } else {
      assert Elements(t) <= ahead by {
        forall x | x in Elements(t) ensures x in ahead {
          var i :| 0 <= i < |t| && t[i] == x;
        }
      }
      SubsetSize(Elements(t), ahead);
    }
  }

  lemma AheadIsListed(t: seq<Event>, events: set<Event>, k: nat, i: nat, x: Event)
    requires IsTop(t, events, k) && i < |t| && x in events && Before(x, t[i])
    ensures x in t[..i]
  {
    hide Before;
    if x !in t {
      BeforeIsStrictOrder(t[i], x, t[i]);
    } else {
      var j :| 0 <= j < |t| && t[j] == x;
      if i <= j {
        BeforeIsStrictOrder(t[i], t[j], t[i]);
        BeforeIsStrictOrder(x, x, x);
      }
      assert t[..i][j] == x;
    }
  }

  lemma {:induction false} DescendingIsUnique(t: seq<Event>, u: seq<Event>)
    requires Descending(t) && Descending(u) && Elements(t) == Elements(u)
    ensures t == u
  {
    hide Before;
    DescendingHasNoRepeats(t);
    DescendingHasNoRepeats(u);
    if t != [] {
      assert t[0] in Elements(t);
      assert IsFirst(t[0], Elements(t)) && IsFirst(u[0], Elements(u));
      FirstIsUnique(t[0], u[0], Elements(t));
      WithoutHead(t);
      WithoutHead(u);
      DescendingIsUnique(t[1..], u[1..]);
      assert t == [t[0]] + t[1..] && u == [u[0]] + u[1..];
    }
  }

  lemma WithoutHead(t: seq<Event>)
    requires t != [] && Descending(t)
    ensures Descending(t[1..]) && Elements(t[1..]) == Elements(t) - {t[0]}
  {
    hide Before;
    forall i | 0 < i < |t| ensures t[i] != t[0] {
      BeforeIsStrictOrder(t[0], t[i], t[0]);
    }
    assert t == [t[0]] + t[1..];
  }

  /** The first k of a set are one sequence only. */
  lemma TopIsUnique(t: seq<Event>, u: seq<Event>, events: set<Event>, k: nat)
    requires IsTop(t, events, k) && IsTop(u, events, k)
    ensures t == u
  {
    hide Before;
    if x, y :| x in t && x !in u && y in u && y !in t {
      assert x in Elements(t) && y in Elements(u);
      BeforeIsStrictOrder(x, y, x);
    } else if y :| y in u && y !in t {
      NotBoth(t, u, events, k, y);
    } else if x :| x in t && x !in u {
      NotBoth(u, t, events, k, x);
    }
    DescendingIsUnique(t, u);
  }

  lemma NotBoth(t: seq<Event>, u: seq<Event>, events: set<Event>, k: nat, y: Event)
    requires IsTop(t, events, k) && IsTop(u, events, k)
    requires Elements(t) <= Elements(u) && y in u
    ensures y in t
  {
    hide Before;
    assert y in Elements(u);
    if y !in t {
      DescendingHasNoRepeats(t);
      DescendingHasNoRepeats(u);
      assert Elements(t) + {y} <= Elements(u);
      SubsetSize(Elements(t) + {y}, Elements(u));
    }
  }

  lemma SubsetSize<T>(a: set<T>, b: set<T>)
    requires a <= b
    ensures |a| <= |b|
  {
    assert b == a + (b - a);
  }

  lemma SubsetOfSameSize<T>(a: set<T>, b: set<T>)
    requires a <= b && |b| <= |a|
    ensures a == b
  {
    assert b == a + (b - a);
  }

  /** At least k events of `events` come before x. */
  ghost predicate Outranked(x: Event, events: set<Event>, k: nat) {
    exists w: seq<Event> :: |w| == k && Descending(w) && Elements(w) <= events
      && forall i :: 0 <= i < k ==> Before(w[i], x)
  }

  /** Events outranked within a part of a set can be left out before taking the first k. */
  lemma TopOfPart(t: seq<Event>, part: set<Event>, whole: set<Event>, k: nat)
    requires IsTop(t, part, k) && part <= whole && DistinctIds(whole)
    requires forall x :: x in whole && x !in part ==> Outranked(x, part, k)
    ensures IsTop(t, whole, k)
  {
    hide Before;
    forall x | x in whole && x !in t ensures |t| == k && forall i :: 0 <= i < |t| ==> Before(t[i], x) {
      if x !in part {
        LeftOut(t, part, whole, k, x);
      }
    }
  }

  lemma LeftOut(t: seq<Event>, part: set<Event>, whole: set<Event>, k: nat, x: Event)
    requires IsTop(t, part, k) && part <= whole && DistinctIds(whole)
    requires x in whole && x !in part && Outranked(x, part, k)
    ensures |t| == k && forall i :: 0 <= i < |t| ==> Before(t[i], x)
  {
    hide Before;
    var w: seq<Event> :| |w| == k && Descending(w) && Elements(w) <= part && forall i :: 0 <= i < k ==> Before(w[i], x);
    DescendingHasNoRepeats(w);
    DescendingHasNoRepeats(t);
    if y :| y in w && y !in t {
      assert y in Elements(w);
      assert |t| == k;
      forall i | 0 <= i < |t| ensures Before(t[i], x) {
        var j :| 0 <= j < k && w[j] == y;
        BeforeIsStrictOrder(t[i], y, x);
      }
    } else {
      assert Elements(w) <= Elements(t) by {
        assert forall y :: y in Elements(w) ==> y in w;
      }
      SubsetOfSameSize(Elements(w), Elements(t));
      forall i | 0 <= i < |t| ensures Before(t[i], x) {
        assert t[i] in Elements(t);
      }
    }
  }

  lemma PartIsDistinct(part: set<Event>, whole: set<Event>)
    requires part <= whole && DistinctIds(whole)
    ensures DistinctIds(part)
  {
  }

  /** Limiting one side of a union first loses nothing. */
  lemma TopAbsorbs(a: set<Event>, b: set<Event>, k: nat)
    requires DistinctIds(a) && DistinctIds(a + b)
    ensures Elements(Top(a, k)) <= a && DistinctIds(Elements(Top(a, k)) + b)
    ensures Top(a + b, k) == Top(Elements(Top(a, k)) + b, k)
  {
    hide DistinctIds, Top, Before;
    var head := Top(a, k);
    TopIsTop(a, k);
    var part := Elements(head) + b;
    PartIsDistinct(part, a + b);
    TopIsTop(part, k);
    TopIsTop(a + b, k);
    forall x | x in a + b && x !in part ensures Outranked(x, part, k) {
      assert x in a && x !in head;
      assert |head| == k && Descending(head) && Elements(head) <= part && forall i :: 0 <= i < k ==> Before(head[i], x);
    }
    TopOfPart(Top(part, k), part, a + b, k);
    TopIsUnique(Top(part, k), Top(a + b, k), a + b, k);
  }

  /** Limiting both sides of a union, each on its own, loses nothing. */
  lemma MergePages(merged: set<Event>, matched: set<Event>, rows: set<Event>, k: nat)
    requires DistinctIds(merged) && DistinctIds(matched) && DistinctIds(rows)
    requires DistinctIds(merged + rows) && DistinctIds(matched + rows)
    requires Top(merged, k) == Top(matched, k)
    ensures Elements(Top(rows, k)) <= rows && DistinctIds(merged + Elements(Top(rows, k)))
    ensures Top(merged + Elements(Top(rows, k)), k) == Top(matched + rows, k)
  {
    hide DistinctIds, Top, Elements;
    var page := Elements(Top(rows, k));
    var head := Elements(Top(merged, k));
    assert rows + matched == matched + rows;
    TopAbsorbs(rows, matched, k);
    PartIsDistinct(merged + page, merged + rows);
    PartIsDistinct(matched + page, matched + rows);
    assert page + matched == matched + page;
    TopAbsorbs(merged, page, k);
    TopAbsorbs(matched, page, k);
  }

  /** Sorting in place of ORDER BY created_at DESC, id DESC LIMIT k. */
  method Listing(events: set<Event>, k: nat) returns (t: seq<Event>)
    requires DistinctIds(events)
    ensures t == Top(events, k)
  {
    t := [];
    var rest := events;
    while rest != {} && |t| < k
      invariant rest <= events && Elements(t) == events - rest && |t| <= k
      invariant Descending(t)
      invariant forall i, x :: 0 <= i < |t| && x in rest ==> Before(t[i], x)
      decreases rest
    {
      HasFirst(rest);
      var e :| e in rest && forall x :: x in rest && x != e ==> Before(e, x);
      assert Elements(t + [e]) == Elements(t) + {e};
      t := t + [e];
      rest := rest - {e};
    }
    assert IsTop(t, events, k) by {
      forall x | x in events && x !in t ensures x in rest {
        assert x !in Elements(t);
      }
    }
    TopIsTop(events, k);
    TopIsUnique(t, Top(events, k), events, k);
  }
}
