/** Ordering tag occurrences by a priority attribute (`prioritizeTags` in
    src/AddTaggedCompilerPass.php): lower priority first, an absent priority
    counting as 0, equal priorities keeping discovery order. */
module Priority {
  import opened Container

  /** One tag occurrence on one service. */
  datatype TagEntry = TagEntry(serviceId: string, attributes: Attributes)

  /** `$attributes[$attr] ?? 0` used as a number. Booleans count as 0 or 1, as
      in PHP arithmetic. A string is given 0 here; that is the model's choice,
      not PHP's, which coerces numeric strings and rejects other strings. */
  function PriorityOf(attrs: Attributes, attr: string): int
  {
    if attr !in attrs then 0
    else match attrs[attr]
      case Int(i) => i
      case Bool(b) => if b then 1 else 0
      case Null => 0
      case Str(_) => 0
  }

  function Key(e: TagEntry, attr: string): int
  {
    PriorityOf(e.attributes, attr)
  }

  /** Non-decreasing priority. */
  ghost predicate Sorted(s: seq<TagEntry>, attr: string)
  {
    forall i, j :: 0 <= i < j < |s| ==> Key(s[i], attr) <= Key(s[j], attr)
  }

  /** The one entry e, if it has priority p; else nothing. */
  function InClass(e: TagEntry, attr: string, p: int): seq<TagEntry>
  {
    if Key(e, attr) == p then [e] else []
  }

  /** The entries of priority p, in their order in s. */
  function WithPriority(s: seq<TagEntry>, attr: string, p: int): seq<TagEntry>
  {
    if s == [] then [] else InClass(s[0], attr, p) + WithPriority(s[1..], attr, p)
  }

  /** r keeps, for every priority, the entries of that priority of s in their order. */
  ghost predicate Stable(r: seq<TagEntry>, s: seq<TagEntry>, attr: string)
  {
    forall p :: WithPriority(r, attr, p) == WithPriority(s, attr, p)
  }

  /** r is s stably sorted by priority. */
  ghost predicate IsPrioritized(r: seq<TagEntry>, s: seq<TagEntry>, attr: string)
  {
    Sorted(r, attr) && Stable(r, s, attr)
  }

  lemma {:induction false} WithPriorityAppend(s: seq<TagEntry>, t: seq<TagEntry>, attr: string, p: int)
    ensures WithPriority(s + t, attr, p) == WithPriority(s, attr, p) + WithPriority(t, attr, p)
  {
    if s == [] {
      assert s + t == t;
    } else {
      var h := if Key(s[0], attr) == p then [s[0]] else [];
      assert (s + t)[0] == s[0] && (s + t)[1..] == s[1..] + t;
      assert WithPriority(s + t, attr, p) == h + WithPriority(s[1..] + t, attr, p);
      WithPriorityAppend(s[1..], t, attr, p);
      assert WithPriority(s, attr, p) == h + WithPriority(s[1..], attr, p);
    }
  }

  /** Swapping two neighbours of different priority keeps every priority class in order. */
  lemma SwapNeighboursStable(s: seq<TagEntry>, i: nat, attr: string)
    requires i + 1 < |s| && Key(s[i], attr) != Key(s[i + 1], attr)
    ensures Stable(s[i := s[i + 1]][i + 1 := s[i]], s, attr)
  {
    var t := s[i := s[i + 1]][i + 1 := s[i]];
    var pre, post := s[..i], s[i + 2..];
    assert s == pre + [s[i], s[i + 1]] + post;
    assert t == pre + [s[i + 1], s[i]] + post;
    forall p
      ensures WithPriority(t, attr, p) == WithPriority(s, attr, p)
    {
      WithPriorityAppend(pre + [s[i], s[i + 1]], post, attr, p);
      WithPriorityAppend(pre, [s[i], s[i + 1]], attr, p);
      WithPriorityAppend(pre + [s[i + 1], s[i]], post, attr, p);
      WithPriorityAppend(pre, [s[i + 1], s[i]], attr, p);
      assert [s[i], s[i + 1]][1..] == [s[i + 1]];
      assert [s[i + 1], s[i]][1..] == [s[i]];
    }
  }

  /** An entry occurs in its own priority class as often as in the whole sequence. */
  lemma {:induction false} CountInPriorityClass(s: seq<TagEntry>, attr: string, e: TagEntry)
    ensures multiset(WithPriority(s, attr, Key(e, attr)))[e] == multiset(s)[e]
  {
    if s != [] {
      CountInPriorityClass(s[1..], attr, e);
      assert s == [s[0]] + s[1..];
    }
  }

  /** A stable reordering is a permutation. */
  lemma StableIsPermutation(r: seq<TagEntry>, s: seq<TagEntry>, attr: string)
    requires Stable(r, s, attr)
    ensures multiset(r) == multiset(s)
  {
    forall e
      ensures multiset(r)[e] == multiset(s)[e]
    {
      CountInPriorityClass(r, attr, e);
      CountInPriorityClass(s, attr, e);
    }
  }

  /** The entry at the front of the class of its own priority. */
  lemma WithPriorityHead(s: seq<TagEntry>, attr: string)
    requires s != []
    ensures WithPriority(s, attr, Key(s[0], attr)) == [s[0]] + WithPriority(s[1..], attr, Key(s[0], attr))
  {
  }

  /** An entry of priority p in s makes the class of p non-empty. */
  lemma {:induction false} WithPriorityNonEmpty(s: seq<TagEntry>, attr: string, k: nat)
    requires k < |s|
    ensures WithPriority(s, attr, Key(s[k], attr)) != []
  {
    if k > 0 {
      WithPriorityNonEmpty(s[1..], attr, k - 1);
      assert s[1..][k - 1] == s[k];
    }
  }

  /** Every entry of the class of p has priority p. */
  lemma {:induction false} WithPriorityKeys(s: seq<TagEntry>, attr: string, p: int)
    ensures forall e <- WithPriority(s, attr, p) :: Key(e, attr) == p
  {
    if s != [] {
      WithPriorityKeys(s[1..], attr, p);
    }
  }

  /** In a sorted sequence nothing has a lower priority than its first entry. */
  lemma SortedHeadIsLeast(s: seq<TagEntry>, attr: string, p: int)
    requires Sorted(s, attr) && s != [] && WithPriority(s, attr, p) != []
    ensures Key(s[0], attr) <= p
  {
    var e := WithPriority(s, attr, p)[0];
    WithPriorityKeys(s, attr, p);
    assert e in WithPriority(s, attr, p);
    assert multiset(WithPriority(s, attr, Key(e, attr)))[e] > 0;
    CountInPriorityClass(s, attr, e);
    assert e in s;
    var k :| 0 <= k < |s| && s[k] == e;
    if k > 0 {
      assert Key(s[0], attr) <= Key(s[k], attr);
    }
  }

  /** Stable sorting has only one answer: ties are broken by discovery order alone. */
  lemma {:induction false} PrioritizedIsUnique(r1: seq<TagEntry>, r2: seq<TagEntry>, s: seq<TagEntry>, attr: string)
    requires IsPrioritized(r1, s, attr) && IsPrioritized(r2, s, attr)
    ensures r1 == r2
    decreases |r1|
  {
    assert Stable(r1, r2, attr);
    if r1 == [] {
      if r2 != [] {
        WithPriorityNonEmpty(r2, attr, 0);
      }
    } else if r2 == [] {
    } else {
      var p1, p2 := Key(r1[0], attr), Key(r2[0], attr);
      WithPriorityNonEmpty(r1, attr, 0);
      WithPriorityNonEmpty(r2, attr, 0);
      SortedHeadIsLeast(r1, attr, p2);
      SortedHeadIsLeast(r2, attr, p1);
      WithPriorityHead(r1, attr);
      WithPriorityHead(r2, attr);
      assert p1 == p2;
      assert WithPriority(r1, attr, p1) == WithPriority(r2, attr, p1);
      assert WithPriority(r1, attr, p1)[0] == r1[0];
      assert WithPriority(r2, attr, p2)[0] == r2[0];
      forall p
        ensures WithPriority(r1[1..], attr, p) == WithPriority(r2[1..], attr, p)
      {
        var h := if p1 == p then [r1[0]] else [];
        assert WithPriority(r1, attr, p) == h + WithPriority(r1[1..], attr, p);
        assert WithPriority(r2, attr, p) == h + WithPriority(r2[1..], attr, p);
        assert WithPriority(r1, attr, p) == WithPriority(r2, attr, p);
        assert WithPriority(r1[1..], attr, p) == WithPriority(r1, attr, p)[|h|..];
        assert WithPriority(r2[1..], attr, p) == WithPriority(r2, attr, p)[|h|..];
      }
      assert Sorted(r1[1..], attr) && Sorted(r2[1..], attr);
      PrioritizedIsUnique(r1[1..], r2[1..], r2[1..], attr);
    }
  }

  /** Stable insertion sort by priority, in place, by swapping neighbours. */
  method SortByPriority(a: array<TagEntry>, attr: string)
    modifies a
    ensures IsPrioritized(a[..], old(a[..]), attr)
  {
    var i := 1;
    while i < a.Length
      invariant a.Length == 0 || 1 <= i <= a.Length
      invariant forall k, m :: 0 <= k < m < i && m < a.Length ==> Key(a[k], attr) <= Key(a[m], attr)
      invariant Stable(a[..], old(a[..]), attr)
    {
      ghost var before := a[..];
      SinkInto(a, i, attr);
      StableTransitive(a[..], before, old(a[..]), attr);
      i := i + 1;
    }
  }

  /** The state while a[i] sinks: it sits at j, everything else of the
      prefix up to i is in order, and nothing after j has lower priority. */
  ghost predicate Sinking(s: seq<TagEntry>, i: nat, j: nat, attr: string)
  {
    && j <= i < |s|
    && (forall k, m :: 0 <= k < m <= i && m != j ==> Key(s[k], attr) <= Key(s[m], attr))
    && (forall m :: j < m <= i ==> Key(s[j], attr) <= Key(s[m], attr))
  }

  /** One swap moves the sinking entry one place left. */
  lemma SinkStep(s: seq<TagEntry>, i: nat, j: nat, attr: string)
    requires Sinking(s, i, j, attr) && 0 < j && Key(s[j - 1], attr) > Key(s[j], attr)
    ensures Sinking(s[j - 1 := s[j]][j := s[j - 1]], i, j - 1, attr)
  {
  }

  /** When the sinking entry stops, the prefix up to i is sorted. */
  lemma SinkDone(s: seq<TagEntry>, i: nat, j: nat, attr: string)
    requires Sinking(s, i, j, attr) && (j == 0 || Key(s[j - 1], attr) <= Key(s[j], attr))
    ensures forall k, m :: 0 <= k < m <= i ==> Key(s[k], attr) <= Key(s[m], attr)
  {
    forall k, m | 0 <= k < m <= i
      ensures Key(s[k], attr) <= Key(s[m], attr)
    {
      if m == j && k < j - 1 {
        assert Key(s[k], attr) <= Key(s[j - 1], attr);
      }
    }
  }

  /** Moves a[i] left past every entry of higher priority, so that the
      sorted prefix a[..i] grows to a[..i + 1]. */
  method SinkInto(a: array<TagEntry>, i: nat, attr: string)
    requires 0 < i < a.Length
    requires forall k, m :: 0 <= k < m < i ==> Key(a[k], attr) <= Key(a[m], attr)
    modifies a
    ensures forall k, m :: 0 <= k < m <= i ==> Key(a[k], attr) <= Key(a[m], attr)
    ensures Stable(a[..], old(a[..]), attr)
  {
    var j := i;
    assert Sinking(a[..], i, j, attr);
    while j > 0 && Key(a[j - 1], attr) > Key(a[j], attr)
      invariant 0 <= j <= i
      invariant Sinking(a[..], i, j, attr)
      invariant Stable(a[..], old(a[..]), attr)
    {
      ghost var s := a[..];
      SwapNeighboursStable(s, j - 1, attr);
      SinkStep(s, i, j, attr);
      a[j - 1], a[j] := a[j], a[j - 1];
      assert a[..] == s[j - 1 := s[j]][j := s[j - 1]];
      StableTransitive(a[..], s, old(a[..]), attr);
      j := j - 1;
    }
    SinkDone(a[..], i, j, attr);
  }

  lemma StableTransitive(r: seq<TagEntry>, s: seq<TagEntry>, t: seq<TagEntry>, attr: string)
    requires Stable(r, s, attr) && Stable(s, t, attr)
    ensures Stable(r, t, attr)
  {
    forall p
      ensures WithPriority(r, attr, p) == WithPriority(t, attr, p)
    {
      assert WithPriority(r, attr, p) == WithPriority(s, attr, p);
    }
  }
}
