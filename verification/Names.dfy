/**
  Names of members and sites: the order in which Go sorts strings, sorting, and the prefix
  test by which a site recognises its PostgreSQL members.
*/
module Names {

  /** The strict lexicographic order of strings. */
  predicate Less(a: string, b: string) {
    if |b| == 0 then false
    else if |a| == 0 then true
    else if a[0] != b[0] then a[0] < b[0]
    else Less(a[1..], b[1..])
  }

  /** The names agree up to here, and then the first one ends or has the smaller character. */
  predicate DifferAt(a: string, b: string, k: int) {
    0 <= k <= |a| && k < |b| && a[..k] == b[..k] && (k == |a| || a[k] < b[k])
  }

  /** The order is that of the first difference, a prefix coming first. */
  lemma {:induction false} LessExactly(a: string, b: string)
    ensures Less(a, b) <==> exists k :: DifferAt(a, b, k)
  {
    if |b| > 0 && (|a| == 0 || a[0] != b[0]) {
      assert Less(a, b) ==> DifferAt(a, b, 0);
      if k :| DifferAt(a, b, k) {
        assert k > 0 ==> a[..k][0] == b[..k][0];
      }
    } else if |b| > 0 {
      LessExactly(a[1..], b[1..]);
      if k :| DifferAt(a[1..], b[1..], k) {
        assert a[..k + 1] == [a[0]] + a[1..][..k] && b[..k + 1] == [b[0]] + b[1..][..k];
        assert DifferAt(a, b, k + 1);
      }
      if k :| DifferAt(a, b, k) {
        assert k > 0 && a[1..][..k - 1] == a[..k][1..] && b[1..][..k - 1] == b[..k][1..];
        assert DifferAt(a[1..], b[1..], k - 1);
      }
    }
  }

  lemma {:induction false} LessTransitive(a: string, b: string, c: string)
    requires Less(a, b) && Less(b, c)
    ensures Less(a, c)
  {
    if |a| > 0 && a[0] == b[0] && b[0] == c[0] {
      LessTransitive(a[1..], b[1..], c[1..]);
    }
  }

  lemma {:induction false} LessTotal(a: string, b: string)
    ensures Less(a, b) || a == b || Less(b, a)
  {
    if |a| > 0 && |b| > 0 && a[0] == b[0] {
      LessTotal(a[1..], b[1..]);
      assert a == [a[0]] + a[1..] && b == [b[0]] + b[1..];
    }
  }

  lemma {:induction false} LessAsymmetric(a: string, b: string)
    requires Less(a, b)
    ensures !Less(b, a) && a != b
  {
    if |a| > 0 && a[0] == b[0] {
      LessAsymmetric(a[1..], b[1..]);
    }
  }

  /** No later name comes before an earlier one. */
  predicate Sorted(s: seq<string>) {
    forall i, j :: 0 <= i < j < |s| ==> !Less(s[j], s[i])
  }

  predicate Distinct(s: seq<string>) {
    forall i, j :: 0 <= i < j < |s| ==> s[i] != s[j]
  }

  function Elements(s: seq<string>): set<string> { set x | x in s }

  lemma SortedHeadIsLeast(s: seq<string>, x: string)
    requires Sorted(s) && x in s
    ensures !Less(x, s[0])
  {
    var i :| 0 <= i < |s| && s[i] == x;
    if i == 0 {
      if Less(s[0], s[0]) { LessAsymmetric(s[0], s[0]); }
    }
  }

  lemma TailElements(s: seq<string>)
    requires Distinct(s) && s != []
    ensures Elements(s[1..]) == Elements(s) - {s[0]}
  {
    assert s == [s[0]] + s[1..];
  }

  /** A set of names has one sorted listing without repetition. */
  lemma {:induction false} SortedListingIsUnique(a: seq<string>, b: seq<string>)
    requires Sorted(a) && Sorted(b) && Distinct(a) && Distinct(b) && Elements(a) == Elements(b)
    ensures a == b
    decreases |a|
  {
    assert b != [] ==> b[0] in Elements(b);
    if a != [] {
      assert a[0] in Elements(a);
      SortedHeadIsLeast(a, b[0]);
      SortedHeadIsLeast(b, a[0]);
      LessTotal(a[0], b[0]);
      assert Elements(a[1..]) == Elements(a) - {a[0]} by { TailElements(a); }
      assert Elements(b[1..]) == Elements(b) - {b[0]} by { TailElements(b); }
      SortedListingIsUnique(a[1..], b[1..]);
    }
  }

  lemma InsertKeepsSorted(r: seq<string>, x: string, at: nat)
    requires Sorted(r) && at <= |r|
    requires forall i :: 0 <= i < at ==> !Less(x, r[i])
    requires forall i :: at <= i < |r| ==> !Less(r[i], x)
    ensures Sorted(r[..at] + [x] + r[at..])
  {
  }

  /** Insertion sort, which stands for slices.Sort. */
  method Sort(s: seq<string>) returns (r: seq<string>)
    ensures Sorted(r) && multiset(r) == multiset(s)
  {
    r := [];
    var k := 0;
    while k < |s|
      invariant 0 <= k <= |s| && Sorted(r) && multiset(r) == multiset(s[..k])
    {
      var at := 0;
      while at < |r| && !Less(s[k], r[at])
        invariant 0 <= at <= |r| && forall i :: 0 <= i < at ==> !Less(s[k], r[i])
      {
        at := at + 1;
      }
      forall i | at <= i < |r| ensures !Less(r[i], s[k]) {
        AfterInsertionPoint(r, s[k], at, i);
      }
      InsertKeepsSorted(r, s[k], at);
      assert r == r[..at] + r[at..] && s[..k + 1] == s[..k] + [s[k]];
      r := r[..at] + [s[k]] + r[at..];
      k := k + 1;
    }
    assert s[..k] == s;
  }

  lemma AfterInsertionPoint(r: seq<string>, x: string, at: nat, i: nat)
    requires Sorted(r) && at <= i < |r| && Less(x, r[at])
    ensures !Less(r[i], x)
  {
    if Less(r[i], x) {
      LessTransitive(r[i], x, r[at]);
      if i == at { LessAsymmetric(r[i], r[i]); }
    }
  }

  /** Sorting a listing of distinct names gives the one sorted listing of its set. */
  lemma SortedPermutation(s: seq<string>, r: seq<string>)
    requires multiset(r) == multiset(s)
    ensures Elements(r) == Elements(s)
    ensures Distinct(s) ==> Distinct(r)
  {
    forall x ensures x in r <==> x in s {
      assert x in multiset(r) <==> x in r;
      assert x in multiset(s) <==> x in s;
    }
    if Distinct(s) && !Distinct(r) {
      var i, j :| 0 <= i < j < |r| && r[i] == r[j];
      TwiceInMultiset(r, i, j);
      DistinctIsOnce(s, r[i]);
    }
  }

  predicate IsLeast(x: string, s: set<string>) {
    x in s && forall y :: y in s ==> !Less(y, x)
  }

  /** The head of the sorted list is the least name of the list. */
  lemma SortedHeadIsLeastOf(s: seq<string>, r: seq<string>)
    requires s != [] && Sorted(r) && multiset(r) == multiset(s)
    ensures r != [] && IsLeast(r[0], Elements(s))
  {
    SortedPermutation(s, r);
    assert s[0] in Elements(r);
    forall y | y in r ensures !Less(y, r[0]) {
      SortedHeadIsLeast(r, y);
    }
    assert r[0] in Elements(r);
  }

  lemma TwiceInMultiset(r: seq<string>, i: nat, j: nat)
    requires i < j < |r| && r[i] == r[j]
    ensures multiset(r)[r[i]] >= 2
  {
    assert r == r[..i] + [r[i]] + r[i + 1..j] + [r[j]] + r[j + 1..];
  }

  lemma {:induction false} DistinctIsOnce(s: seq<string>, x: string)
    requires Distinct(s)
    ensures multiset(s)[x] <= 1
  {
    if s != [] {
      DistinctIsOnce(s[1..], x);
      assert s == [s[0]] + s[1..];
      if x == s[0] { assert x !in s[1..]; }
    }
  }

  // ------------------------------------------------------------------------------------
  // Members and sites
  // ------------------------------------------------------------------------------------

  function PostgresMember(site: string, ordinal: string): string { "postgres-" + site + "-" + ordinal }

  /** The prefix test by which an agent decides that a member is its own. */
  predicate BelongsToSite(member: string, site: string) { "postgres-" + site + "-" <= member }

  /** Ordinals are printed in decimal. */
  predicate Decimal(s: string) {
    s != [] && forall i :: 0 <= i < |s| ==> '0' <= s[i] <= '9'
  }

  lemma PrefixCancels(p: string, a: string, b: string)
    ensures p + a <= p + b <==> a <= b
  {
    if a <= b {
      assert forall i :: 0 <= i < |p + a| ==> (p + a)[i] == (p + b)[i];
    }
    if p + a <= p + b {
      forall i | 0 <= i < |a| ensures a[i] == b[i] {
        assert (p + a)[|p| + i] == (p + b)[|p| + i];
      }
    }
  }

  /** A site claims its own members, and those of every site whose name extends its own by a dash. */
  lemma BelongsExactly(site: string, ordinal: string, other: string)
    requires Decimal(ordinal)
    ensures BelongsToSite(PostgresMember(site, ordinal), other) <==> other == site || other + "-" <= site
  {
    var own := site + "-" + ordinal;
    assert PostgresMember(site, ordinal) == "postgres-" + own;
    assert "postgres-" + other + "-" == "postgres-" + (other + "-");
    PrefixCancels("postgres-", other + "-", own);
    assert forall i :: |site| < i < |own| ==> '0' <= own[i] <= '9';
    if other + "-" <= own {
      assert own[|other|] == '-';
      assert |other| <= |site|;
      if |other| < |site| {
        assert forall i :: 0 <= i <= |other| ==> site[i] == own[i];
        assert other + "-" <= site;
      } else {
        assert other == own[..|other|] == site;
      }
    }
    if other + "-" <= site {
      assert forall i :: 0 <= i < |site| ==> own[i] == site[i];
    }
  }

  /** Each member belongs to one declared site only, exactly when no site name extends another by a dash. */
  lemma MembersAreClaimedOnce(sites: set<string>)
    ensures
      (forall s, o, d :: s in sites && o in sites && Decimal(d) && BelongsToSite(PostgresMember(s, d), o) ==> o == s)
      <==> (forall s, o :: s in sites && o in sites ==> !(o + "-" <= s))
  {
    if forall s, o :: s in sites && o in sites ==> !(o + "-" <= s) {
      forall s, o, d | s in sites && o in sites && Decimal(d) && BelongsToSite(PostgresMember(s, d), o)
        ensures o == s
      {
        BelongsExactly(s, d, o);
      }
    } else {
      var s, o :| s in sites && o in sites && o + "-" <= s;
      BelongsExactly(s, "0", o);
      assert Decimal("0") && BelongsToSite(PostgresMember(s, "0"), o);
      assert |o| < |s|;
    }
  }

}
