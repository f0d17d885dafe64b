/**
  The provider priority list of the admin console (`completeProviderPriority`, `validateProviderPriority` in
  `onr-admin/internal/web/server.go`).
 */
module ProviderPriority {
  import opened Text

  function Norm(provider: string): string { Lower(TrimSpace(provider)) }

  function Normalised(list: seq<string>): seq<string> {
    if list == [] then [] else Normalised(list[..|list| - 1]) + [Norm(list[|list| - 1])]
  }

  ghost predicate NoDuplicates(s: seq<string>) { forall i, j :: 0 <= i < j < |s| ==> s[i] != s[j] }

  lemma {:induction false} NormalisedAt(list: seq<string>)
    ensures |Normalised(list)| == |list| && forall i :: 0 <= i < |list| ==> Normalised(list)[i] == Norm(list[i])
  {
    hide Norm;
    if list != [] { NormalisedAt(list[..|list| - 1]); }
  }

  lemma {:induction false} NormalisedStep(list: seq<string>, i: nat)
    requires i < |list|
    ensures Normalised(list[..i + 1]) == Normalised(list[..i]) + [Norm(list[i])]
  {
    hide Norm;
    assert list[..i + 1][..i] == list[..i];
  }

  method NameSet(list: seq<string>) returns (names: set<string>)
    ensures forall x :: x in names <==> x in Normalised(list)
  {
    hide Norm;
    names := {};
    var i := 0;
    while i < |list|
      invariant 0 <= i <= |list| && forall x :: x in names <==> x in Normalised(list[..i])
    {
      NormalisedStep(list, i);
      names := names + {Norm(list[i])};
      i := i + 1;
    }
    assert list[..i] == list;
  }

  // ---------------------------------------------------------------- completing a priority

  /** The known names of `all`, each kept where it first occurs. */
  ghost function Kept(all: seq<string>, known: seq<string>): seq<string> {
    if all == [] then [] else
      var before, x := Kept(all[..|all| - 1], known), all[|all| - 1];
      if x in known && x !in before then before + [x] else before
  }

  ghost function Complete(priority: seq<string>, available: seq<string>): seq<string> {
    Kept(Normalised(priority + available), Normalised(available))
  }

  method CompleteProviderPriority(priority: seq<string>, available: seq<string>) returns (out: seq<string>)
    ensures out == Complete(priority, available)
  {
    hide Norm;
    var known := NameSet(available);
    var all := priority + available;
    out := [];
    var seen: set<string> := {};
    var i := 0;
    while i < |all|
      invariant 0 <= i <= |all| && out == Kept(Normalised(all[..i]), Normalised(available))
      invariant forall x :: x in seen <==> x in out
    {
      NormalisedStep(all, i);
      var provider := Norm(all[i]);
      assert (Normalised(all[..i]) + [provider])[..|Normalised(all[..i])|] == Normalised(all[..i]);
      i := i + 1;
      if provider !in known || provider in seen { continue; }
      seen := seen + {provider};
      out := out + [provider];
    }
    assert all[..i] == all;
  }

  function First(all: seq<string>, x: string): (n: nat)
    ensures n <= |all|
  {
    if all == [] || all[0] == x then 0 else 1 + First(all[1..], x)
  }

  lemma {:induction false} FirstMeaning(all: seq<string>, x: string)
    ensures x in all <==> First(all, x) < |all|
    ensures x in all ==> all[First(all, x)] == x
    ensures forall i :: 0 <= i < First(all, x) ==> all[i] != x
  {
    if all != [] && all[0] != x { FirstMeaning(all[1..], x); }
  }

  lemma {:induction false} FirstAppend(all: seq<string>, y: string, x: string)
    ensures First(all + [y], x) == if x in all || x != y then (if x in all then First(all, x) else |all| + 1) else |all|
  {
    FirstMeaning(all, x);
    FirstMeaning(all + [y], x);
    var n := First(all + [y], x);
    if x in all {
      assert (all + [y])[First(all, x)] == x;
    } else if x == y {
      assert (all + [y])[|all|] == x;
    }
  }

  /** In the order of first occurrence. */
  ghost predicate InOrder(s: seq<string>, all: seq<string>) {
    forall i, j :: 0 <= i < j < |s| ==> First(all, s[i]) < First(all, s[j])
  }

  lemma {:induction false} KeptMeaning(all: seq<string>, known: seq<string>)
    ensures var s := Kept(all, known);
            NoDuplicates(s) && InOrder(s, all) && forall x :: x in s <==> x in all && x in known
  {
    if all != [] {
      hide First;
      var n := |all| - 1;
      var before, y := Kept(all[..n], known), all[n];
      KeptMeaning(all[..n], known);
      assert all == all[..n] + [y];
      forall x | x in all[..n] ensures First(all, x) == First(all[..n], x) < n {
        FirstAppend(all[..n], y, x);
        FirstMeaning(all[..n], x);
      }
      if y !in all[..n] { FirstAppend(all[..n], y, y); }
    }
  }

  /** Completion: a duplicate-free list of exactly the configured providers, in order of first occurrence. */
  lemma {:induction false} CompleteMeaning(priority: seq<string>, available: seq<string>)
    ensures var s := Complete(priority, available);
            && NoDuplicates(s) && InOrder(s, Normalised(priority + available))
            && (forall x :: x in s <==> x in Normalised(available))
  {
    hide Kept, Norm, InOrder, NoDuplicates;
    KeptMeaning(Normalised(priority + available), Normalised(available));
    NormalisedConcat(priority, available);
  }

  lemma {:induction false} NormalisedConcat(a: seq<string>, b: seq<string>)
    ensures Normalised(a + b) == Normalised(a) + Normalised(b)
  {
    hide Norm;
    NormalisedAt(a);
    NormalisedAt(b);
    NormalisedAt(a + b);
  }

  /** Those three facts leave one list only. */
  lemma {:induction false} OrderDetermines(s: seq<string>, t: seq<string>, all: seq<string>)
    requires InOrder(s, all) && InOrder(t, all) && forall x :: x in s <==> x in t
    ensures s == t
  {
    hide First;
    assert s != [] ==> s[0] in t;
    assert t != [] ==> t[0] in s;
    if s != [] {
      var a, b := s[|s| - 1], t[|t| - 1];
      assert a in t && b in s;
      var i :| 0 <= i < |t| && t[i] == a;
      var j :| 0 <= j < |s| && s[j] == b;
      assert a == b;
      var s', t' := s[..|s| - 1], t[..|t| - 1];
      forall x ensures x in s' <==> x in t' {
        if x in s' {
          var k :| 0 <= k < |s'| && s'[k] == x;
          assert s[k] in t && First(all, s[k]) < First(all, a);
        }
        if x in t' {
          var k :| 0 <= k < |t'| && t'[k] == x;
          assert t[k] in s && First(all, t[k]) < First(all, b);
        }
      }
      OrderDetermines(s', t', all);
    }
  }

  // ---------------------------------------------------------------- accepting a priority

  datatype Checked = Accepted(priority: seq<string>) | WrongCount | UnknownProvider | DuplicateProvider

  /** `i` is the first entry that is unknown or repeats an earlier one. */
  ghost predicate FirstBad(list: seq<string>, known: seq<string>, i: int) {
    && 0 <= i < |list| && (list[i] !in known || list[i] in list[..i])
    && NoDuplicates(list[..i]) && forall k :: 0 <= k < i ==> list[k] in known
  }

  /** Accepted exactly for a duplicate-free permutation of the normalised configured providers. */
  method ValidateProviderPriority(priority: seq<string>, available: seq<string>) returns (r: Checked)
    ensures r.Accepted? <==> Acceptable(priority, available)
    ensures r.Accepted? ==> r.priority == Normalised(priority)
    ensures r.WrongCount? <==> |priority| != |available|
    ensures r.UnknownProvider? ==> exists i :: FirstBad(Normalised(priority), Normalised(available), i)
                                              && Normalised(priority)[i] !in Normalised(available)
    ensures r.DuplicateProvider? ==> exists i :: FirstBad(Normalised(priority), Normalised(available), i)
                                                && Normalised(priority)[i] in Normalised(available)
  {
    hide Norm, Normalised, NoDuplicates, FirstBad;
    ghost var all, names := Normalised(priority), Normalised(available);
    NormalisedAt(priority);
    NormalisedAt(available);
    if |priority| != |available| {
      SizesDiffer(all, names);
      return WrongCount;
    }
    var known := NameSet(available);
    var out: seq<string> := [];
    var seen: set<string> := {};
    var i := 0;
    Extend(all, names, 0);
    while i < |priority|
      invariant 0 <= i <= |priority| && out == all[..i] && NoDuplicates(all[..i])
      invariant forall x :: x in seen <==> x in out
      invariant forall k :: 0 <= k < i ==> all[k] in names
    {
      var provider := Norm(priority[i]);
      Extend(all, names, i);
      if provider !in known {
        BadIsNoPermutation(all, names, i);
        return UnknownProvider;
      }
      if provider in seen {
        BadIsNoPermutation(all, names, i);
        return DuplicateProvider;
      }
      seen := seen + {provider};
      out := out + [provider];
      i := i + 1;
    }
    assert all[..i] == all;
    Pigeonhole(all, names);
    return Accepted(out);
  }

  lemma {:induction false} SizesDiffer(s: seq<string>, t: seq<string>)
    requires |s| != |t|
    ensures multiset(s) != multiset(t)
  {
    assert |multiset(s)| == |s| && |multiset(t)| == |t|;
  }

  /** One more entry: either the first bad one, or the good part grows by it. */
  lemma {:induction false} Extend(all: seq<string>, names: seq<string>, i: nat)
    requires i <= |all| && (i > 0 ==> NoDuplicates(all[..i])) && forall k :: 0 <= k < i ==> all[k] in names
    ensures NoDuplicates(all[..i])
    ensures i < |all| && (all[i] !in names || all[i] in all[..i]) ==> FirstBad(all, names, i)
    ensures i < |all| && all[i] !in all[..i] ==> NoDuplicates(all[..i + 1])
  {
  }

  lemma {:induction false} BadIsNoPermutation(all: seq<string>, names: seq<string>, i: int)
    requires FirstBad(all, names, i)
    ensures !(NoDuplicates(all) && multiset(all) == multiset(names))
  {
    if all[i] in all[..i] {
      var k :| 0 <= k < i && all[..i][k] == all[i];
      assert all[k] == all[i];
    } else {
      assert all[i] in multiset(all) && all[i] !in multiset(names);
    }
  }

  /** As many distinct known names as there are names leave none out, and none repeated. */
  lemma {:induction false} Pigeonhole(s: seq<string>, names: seq<string>)
    requires NoDuplicates(s) && |s| == |names| && forall x :: x in s ==> x in names
    ensures multiset(s) == multiset(names)
  {
    if s != [] {
      assert s[0] in names;
      var j :| 0 <= j < |names| && names[j] == s[0];
      var rest := names[..j] + names[j + 1..];
      forall x | x in s[1..] ensures x in rest {
        var k :| 0 <= k < |s| - 1 && s[1..][k] == x;
        assert s[k + 1] in names && s[k + 1] != s[0];
        var m :| 0 <= m < |names| && names[m] == x;
        assert m < j ==> rest[m] == x;
        assert m > j ==> rest[m - 1] == x;
      }
      Pigeonhole(s[1..], rest);
      assert s == [s[0]] + s[1..];
      assert names == names[..j] + [names[j]] + names[j + 1..];
    }
  }

  ghost predicate Acceptable(priority: seq<string>, available: seq<string>) {
    NoDuplicates(Normalised(priority)) && multiset(Normalised(priority)) == multiset(Normalised(available))
  }

  /** Configured providers that collide once normalised make every priority unacceptable. */
  lemma {:induction false} CollidingProvidersRejectAll(priority: seq<string>, available: seq<string>)
    requires Acceptable(priority, available)
    ensures NoDuplicates(Normalised(available))
  {
    hide Normalised;
    var s, names := Normalised(priority), Normalised(available);
    assert |multiset(s)| == |multiset(names)|;
    forall x | x in names ensures x in s { assert x in multiset(names); }
    if i, j :| 0 <= i < j < |names| && names[i] == names[j] {
      RepeatShows(names, i, j);
      DistinctCounts(s, names[i]);
    }
  }

  lemma {:induction false} RepeatShows(s: seq<string>, i: nat, j: nat)
    requires i < j < |s| && s[i] == s[j]
    ensures multiset(s)[s[i]] >= 2
  {
    assert s == s[..j] + s[j..];
    assert s[..j][i] in multiset(s[..j]) && s[j..][0] in multiset(s[j..]);
  }

  lemma {:induction false} DistinctCounts(s: seq<string>, x: string)
    requires NoDuplicates(s)
    ensures multiset(s)[x] <= 1
  {
    if s != [] {
      assert s == [s[0]] + s[1..];
      DistinctCounts(s[1..], x);
      assert forall k :: 0 <= k < |s| - 1 ==> s[1..][k] == s[k + 1];
      assert s[0] !in s[1..];
    }
  }

  /** Completing an accepted priority returns it unchanged. */
  lemma {:induction false} CompletingAcceptedIsIdentity(priority: seq<string>, available: seq<string>)
    requires Acceptable(priority, available)
    ensures Complete(priority, available) == Normalised(priority)
  {
    hide Normalised, Kept, First;
    var s, all := Normalised(priority), Normalised(priority + available);
    CompleteMeaning(priority, available);
    NormalisedConcat(priority, available);
    forall i | 0 <= i < |s| ensures First(all, s[i]) == i {
      FirstMeaning(all, s[i]);
      assert all[i] == s[i];
    }
    forall x ensures x in s <==> x in Normalised(available) {
      assert x in s <==> x in multiset(s);
      assert x in Normalised(available) <==> x in multiset(Normalised(available));
    }
    OrderDetermines(Complete(priority, available), s, all);
  }
}
