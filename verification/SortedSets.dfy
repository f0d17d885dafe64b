/**
  Redis sorted sets: entries ordered by score and, for equal scores, by member; one entry per member.
  `Scores` is the abstract value; the lemmas state each command in terms of it.
 */
module SortedSets {

  datatype Entry = Entry(score: int, member: string)

  predicate LexLess(a: string, b: string) {
    b != "" && (a == "" || a[0] < b[0] || (a[0] == b[0] && LexLess(a[1..], b[1..])))
  }

  predicate Before(e: Entry, f: Entry) {
    e.score < f.score || (e.score == f.score && LexLess(e.member, f.member))
  }

  ghost predicate Valid(z: seq<Entry>) {
    && (forall i, j :: 0 <= i < j < |z| ==> Before(z[i], z[j]))
    && (forall i, j :: 0 <= i < j < |z| ==> z[i].member != z[j].member)
  }

  ghost predicate SameContent(z: seq<Entry>, m: map<string, int>) {
    && (forall e :: e in z ==> e.member in m && m[e.member] == e.score)
    && (forall x :: x in m ==> Entry(m[x], x) in z)
  }

  /** The member-to-score map of a sorted set. */
  ghost function Scores(z: seq<Entry>): (m: map<string, int>)
    requires Valid(z)
    ensures SameContent(z, m)
  {
    UniqueMembers(z);
    map e | e in z :: e.member := e.score
  }

  lemma {:induction false} UniqueMembers(z: seq<Entry>)
    requires Valid(z)
    ensures forall e, f :: e in z && f in z && e.member == f.member ==> e == f
  {
  }

  function Insert(z: seq<Entry>, e: Entry): seq<Entry> {
    if z == [] || Before(e, z[0]) then [e] + z else [z[0]] + Insert(z[1..], e)
  }

  /** ZREM */
  function Remove(z: seq<Entry>, member: string): seq<Entry> {
    if z == [] then [] else if z[0].member == member then Remove(z[1..], member)
    else [z[0]] + Remove(z[1..], member)
  }

  /** ZADD */
  function Add(z: seq<Entry>, score: int, member: string): seq<Entry> {
    Insert(Remove(z, member), Entry(score, member))
  }

  /** How many leading entries have a score of at most `max`. */
  function CountUpTo(z: seq<Entry>, max: int): (n: nat)
    ensures n <= |z| && (forall i :: 0 <= i < n ==> z[i].score <= max)
    ensures n < |z| ==> z[n].score > max
  {
    if z == [] || z[0].score > max then 0 else 1 + CountUpTo(z[1..], max)
  }

  /** ZRANGEBYSCORE z -inf max LIMIT 0 limit */
  function RangeUpTo(z: seq<Entry>, max: int, limit: nat): (ids: seq<string>)
    ensures |ids| == if CountUpTo(z, max) < limit then CountUpTo(z, max) else limit
    ensures forall i :: 0 <= i < |ids| ==> i < |z| && ids[i] == z[i].member
  {
    var n := CountUpTo(z, max);
    seq(if n < limit then n else limit, i requires 0 <= i < n => z[i].member)
  }

  lemma {:induction false} LexTotal(a: string, b: string)
    ensures a == b || LexLess(a, b) || LexLess(b, a)
  {
    if a != "" && b != "" && a[0] == b[0] {
      LexTotal(a[1..], b[1..]);
      assert a == [a[0]] + a[1..] && b == [b[0]] + b[1..];
    }
  }

  lemma {:induction false} LexTransitive(a: string, b: string, c: string)
    requires LexLess(a, b) && LexLess(b, c)
    ensures LexLess(a, c)
  {
    if a != "" && a[0] == b[0] && b[0] == c[0] { LexTransitive(a[1..], b[1..], c[1..]); }
  }

  lemma {:induction false} LexAsymmetric(a: string, b: string)
    requires LexLess(a, b)
    ensures a != b && !LexLess(b, a)
  {
    if a != "" && a[0] == b[0] { LexAsymmetric(a[1..], b[1..]); }
  }

  lemma {:induction false} BeforeTransitive(e: Entry, f: Entry, g: Entry)
    requires Before(e, f) && Before(f, g)
    ensures Before(e, g)
  {
    if e.score == g.score { LexTransitive(e.member, f.member, g.member); }
  }

  lemma {:induction false} InsertSorted(z: seq<Entry>, e: Entry)
    requires Valid(z) && forall i :: 0 <= i < |z| ==> z[i].member != e.member
    ensures Valid(Insert(z, e))
    ensures forall x :: x in Insert(z, e) <==> x == e || x in z
  {
    if z == [] {
    } else if Before(e, z[0]) {
      forall j | 1 <= j < |z| ensures Before(e, z[j]) { BeforeTransitive(e, z[0], z[j]); }
    } else {
      var rest := Insert(z[1..], e);
      InsertSorted(z[1..], e);
      LexTotal(e.member, z[0].member);
      forall j | 0 <= j < |rest| ensures Before(z[0], rest[j]) && z[0].member != rest[j].member {
        assert rest[j] in rest;
      }
    }
  }

  lemma {:induction false} RemoveKeepsOrder(z: seq<Entry>, member: string)
    requires Valid(z)
    ensures Valid(Remove(z, member))
    ensures forall x :: x in Remove(z, member) <==> x in z && x.member != member
  {
    if z != [] {
      RemoveKeepsOrder(z[1..], member);
      var rest := Remove(z[1..], member);
      forall j | 0 <= j < |rest| ensures Before(z[0], rest[j]) && z[0].member != rest[j].member {
        assert rest[j] in rest;
      }
    }
  }

  lemma {:induction false} ContentIsScores(z: seq<Entry>, m: map<string, int>)
    requires Valid(z) && SameContent(z, m)
    ensures Scores(z) == m
  {
  }

  /** ZREM forgets exactly one member. */
  lemma {:induction false} RemoveScores(z: seq<Entry>, member: string)
    requires Valid(z)
    ensures Valid(Remove(z, member)) && Scores(Remove(z, member)) == Scores(z) - {member}
  {
    RemoveKeepsOrder(z, member);
    ContentIsScores(Remove(z, member), Scores(z) - {member});
  }

  /** ZADD sets exactly one score. */
  lemma {:induction false} AddScores(z: seq<Entry>, score: int, member: string)
    requires Valid(z)
    ensures Valid(Add(z, score, member)) && Scores(Add(z, score, member)) == Scores(z)[member := score]
  {
    var r := Remove(z, member);
    RemoveKeepsOrder(z, member);
    forall i | 0 <= i < |r| ensures r[i].member != member { assert r[i] in r; }
    InsertSorted(r, Entry(score, member));
    AddContent(z, r, Add(z, score, member), Scores(z), Entry(score, member));
    ContentIsScores(Add(z, score, member), Scores(z)[member := score]);
  }

  lemma {:induction false} AddContent(z: seq<Entry>, r: seq<Entry>, a: seq<Entry>, m: map<string, int>, e: Entry)
    requires SameContent(z, m)
    requires forall x :: x in r <==> x in z && x.member != e.member
    requires forall x :: x in a <==> x == e || x in r
    ensures SameContent(a, m[e.member := e.score])
  {
  }

  lemma {:induction false} LastIsNew(z: seq<Entry>)
    requires Valid(z) && z != []
    ensures var init, e := z[..|z| - 1], z[|z| - 1];
            Valid(init) && e.member !in Scores(init) && Scores(z) == Scores(init)[e.member := e.score]
  {
    var init, e := z[..|z| - 1], z[|z| - 1];
    assert z == init + [e];
    assert SameContent(z, Scores(init)[e.member := e.score]);
    ContentIsScores(z, Scores(init)[e.member := e.score]);
  }

  /** ZCARD counts members. */
  lemma {:induction false} CardIsMembers(z: seq<Entry>)
    requires Valid(z)
    ensures |z| == |Scores(z)|
  {
    hide Valid, SameContent;
    if z != [] {
      hide Scores;
      LastIsNew(z);
      CardIsMembers(z[..|z| - 1]);
    }
  }

  lemma {:induction false} DueIsCounted(z: seq<Entry>, max: int, i: nat)
    requires Valid(z) && i < |z| && z[i].score <= max
    ensures i < CountUpTo(z, max)
  {
    assert forall j :: 0 <= j < i ==> Before(z[j], z[i]) && z[j].score <= z[i].score;
  }

  /** The range holds members due by `max` without repeats, and all of them when the limit allows. */
  lemma {:induction false} RangeUpToIsDue(z: seq<Entry>, max: int, limit: nat)
    requires Valid(z)
    ensures var ids := RangeUpTo(z, max, limit);
            && (forall i, j :: 0 <= i < j < |ids| ==> ids[i] != ids[j])
            && (forall id :: id in ids ==> id in Scores(z) && Scores(z)[id] <= max)
            && (|ids| < limit ==> forall id :: id in Scores(z) && Scores(z)[id] <= max ==> id in ids)
  {
    hide Before, LexLess;
    var ids := RangeUpTo(z, max, limit);
    var n := CountUpTo(z, max);
    if |ids| < limit {
      forall id | id in Scores(z) && Scores(z)[id] <= max ensures id in ids {
        var i :| 0 <= i < |z| && z[i] == Entry(Scores(z)[id], id);
        DueIsCounted(z, max, i);
        assert ids[i] == id;
      }
    }
  }
}
