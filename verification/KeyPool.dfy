/**
  Round-robin choice of a provider key for new access keys (`nextProviderKeyName` in
  `onr-admin/internal/service/service.go`).
 */
module KeyPool {
  import opened Text
  import opened Options

  datatype State = State(loaded: bool, names: map<string, seq<string>>, next: map<string, nat>)

  const FRESH := State(false, map[], map[])

  /** One call: `keys` is what the key file holds at that moment, none if it cannot be read. */
  datatype Call = Call(provider: string, configured: bool, keys: Option<map<string, seq<string>>>)

  function Provider(c: Call): string { Lower(TrimSpace(c.provider)) }

  function Load(s: State, c: Call): State {
    if s.loaded then s else State(true, if c.keys.Some? then s.names + c.keys.value else s.names, s.next)
  }

  function Pool(s: State, p: string): seq<string> { if p in s.names then s.names[p] else [] }

  function Next(s: State, p: string): nat { if p in s.next then s.next[p] else 0 }

  /** The new state and the pool position handed out, none if there is no key to hand out. */
  function Allocate(s: State, c: Call): (State, Option<nat>) {
    var p := Provider(c);
    if p == "" || !c.configured then (s, None) else
      var t := Load(s, c);
      if Pool(t, p) == [] then (t, None) else
        var i := Next(t, p) % |Pool(t, p)|;
        (t.(next := t.next[p := i + 1]), Some(i))
  }

  class Service {
    var loaded: bool
    var names: map<string, seq<string>>
    var next: map<string, nat>

    ghost function View(): State reads this { State(loaded, names, next) }

    constructor ()
      ensures View() == FRESH
    {
      loaded, names, next := false, map[], map[];
    }

    method NextProviderKeyName(c: Call) returns (name: string)
      modifies this
      ensures View() == Allocate(old(View()), c).0
      ensures var i := Allocate(old(View()), c).1;
              if i == None then name == ""
              else i.value < |Pool(View(), Provider(c))| && name == Pool(View(), Provider(c))[i.value]
    {
      hide TrimSpace, Lower;
      var p := Lower(TrimSpace(c.provider));
      if p == "" || !c.configured { return ""; }
      if !loaded {
        if c.keys.Some? { names := names + c.keys.value; }
        loaded := true;
      }
      var pool := if p in names then names[p] else [];
      if |pool| == 0 { return ""; }
      var i := (if p in next then next[p] else 0) % |pool|;
      next := next[p := i + 1];
      name := pool[i];
    }
  }

  function Run(calls: seq<Call>): State {
    if calls == [] then FRESH else Allocate(Run(calls[..|calls| - 1]), calls[|calls| - 1]).0
  }

  /** The positions handed out for provider `p`, in order, with the calls for other providers left out. */
  function Positions(calls: seq<Call>, p: string): seq<nat> {
    if calls == [] then [] else
      var n := |calls| - 1;
      var i := Allocate(Run(calls[..n]), calls[n]).1;
      Positions(calls[..n], p) + (if Provider(calls[n]) == p && i.Some? then [i.value] else [])
  }

  // ---------------------------------------------------------------- modular arithmetic

  lemma {:induction false} ModIs(x: nat, n: nat, q: nat, r: nat)
    requires 0 < n && r < n && x == q * n + r
    ensures x % n == r && x / n == q
  {
    var d := x / n - q;
    assert d * n == r - x % n;
    assert d > 0 ==> d * n >= n;
    assert d < 0 ==> d * n <= 0 - n;
  }

  lemma {:induction false} Successor(x: nat, n: nat)
    requires 0 < n
    ensures if x % n == n - 1 then (x + 1) % n == 0 && (x + 1) / n == x / n + 1
            else (x + 1) % n == x % n + 1 && (x + 1) / n == x / n
  {
    if x % n == n - 1 {
      assert x + 1 == (x / n + 1) * n;
      ModIs(x + 1, n, x / n + 1, 0);
    } else {
      ModIs(x + 1, n, x / n, x % n + 1);
    }
  }

  // ---------------------------------------------------------------- fairness

  /** What the counter of `p` knows after `k` allocations. */
  ghost predicate Tracks(s: State, p: string, k: nat) {
    var n := |Pool(s, p)|;
    && (!s.loaded ==> s.names == map[])
    && (if k == 0 then p !in s.next else n > 0 && p in s.next && s.next[p] == (k - 1) % n + 1)
  }

  lemma {:induction false} StepTracks(s: State, c: Call, p: string, k: nat)
    requires Tracks(s, p, k)
    ensures var (t, i) := Allocate(s, c);
            && (k > 0 ==> Pool(t, p) == Pool(s, p))
            && Tracks(t, p, if Provider(c) == p && i.Some? then k + 1 else k)
            && (Provider(c) == p && i.Some? ==> 0 < |Pool(t, p)| && i.value == k % |Pool(t, p)|)
  {
    hide Provider;
    var t := Load(s, c);
    var n := |Pool(t, Provider(c))|;
    if Provider(c) == p && n > 0 {
      if k > 0 {
        Successor(k - 1, n);
        if (k - 1) % n == n - 1 { ModIs(n, n, 1, 0); } else { ModIs(s.next[p], n, 0, s.next[p]); }
      } else {
        ModIs(0, n, 0, 0);
      }
    }
  }

  /** In every run, the k-th allocation for a provider takes position k modulo the size of its pool. */
  lemma {:induction false} RoundRobin(calls: seq<Call>, p: string)
    ensures var out, n := Positions(calls, p), |Pool(Run(calls), p)|;
            && Tracks(Run(calls), p, |out|)
            && (out != [] ==> n > 0 && forall k :: 0 <= k < |out| ==> out[k] == k % n)
  {
    hide Provider, Allocate, Tracks;
    if calls == [] {
      Started(p);
    } else {
      var n := |calls| - 1;
      RoundRobin(calls[..n], p);
      StepTracks(Run(calls[..n]), calls[n], p, |Positions(calls[..n], p)|);
    }
  }

  lemma {:induction false} Started(p: string)
    ensures Tracks(FRESH, p, 0)
  {
  }

  /** Where a window of `n` consecutive numbers from `start` meets the residue `pos`. */
  function At(start: nat, n: nat, pos: nat): nat
    requires pos < n
  {
    if pos >= start % n then start + (pos - start % n) else start + (n - start % n) + pos
  }

  lemma {:induction false} OncePerCycle(start: nat, n: nat, pos: nat, k: nat)
    requires pos < n && start <= k < start + n
    ensures k % n == pos <==> k == At(start, n, pos)
  {
    var q, r, d := start / n, start % n, k - start;
    assert start == q * n + r;
    if r + d < n {
      ModIs(k, n, q, r + d);
    } else {
      assert (q + 1) * n == q * n + n;
      ModIs(k, n, q + 1, r + d - n);
    }
  }

  /** Any pool-size consecutive allocations for one provider use each of its positions exactly once. */
  lemma {:induction false} EachPositionOnce(calls: seq<Call>, p: string, start: nat, pos: nat) returns (at: nat)
    requires start + |Pool(Run(calls), p)| <= |Positions(calls, p)| && pos < |Pool(Run(calls), p)|
    ensures start <= at < start + |Pool(Run(calls), p)|
    ensures forall k :: start <= k < start + |Pool(Run(calls), p)| ==> (Positions(calls, p)[k] == pos <==> k == at)
  {
    hide Run, Positions, Pool, Tracks;
    RoundRobin(calls, p);
    var out, n := Positions(calls, p), |Pool(Run(calls), p)|;
    at := At(start, n, pos);
    forall k | start <= k < start + n ensures out[k] == pos <==> k == at {
      OncePerCycle(start, n, pos, k);
    }
  }

  function Uses(out: seq<nat>, pos: nat): nat {
    if out == [] then 0 else Uses(out[..|out| - 1], pos) + (if out[|out| - 1] == pos then 1 else 0)
  }

  lemma {:induction false} UsesOfCycle(out: seq<nat>, n: nat, pos: nat)
    requires pos < n && forall k :: 0 <= k < |out| ==> out[k] == k % n
    ensures Uses(out, pos) == |out| / n + (if pos < |out| % n then 1 else 0)
  {
    if out == [] {
      ModIs(0, n, 0, 0);
    } else {
      UsesOfCycle(out[..|out| - 1], n, pos);
      Successor(|out| - 1, n);
    }
  }

  /** Use counts of two positions never differ by more than one, the earlier position being the one ahead. */
  lemma {:induction false} UsesDifferByAtMostOne(calls: seq<Call>, p: string, a: nat, b: nat)
    requires a <= b < |Pool(Run(calls), p)|
    ensures Uses(Positions(calls, p), b) <= Uses(Positions(calls, p), a) <= Uses(Positions(calls, p), b) + 1
  {
    hide Run, Positions, Pool, Tracks;
    RoundRobin(calls, p);
    var n := |Pool(Run(calls), p)|;
    UsesOfCycle(Positions(calls, p), n, a);
    UsesOfCycle(Positions(calls, p), n, b);
  }

  /** The call reaches the key pool. */
  predicate Reaches(c: Call) { Provider(c) != "" && c.configured }

  /** The pools are those of the key file at the first call that reaches them, for good; none if it was unreadable. */
  lemma {:induction false} PoolsAreLoadedOnce(calls: seq<Call>, k: nat)
    requires k < |calls| && Reaches(calls[k]) && forall i :: 0 <= i < k ==> !Reaches(calls[i])
    ensures Run(calls).loaded && Run(calls).names == if calls[k].keys.Some? then calls[k].keys.value else map[]
    decreases |calls|
  {
    hide Provider;
    var n := |calls| - 1;
    if k == n {
      NotLoadedYet(calls[..n]);
    } else {
      PoolsAreLoadedOnce(calls[..n], k);
    }
  }

  lemma {:induction false} NotLoadedYet(calls: seq<Call>)
    requires forall i :: 0 <= i < |calls| ==> !Reaches(calls[i])
    ensures Run(calls) == FRESH
  {
    hide Provider;
    if calls != [] {
      NotLoadedYet(calls[..|calls| - 1]);
      assert !Reaches(calls[|calls| - 1]);
    }
  }
}
