/**
  The per-key counter of unsettled billing events (`EnqueueBillingEventForAccessKey`, `AckBilling`,
  `DeadLetterBilling` in `pkg/controlplane/redis.go`). Stream ids are the increasing numbers Redis hands out.
  `pel` is the consumer group's pending list, `keyOf` maps an unsettled event to its access key.
 */
module Settlement {
  import opened Text

  datatype Stream = Stream(lastId: nat, entries: set<nat>, lastDelivered: nat, pel: set<nat>, keyOf: map<nat, string>,
                           pending: map<string, int>, attempts: map<nat, int>, deadLetters: seq<nat>)

  datatype Op =
    | Enqueue(key: string)
    | Deliver(upTo: nat)
    | Ack(ids: seq<nat>)
    | Attempt(id: nat)
    | DeadLetter(id: nat)

  const EMPTY := Stream(0, {}, 0, {}, map[], map[], map[], [])

  function Count(s: Stream, key: string): int { if key in s.pending then s.pending[key] else 0 }

  /** Decrement the event's key, dropping a counter that reaches zero, and forget the event. */
  function Settle(s: Stream, id: nat): Stream {
    if id !in s.keyOf then s else
      var key := s.keyOf[id];
      var left := Count(s, key) - 1;
      s.(pending := if left <= 0 then s.pending - {key} else s.pending[key := left], keyOf := s.keyOf - {id})
  }

  function AckOne(s: Stream, id: nat): Stream {
    if id in s.pel then Settle(s.(pel := s.pel - {id}), id) else s
  }

  function AckAll(s: Stream, ids: seq<nat>): Stream {
    if ids == [] then s else AckOne(AckAll(s, ids[..|ids| - 1]), ids[|ids| - 1])
  }

  function Step(s: Stream, op: Op): Stream {
    match op
    case Enqueue(key) =>
      var id := s.lastId + 1;
      var t := s.(lastId := id, entries := s.entries + {id});
      if key == "" then t else t.(keyOf := s.keyOf[id := key], pending := s.pending[key := Count(s, key) + 1])
    case Deliver(upTo) =>
      if s.lastDelivered < upTo <= s.lastId
      then s.(pel := s.pel + (set id | id in s.entries && s.lastDelivered < id <= upTo), lastDelivered := upTo) else s
    case Ack(ids) => AckAll(s, ids)
    case Attempt(id) => s.(attempts := s.attempts[id := (if id in s.attempts then s.attempts[id] else 0) + 1])
    case DeadLetter(id) =>
      Settle(s.(deadLetters := s.deadLetters + [id], pel := s.pel - {id}, entries := s.entries - {id},
                attempts := s.attempts - {id}), id)
  }

  class Client {
    var lastId: nat
    var entries: set<nat>
    var lastDelivered: nat
    var pel: set<nat>
    var keyOf: map<nat, string>
    var pending: map<string, int>
    var attempts: map<nat, int>
    var deadLetters: seq<nat>

    ghost function State(): Stream
      reads this
    {
      Stream(lastId, entries, lastDelivered, pel, keyOf, pending, attempts, deadLetters)
    }

    constructor ()
      ensures State() == EMPTY
    {
      lastId, entries, lastDelivered, pel := 0, {}, 0, {};
      keyOf, pending, attempts, deadLetters := map[], map[], map[], [];
    }

    method EnqueueBillingEvent(rawKey: string) returns (id: nat)
      modifies this
      ensures State() == Step(old(State()), Enqueue(TrimSpace(rawKey))) && id == lastId
    {
      hide TrimSpace;
      var key := TrimSpace(rawKey);
      lastId := lastId + 1;
      entries := entries + {lastId};
      if key != "" {
        keyOf := keyOf[lastId := key];
        pending := pending[key := (if key in pending then pending[key] else 0) + 1];
      }
      return lastId;
    }

    method SettleEvent(id: nat)
      modifies this`keyOf, this`pending
      ensures State() == Settle(old(State()), id)
    {
      if id in keyOf {
        var key := keyOf[id];
        pending := pending[key := (if key in pending then pending[key] else 0) - 1];
        if pending[key] <= 0 { pending := pending - {key}; }
        keyOf := keyOf - {id};
      }
    }

    method AckBilling(ids: seq<nat>) returns (total: nat)
      modifies this
      ensures State() == Step(old(State()), Ack(ids))
      ensures total == |old(pel)| - |pel|
    {
      total := 0;
      var i := 0;
      while i < |ids|
        invariant 0 <= i <= |ids| && State() == AckAll(old(State()), ids[..i])
        invariant total == |old(pel)| - |pel|
      {
        assert ids[..i + 1][..i] == ids[..i];
        if ids[i] in pel {
          pel := pel - {ids[i]};
          total := total + 1;
          SettleEvent(ids[i]);
        }
        i := i + 1;
      }
      assert ids[..i] == ids;
    }

    /** Attempts so far, this one included. */
    method IncrementBillingAttempt(id: nat) returns (n: int)
      modifies this`attempts
      ensures State() == Step(old(State()), Attempt(id)) && n == attempts[id]
    {
      n := (if id in attempts then attempts[id] else 0) + 1;
      attempts := attempts[id := n];
    }

    method DeadLetterBilling(id: nat)
      modifies this
      ensures State() == Step(old(State()), DeadLetter(id))
    {
      deadLetters := deadLetters + [id];
      pel := pel - {id};
      entries := entries - {id};
      attempts := attempts - {id};
      SettleEvent(id);
    }
  }

  // ---------------------------------------------------------------- the counter invariant

  ghost function Unsettled(s: Stream, key: string): set<nat> { set id | id in s.keyOf && s.keyOf[id] == key }

  /** Each key's counter is the number of its unsettled events, and is absent exactly when there are none. */
  ghost predicate Counted(s: Stream) {
    && (forall id :: id in s.keyOf ==> id <= s.lastId)
    && (forall id :: id in s.entries + s.pel ==> id <= s.lastId)
    && (forall id :: id in s.pel ==> id <= s.lastDelivered)
    && (forall key :: key in s.pending <==> Unsettled(s, key) != {})
    && (forall key :: key in s.pending ==> s.pending[key] == |Unsettled(s, key)|)
  }

  lemma {:induction false} SettleTakesOne(s: Stream, id: nat, key: string)
    requires id in s.keyOf
    ensures Unsettled(Settle(s, id), key) == Unsettled(s, key) - (if key == s.keyOf[id] then {id} else {})
    ensures key == s.keyOf[id] <==> id in Unsettled(s, key)
  {
  }

  lemma {:induction false} SettleKeepsCount(s: Stream, id: nat)
    requires Counted(s)
    ensures Counted(Settle(s, id))
  {
    hide Unsettled;
    if id in s.keyOf {
      var t, key := Settle(s, id), s.keyOf[id];
      forall k ensures k in t.pending <==> Unsettled(t, k) != {}
               ensures k in t.pending ==> t.pending[k] == |Unsettled(t, k)|
      {
        SettleTakesOne(s, id, k);
        if k == key { assert |Unsettled(t, k)| == |Unsettled(s, k)| - 1; }
      }
    }
  }

  lemma {:induction false} AckKeepsCount(s: Stream, ids: seq<nat>)
    requires Counted(s)
    ensures Counted(AckAll(s, ids))
  {
    if ids != [] {
      var t, id := AckAll(s, ids[..|ids| - 1]), ids[|ids| - 1];
      AckKeepsCount(s, ids[..|ids| - 1]);
      DropKeepsCount(t, t.(pel := t.pel - {id}));
      SettleKeepsCount(t.(pel := t.pel - {id}), id);
    }
  }

  lemma {:induction false} DropKeepsCount(s: Stream, t: Stream)
    requires Counted(s) && t.keyOf == s.keyOf && t.pending == s.pending && t.lastId == s.lastId
    requires t.entries <= s.entries && t.pel <= s.pel && t.lastDelivered == s.lastDelivered
    ensures Counted(t)
  {
    forall k ensures Unsettled(t, k) == Unsettled(s, k) {}
  }

  lemma {:induction false} EnqueueKeepsCount(s: Stream, key: string)
    requires Counted(s)
    ensures Counted(Step(s, Enqueue(key)))
  {
    hide Unsettled;
    var t, id := Step(s, Enqueue(key)), s.lastId + 1;
    forall k ensures k in t.pending <==> Unsettled(t, k) != {}
             ensures k in t.pending ==> t.pending[k] == |Unsettled(t, k)|
    {
      EnqueueAddsOne(s, key, k);
      if k == key && key != "" { assert |Unsettled(t, k)| == |Unsettled(s, k)| + 1; }
    }
  }

  lemma {:induction false} EnqueueAddsOne(s: Stream, key: string, k: string)
    requires s.lastId + 1 !in s.keyOf
    ensures Unsettled(Step(s, Enqueue(key)), k)
         == Unsettled(s, k) + (if k == key && key != "" then {s.lastId + 1} else {})
    ensures s.lastId + 1 !in Unsettled(s, k)
  {
  }

  /** Every step keeps every counter exact. */
  lemma {:induction false} StepKeepsCount(s: Stream, op: Op)
    requires Counted(s)
    ensures Counted(Step(s, op))
  {
    match op
    case Enqueue(key) => EnqueueKeepsCount(s, key);
    case Deliver(upTo) => forall k ensures Unsettled(Step(s, op), k) == Unsettled(s, k) {}
    case Ack(ids) => AckKeepsCount(s, ids);
    case Attempt(id) => DropKeepsCount(s, Step(s, op));
    case DeadLetter(id) =>
      var t := s.(deadLetters := s.deadLetters + [id], pel := s.pel - {id}, entries := s.entries - {id},
                  attempts := s.attempts - {id});
      DropKeepsCount(s, t);
      SettleKeepsCount(t, id);
  }

  // ---------------------------------------------------------------- whole runs

  function After(ops: seq<Op>, i: nat): Stream
    requires i <= |ops|
  {
    if i == 0 then EMPTY else Step(After(ops, i - 1), ops[i - 1])
  }

  /** In every run of enqueues, deliveries, acks (repeated, early or late), attempts and dead letters. */
  lemma {:induction false} RunKeepsCount(ops: seq<Op>, i: nat)
    requires i <= |ops|
    ensures Counted(After(ops, i))
  {
    if i > 0 {
      RunKeepsCount(ops, i - 1);
      StepKeepsCount(After(ops, i - 1), ops[i - 1]);
    }
  }

  function Enqueued(ops: seq<Op>, i: nat, key: string): nat
    requires i <= |ops|
  {
    if i == 0 then 0 else Enqueued(ops, i - 1, key) + (if ops[i - 1] == Enqueue(key) then 1 else 0)
  }

  /** The events of `key` that a step settles. */
  ghost function SettledNow(ops: seq<Op>, i: nat, key: string): set<nat>
    requires i < |ops|
  {
    Unsettled(After(ops, i), key) - Unsettled(After(ops, i + 1), key)
  }

  ghost function SettledBy(ops: seq<Op>, i: nat, key: string): nat
    requires i <= |ops|
  {
    if i == 0 then 0 else SettledBy(ops, i - 1, key) + |SettledNow(ops, i - 1, key)|
  }

  lemma {:induction false} AckOnlySettles(s: Stream, ids: seq<nat>)
    ensures AckAll(s, ids).keyOf.Keys <= s.keyOf.Keys && AckAll(s, ids).pel <= s.pel
    ensures forall id :: id in AckAll(s, ids).keyOf ==> AckAll(s, ids).keyOf[id] == s.keyOf[id]
    ensures AckAll(s, ids).lastId == s.lastId && AckAll(s, ids).entries == s.entries
    ensures AckAll(s, ids).lastDelivered == s.lastDelivered
  {
    if ids != [] { AckOnlySettles(s, ids[..|ids| - 1]); }
  }

  lemma {:induction false} StepOnUnsettled(s: Stream, op: Op, key: string)
    requires Counted(s) && key != ""
    ensures Unsettled(Step(s, op), key) - Unsettled(s, key) == if op == Enqueue(key) then {s.lastId + 1} else {}
    ensures s.lastId + 1 !in Unsettled(s, key)
  {
    if op.Ack? { AckOnlySettles(s, op.ids); }
  }

  lemma {:induction false} Sizes(a: set<nat>, b: set<nat>)
    ensures |b| == |a| - |a - b| + |b - a|
  {
    assert b == (a * b) + (b - a);
    assert a == (a * b) + (a - b);
  }

  /** Conservation: what was enqueued for a key is either still counted or was settled by exactly one step. */
  lemma {:induction false} EnqueuedIsPendingPlusSettled(ops: seq<Op>, i: nat, key: string)
    requires i <= |ops| && key != ""
    ensures Enqueued(ops, i, key) == |Unsettled(After(ops, i), key)| + SettledBy(ops, i, key)
  {
    hide Counted, Step;
    if i > 0 {
      hide Unsettled;
      EnqueuedIsPendingPlusSettled(ops, i - 1, key);
      RunKeepsCount(ops, i - 1);
      StepOnUnsettled(After(ops, i - 1), ops[i - 1], key);
      Sizes(Unsettled(After(ops, i - 1), key), Unsettled(After(ops, i), key));
    } else {
      assert Unsettled(EMPTY, key) == {};
    }
  }

  lemma {:induction false} StepNeverRevives(s: Stream, op: Op, id: nat)
    requires Counted(s) && id <= s.lastId && id !in s.keyOf
    ensures id !in Step(s, op).keyOf && id <= Step(s, op).lastId
  {
    if op.Ack? { AckOnlySettles(s, op.ids); }
  }

  /** A settled event stays settled, so no event is ever decremented twice. */
  lemma {:induction false} SettledOnceForAll(ops: seq<Op>, i: nat, j: nat, id: nat)
    requires i <= j <= |ops| && id <= After(ops, i).lastId && id !in After(ops, i).keyOf
    ensures id <= After(ops, j).lastId && id !in After(ops, j).keyOf
  {
    if i < j {
      SettledOnceForAll(ops, i, j - 1, id);
      RunKeepsCount(ops, j - 1);
      StepNeverRevives(After(ops, j - 1), ops[j - 1], id);
    }
  }

  ghost predicate Gone(s: Stream, id: nat) {
    id <= s.lastId && id !in s.entries && id !in s.pel && id !in s.keyOf
  }

  lemma {:induction false} StepKeepsGone(s: Stream, op: Op, id: nat)
    requires Counted(s) && Gone(s, id)
    ensures Gone(Step(s, op), id)
  {
    if op.Ack? { AckOnlySettles(s, op.ids); }
  }

  /** After a dead letter the event never comes back, and a late ack of it changes nothing. */
  lemma {:induction false} DeadLetterIsFinal(ops: seq<Op>, i: nat, j: nat, id: nat)
    requires i < j <= |ops| && ops[i] == DeadLetter(id) && id <= After(ops, i).lastId
    ensures Gone(After(ops, j), id) && AckOne(After(ops, j), id) == After(ops, j)
    decreases j
  {
    RunKeepsCount(ops, j - 1);
    if j > i + 1 {
      DeadLetterIsFinal(ops, i, j - 1, id);
      StepKeepsGone(After(ops, j - 1), ops[j - 1], id);
    }
  }

  /** Acking any list of ids that were never delivered changes nothing and leaves them counted. */
  lemma {:induction false} EarlyAckChangesNothing(s: Stream, ids: seq<nat>)
    requires Counted(s) && forall i :: 0 <= i < |ids| ==> ids[i] > s.lastDelivered
    ensures Step(s, Ack(ids)) == s
  {
    if ids != [] { EarlyAckChangesNothing(s, ids[..|ids| - 1]); }
  }

  // ---------------------------------------------------------------- what settles an event

  /** An ack settles exactly the delivered, unacked ids on its list. */
  lemma {:induction false} AckMeaning(s: Stream, ids: seq<nat>, id: nat)
    ensures var t := AckAll(s, ids);
            && (id in t.pel <==> id in s.pel && id !in ids)
            && (id in t.keyOf <==> id in s.keyOf && !(id in s.pel && id in ids))
            && (id in t.keyOf ==> t.keyOf[id] == s.keyOf[id])
  {
    if ids != [] {
      var n := |ids| - 1;
      AckMeaning(s, ids[..n], id);
      assert ids == ids[..n] + [ids[n]];
    }
  }

  /** The operation settles event `id`: an ack of a delivered id, or a dead letter. */
  predicate Settles(s: Stream, op: Op, id: nat) {
    (op.Ack? && id in op.ids && id in s.pel) || op == DeadLetter(id)
  }

  /** The operation hands event `id` to a consumer for the first time. */
  predicate Delivers(s: Stream, op: Op, id: nat) {
    op.Deliver? && id in s.entries && s.lastDelivered < id <= op.upTo <= s.lastId
  }

  /** What one step does to an event that was enqueued before. */
  lemma {:induction false} StepOnEvent(s: Stream, op: Op, id: nat)
    requires id <= s.lastId
    ensures var t := Step(s, op);
            && (id in t.keyOf <==> id in s.keyOf && !Settles(s, op, id))
            && (id in t.keyOf ==> t.keyOf[id] == s.keyOf[id])
            && (id in t.pel <==> (id in s.pel && !Settles(s, op, id)) || Delivers(s, op, id))
            && (id in t.entries <==> id in s.entries && op != DeadLetter(id))
            && id <= t.lastId
  {
    if op.Ack? {
      AckMeaning(s, op.ids, id);
      AckOnlySettles(s, op.ids);
    }
  }

  /** Step `k` enqueued event `id` for `key`. */
  predicate EnqueuedAt(ops: seq<Op>, k: nat, id: nat, key: string)
    requires k < |ops|
  {
    ops[k] == Enqueue(key) && id == After(ops, k).lastId + 1
  }

  ghost predicate SettledBetween(ops: seq<Op>, k: nat, i: nat, id: nat)
    requires k <= i <= |ops|
  {
    exists m :: k <= m < i && Settles(After(ops, m), ops[m], id)
  }

  lemma {:induction false} SettledOneMore(ops: seq<Op>, k: nat, i: nat, id: nat)
    requires k < i <= |ops|
    ensures SettledBetween(ops, k, i, id)
        <==> SettledBetween(ops, k, i - 1, id) || Settles(After(ops, i - 1), ops[i - 1], id)
  {
    hide Settles, Step;
  }

  lemma {:induction false} EnqueueMaps(s: Stream, key: string)
    requires key != ""
    ensures var t, id := Step(s, Enqueue(key)), s.lastId + 1;
            id == t.lastId && id in t.keyOf && t.keyOf[id] == key && id in t.entries
  {
  }

  /** Over whole runs: an event counts for its key until the first ack after its delivery or its dead letter. */
  lemma {:induction false} CountedUntilSettled(ops: seq<Op>, k: nat, i: nat, id: nat, key: string)
    requires k < i <= |ops| && EnqueuedAt(ops, k, id, key) && key != ""
    ensures id <= After(ops, i).lastId
    ensures id in After(ops, i).keyOf <==> !SettledBetween(ops, k + 1, i, id)
    ensures id in After(ops, i).keyOf ==> After(ops, i).keyOf[id] == key
  {
    hide Step, Settles;
    if i == k + 1 {
      assert After(ops, i) == Step(After(ops, k), ops[k]);
      EnqueueMaps(After(ops, k), key);
    } else {
      CountedUntilSettled(ops, k, i - 1, id, key);
      SettledOneMore(ops, k + 1, i, id);
      hide SettledBetween;
      StepOnEvent(After(ops, i - 1), ops[i - 1], id);
    }
  }

  /** The events of `key` that an ack of `ids` settles. */
  ghost function AckedNow(s: Stream, ids: seq<nat>, key: string): set<nat> {
    set id | id in s.keyOf && s.keyOf[id] == key && id in s.pel && id in ids
  }

  lemma {:induction false} CountIsUnsettled(s: Stream, key: string)
    requires Counted(s)
    ensures Count(s, key) == |Unsettled(s, key)|
  {
    hide Unsettled;
  }

  /** In every run an ack lowers each key's counter by exactly its delivered, unacked, mapped ids. */
  lemma {:induction false} AckLowersCounters(ops: seq<Op>, i: nat, key: string)
    requires i < |ops| && ops[i].Ack?
    ensures Count(After(ops, i + 1), key) == Count(After(ops, i), key) - |AckedNow(After(ops, i), ops[i].ids, key)|
  {
    hide Counted, Step, Count;
    var s, ids := After(ops, i), ops[i].ids;
    RunKeepsCount(ops, i);
    RunKeepsCount(ops, i + 1);
    CountIsUnsettled(s, key);
    CountIsUnsettled(After(ops, i + 1), key);
    AckTakes(s, ids, key);
    assert After(ops, i + 1) == Step(s, ops[i]);
  }

  lemma {:induction false} AckTakes(s: Stream, ids: seq<nat>, key: string)
    ensures Unsettled(Step(s, Ack(ids)), key) == Unsettled(s, key) - AckedNow(s, ids, key)
    ensures |Unsettled(Step(s, Ack(ids)), key)| == |Unsettled(s, key)| - |AckedNow(s, ids, key)|
  {
    hide AckAll;
    forall id ensures id in Unsettled(Step(s, Ack(ids)), key) <==> id in Unsettled(s, key) - AckedNow(s, ids, key) {
      AckMeaning(s, ids, id);
    }
    assert AckedNow(s, ids, key) <= Unsettled(s, key);
  }

  /** In every run a dead letter is kept aside, and lowers the counter of its key, and no other, by one. */
  lemma {:induction false} DeadLetterLowersCounter(ops: seq<Op>, i: nat, key: string)
    requires i < |ops| && ops[i].DeadLetter?
    ensures var s, t, id := After(ops, i), After(ops, i + 1), ops[i].id;
            && t.deadLetters == s.deadLetters + [id] && id !in t.keyOf && id !in t.pel && id !in t.attempts
            && Count(t, key) == Count(s, key) - (if id in s.keyOf && s.keyOf[id] == key then 1 else 0)
  {
    var s, id := After(ops, i), ops[i].id;
    RunKeepsCount(ops, i);
    RunKeepsCount(ops, i + 1);
    CountIsUnsettled(s, key);
    CountIsUnsettled(After(ops, i + 1), key);
    DeadLetterTakes(s, id, key);
    hide Counted, Count, Unsettled;
  }

  lemma {:induction false} DeadLetterTakes(s: Stream, id: nat, key: string)
    ensures var gone := if id in s.keyOf && s.keyOf[id] == key then {id} else {};
            && Unsettled(Step(s, DeadLetter(id)), key) == Unsettled(s, key) - gone
            && |Unsettled(Step(s, DeadLetter(id)), key)| == |Unsettled(s, key)| - |gone|
  {
    var gone := if id in s.keyOf && s.keyOf[id] == key then {id} else {};
    assert gone <= Unsettled(s, key);
  }

  /** How often an event was attempted since its last dead letter. */
  function Attempts(ops: seq<Op>, i: nat, id: nat): nat
    requires i <= |ops|
  {
    if i == 0 then 0
    else if ops[i - 1] == DeadLetter(id) then 0
    else Attempts(ops, i - 1, id) + (if ops[i - 1] == Attempt(id) then 1 else 0)
  }

  lemma {:induction false} AttemptsAreCounted(ops: seq<Op>, i: nat, id: nat)
    requires i <= |ops|
    ensures (if id in After(ops, i).attempts then After(ops, i).attempts[id] else 0) == Attempts(ops, i, id)
  {
    if i > 0 {
      AttemptsAreCounted(ops, i - 1, id);
      if ops[i - 1].Ack? { AckKeepsAttempts(After(ops, i - 1), ops[i - 1].ids); }
    }
  }

  lemma {:induction false} AckKeepsAttempts(s: Stream, ids: seq<nat>)
    ensures AckAll(s, ids).attempts == s.attempts
  {
    if ids != [] { AckKeepsAttempts(s, ids[..|ids| - 1]); }
  }
}
