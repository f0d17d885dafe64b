/**
  The reconciliation lease queue of `pkg/controlplane/reconciliation.go`: a store of candidates, a sorted set of
  due times, and four scripts. Each script is one atomic step; workers interleave freely.
  Ids arrive raw: the record key drops surrounding spaces and colons, the due-set member only spaces (`Ref`).
 */
module LeaseQueue {
  import opened Text
  import opened SortedSets

  /** `leaseToken == ""` stands for the absent field; `info` is the immutable correlation part of the record. */
  datatype Candidate = Candidate(info: string, attempts: int, lastError: string,
                                 leaseOwner: string, leaseToken: string, leaseUntilNs: int, nextAttemptNs: int)

  datatype Queue = Queue(candidates: map<string, Candidate>, due: seq<Entry>)

  datatype Outcome = Created | Existing | Claimed(ids: seq<string>) | Settled | Stale | Missing | Rejected

  /** A candidate as a settling caller names it: the record key and the due-set member made from one raw id. */
  datatype Ref = Ref(key: string, member: string)

  datatype Op =
    | Enqueue(id: string, record: Candidate)
    | Claim(owner: string, nowNs: int, leaseNs: int, limit: int, token: string)
    | Ack(ref: Ref, token: string)
    | Retry(ref: Ref, token: string, code: string, nextNs: int)

  const EMPTY := Queue(map[], [])
  const NS_PER_MS := 1_000_000

  /** Go's zero time, the first instant of the year 1, in nanoseconds since 1970. */
  const ZERO_TIME := -62_135_596_800_000_000_000

  function Millis(ns: int): int { ns / NS_PER_MS }

  /** A lower-case hexadecimal SHA-256 digest, the only form of id that enqueueing stores under. */
  predicate IsDigest(id: string) {
    |id| == 64 && forall i :: 0 <= i < 64 ==> '0' <= id[i] <= '9' || 'a' <= id[i] <= 'f'
  }

  function RefOf(rawId: string): Ref { Ref(KeyPart(rawId), TrimSpace(rawId)) }

  /** On a trimmed code. */
  predicate ValidErrorCode(c: string) {
    0 < |c| <= 64
    && forall i :: 0 <= i < |c| ==> 'a' <= c[i] <= 'z' || '0' <= c[i] <= '9' || c[i] in "_-."
  }

  /** What a caller enqueues: the identity, the other required texts, whether it has a time, and the record to store. */
  datatype Draft = Draft(id: string, provider: string, keyId: string, requestId: string, required: seq<string>,
                         hasTime: bool, record: Candidate)

  function Identity(d: Draft): string {
    Lower(TrimSpace(d.provider)) + "\0" + TrimSpace(d.keyId) + "\0" + TrimSpace(d.requestId)
  }

  predicate Enqueueable(d: Draft, digest: string -> string) {
    && TrimSpace(d.provider) != "" && TrimSpace(d.keyId) != "" && TrimSpace(d.requestId) != ""
    && (forall i :: 0 <= i < |d.required| ==> TrimSpace(d.required[i]) != "")
    && d.hasTime && (d.id == "" || d.id == digest(Identity(d)))
  }

  function WithNextAttempt(c: Candidate, nowNs: int): Candidate {
    if c.nextAttemptNs == ZERO_TIME then c.(nextAttemptNs := nowNs) else c
  }

  function PageSize(limit: int): nat { if limit > 100 then 100 else if limit < 0 then 0 else limit }

  predicate Claimable(op: Op)
    requires op.Claim?
  {
    op.owner != "" && op.leaseNs > 0 && op.limit > 0
  }

  /** The token that a settle call must present: the current one, and never the absent one. */
  predicate Holds(q: Queue, id: string, token: string) {
    id in q.candidates && token != "" && q.candidates[id].leaseToken == token
  }

  function Leased(c: Candidate, op: Op): Candidate
    requires op.Claim?
  {
    c.(leaseOwner := op.owner, leaseToken := op.token, leaseUntilNs := op.nowNs + op.leaseNs)
  }

  function Retried(c: Candidate, op: Op): Candidate
    requires op.Retry?
  {
    c.(attempts := c.attempts + 1, lastError := op.code, leaseOwner := "", leaseToken := "",
       leaseUntilNs := 0, nextAttemptNs := op.nextNs)
  }

  /** The claim script's loop body: lease a candidate that exists, drop a due id that has none. */
  function Visit(q: Queue, id: string, op: Op): Queue
    requires op.Claim?
  {
    if id in q.candidates
    then Queue(q.candidates[id := Leased(q.candidates[id], op)], Add(q.due, Millis(op.nowNs + op.leaseNs), id))
    else Queue(q.candidates, Remove(q.due, id))
  }

  function VisitAll(q: Queue, ids: seq<string>, op: Op): Queue
    requires op.Claim?
  {
    if ids == [] then q else Visit(VisitAll(q, ids[..|ids| - 1], op), ids[|ids| - 1], op)
  }

  function Found(ids: seq<string>, live: set<string>): (r: seq<string>)
    ensures forall x :: x in r <==> x in ids && x in live
  {
    if ids == [] then [] else
      var n := |ids| - 1;
      Found(ids[..n], live) + (if ids[n] in live then [ids[n]] else [])
  }

  lemma {:induction false} NothingVisited(q: Queue, ids: seq<string>, live: set<string>, op: Op)
    requires op.Claim?
    ensures VisitAll(q, ids[..0], op) == q && Found(ids[..0], live) == []
  {
  }

  lemma {:induction false} OneMoreVisited(q: Queue, ids: seq<string>, i: nat, live: set<string>, op: Op)
    requires op.Claim? && i < |ids|
    ensures VisitAll(q, ids[..i + 1], op) == Visit(VisitAll(q, ids[..i], op), ids[i], op)
    ensures Found(ids[..i + 1], live) == Found(ids[..i], live) + (if ids[i] in live then [ids[i]] else [])
  {
    hide Visit;
    assert ids[..i + 1][..i] == ids[..i];
  }

  function DueIds(q: Queue, op: Op): seq<string>
    requires op.Claim?
  {
    RangeUpTo(q.due, Millis(op.nowNs), PageSize(op.limit))
  }

  function ClaimStep(q: Queue, op: Op): (Queue, Outcome)
    requires op.Claim?
  {
    (VisitAll(q, DueIds(q, op), op), Claimed(Found(DueIds(q, op), q.candidates.Keys)))
  }

  /** One atomic step of the queue. */
  function Step(q: Queue, op: Op): (Queue, Outcome) {
    match op
    case Enqueue(id, record) =>
      if id in q.candidates then (q, Existing)
      else (Queue(q.candidates[id := record], Add(q.due, Millis(record.nextAttemptNs), id)), Created)
    case Claim(_, _, _, _, _) => if Claimable(op) then ClaimStep(q, op) else (q, Rejected)
    case Ack(ref, token) =>
      if ref.key !in q.candidates then (q, Missing)
      else if !Holds(q, ref.key, token) then (q, Stale)
      else (Queue(q.candidates - {ref.key}, Remove(q.due, ref.member)), Settled)
    case Retry(ref, token, code, nextNs) =>
      if !ValidErrorCode(code) || nextNs == ZERO_TIME then (q, Rejected)
      else if ref.key !in q.candidates then (q, Missing)
      else if !Holds(q, ref.key, token) then (q, Stale)
      else
        var record := Retried(q.candidates[ref.key], op);
        (Queue(q.candidates[ref.key := record], Add(q.due, Millis(nextNs), ref.member)), Settled)
  }

  /** `validateCandidateErrorCode`: the trimmed code, if it is one. */
  method ValidateErrorCode(raw: string) returns (code: string, ok: bool)
    ensures code == TrimSpace(raw) && (ok <==> ValidErrorCode(TrimSpace(raw)))
  {
    hide TrimSpace;
    code := TrimSpace(raw);
    if code == "" || |code| > 64 { return code, false; }
    var i := 0;
    while i < |code|
      invariant 0 <= i <= |code|
      invariant forall j :: 0 <= j < i ==> 'a' <= code[j] <= 'z' || '0' <= code[j] <= '9' || code[j] in "_-."
    {
      var r := code[i];
      if !(('a' <= r <= 'z') || ('0' <= r <= '9') || r == '_' || r == '-' || r == '.') { return code, false; }
      i := i + 1;
    }
    return code, true;
  }

  /** The queue object: the Redis keys the scripts touch, changed as the scripts change them. */
  class Store {
    var candidates: map<string, Candidate>
    var due: seq<Entry>

    ghost function State(): Queue reads this { Queue(candidates, due) }

    constructor ()
      ensures State() == EMPTY
    {
      candidates, due := map[], [];
    }

    /** `digest` stands for hexadecimal SHA-256. */
    method EnqueueCandidate(d: Draft, nowNs: int, digest: string -> string) returns (outcome: Outcome)
      requires forall s :: IsDigest(digest(s))
      modifies this
      ensures (State(), outcome)
           == if Enqueueable(d, digest)
              then Step(old(State()), Enqueue(digest(Identity(d)), WithNextAttempt(d.record, nowNs)))
              else (old(State()), Rejected)
    {
      hide TrimSpace, Lower, Identity, Add, IsDigest, Millis;
      if TrimSpace(d.provider) == "" || TrimSpace(d.keyId) == "" || TrimSpace(d.requestId) == "" { return Rejected; }
      var i := 0;
      while i < |d.required|
        invariant 0 <= i <= |d.required| && forall j :: 0 <= j < i ==> TrimSpace(d.required[j]) != ""
      {
        if TrimSpace(d.required[i]) == "" { return Rejected; }
        i := i + 1;
      }
      if !d.hasTime || (d.id != "" && d.id != digest(Identity(d))) { return Rejected; }
      var id, record := digest(Identity(d)), d.record;
      if record.nextAttemptNs == ZERO_TIME { record := record.(nextAttemptNs := nowNs); }
      if id in candidates { return Existing; }
      candidates := candidates[id := record];
      due := Add(due, Millis(record.nextAttemptNs), id);
      return Created;
    }

    method ClaimCandidates(rawOwner: string, nowNs: int, leaseNs: int, limit: int, token: string)
      returns (claimed: seq<string>, ok: bool)
      modifies this
      ensures (State(), if ok then Claimed(claimed) else Rejected)
           == Step(old(State()), Claim(TrimSpace(rawOwner), nowNs, leaseNs, limit, token))
    {
      hide TrimSpace, Add, Remove, RangeUpTo, Millis, PageSize, Holds, VisitAll, Found;
      claimed, ok := [], false;
      var owner := TrimSpace(rawOwner);
      ghost var op := Claim(owner, nowNs, leaseNs, limit, token);
      if owner == "" || leaseNs <= 0 || limit <= 0 { return; }
      ok := true;
      var until := Millis(nowNs + leaseNs);
      var ids := RangeUpTo(due, Millis(nowNs), PageSize(limit));
      ghost var live := candidates.Keys;
      NothingVisited(State(), ids, live, op);
      var i := 0;
      while i < |ids|
        invariant 0 <= i <= |ids|
        invariant State() == VisitAll(old(State()), ids[..i], op)
        invariant candidates.Keys == live
        invariant claimed == Found(ids[..i], live)
      {
        var id := ids[i];
        OneMoreVisited(old(State()), ids, i, live, op);
        if id in candidates {
          var item := candidates[id];
          item := item.(leaseOwner := owner, leaseToken := token, leaseUntilNs := nowNs + leaseNs);
          candidates := candidates[id := item];
          due := Add(due, until, id);
          claimed := claimed + [id];
        } else {
          due := Remove(due, id);
        }
        i := i + 1;
      }
      assert ids[..i] == ids;
    }

    method AckCandidate(rawId: string, rawToken: string) returns (outcome: Outcome)
      modifies this
      ensures (State(), outcome) == Step(old(State()), Ack(RefOf(rawId), TrimSpace(rawToken)))
    {
      var ref, token := RefOf(rawId), TrimSpace(rawToken);
      if ref.key !in candidates { return Missing; }
      if candidates[ref.key].leaseToken == "" || candidates[ref.key].leaseToken != token { return Stale; }
      candidates := candidates - {ref.key};
      due := Remove(due, ref.member);
      return Settled;
    }

    method RetryCandidate(rawId: string, rawToken: string, rawCode: string, nextNs: int) returns (outcome: Outcome)
      modifies this
      ensures (State(), outcome)
           == Step(old(State()), Retry(RefOf(rawId), TrimSpace(rawToken), TrimSpace(rawCode), nextNs))
    {
      hide TrimSpace, ValidErrorCode, Add;
      var ref, token := RefOf(rawId), TrimSpace(rawToken);
      var code, ok := ValidateErrorCode(rawCode);
      if !ok || nextNs == ZERO_TIME { return Rejected; }
      if ref.key !in candidates { return Missing; }
      var item := candidates[ref.key];
      if item.leaseToken == "" || item.leaseToken != token { return Stale; }
      candidates := candidates[ref.key := item.(attempts := item.attempts + 1, lastError := code,
                                                leaseOwner := "", leaseToken := "", leaseUntilNs := 0,
                                                nextAttemptNs := nextNs)];
      due := Add(due, Millis(nextNs), ref.member);
      return Settled;
    }
  }

  // ---------------------------------------------------------------- what one claim does

  /** The claim loop leases exactly the visited candidates and touches no other. */
  lemma {:induction false} VisitedCandidates(q: Queue, ids: seq<string>, op: Op)
    requires op.Claim?
    ensures var r := VisitAll(q, ids, op).candidates;
            r.Keys == q.candidates.Keys
            && forall id :: id in r ==> r[id] == if id in ids then Leased(q.candidates[id], op) else q.candidates[id]
  {
    if ids != [] {
      var n := |ids| - 1;
      VisitedCandidates(q, ids[..n], op);
      assert ids == ids[..n] + [ids[n]];
    }
  }

  /** The claim loop moves every visited candidate to the lease end, drops orphans, and keeps all other due times. */
  lemma {:induction false} VisitedDue(q: Queue, ids: seq<string>, op: Op)
    requires op.Claim? && Valid(q.due) && forall id :: id in ids ==> id in Scores(q.due)
    ensures var r := VisitAll(q, ids, op).due;
            Valid(r)
            && (forall x :: x in Scores(r) <==> x in Scores(q.due) && (x in ids ==> x in q.candidates))
            && (forall x :: x in Scores(r) ==>
                  Scores(r)[x] == if x in ids then Millis(op.nowNs + op.leaseNs) else Scores(q.due)[x])
  {
    hide Valid, Scores, SameContent;
    if ids != [] {
      var n := |ids| - 1;
      VisitedDue(q, ids[..n], op);
      VisitedCandidates(q, ids[..n], op);
      assert ids == ids[..n] + [ids[n]];
      var d := VisitAll(q, ids[..n], op).due;
      RemoveScores(d, ids[n]);
      AddScores(d, Millis(op.nowNs + op.leaseNs), ids[n]);
    }
  }

  // ---------------------------------------------------------------- runs

  /** Settling calls name their candidate by one raw id; enqueued ids are digests. */
  ghost predicate Named(op: Op) {
    (IsSettle(op) ==> op.ref.key == Trim(op.ref.member, IsColon)) && (op.Enqueue? ==> IsDigest(op.id))
  }

  /** A run by any number of workers: every claim brings its own fresh lease token. */
  ghost predicate Run(ops: seq<Op>) {
    && (forall i :: 0 <= i < |ops| ==> Named(ops[i]))
    && (forall i :: 0 <= i < |ops| && ops[i].Claim? ==> ops[i].token != "")
    && (forall i, j :: 0 <= i < j < |ops| && ops[i].Claim? && ops[j].Claim? ==> ops[i].token != ops[j].token)
  }

  function After(ops: seq<Op>, i: nat): Queue
    requires i <= |ops|
  {
    if i == 0 then EMPTY else Step(After(ops, i - 1), ops[i - 1]).0
  }

  function Result(ops: seq<Op>, i: nat): Outcome
    requires i < |ops|
  {
    Step(After(ops, i), ops[i]).1
  }

  predicate IsSettle(op: Op) { op.Ack? || op.Retry? }

  /** Operation `i` settled candidate `id` under lease `token`. */
  predicate SettledBy(ops: seq<Op>, i: nat, id: string, token: string)
    requires i < |ops|
  {
    IsSettle(ops[i]) && ops[i].ref.key == id && ops[i].token == token && Result(ops, i) == Settled
  }

  predicate ClaimsId(ops: seq<Op>, i: nat, id: string)
    requires i < |ops|
  {
    Result(ops, i).Claimed? && id in Result(ops, i).ids
  }

  /** No caller of enqueue smuggles `token` in as a pre-set lease. */
  ghost predicate NotPreset(ops: seq<Op>, token: string) {
    forall i :: 0 <= i < |ops| && ops[i].Enqueue? ==> ops[i].record.leaseToken != token
  }

  ghost predicate Minted(ops: seq<Op>, i: nat, token: string) {
    exists k :: 0 <= k < i <= |ops| && ops[k].Claim? && ops[k].token == token
  }

  // ---------------------------------------------------------------- fencing

  lemma {:induction false} HeldWasMinted(ops: seq<Op>, i: nat, id: string, token: string)
    requires i <= |ops| && NotPreset(ops, token)
    requires Holds(After(ops, i), id, token)
    ensures Minted(ops, i, token)
  {
    if i > 0 {
      var q, op := After(ops, i - 1), ops[i - 1];
      if Holds(q, id, token) {
        HeldWasMinted(ops, i - 1, id, token);
      } else if op.Claim? {
        VisitedCandidates(q, DueIds(q, op), op);
      }
    }
  }

  lemma {:induction false} StepKeepsLost(q: Queue, op: Op, id: string, token: string)
    requires !Holds(q, id, token) && (op.Claim? ==> op.token != token)
            && (op.Enqueue? ==> op.record.leaseToken != token)
    ensures !Holds(Step(q, op).0, id, token)
  {
    hide Add, Remove, Millis, ValidErrorCode;
    if op.Claim? { VisitedCandidates(q, DueIds(q, op), op); }
  }

  /** Once a minted token no longer holds a candidate, it never holds it again. */
  lemma {:induction false} LostForGood(ops: seq<Op>, i: nat, j: nat, id: string, token: string)
    requires Run(ops) && NotPreset(ops, token) && i <= j <= |ops|
    requires Minted(ops, i, token) && !Holds(After(ops, i), id, token)
    ensures !Holds(After(ops, j), id, token)
  {
    hide Step, Holds, Named;
    if i < j {
      LostForGood(ops, i, j - 1, id, token);
      StepKeepsLost(After(ops, j - 1), ops[j - 1], id, token);
    }
  }

  /** A holder who lost the lease to an ack, a retry or a newer claim changes nothing, at any later time. */
  lemma {:induction false} StaleSettleChangesNothing(ops: seq<Op>, i: nat, j: nat, id: string, token: string)
    requires Run(ops) && NotPreset(ops, token) && i <= j < |ops|
    requires Minted(ops, i, token) && !Holds(After(ops, i), id, token)
    requires IsSettle(ops[j]) && ops[j].ref.key == id && ops[j].token == token
    ensures After(ops, j + 1) == After(ops, j) && Result(ops, j) in {Missing, Stale, Rejected}
  {
    LostForGood(ops, i, j, id, token);
  }

  /** What loses a lease: settling it, or another claim of the same candidate. */
  lemma {:induction false} LeaseIsLost(ops: seq<Op>, i: nat, id: string, token: string)
    requires Run(ops) && i < |ops|
    requires SettledBy(ops, i, id, token) || (ClaimsId(ops, i, id) && ops[i].token != token)
    ensures !Holds(After(ops, i + 1), id, token)
  {
    if ops[i].Claim? { VisitedCandidates(After(ops, i), DueIds(After(ops, i), ops[i]), ops[i]); }
  }

  /** Each (candidate, lease token) pair is settled at most once in any interleaving. */
  lemma {:induction false} SettledAtMostOnce(ops: seq<Op>, i: nat, j: nat, id: string, token: string)
    requires Run(ops) && NotPreset(ops, token) && i < j < |ops|
    requires SettledBy(ops, i, id, token)
    ensures !SettledBy(ops, j, id, token)
  {
    HeldWasMinted(ops, i, id, token);
    LeaseIsLost(ops, i, id, token);
    LostForGood(ops, i + 1, j, id, token);
  }

  /** The pre-set condition is needed: any lease token supplied by the enqueuer can settle twice. */
  lemma {:induction false} PresetTokenSettlesTwice(id: string, c: Candidate, token: string)
    requires IsDigest(id) && token != "" && TrimSpace(token) == token && c.leaseToken == token
    ensures var a := Ack(Ref(id, id), token);
            var ops := [Enqueue(id, c), a, Enqueue(id, c), a];
            Run(ops) && SettledBy(ops, 1, id, token) && SettledBy(ops, 3, id, token)
  {
    TrimMeaning(id, IsColon);
    hide TrimSpace, Trim, Add, Remove;
    var a := Ack(Ref(id, id), token);
    var ops := [Enqueue(id, c), a, Enqueue(id, c), a];
    assert After(ops, 1) == Step(EMPTY, ops[0]).0;
    assert After(ops, 2) == Step(After(ops, 1), ops[1]).0;
    assert id !in After(ops, 2).candidates;
    assert After(ops, 3) == Step(After(ops, 2), ops[2]).0;
  }

  lemma {:induction false} StepOnUnleased(q: Queue, op: Op, id: string)
    requires id in q.candidates && q.candidates[id].leaseToken == ""
    requires Step(q, op).1.Claimed? ==> id !in Step(q, op).1.ids
    ensures id in Step(q, op).0.candidates && Step(q, op).0.candidates[id] == q.candidates[id]
  {
    if op.Claim? { VisitedCandidates(q, DueIds(q, op), op); }
  }

  /** Nothing but a claim touches a candidate without a lease: no ack, no retry, no repeated enqueue, by anyone. */
  lemma {:induction false} UnleasedUntilClaimed(ops: seq<Op>, i: nat, j: nat, id: string)
    requires i <= j <= |ops| && id in After(ops, i).candidates && After(ops, i).candidates[id].leaseToken == ""
    requires forall m :: i <= m < j ==> !ClaimsId(ops, m, id)
    ensures id in After(ops, j).candidates && After(ops, j).candidates[id] == After(ops, i).candidates[id]
  {
    hide Step;
    if i < j {
      UnleasedUntilClaimed(ops, i, j - 1, id);
      assert !ClaimsId(ops, j - 1, id);
      StepOnUnleased(After(ops, j - 1), ops[j - 1], id);
    }
  }

  // ---------------------------------------------------------------- attempts

  predicate RetriedAt(ops: seq<Op>, m: nat, id: string)
    requires m < |ops|
  {
    ops[m].Retry? && ops[m].ref.key == id && Result(ops, m) == Settled
  }

  /** Successful retries of `id` among operations `from .. to`. */
  function Retries(ops: seq<Op>, from: nat, to: nat, id: string): nat
    requires from <= to <= |ops|
  {
    if from == to then 0
    else Retries(ops, from, to - 1, id) + (if RetriedAt(ops, to - 1, id) then 1 else 0)
  }

  lemma {:induction false} StepOnCandidate(q: Queue, op: Op, id: string)
    requires id in Step(q, op).0.candidates
    ensures var (r, outcome) := Step(q, op);
            if id in q.candidates then
              && r.candidates[id].info == q.candidates[id].info
              && r.candidates[id].attempts
                 == q.candidates[id].attempts + (if op.Retry? && op.ref.key == id && outcome == Settled then 1 else 0)
            else op.Enqueue? && op.id == id && outcome == Created && r.candidates[id] == op.record
  {
    if op.Claim? { VisitedCandidates(q, DueIds(q, op), op); }
  }

  predicate CreatedAt(ops: seq<Op>, k: nat, id: string)
    requires k < |ops|
  {
    ops[k].Enqueue? && ops[k].id == id && Result(ops, k) == Created
  }

  /** A live candidate has one creation `k` since which it stayed live, and its attempts count the retries since. */
  lemma {:induction false} AttemptsCountRetries(ops: seq<Op>, i: nat, id: string) returns (k: nat)
    requires i <= |ops| && id in After(ops, i).candidates
    ensures k < i && CreatedAt(ops, k, id)
    ensures forall m :: k < m <= i ==> id in After(ops, m).candidates
    ensures After(ops, i).candidates[id].attempts == ops[k].record.attempts + Retries(ops, k + 1, i, id)
    ensures After(ops, i).candidates[id].info == ops[k].record.info
  {
    StepOnCandidate(After(ops, i - 1), ops[i - 1], id);
    hide Step;
    if id in After(ops, i - 1).candidates {
      k := AttemptsCountRetries(ops, i - 1, id);
    } else {
      k := i - 1;
    }
  }

  // ---------------------------------------------------------------- due set against candidates

  /** Every candidate has a due time, and record keys carry no surrounding colons. */
  ghost predicate Scheduled(q: Queue) {
    && Valid(q.due)
    && (forall id :: id in q.candidates ==> id in Scores(q.due))
    && (forall id :: id in q.candidates ==> Trim(id, IsColon) == id)
  }

  ghost predicate SameIds(q: Queue)
    requires Valid(q.due)
  {
    Scores(q.due).Keys == q.candidates.Keys
  }

  lemma {:induction false} ClaimSchedules(q: Queue, op: Op)
    requires op.Claim? && Valid(q.due)
    ensures var r := ClaimStep(q, op).0;
            Valid(r.due)
            && (forall x :: x in Scores(r.due) <==> x in Scores(q.due) && (x in DueIds(q, op) ==> x in q.candidates))
            && r.candidates.Keys == q.candidates.Keys
  {
    hide Valid, Scores, SameContent;
    RangeUpToIsDue(q.due, Millis(op.nowNs), PageSize(op.limit));
    VisitedCandidates(q, DueIds(q, op), op);
    VisitedDue(q, DueIds(q, op), op);
  }

  /** No step loses the due time of a live candidate, whatever raw id its caller used. */
  lemma {:induction false} StepSchedules(q: Queue, op: Op)
    requires Scheduled(q) && Named(op)
    ensures Scheduled(Step(q, op).0)
  {
    hide Valid, Scores, SameContent;
    match op
    case Enqueue(id, record) =>
      AddScores(q.due, Millis(record.nextAttemptNs), id);
      TrimMeaning(id, IsColon);
    case Claim(_, _, _, _, _) => ClaimSchedules(q, op);
    case Ack(ref, _) =>
      RemoveScores(q.due, ref.member);
    case Retry(ref, _, _, nextNs) =>
      AddScores(q.due, Millis(nextNs), ref.member);
  }

  /** The operation settles: its caller holds the lease, and a retry passes its checks. */
  predicate WillSettle(q: Queue, op: Op) {
    IsSettle(op) && Holds(q, op.ref.key, op.token) && (op.Retry? ==> ValidErrorCode(op.code) && op.nextNs != ZERO_TIME)
  }

  /** Candidate ids and due ids stay equal exactly as long as no settling caller pads the id with colons. */
  lemma {:induction false} SameIdsIffCanonical(q: Queue, op: Op)
    requires Scheduled(q) && SameIds(q) && Named(op)
    ensures Scheduled(Step(q, op).0)
    ensures SameIds(Step(q, op).0) <==> (WillSettle(q, op) ==> op.ref.key == op.ref.member)
  {
    hide Valid, Scores, SameContent;
    StepSchedules(q, op);
    match op
    case Enqueue(id, record) => AddScores(q.due, Millis(record.nextAttemptNs), id);
    case Claim(_, _, _, _, _) => ClaimSchedules(q, op);
    case Ack(ref, _) =>
      RemoveScores(q.due, ref.member);
    case Retry(ref, _, _, nextNs) =>
      AddScores(q.due, Millis(nextNs), ref.member);
  }

  ghost predicate Agree(q: Queue) { Scheduled(q) && SameIds(q) }

  predicate PaddedSettle(q: Queue, op: Op) { WillSettle(q, op) && op.ref.key != op.ref.member }

  ghost predicate AgreeUpTo(ops: seq<Op>, n: nat)
    requires n <= |ops|
  {
    forall i :: 0 <= i <= n ==> Agree(After(ops, i))
  }

  ghost predicate NoPaddedSettle(ops: seq<Op>, n: nat)
    requires n <= |ops|
  {
    forall m :: 0 <= m < n ==> !PaddedSettle(After(ops, m), ops[m])
  }

  /** Over whole runs: the ids always agree exactly if every settling caller names its candidate without colons. */
  lemma {:induction false} RunKeepsSameIdsIff(ops: seq<Op>, n: nat)
    requires Run(ops) && n <= |ops|
    ensures AgreeUpTo(ops, n) <==> NoPaddedSettle(ops, n)
  {
    hide Step, Named, PaddedSettle, Agree;
    if n == 0 {
      EmptyAgrees();
    } else {
      RunKeepsSameIdsIff(ops, n - 1);
      assert Named(ops[n - 1]) && After(ops, n) == Step(After(ops, n - 1), ops[n - 1]).0;
      OneMoreAgrees(ops, n);
      OneMoreSettle(ops, n);
      hide After, Run, AgreeUpTo, NoPaddedSettle;
      if Agree(After(ops, n - 1)) { AgreeIff(After(ops, n - 1), ops[n - 1]); }
    }
  }

  lemma {:induction false} OneMoreAgrees(ops: seq<Op>, n: nat)
    requires 0 < n <= |ops|
    ensures AgreeUpTo(ops, n) <==> AgreeUpTo(ops, n - 1) && Agree(After(ops, n))
    ensures AgreeUpTo(ops, n - 1) ==> Agree(After(ops, n - 1))
  {
    hide Agree, Step;
  }

  lemma {:induction false} OneMoreSettle(ops: seq<Op>, n: nat)
    requires 0 < n <= |ops|
    ensures NoPaddedSettle(ops, n) <==> NoPaddedSettle(ops, n - 1) && !PaddedSettle(After(ops, n - 1), ops[n - 1])
  {
    hide PaddedSettle, Step;
  }

  lemma {:induction false} AgreeIff(q: Queue, op: Op)
    requires Agree(q) && Named(op)
    ensures Agree(Step(q, op).0) <==> !PaddedSettle(q, op)
  {
    hide Step, Named, WillSettle;
    SameIdsIffCanonical(q, op);
  }

  lemma {:induction false} EmptyAgrees()
    ensures Agree(EMPTY)
  {
  }

  lemma {:induction false} RunSchedules(ops: seq<Op>, i: nat)
    requires Run(ops) && i <= |ops|
    ensures Scheduled(After(ops, i))
  {
    if i > 0 {
      RunSchedules(ops, i - 1);
      StepSchedules(After(ops, i - 1), ops[i - 1]);
    }
  }

  /** In every run with unpadded ids, ZCARD of the due set is the number of live candidates. */
  lemma {:induction false} PendingCountsCandidates(ops: seq<Op>, i: nat)
    requires Run(ops) && i <= |ops|
    requires forall m :: 0 <= m < i && IsSettle(ops[m]) ==> ops[m].ref.key == ops[m].ref.member
    ensures |After(ops, i).due| == |After(ops, i).candidates|
  {
    hide Step, Scores, Scheduled;
    assert NoPaddedSettle(ops, i);
    RunKeepsSameIdsIff(ops, i);
    assert Agree(After(ops, i));
    AgreeingSizes(After(ops, i));
  }

  lemma {:induction false} AgreeingSizes(q: Queue)
    requires Agree(q)
    ensures |q.due| == |q.candidates|
  {
    CardIsMembers(q.due);
    assert |Scores(q.due)| == |Scores(q.due).Keys|;
  }

  /** The condition is needed: an ack under ":id" removes the record and leaves its due entry. */
  lemma {:induction false} PaddedAckLeavesDueEntry(id: string, c: Candidate, token: string)
    requires IsDigest(id) && token != "" && Millis(c.nextAttemptNs) <= 0
    ensures var ops := [Enqueue(id, c), Claim("w", 0, NS_PER_MS, 1, token), Ack(Ref(id, ":" + id), token)];
            && Run(ops) && Result(ops, 2) == Settled && After(ops, 3).candidates == map[]
            && |After(ops, 3).due| == 1
  {
    assert Millis(0) == 0;
    hide TrimSpace, Trim, IsDigest, Step, Millis, Remove;
    var claim, ack := Claim("w", 0, NS_PER_MS, 1, token), Ack(Ref(id, ":" + id), token);
    var ops := [Enqueue(id, c), claim, ack];
    PaddedRun(id, c, token);
    EnqueueOne(id, c);
    ClaimOne(id, c, Millis(c.nextAttemptNs), claim);
    ThreeSteps(ops);
    PaddedAck(id, Leased(c, claim), Millis(NS_PER_MS), token);
  }

  lemma {:induction false} ThreeSteps(ops: seq<Op>)
    requires |ops| >= 3
    ensures After(ops, 1) == Step(EMPTY, ops[0]).0 && After(ops, 2) == Step(After(ops, 1), ops[1]).0
    ensures After(ops, 3) == Step(After(ops, 2), ops[2]).0
  {
    hide Step;
    assert After(ops, 0) == EMPTY;
  }

  lemma {:induction false} PaddedRun(id: string, c: Candidate, token: string)
    requires IsDigest(id) && token != ""
    ensures Run([Enqueue(id, c), Claim("w", 0, NS_PER_MS, 1, token), Ack(Ref(id, ":" + id), token)])
  {
    hide IsDigest, Trim;
    PaddedIsNamed(id, token);
  }

  lemma {:induction false} PaddedAck(id: string, c: Candidate, score: int, token: string)
    requires token != "" && c.leaseToken == token
    ensures Step(Queue(map[id := c], [Entry(score, id)]), Ack(Ref(id, ":" + id), token))
         == (Queue(map[], [Entry(score, id)]), Settled)
  {
    RemoveOther(score, id, ":" + id);
    hide Remove;
    assert map[id := c] - {id} == map[];
  }

  lemma {:induction false} PaddedIsNamed(id: string, token: string)
    requires IsDigest(id)
    ensures Named(Ack(Ref(id, ":" + id), token)) && RefOf(":" + id) == Ref(id, ":" + id)
  {
    TrimMeaning(id, IsColon);
    TrimMeaning(":" + id, IsSpace);
    assert (":" + id)[1..] == id && (":" + id)[|id|] == id[|id| - 1];
  }

  lemma {:induction false} RemoveOther(score: int, member: string, other: string)
    requires member != other
    ensures Remove([Entry(score, member)], other) == [Entry(score, member)]
  {
    assert [Entry(score, member)][1..] == [];
  }

  lemma {:induction false} EnqueueOne(id: string, c: Candidate)
    ensures Step(EMPTY, Enqueue(id, c)).0 == Queue(map[id := c], [Entry(Millis(c.nextAttemptNs), id)])
  {
    hide Millis;
    assert Remove([], id) == [];
  }

  /** Claiming from a queue of one due candidate. */
  lemma {:induction false} ClaimOne(id: string, c: Candidate, score: int, op: Op)
    requires op.Claim? && Claimable(op) && score <= Millis(op.nowNs)
    ensures Step(Queue(map[id := c], [Entry(score, id)]), op)
         == (Queue(map[id := Leased(c, op)], [Entry(Millis(op.nowNs + op.leaseNs), id)]), Claimed([id]))
  {
    hide Millis, RangeUpTo, Add, Leased;
    var q := Queue(map[id := c], [Entry(score, id)]);
    OneDue(score, Millis(op.nowNs), PageSize(op.limit), id);
    assert DueIds(q, op) == [id];
    assert [id][..0] == [] && VisitAll(q, [], op) == q;
    assert VisitAll(q, [id], op) == Visit(q, id, op);
    assert q.candidates.Keys == {id};
    assert Found([id], {id}) == [id] by { assert Found([id][..0], {id}) == []; }
    ReplaceOne(score, Millis(op.nowNs + op.leaseNs), id);
    assert map[id := c][id := Leased(c, op)] == map[id := Leased(c, op)];
  }

  lemma {:induction false} ReplaceOne(score: int, end: int, id: string)
    ensures Add([Entry(score, id)], end, id) == [Entry(end, id)]
  {
    assert [Entry(score, id)][1..] == [] && Remove([Entry(score, id)], id) == [];
  }

  lemma {:induction false} OneDue(score: int, max: int, limit: nat, id: string)
    requires score <= max && limit > 0
    ensures RangeUpTo([Entry(score, id)], max, limit) == [id]
  {
    var z := [Entry(score, id)];
    assert z[1..] == [];
    assert CountUpTo(z, max) == 1;
  }

  // ---------------------------------------------------------------- exclusivity

  /** A step that neither returns nor settles a live candidate keeps it and its due time. */
  lemma {:induction false} StepKeepsDue(q: Queue, op: Op, id: string)
    requires Scheduled(q) && Named(op) && id in q.candidates
    requires var outcome := Step(q, op).1;
             && (outcome.Claimed? ==> id !in outcome.ids)
             && (outcome == Settled ==> op.ref.key != id)
    ensures Scheduled(Step(q, op).0) && id in Step(q, op).0.candidates
    ensures Scores(Step(q, op).0.due)[id] == Scores(q.due)[id]
  {
    hide Valid, Scores, SameContent;
    StepSchedules(q, op);
    match op
    case Enqueue(key, record) => AddScores(q.due, Millis(record.nextAttemptNs), key);
    case Claim(_, _, _, _, _) =>
      RangeUpToIsDue(q.due, Millis(op.nowNs), PageSize(op.limit));
      VisitedCandidates(q, DueIds(q, op), op);
      VisitedDue(q, DueIds(q, op), op);
    case Ack(ref, _) => RemoveScores(q.due, ref.member);
    case Retry(ref, _, _, nextNs) => AddScores(q.due, Millis(nextNs), ref.member);
  }

  lemma {:induction false} ClaimSetsDue(q: Queue, op: Op, id: string)
    requires Scheduled(q) && op.Claim? && Claimable(op) && id in q.candidates && id in DueIds(q, op)
    ensures Scheduled(Step(q, op).0) && id in Step(q, op).0.candidates
    ensures Scores(Step(q, op).0.due)[id] == Millis(op.nowNs + op.leaseNs)
    ensures Scores(q.due)[id] <= Millis(op.nowNs)
  {
    hide Valid, Scores, SameContent;
    StepSchedules(q, op);
    RangeUpToIsDue(q.due, Millis(op.nowNs), PageSize(op.limit));
    VisitedCandidates(q, DueIds(q, op), op);
    VisitedDue(q, DueIds(q, op), op);
  }

  lemma {:induction false} ClaimOutcome(q: Queue, op: Op, id: string)
    ensures Step(q, op).1.Claimed? <==> op.Claim? && Claimable(op)
    ensures op.Claim? && Claimable(op) ==> (id in Step(q, op).1.ids <==> id in DueIds(q, op) && id in q.candidates)
    ensures Step(q, op).1 == Settled ==> IsSettle(op)
  {
  }

  /** Between `i` and `j` nobody is handed the candidate and nobody settles it. */
  ghost predicate Untouched(ops: seq<Op>, i: nat, j: nat, id: string)
    requires j <= |ops|
  {
    forall m :: i < m < j ==> !ClaimsId(ops, m, id) && !(Result(ops, m) == Settled && ops[m].ref.key == id)
  }

  lemma {:induction false} DueSinceClaim(ops: seq<Op>, i: nat, j: nat, id: string)
    requires Run(ops) && i < j <= |ops| && ClaimsId(ops, i, id) && Untouched(ops, i, j, id)
    ensures Scheduled(After(ops, j)) && id in After(ops, j).candidates
    ensures Scores(After(ops, j).due)[id] == Millis(ops[i].nowNs + ops[i].leaseNs)
  {
    hide Valid, Scores, SameContent, Step, Named, Scheduled, DueIds;
    RunSchedules(ops, j - 1);
    ClaimOutcome(After(ops, i), ops[i], id);
    ClaimOutcome(After(ops, j - 1), ops[j - 1], id);
    if j == i + 1 {
      ClaimSetsDue(After(ops, i), ops[i], id);
    } else {
      DueSinceClaim(ops, i, j - 1, id);
      StepKeepsDue(After(ops, j - 1), ops[j - 1], id);
    }
  }

  /** Two successive claims of a candidate that its holder did not settle are at least the first one's lease apart. */
  lemma {:induction false} ClaimsAreALeaseApart(ops: seq<Op>, i: nat, j: nat, id: string)
    requires Run(ops) && i < j < |ops| && Untouched(ops, i, j, id)
    requires ClaimsId(ops, i, id) && ClaimsId(ops, j, id)
    ensures Millis(ops[j].nowNs) >= Millis(ops[i].nowNs + ops[i].leaseNs)
  {
    hide Valid, Scores, SameContent;
    DueSinceClaim(ops, i, j, id);
    ClaimSetsDue(After(ops, j), ops[j], id);
  }

  // ---------------------------------------------------------------- schedules

  /** Every candidate a claim hands out is held under its token and owner until the lease end, otherwise unchanged. */
  lemma {:induction false} ClaimedIsHeld(ops: seq<Op>, i: nat, id: string)
    requires Run(ops) && i < |ops| && ClaimsId(ops, i, id)
    ensures ops[i].Claim? && id in After(ops, i).candidates && Holds(After(ops, i + 1), id, ops[i].token)
    ensures var was, c := After(ops, i).candidates[id], After(ops, i + 1).candidates[id];
            && c.leaseOwner == ops[i].owner && c.leaseUntilNs == ops[i].nowNs + ops[i].leaseNs
            && c.info == was.info && c.attempts == was.attempts && c.lastError == was.lastError
            && c.nextAttemptNs == was.nextAttemptNs
  {
    hide Named, Millis, RangeUpTo, Found, VisitAll;
    var q, op := After(ops, i), ops[i];
    ClaimOutcome(q, op, id);
    VisitedCandidates(q, DueIds(q, op), op);
  }

  /** What settling does: an ack takes record and due time away, a retry replaces both. */
  lemma {:induction false} SettleMeaning(q: Queue, op: Op)
    requires Valid(q.due) && WillSettle(q, op)
    ensures var (r, outcome) := Step(q, op);
            && outcome == Settled && Valid(r.due)
            && (op.Ack? ==>
                  && r.candidates == q.candidates - {op.ref.key}
                  && Scores(r.due) == Scores(q.due) - {op.ref.member})
            && (op.Retry? ==>
                  && Scores(r.due) == Scores(q.due)[op.ref.member := Millis(op.nextNs)]
                  && r.candidates.Keys == q.candidates.Keys
                  && (forall id :: id in q.candidates && id != op.ref.key ==> r.candidates[id] == q.candidates[id])
                  && var was, c := q.candidates[op.ref.key], r.candidates[op.ref.key];
                     && c.info == was.info && c.attempts == was.attempts + 1
                     && c.lastError == op.code && c.nextAttemptNs == op.nextNs
                     && c.leaseOwner == "" && c.leaseToken == "" && c.leaseUntilNs == 0)
  {
    hide Valid, Scores, SameContent, Millis, ValidErrorCode;
    if op.Ack? { RemoveScores(q.due, op.ref.member); } else { AddScores(q.due, Millis(op.nextNs), op.ref.member); }
  }

  /** Creating a candidate stores the record as given and schedules its first attempt. */
  lemma {:induction false} EnqueueMeaning(q: Queue, id: string, record: Candidate)
    requires Valid(q.due) && id !in q.candidates
    ensures var (r, outcome) := Step(q, Enqueue(id, record));
            && outcome == Created && r.candidates == q.candidates[id := record]
            && Valid(r.due) && Scores(r.due) == Scores(q.due)[id := Millis(record.nextAttemptNs)]
  {
    hide Valid, Scores, SameContent, Millis;
    AddScores(q.due, Millis(record.nextAttemptNs), id);
  }

  lemma {:induction false} UnleasedStepKeepsDue(q: Queue, op: Op, id: string)
    requires Scheduled(q) && Named(op) && id in q.candidates && q.candidates[id].leaseToken == ""
    requires Step(q, op).1.Claimed? ==> id !in Step(q, op).1.ids
    ensures Scheduled(Step(q, op).0) && id in Step(q, op).0.candidates
    ensures Scores(Step(q, op).0.due)[id] == Scores(q.due)[id]
  {
    assert Step(q, op).1 == Settled ==> op.ref.key != id;
    hide Valid, Scores, SameContent, Step, Named;
    StepKeepsDue(q, op, id);
  }

  /** A candidate without a lease keeps its due time until a claim takes it. */
  lemma {:induction false} UnleasedKeepsDue(ops: seq<Op>, i: nat, j: nat, id: string)
    requires Run(ops) && i <= j <= |ops| && id in After(ops, i).candidates
    requires After(ops, i).candidates[id].leaseToken == "" && forall m :: i <= m < j ==> !ClaimsId(ops, m, id)
    ensures Scheduled(After(ops, i)) && Scheduled(After(ops, j)) && id in After(ops, j).candidates
    ensures Scores(After(ops, j).due)[id] == Scores(After(ops, i).due)[id]
    ensures After(ops, j).candidates[id] == After(ops, i).candidates[id]
  {
    hide Step, Named, Valid, Scores, SameContent;
    RunSchedules(ops, i);
    RunSchedules(ops, j);
    UnleasedUntilClaimed(ops, i, j, id);
    if i < j {
      UnleasedKeepsDue(ops, i, j - 1, id);
      assert !ClaimsId(ops, j - 1, id) && Named(ops[j - 1]);
      UnleasedStepKeepsDue(After(ops, j - 1), ops[j - 1], id);
    }
  }

  lemma {:induction false} ClaimedWasDue(ops: seq<Op>, j: nat, id: string)
    requires Run(ops) && j < |ops| && ClaimsId(ops, j, id)
    ensures Scheduled(After(ops, j)) && ops[j].Claim? && id in After(ops, j).candidates
    ensures Scores(After(ops, j).due)[id] <= Millis(ops[j].nowNs)
  {
    RunSchedules(ops, j);
    hide Valid, Scores, SameContent, Named;
    ClaimOutcome(After(ops, j), ops[j], id);
    ClaimSetsDue(After(ops, j), ops[j], id);
  }

  /**
    In every run the first claim after a successful retry is not before the next attempt, and finds what it recorded.
   */
  lemma {:induction false} RetryIsHeld(ops: seq<Op>, i: nat, j: nat)
    requires Run(ops) && i < j < |ops| && ops[i].Retry? && WillSettle(After(ops, i), ops[i])
    requires ops[i].ref.key == ops[i].ref.member && ClaimsId(ops, j, ops[i].ref.key)
    requires forall m :: i < m < j ==> !ClaimsId(ops, m, ops[i].ref.key)
    ensures Millis(ops[j].nowNs) >= Millis(ops[i].nextNs)
    ensures var id := ops[i].ref.key;
            && id in After(ops, j).candidates && After(ops, j).candidates[id].lastError == ops[i].code
            && After(ops, j).candidates[id].nextAttemptNs == ops[i].nextNs
  {
    hide Step, Named, Valid, Scores, SameContent, WillSettle, ValidErrorCode;
    var id := ops[i].ref.key;
    RunSchedules(ops, i);
    SettlesLive(After(ops, i), ops[i]);
    SettleMeaning(After(ops, i), ops[i]);
    assert After(ops, i + 1) == Step(After(ops, i), ops[i]).0;
    UnleasedKeepsDue(ops, i + 1, j, id);
    ClaimedWasDue(ops, j, id);
  }

  lemma {:induction false} SettlesLive(q: Queue, op: Op)
    requires WillSettle(q, op)
    ensures op.ref.key in q.candidates
  {
  }

  /** In every run the first claim of a candidate enqueued without a lease is not before its first attempt. */
  lemma {:induction false} FirstAttemptIsHeld(ops: seq<Op>, i: nat, j: nat)
    requires Run(ops) && i < j < |ops| && ops[i].Enqueue? && ops[i].id !in After(ops, i).candidates
    requires ops[i].record.leaseToken == "" && ClaimsId(ops, j, ops[i].id)
    requires forall m :: i < m < j ==> !ClaimsId(ops, m, ops[i].id)
    ensures Millis(ops[j].nowNs) >= Millis(ops[i].record.nextAttemptNs)
    ensures ops[i].id in After(ops, j).candidates && After(ops, j).candidates[ops[i].id] == ops[i].record
  {
    hide Step, Named, Valid, Scores, SameContent;
    RunSchedules(ops, i);
    EnqueueMeaning(After(ops, i), ops[i].id, ops[i].record);
    assert After(ops, i + 1) == Step(After(ops, i), ops[i]).0;
    UnleasedKeepsDue(ops, i + 1, j, ops[i].id);
    ClaimedWasDue(ops, j, ops[i].id);
  }

  // ---------------------------------------------------------------- drain

  ghost function DueNow(q: Queue, now: int): set<string>
    requires Valid(q.due)
  {
    set id | id in Scores(q.due) && Scores(q.due)[id] <= now
  }

  /** A claim whose lease ends after its own instant. */
  predicate Advances(op: Op, now: int, page: nat) {
    && op.Claim? && Claimable(op) && Millis(op.nowNs) == now < Millis(op.nowNs + op.leaseNs)
    && page == (if op.limit < 100 then op.limit else 100)
  }

  lemma {:induction false} DistinctCount(ids: seq<string>)
    requires forall i, j :: 0 <= i < j < |ids| ==> ids[i] != ids[j]
    ensures |set id | id in ids| == |ids|
  {
    if ids != [] {
      var n := |ids| - 1;
      DistinctCount(ids[..n]);
      assert (set id | id in ids) == (set id | id in ids[..n]) + {ids[n]};
    }
  }

  /** One claim takes a full page of due ids, or all of them, out of the due set. */
  lemma {:induction false} ClaimTakesAPage(q: Queue, op: Op, now: int, page: nat)
    requires Valid(q.due) && Advances(op, now, page)
    ensures var taken := set id | id in DueIds(q, op);
            && taken <= DueNow(q, now)
            && |taken| == (if |DueNow(q, now)| < page then |DueNow(q, now)| else page)
            && Valid(Step(q, op).0.due) && DueNow(Step(q, op).0, now) == DueNow(q, now) - taken
            && Step(q, op).0.candidates.Keys == q.candidates.Keys
            && Step(q, op).1.Claimed? && (set id | id in Step(q, op).1.ids) == taken * q.candidates.Keys
  {
    hide Valid, Scores, SameContent;
    var ids := DueIds(q, op);
    RangeUpToIsDue(q.due, now, page);
    VisitedCandidates(q, ids, op);
    VisitedDue(q, ids, op);
    DistinctCount(ids);
    var taken := set id | id in ids;
    assert taken <= DueNow(q, now);
    Subset(taken, DueNow(q, now));
    if |ids| < page { assert taken == DueNow(q, now); }
  }

  lemma {:induction false} Subset(a: set<string>, b: set<string>)
    requires a <= b
    ensures |a| <= |b|
  {
    assert b == a + (b - a);
  }

  ghost function Batches(q: Queue, ops: seq<Op>): seq<seq<string>>
    decreases |ops|
  {
    if ops == [] then [] else
      var (r, outcome) := Step(q, ops[0]);
      [if outcome.Claimed? then outcome.ids else []] + Batches(r, ops[1..])
  }

  lemma {:induction false} BatchesOneMore(q: Queue, ops: seq<Op>)
    requires ops != [] && Step(q, ops[0]).1.Claimed?
    ensures Batches(q, ops) == [Step(q, ops[0]).1.ids] + Batches(Step(q, ops[0]).0, ops[1..])
  {
    hide Step;
  }

  function AllOf(batches: seq<seq<string>>): set<string> {
    if batches == [] then {} else (set id | id in batches[0]) + AllOf(batches[1..])
  }

  ghost predicate Disjoint(batches: seq<seq<string>>) {
    batches != [] ==> (forall id :: id in batches[0] ==> id !in AllOf(batches[1..])) && Disjoint(batches[1..])
  }

  /** Sets of ids: `taken` of the due ids are handed out by the first batch, the others by the rest. */
  lemma {:induction false} OneMoreBatch(ids: seq<string>, rest: seq<seq<string>>, due: set<string>, taken: set<string>,
                                        live: set<string>)
    requires (set id | id in ids) == taken * live && taken <= due
    requires Disjoint(rest) && AllOf(rest) <= (due - taken) * live
    ensures Disjoint([ids] + rest) && AllOf([ids] + rest) <= due * live
    ensures AllOf(rest) == (due - taken) * live ==> AllOf([ids] + rest) == due * live
  {
    assert ([ids] + rest)[1..] == rest;
    hide Disjoint, AllOf;
    forall id | id in ids ensures id !in AllOf(rest) {
      assert id in (set x | x in ids);
      assert id in taken * live;
    }
  }

  lemma {:induction false} PagesLeft(n: nat, page: nat, due: set<string>, taken: set<string>)
    requires n > 0 && taken <= due && |taken| == if |due| < page then |due| else page
    requires n * page >= |due|
    ensures (n - 1) * page >= |due - taken|
  {
    assert due == taken + (due - taken);
    assert n * page == (n - 1) * page + page;
  }

  /** Repeated claims at one instant hand out disjoint batches; enough pages hand out exactly the due candidates. */
  lemma {:induction false} ClaimsDrain(q: Queue, ops: seq<Op>, now: int, page: nat)
    requires Valid(q.due) && forall i :: 0 <= i < |ops| ==> Advances(ops[i], now, page)
    ensures Disjoint(Batches(q, ops))
    ensures AllOf(Batches(q, ops)) <= DueNow(q, now) * q.candidates.Keys
    ensures |ops| * page >= |DueNow(q, now)| ==> AllOf(Batches(q, ops)) == DueNow(q, now) * q.candidates.Keys
    decreases |ops|
  {
    hide Valid, Scores, SameContent, DueNow, DueIds, Step;
    if ops != [] {
      hide Batches, AllOf, Disjoint;
      var r, due := Step(q, ops[0]).0, DueNow(q, now);
      ClaimTakesAPage(q, ops[0], now, page);
      var taken := set id | id in DueIds(q, ops[0]);
      ClaimsDrain(r, ops[1..], now, page);
      BatchesOneMore(q, ops);
      OneMoreBatch(Step(q, ops[0]).1.ids, Batches(r, ops[1..]), due, taken, q.candidates.Keys);
      if |ops| * page >= |due| { PagesLeft(|ops|, page, due, taken); }
    }
  }

  /** Why the lease must reach a millisecond: a claimed candidate is due again at once iff the lease end does not. */
  lemma {:induction false} DueAgainIff(q: Queue, op: Op, id: string)
    requires Scheduled(q) && op.Claim? && Claimable(op) && id in q.candidates && id in DueIds(q, op)
    ensures Scheduled(Step(q, op).0)
    ensures id in DueNow(Step(q, op).0, Millis(op.nowNs)) <==> Millis(op.nowNs + op.leaseNs) <= Millis(op.nowNs)
  {
    ClaimSetsDue(q, op, id);
  }

  lemma {:induction false} LeaseReachesAMillisecond(leaseNs: nat)
    ensures leaseNs >= NS_PER_MS <==> forall nowNs :: Millis(nowNs + leaseNs) > Millis(nowNs)
  {
    if leaseNs < NS_PER_MS {
      assert Millis(0 + leaseNs) == Millis(0);
    }
  }

  /** A shorter lease can end within its own millisecond: then the next worker claims the same candidate at once. */
  lemma {:induction false} ShortLeaseIsClaimedTwice(id: string, c: Candidate, leaseNs: nat, t1: string, t2: string)
    requires IsDigest(id) && t1 != "" && t2 != "" && t1 != t2 && Millis(c.nextAttemptNs) <= 0
    requires 0 < leaseNs < NS_PER_MS
    ensures var ops := [Enqueue(id, c), Claim("v", 0, leaseNs, 1, t1), Claim("w", 0, leaseNs, 1, t2)];
            Run(ops) && ClaimsId(ops, 1, id) && ClaimsId(ops, 2, id)
  {
    hide IsDigest, Trim, ClaimStep;
    var first, second := Claim("v", 0, leaseNs, 1, t1), Claim("w", 0, leaseNs, 1, t2);
    var ops := [Enqueue(id, c), first, second];
    assert Millis(0 + leaseNs) == 0;
    EnqueueOne(id, c);
    ClaimOne(id, c, Millis(c.nextAttemptNs), first);
    ClaimOne(id, Leased(c, first), 0, second);
    hide Add, Millis, Leased;
    assert After(ops, 0) == EMPTY;
    assert After(ops, 1) == Step(EMPTY, ops[0]).0;
    assert After(ops, 2) == Step(After(ops, 1), ops[1]).0;
  }
}
