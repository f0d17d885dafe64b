/**
  The access-key store of `pkg/controlplane/redis.go`: one record per name, an index from secret hash to name and an
  index from account to the name of its active key. Scripts are atomic; revoke and rotate run uninterrupted.
 */
module AccessKeys {
  import opened Text
  import opened Options

  datatype Record = Record(name: string, secretHash: string, status: string, subjectId: string, accountId: string,
                           provisioning: string, initialCredit: string, providers: seq<string>,
                           bindings: map<string, string>, expiresAt: Option<int>, version: int)

  datatype Store = Store(records: map<string, Record>, bySecret: map<string, string>, byAccount: map<string, string>)

  datatype Outcome = Done | Invalid | NameTaken | SecretTaken | AccountTaken | NotFound | VersionConflict

  datatype Op =
    | Create(record: Record)
    | Put(record: Record)
    | Revoke(name: string)
    | Rotate(name: string, newHash: string)
    | Route(record: Record, expected: int)

  const EMPTY := Store(map[], map[], map[])

  predicate Active(r: Record) { r.status == "active" }

  predicate Live(r: Record, now: int) { Active(r) && (r.expiresAt.Some? ==> now <= r.expiresAt.value) }

  /** A name that is its own Redis key part and is not the key of an index. */
  predicate RecordName(name: string) {
    name != "" && KeyPart(name) == name && name != "index" && name != "account_index"
  }

  /** Trimmed fields; the subject defaults to the name and the account to the subject. */
  function Normalize(r: Record): Record {
    var name, subject, account := TrimSpace(r.name), TrimSpace(r.subjectId), TrimSpace(r.accountId);
    var subjectId := if subject == "" then name else subject;
    r.(name := name, status := TrimSpace(r.status), subjectId := subjectId,
       accountId := if account == "" then subjectId else account)
  }

  function WithDefaultStatus(r: Record): Record { if r.status == "" then r.(status := "active") else r }

  /** The first of some texts that is not blank once trimmed, empty if all are. */
  function FirstNonBlank(texts: seq<string>): string {
    if texts == [] then "" else if TrimSpace(texts[0]) != "" then TrimSpace(texts[0]) else FirstNonBlank(texts[1..])
  }

  /** A blank subject stands for the name, a blank account for the subject; normalising again changes nothing. */
  lemma {:induction false} NormalizeMeaning(r: Record)
    ensures Normalize(r).subjectId == FirstNonBlank([r.subjectId, r.name])
    ensures Normalize(r).accountId == FirstNonBlank([r.accountId, r.subjectId, r.name])
    ensures Normalize(Normalize(r)) == Normalize(r)
    ensures WithDefaultStatus(Normalize(r)).status == FirstNonBlank([r.status, "active"])
  {
    hide TrimSpace;
    assert [r.subjectId, r.name][1..] == [r.name] && [r.name][1..] == [];
    assert FirstNonBlank([r.name]) == TrimSpace(r.name);
    assert [r.accountId, r.subjectId, r.name][1..] == [r.subjectId, r.name];
    assert [r.status, "active"][1..] == ["active"] && TrimSpace("active") == "active" by { TrimSpaceKeeps("active"); }
    TrimSpaceIdempotent(r.name);
    TrimSpaceIdempotent(r.status);
    TrimSpaceIdempotent(r.subjectId);
    TrimSpaceIdempotent(r.accountId);
  }

  // ---------------------------------------------------------------- the scripts as steps

  function CreateStep(s: Store, r: Record): (Store, Outcome) {
    if r.name in s.records then (s, NameTaken)
    else if r.secretHash in s.bySecret then (s, SecretTaken)
    else if Active(r) && r.accountId in s.byAccount then (s, AccountTaken)
    else (Store(s.records[r.name := r], s.bySecret[r.secretHash := r.name],
                if Active(r) then s.byAccount[r.accountId := r.name] else s.byAccount), Done)
  }

  predicate Refused(s: Store, r: Record) {
    Active(r) && r.accountId in s.byAccount && s.byAccount[r.accountId] != r.name
  }

  /** An index without the entry that `name` had under its previous key. */
  function Forget(index: map<string, string>, key: string, name: string): map<string, string> {
    if key in index && index[key] == name then index - {key} else index
  }

  function PutStep(s: Store, r: Record): (Store, Outcome) {
    if Refused(s, r) then (s, AccountTaken) else
      var bySecret := if r.name in s.records && s.records[r.name].secretHash != r.secretHash
                      then Forget(s.bySecret, s.records[r.name].secretHash, r.name) else s.bySecret;
      var byAccount := if r.name in s.records && s.records[r.name].accountId != r.accountId
                       then Forget(s.byAccount, s.records[r.name].accountId, r.name) else s.byAccount;
      (Store(s.records[r.name := r], bySecret[r.secretHash := r.name],
             if Active(r) then byAccount[r.accountId := r.name] else Forget(byAccount, r.accountId, r.name)), Done)
  }

  function Revoked(r: Record): Record { r.(status := "revoked", version := r.version + 1) }

  function Rotated(r: Record, newHash: string): Record { r.(secretHash := newHash, version := r.version + 1) }

  function RotateStep(s: Store, name: string, newHash: string): (Store, Outcome) {
    if name !in s.records then (s, NotFound)
    else (s.(records := s.records[name := Rotated(s.records[name], newHash)],
             bySecret := (s.bySecret - {s.records[name].secretHash})[newHash := name]), Done)
  }

  /** The version-checked write replaces the whole record. */
  function RouteStep(s: Store, r: Record, expected: int): (Store, Outcome) {
    if r.name !in s.records then (s, NotFound)
    else if s.records[r.name].version != expected then (s, VersionConflict)
    else (s.(records := s.records[r.name := r.(version := expected + 1)]), Done)
  }

  function Step(s: Store, op: Op): (Store, Outcome) {
    match op
    case Create(r) => CreateStep(s, r)
    case Put(r) => PutStep(s, r)
    case Revoke(name) => if name in s.records then PutStep(s, Revoked(s.records[name])) else (s, NotFound)
    case Rotate(name, newHash) => RotateStep(s, name, newHash)
    case Route(r, expected) => RouteStep(s, r, expected)
  }

  // ---------------------------------------------------------------- the client object

  class Client {
    var records: map<string, Record>
    var bySecret: map<string, string>
    var byAccount: map<string, string>

    ghost function State(): Store reads this { Store(records, bySecret, byAccount) }

    constructor ()
      ensures State() == EMPTY
    {
      records, bySecret, byAccount := map[], map[], map[];
    }

    method CreateAccessKey(input: Record) returns (outcome: Outcome)
      requires TrimSpace(input.name) != "" ==> RecordName(TrimSpace(input.name))
      modifies this
      ensures if TrimSpace(input.name) == "" || TrimSpace(input.secretHash) == ""
              then State() == old(State()) && outcome == Invalid
              else (State(), outcome) == Step(old(State()), Create(WithDefaultStatus(Normalize(input))))
    {
      if TrimSpace(input.name) == "" || TrimSpace(input.secretHash) == "" { return Invalid; }
      var r := WithDefaultStatus(Normalize(input));
      if r.name in records { return NameTaken; }
      if r.secretHash in bySecret { return SecretTaken; }
      if r.status == "active" && r.accountId in byAccount { return AccountTaken; }
      records := records[r.name := r];
      bySecret := bySecret[r.secretHash := r.name];
      if r.status == "active" { byAccount := byAccount[r.accountId := r.name]; }
      return Done;
    }

    method PutAccessKey(input: Record) returns (outcome: Outcome)
      requires TrimSpace(input.name) != "" ==> RecordName(TrimSpace(input.name))
      modifies this
      ensures if TrimSpace(input.name) == "" || TrimSpace(input.secretHash) == ""
              then State() == old(State()) && outcome == Invalid
              else (State(), outcome) == Step(old(State()), Put(WithDefaultStatus(Normalize(input))))
    {
      if TrimSpace(input.name) == "" || TrimSpace(input.secretHash) == "" { return Invalid; }
      var r := WithDefaultStatus(Normalize(input));
      outcome := PutScript(r);
    }

    method PutScript(r: Record) returns (outcome: Outcome)
      modifies this
      ensures (State(), outcome) == Step(old(State()), Put(r))
    {
      if r.status == "active" && r.accountId in byAccount && byAccount[r.accountId] != r.name { return AccountTaken; }
      if r.name in records {
        var previous := records[r.name];
        if previous.secretHash != r.secretHash && previous.secretHash in bySecret
           && bySecret[previous.secretHash] == r.name {
          bySecret := bySecret - {previous.secretHash};
        }
        if previous.accountId != r.accountId && previous.accountId in byAccount
           && byAccount[previous.accountId] == r.name {
          byAccount := byAccount - {previous.accountId};
        }
      }
      records := records[r.name := r];
      bySecret := bySecret[r.secretHash := r.name];
      if r.status == "active" {
        byAccount := byAccount[r.accountId := r.name];
      } else if r.accountId in byAccount && byAccount[r.accountId] == r.name {
        byAccount := byAccount - {r.accountId};
      }
      return Done;
    }

    method RevokeAccessKey(name: string) returns (outcome: Outcome)
      requires RecordName(name)
      modifies this
      ensures (State(), outcome) == Step(old(State()), Revoke(name))
    {
      if name !in records { return NotFound; }
      var r := records[name];
      outcome := PutScript(r.(status := "revoked", version := r.version + 1));
    }

    method RotateAccessKey(name: string, newHash: string) returns (outcome: Outcome)
      requires RecordName(name)
      modifies this
      ensures (State(), outcome) == Step(old(State()), Rotate(name, newHash))
    {
      if name !in records { return NotFound; }
      var r := records[name];
      bySecret := bySecret - {r.secretHash};
      bySecret := bySecret[newHash := name];
      records := records[name := r.(secretHash := newHash, version := r.version + 1)];
      return Done;
    }

    method UpdateAccessKeyRouting(input: Record, expected: int) returns (outcome: Outcome)
      modifies this
      ensures if TrimSpace(input.name) == "" || TrimSpace(input.secretHash) == ""
              then State() == old(State()) && outcome == Invalid
              else (State(), outcome) == Step(old(State()), Route(Normalize(input), expected))
    {
      hide TrimSpace;
      if TrimSpace(input.name) == "" || TrimSpace(input.secretHash) == "" { return Invalid; }
      var r := Normalize(input);
      if r.name !in records { return NotFound; }
      if records[r.name].version != expected { return VersionConflict; }
      records := records[r.name := r.(version := expected + 1)];
      return Done;
    }

    /** On a well-indexed store, lookup by secret is a linear search for a live record with that secret. */
    method LookupAccessKey(rawSecret: string, hash: string -> string, now: int) returns (found: Option<Record>)
      ensures found.Some? ==> TrimSpace(rawSecret) != "" && found.value in records.Values && Live(found.value, now)
      ensures Indexed(State()) ==> found == Search(State(), rawSecret, hash, now)
    {
      var secret := TrimSpace(rawSecret);
      if Indexed(State()) { LookupIsSearch(State(), hash(secret), now); }
      if secret == "" || hash(secret) !in bySecret { return None; }
      var name := bySecret[hash(secret)];
      if name !in records || !Live(records[name], now) { return None; }
      return Some(records[name]);
    }

    /** Administrative listing walks the secret index: every record exactly once if the store is well indexed. */
    method ListAccessKeyRecords() returns (out: seq<Record>)
      ensures forall r :: r in out ==> r in records.Values
      ensures Indexed(State()) ==>
                && |out| == |records|
                && (forall i, j :: 0 <= i < j < |out| ==> out[i].name != out[j].name)
                && (forall name :: name in records ==> records[name] in out)
    {
      hide AccountsIndexed, Indexed;
      out := [];
      var left := bySecret.Keys;
      if Indexed(State()) { IndexedNames(State()); }
      while left != {}
        invariant left <= bySecret.Keys && forall r :: r in out ==> r in records.Values
        invariant forall hash :: hash in bySecret.Keys - left && bySecret[hash] in records ==>
                    records[bySecret[hash]] in out
        invariant Indexed(State()) ==>
                    && |out| == |bySecret| - |left|
                    && (forall r :: r in out ==> r.name in records && records[r.name] == r && r.secretHash !in left)
                    && (forall i, j :: 0 <= i < j < |out| ==> out[i].name != out[j].name)
        decreases |left|
      {
        var hash :| hash in left;
        left := left - {hash};
        var name := bySecret[hash];
        if name in records { out := out + [records[name]]; }
      }
      if Indexed(State()) { SecretsCountRecords(State()); }
    }
  }

  // ---------------------------------------------------------------- the invariant

  ghost predicate SecretsIndexed(s: Store) {
    && (forall n :: n in s.records ==>
          s.records[n].secretHash in s.bySecret && s.bySecret[s.records[n].secretHash] == n)
    && (forall h :: h in s.bySecret ==> s.bySecret[h] in s.records && s.records[s.bySecret[h]].secretHash == h)
  }

  ghost predicate AccountsIndexed(s: Store) {
    && (forall n :: n in s.records && Active(s.records[n]) ==>
          s.records[n].accountId in s.byAccount && s.byAccount[s.records[n].accountId] == n)
    && (forall a :: a in s.byAccount ==>
          s.byAccount[a] in s.records && Active(s.records[s.byAccount[a]]) && s.records[s.byAccount[a]].accountId == a)
  }

  /** The secret index is a bijection with the records; the account index is exactly the active records. */
  ghost predicate Indexed(s: Store) {
    (forall n :: n in s.records ==> s.records[n].name == n) && SecretsIndexed(s) && AccountsIndexed(s)
  }

  /** What a step must respect; the only checks the scripts leave to their callers. */
  ghost predicate Harmless(s: Store, op: Op) {
    match op
    case Create(_) => true
    case Put(r) => Refused(s, r) || r.secretHash !in s.bySecret || s.bySecret[r.secretHash] == r.name
    case Revoke(_) => true
    case Rotate(name, h) => name !in s.records || h !in s.bySecret || s.bySecret[h] == name
    case Route(r, expected) =>
      r.name !in s.records || s.records[r.name].version != expected ||
      var prior := s.records[r.name];
      r.secretHash == prior.secretHash && Active(r) == Active(prior) && (Active(r) ==> r.accountId == prior.accountId)
  }

  lemma {:induction false} PutKeepsSecretsIff(s: Store, r: Record)
    requires Indexed(s) && !Refused(s, r)
    ensures SecretsIndexed(PutStep(s, r).0) <==> r.secretHash !in s.bySecret || s.bySecret[r.secretHash] == r.name
  {
    hide Active, Refused;
    var t := PutStep(s, r).0;
    if r.secretHash in s.bySecret && s.bySecret[r.secretHash] != r.name {
      assert s.bySecret[r.secretHash] in t.records;
    }
  }

  lemma {:induction false} PutKeepsActive(s: Store, r: Record, n: string)
    requires Indexed(s) && !Refused(s, r) && n in PutStep(s, r).0.records && Active(PutStep(s, r).0.records[n])
    ensures var t := PutStep(s, r).0; t.records[n].accountId in t.byAccount && t.byAccount[t.records[n].accountId] == n
  {
    hide Active, SecretsIndexed;
  }

  lemma {:induction false} PutKeepsAccount(s: Store, r: Record, a: string)
    requires Indexed(s) && !Refused(s, r) && a in PutStep(s, r).0.byAccount
    ensures var t := PutStep(s, r).0;
            t.byAccount[a] in t.records && Active(t.records[t.byAccount[a]]) && t.records[t.byAccount[a]].accountId == a
  {
    hide Active, SecretsIndexed;
  }

  lemma {:induction false} PutKeepsAccounts(s: Store, r: Record)
    requires Indexed(s) && !Refused(s, r)
    ensures AccountsIndexed(PutStep(s, r).0)
  {
    hide Active, Indexed, PutStep, Refused;
    var t := PutStep(s, r).0;
    forall n | n in t.records && Active(t.records[n])
      ensures t.records[n].accountId in t.byAccount && t.byAccount[t.records[n].accountId] == n
    {
      PutKeepsActive(s, r, n);
    }
    forall a | a in t.byAccount
      ensures t.byAccount[a] in t.records
      ensures Active(t.records[t.byAccount[a]]) && t.records[t.byAccount[a]].accountId == a
    {
      PutKeepsAccount(s, r, a);
    }
  }

  lemma {:induction false} PutKeepsIndexesIff(s: Store, r: Record)
    requires Indexed(s)
    ensures Indexed(PutStep(s, r).0) <==> Harmless(s, Put(r))
  {
    hide SecretsIndexed, AccountsIndexed, Active, Refused;
    if !Refused(s, r) {
      PutKeepsSecretsIff(s, r);
      PutKeepsAccounts(s, r);
    }
  }

  lemma {:induction false} RouteKeepsSecretsIff(s: Store, r: Record, expected: int)
    requires Indexed(s) && r.name in s.records && s.records[r.name].version == expected
    ensures SecretsIndexed(RouteStep(s, r, expected).0) <==> r.secretHash == s.records[r.name].secretHash
  {
    hide Active, AccountsIndexed;
    var t := RouteStep(s, r, expected).0;
    assert t.bySecret[s.records[r.name].secretHash] == r.name;
  }

  lemma {:induction false} RouteKeepsIndexesIff(s: Store, r: Record, expected: int)
    requires Indexed(s)
    ensures Indexed(RouteStep(s, r, expected).0) <==> Harmless(s, Route(r, expected))
  {
    hide SecretsIndexed, AccountsIndexed, Active;
    if r.name in s.records && s.records[r.name].version == expected {
      RouteKeepsSecretsIff(s, r, expected);
      RouteKeepsAccountsIff(s, r, expected);
    }
  }

  lemma {:induction false} RouteKeepsAccountsIff(s: Store, r: Record, expected: int)
    requires Indexed(s) && r.name in s.records && s.records[r.name].version == expected
    ensures var prior := s.records[r.name];
            AccountsIndexed(RouteStep(s, r, expected).0)
            <==> Active(r) == Active(prior) && (Active(r) ==> r.accountId == prior.accountId)
  {
    hide SecretsIndexed;
    var t, prior := RouteStep(s, r, expected).0, s.records[r.name];
    assert t.records[r.name] == r.(version := expected + 1);
    if Active(prior) { assert t.byAccount[prior.accountId] == r.name; }
  }

  lemma {:induction false} RotateKeepsSecretsIff(s: Store, name: string, h: string)
    requires Indexed(s)
    ensures SecretsIndexed(RotateStep(s, name, h).0) <==> Harmless(s, Rotate(name, h))
  {
    hide AccountsIndexed, Active;
    var t := RotateStep(s, name, h).0;
    if name in s.records && h in s.bySecret && s.bySecret[h] != name {
      assert s.bySecret[h] in t.records;
    }
  }

  lemma {:induction false} RotateKeepsIndexesIff(s: Store, name: string, h: string)
    requires Indexed(s)
    ensures Indexed(RotateStep(s, name, h).0) <==> Harmless(s, Rotate(name, h))
  {
    hide SecretsIndexed;
    RotateKeepsSecretsIff(s, name, h);
  }

  lemma {:induction false} CreateKeepsSecrets(s: Store, r: Record)
    requires Indexed(s)
    ensures SecretsIndexed(CreateStep(s, r).0)
  {
    hide Active, AccountsIndexed;
  }

  lemma {:induction false} CreateKeepsAccounts(s: Store, r: Record)
    requires Indexed(s)
    ensures AccountsIndexed(CreateStep(s, r).0)
  {
    hide Active, SecretsIndexed;
  }

  lemma {:induction false} CreateKeepsIndexes(s: Store, r: Record)
    requires Indexed(s)
    ensures Indexed(CreateStep(s, r).0)
  {
    hide Active, SecretsIndexed, AccountsIndexed;
    CreateKeepsSecrets(s, r);
    CreateKeepsAccounts(s, r);
  }

  lemma {:induction false} OwnSecret(s: Store, name: string)
    requires Indexed(s) && name in s.records
    ensures s.records[name].name == name
    ensures s.records[name].secretHash in s.bySecret && s.bySecret[s.records[name].secretHash] == name
  {
  }

  /** Both indexes survive a step exactly when the step is harmless. */
  lemma {:induction false} StepKeepsIndexesIff(s: Store, op: Op)
    requires Indexed(s)
    ensures Indexed(Step(s, op).0) <==> Harmless(s, op)
  {
    hide Indexed, CreateStep, PutStep, RotateStep, RouteStep, Refused, Active;
    match op
    case Create(r) => CreateKeepsIndexes(s, r);
    case Put(r) => PutKeepsIndexesIff(s, r);
    case Revoke(name) =>
      if name in s.records {
        OwnSecret(s, name);
        PutKeepsIndexesIff(s, Revoked(s.records[name]));
      }
    case Rotate(name, h) => RotateKeepsIndexesIff(s, name, h);
    case Route(r, expected) => RouteKeepsIndexesIff(s, r, expected);
  }

  function After(ops: seq<Op>, i: nat): Store
    requires i <= |ops|
  {
    if i == 0 then EMPTY else Step(After(ops, i - 1), ops[i - 1]).0
  }

  /** Every run of harmless steps keeps both indexes exact. */
  lemma {:induction false} RunKeepsIndexes(ops: seq<Op>, i: nat)
    requires i <= |ops| && forall j :: 0 <= j < i ==> Harmless(After(ops, j), ops[j])
    ensures Indexed(After(ops, i))
  {
    hide Step, Harmless;
    if i > 0 {
      hide Indexed;
      RunKeepsIndexes(ops, i - 1);
      StepKeepsIndexesIff(After(ops, i - 1), ops[i - 1]);
    }
  }

  ghost predicate IndexedUpTo(ops: seq<Op>, n: nat)
    requires n <= |ops|
  {
    forall i :: 0 <= i <= n ==> Indexed(After(ops, i))
  }

  ghost predicate HarmlessUpTo(ops: seq<Op>, n: nat)
    requires n <= |ops|
  {
    forall i :: 0 <= i < n ==> Harmless(After(ops, i), ops[i])
  }

  lemma {:induction false} OneMoreIndexed(ops: seq<Op>, n: nat)
    requires 0 < n <= |ops|
    ensures IndexedUpTo(ops, n) <==> IndexedUpTo(ops, n - 1) && Indexed(After(ops, n))
    ensures IndexedUpTo(ops, n - 1) ==> Indexed(After(ops, n - 1))
  {
    hide Indexed, Step;
  }

  lemma {:induction false} OneMoreHarmless(ops: seq<Op>, n: nat)
    requires 0 < n <= |ops|
    ensures HarmlessUpTo(ops, n) <==> HarmlessUpTo(ops, n - 1) && Harmless(After(ops, n - 1), ops[n - 1])
  {
    hide Harmless, Step;
  }

  /** Over whole runs: the indexes are exact at every moment if and only if every step is harmless. */
  lemma {:induction false} RunKeepsIndexesIff(ops: seq<Op>, n: nat)
    requires n <= |ops|
    ensures IndexedUpTo(ops, n) <==> HarmlessUpTo(ops, n)
  {
    hide Step, Harmless;
    if n > 0 {
      hide Indexed;
      RunKeepsIndexesIff(ops, n - 1);
      OneMoreIndexed(ops, n);
      OneMoreHarmless(ops, n);
      assert After(ops, n) == Step(After(ops, n - 1), ops[n - 1]).0;
      hide After, IndexedUpTo, HarmlessUpTo;
      if Indexed(After(ops, n - 1)) { StepKeepsIndexesIff(After(ops, n - 1), ops[n - 1]); }
    }
  }

  /** In every run of harmless steps no account has two active keys. */
  lemma {:induction false} OneActiveKeyPerAccount(ops: seq<Op>, i: nat, m: string, n: string)
    requires i <= |ops| && forall j :: 0 <= j < i ==> Harmless(After(ops, j), ops[j])
    requires var s := After(ops, i);
             && m in s.records && n in s.records && Active(s.records[m]) && Active(s.records[n])
             && s.records[m].accountId == s.records[n].accountId
    ensures m == n
  {
    hide After, Harmless;
    RunKeepsIndexes(ops, i);
  }

  // ---------------------------------------------------------------- what the condition excludes

  /** A record of a key that is not active yet. */
  function Pending(name: string, hash: string): Record {
    Record(name, hash, "pending", name, name, "", "", [], map[], None, 0)
  }

  lemma {:induction false} TwoKeys(ops: seq<Op>)
    requires |ops| == 3 && ops[0] == Create(Pending("a", "h")) && ops[1] == Create(Pending("b", "g"))
    ensures After(ops, 3) == Step(After(ops, 2), ops[2]).0
    ensures After(ops, 2)
         == Store(map["a" := Pending("a", "h"), "b" := Pending("b", "g")], map["h" := "a", "g" := "b"], map[])
  {
    assert After(ops, 0) == EMPTY;
    assert After(ops, 1) == Step(EMPTY, ops[0]).0;
    assert After(ops, 2) == Step(After(ops, 1), ops[1]).0;
  }

  /** A put, a rotation and a routing write that give "b" the secret of "a", each after the same two creations. */
  lemma {:induction false} SharedSecretBreaksTheIndex()
    ensures var ops := [Create(Pending("a", "h")), Create(Pending("b", "g")), Put(Pending("b", "h"))];
            After(ops, 3).bySecret == map["h" := "b"] && "a" in After(ops, 3).records && !Indexed(After(ops, 3))
    ensures var ops := [Create(Pending("a", "h")), Create(Pending("b", "g")), Rotate("b", "h")];
            After(ops, 3).bySecret == map["h" := "b"] && "a" in After(ops, 3).records && !Indexed(After(ops, 3))
    ensures var ops := [Create(Pending("a", "h")), Create(Pending("b", "g")), Route(Pending("b", "h"), 0)];
            After(ops, 3).bySecret == map["h" := "a", "g" := "b"] && !Indexed(After(ops, 3))
  {
    hide After, Indexed;
    var put, rotate, route := Put(Pending("b", "h")), Rotate("b", "h"), Route(Pending("b", "h"), 0);
    var first := [Create(Pending("a", "h")), Create(Pending("b", "g"))];
    TwoKeys([first[0], first[1], put]);
    TwoKeys([first[0], first[1], rotate]);
    TwoKeys([first[0], first[1], route]);
    NotIndexed(After([first[0], first[1], put], 3), "a");
    NotIndexed(After([first[0], first[1], rotate], 3), "a");
    NotIndexed(After([first[0], first[1], route], 3), "b");
  }

  lemma {:induction false} NotIndexed(s: Store, n: string)
    requires n in s.records && s.records[n].secretHash in s.bySecret && s.bySecret[s.records[n].secretHash] != n
    ensures !Indexed(s)
  {
  }

  // ---------------------------------------------------------------- lookup

  ghost predicate IsMatch(s: Store, name: string, hash: string, now: int) {
    && name in s.records && s.records[name].secretHash == hash && s.records[name].status == "active"
    && !(s.records[name].expiresAt.Some? && s.records[name].expiresAt.value < now)
  }

  lemma {:induction false} IndexedNames(s: Store)
    requires Indexed(s)
    ensures forall h :: h in s.bySecret ==>
              && s.bySecret[h] in s.records && s.records[s.bySecret[h]].secretHash == h
              && s.records[s.bySecret[h]].name == s.bySecret[h]
    ensures forall n :: n in s.records ==>
              s.records[n].secretHash in s.bySecret && s.bySecret[s.records[n].secretHash] == n
  {
    hide AccountsIndexed;
  }

  /** Linear search for a live record under the secret's hash. */
  ghost function Search(s: Store, rawSecret: string, hash: string -> string, now: int): Option<Record> {
    var secret := TrimSpace(rawSecret);
    if secret != "" && exists name :: IsMatch(s, name, hash(secret), now)
    then var name :| IsMatch(s, name, hash(secret), now); Some(s.records[name])
    else None
  }

  lemma {:induction false} LookupIsSearch(s: Store, h: string, now: int)
    requires Indexed(s)
    ensures forall name :: IsMatch(s, name, h, now) ==> h in s.bySecret && s.bySecret[h] == name
    ensures h in s.bySecret && Live(s.records[s.bySecret[h]], now) ==> IsMatch(s, s.bySecret[h], h, now)
  {
  }

  /** After a rotation to a fresh secret the old secret finds nothing and the new one finds the same key. */
  lemma {:induction false} RotatedOutSecretFindsNothing(s: Store, name: string, newHash: string, now: int)
    requires Indexed(s) && name in s.records && newHash !in s.bySecret
    ensures var t := Step(s, Rotate(name, newHash)).0;
            && (forall n :: !IsMatch(t, n, s.records[name].secretHash, now))
            && (forall n :: IsMatch(t, n, newHash, now) <==> n == name && Live(s.records[name], now))
  {
    RotateKeepsIndexesIff(s, name, newHash);
  }

  /** A creation goes through exactly if name, secret and, for an active key, account are free; then it is found. */
  lemma {:induction false} CreateMeaning(s: Store, r: Record, now: int)
    requires Indexed(s)
    ensures var (t, outcome) := Step(s, Create(r));
            && (outcome == Done <==> r.name !in s.records && r.secretHash !in s.bySecret
                                     && (Active(r) ==> forall n :: n in s.records && Active(s.records[n]) ==>
                                                         s.records[n].accountId != r.accountId))
            && (outcome != Done ==> t == s)
            && (outcome == Done ==>
                  && t.records == s.records[r.name := r]
                  && (forall n :: IsMatch(t, n, r.secretHash, now) <==> n == r.name && Live(r, now))
                  && (forall n, h :: h != r.secretHash ==> (IsMatch(t, n, h, now) <==> IsMatch(s, n, h, now))))
  {
    hide SecretsIndexed, AccountsIndexed;
    CreateRefusals(s, r);
    if Step(s, Create(r)).1 == Done { NewSecretMatches(s, r, now); }
  }

  lemma {:induction false} CreateRefusals(s: Store, r: Record)
    requires Indexed(s)
    ensures r.accountId in s.byAccount
        <==> exists n :: n in s.records && Active(s.records[n]) && s.records[n].accountId == r.accountId
  {
    hide SecretsIndexed;
    if r.accountId in s.byAccount { assert Active(s.records[s.byAccount[r.accountId]]); }
  }

  lemma {:induction false} NewSecretMatches(s: Store, r: Record, now: int)
    requires Indexed(s) && r.name !in s.records && r.secretHash !in s.bySecret
    ensures forall n :: n in s.records ==> s.records[n].secretHash != r.secretHash
  {
    hide AccountsIndexed;
  }

  /** A put that is not refused stores the record as given and touches no other. */
  lemma {:induction false} PutMeaning(s: Store, r: Record)
    ensures var (t, outcome) := Step(s, Put(r));
            && (outcome == Done <==> !Refused(s, r)) && (outcome != Done ==> t == s)
            && (outcome == Done ==> t.records == s.records[r.name := r])
  {
    hide Refused;
  }

  /** A revoked key is found under no secret, its account is free, and no other key is touched. */
  lemma {:induction false} RevokeMeaning(s: Store, name: string, now: int)
    requires Indexed(s) && name in s.records
    ensures var (t, outcome) := Step(s, Revoke(name));
            && outcome == Done && t.records.Keys == s.records.Keys
            && t.records[name] == s.records[name].(status := "revoked", version := s.records[name].version + 1)
            && (forall h :: !IsMatch(t, name, h, now))
            && (forall n, h :: n != name ==> (IsMatch(t, n, h, now) <==> IsMatch(s, n, h, now)))
            && (forall a :: a in t.byAccount ==> t.byAccount[a] != name)
  {
    var r := Revoked(s.records[name]);
    var t := Step(s, Revoke(name)).0;
    assert !Refused(s, r);
    OwnSecret(s, name);
    PutMeaning(s, r);
    PutKeepsIndexesIff(s, r);
    hide PutStep, SecretsIndexed, Refused;
    assert Indexed(t);
  }

  /** The step writes the secret hash `h` into a record. */
  predicate Installs(op: Op, h: string) {
    match op
    case Create(r) => r.secretHash == h
    case Put(r) => r.secretHash == h
    case Rotate(_, newHash) => newHash == h
    case Revoke(_) => false
    case Route(_, _) => false
  }

  lemma {:induction false} OnlyInstalledSecretsAppear(s: Store, op: Op, h: string)
    requires Indexed(s) && h !in s.bySecret && !Installs(op, h)
    ensures h !in Step(s, op).0.bySecret
  {
    if op.Revoke? && op.name in s.records { OwnSecret(s, op.name); }
    hide Indexed;
  }

  lemma {:induction false} AbsentSecretStaysAbsent(ops: seq<Op>, i: nat, j: nat, h: string)
    requires i <= j <= |ops| && forall k :: 0 <= k < j ==> Harmless(After(ops, k), ops[k])
    requires h !in After(ops, i).bySecret && forall k :: i <= k < j ==> !Installs(ops[k], h)
    ensures h !in After(ops, j).bySecret
  {
    hide Step, Harmless, Installs, Indexed;
    if i < j {
      AbsentSecretStaysAbsent(ops, i, j - 1, h);
      RunKeepsIndexes(ops, j - 1);
      OnlyInstalledSecretsAppear(After(ops, j - 1), ops[j - 1], h);
    }
  }

  lemma {:induction false} RotateForgets(s: Store, name: string, newHash: string)
    requires Indexed(s) && name in s.records && newHash !in s.bySecret
    ensures s.records[name].secretHash !in Step(s, Rotate(name, newHash)).0.bySecret
  {
    hide Indexed;
    OwnSecret(s, name);
  }

  /** Until some step installs it again, a rotated-out secret finds nothing in any later state. */
  lemma {:induction false} RotatedOutForGood(ops: seq<Op>, i: nat, j: nat, now: int)
    requires i < j <= |ops| && forall k :: 0 <= k < j ==> Harmless(After(ops, k), ops[k])
    requires ops[i].Rotate? && ops[i].name in After(ops, i).records && ops[i].newHash !in After(ops, i).bySecret
    requires forall k :: i < k < j ==> !Installs(ops[k], After(ops, i).records[ops[i].name].secretHash)
    ensures forall n :: !IsMatch(After(ops, j), n, After(ops, i).records[ops[i].name].secretHash, now)
  {
    hide Harmless, Installs, Indexed, Step, IsMatch;
    var s := After(ops, i);
    var h := s.records[ops[i].name].secretHash;
    RunKeepsIndexes(ops, i);
    RotateForgets(s, ops[i].name, ops[i].newHash);
    assert After(ops, i + 1) == Step(s, ops[i]).0;
    hide After;
    AbsentSecretStaysAbsent(ops, i + 1, j, h);
    RunKeepsIndexes(ops, j);
    LookupIsSearch(After(ops, j), h, now);
  }

  lemma {:induction false} SecretsCountRecords(s: Store)
    requires Indexed(s)
    ensures |s.bySecret| == |s.records|
  {
    BijectionCounts(s.bySecret.Keys, s.records.Keys, s.bySecret);
  }

  lemma {:induction false} BijectionCounts(a: set<string>, b: set<string>, f: map<string, string>)
    requires a <= f.Keys && (forall x :: x in a ==> f[x] in b)
    requires forall x, y :: x in a && y in a && f[x] == f[y] ==> x == y
    requires forall z :: z in b ==> exists x :: x in a && f[x] == z
    ensures |a| == |b|
  {
    if a != {} {
      var x :| x in a;
      BijectionCounts(a - {x}, b - {f[x]}, f);
    }
  }
}
