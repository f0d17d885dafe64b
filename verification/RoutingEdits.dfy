/**
  Version-checked routing edits of one access key by any number of editors (`Service.UpdateAccessKeyRouting` over
  `Client.UpdateAccessKeyRouting`). An editor reads the record in one step and writes it back in a later one; between
  the two, other editors, revocation, rotation and provisioning may run. Provisioning writes without a new version.
 */
module RoutingEdits {
  import opened AccessKeys

  datatype Edit =
    | Read(editor: nat)
    | Write(editor: nat, expected: int, providers: seq<string>, bindings: map<string, string>)
    | RevokeKey
    | RotateKey(newHash: string)
    | Provision

  /** The store and the record each editor last read. */
  datatype World = World(store: Store, held: map<nat, Record>)

  ghost predicate Present(w: World, name: string) { name in w.store.records && w.store.records[name].name == name }

  function Current(w: World, name: string): Record
    requires name in w.store.records
  {
    w.store.records[name]
  }

  function Edited(r: Record, op: Edit): Record
    requires op.Write?
  {
    r.(providers := op.providers, bindings := op.bindings)
  }

  function Activated(r: Record): Record { r.(status := "active", provisioning := "ready") }

  /** Whether a write passes the service's own version check and reaches the script. */
  predicate Submits(w: World, op: Edit) {
    op.Write? && op.editor in w.held && w.held[op.editor].version == op.expected
  }

  function Step(w: World, name: string, op: Edit): (World, bool) {
    if name !in w.store.records then (w, false) else
    match op
    case Read(e) => (w.(held := w.held[e := w.store.records[name]]), false)
    case Write(e, expected, _, _) =>
      if !Submits(w, op) then (w, false) else
        var (s, outcome) := AccessKeys.Step(w.store, Route(Edited(w.held[e], op), expected));
        (w.(store := s), outcome == Done)
    case RevokeKey => (w.(store := AccessKeys.Step(w.store, Revoke(name)).0), true)
    case RotateKey(h) => (w.(store := AccessKeys.Step(w.store, Rotate(name, h)).0), true)
    case Provision =>
      if w.store.records[name].status != "pending" then (w, false)
      else (w.(store := AccessKeys.Step(w.store, Put(Activated(w.store.records[name]))).0), false)
  }

  function After(w: World, name: string, ops: seq<Edit>, i: nat): World
    requires i <= |ops|
  {
    if i == 0 then w else Step(After(w, name, ops, i - 1), name, ops[i - 1]).0
  }

  lemma {:induction false} AfterOneMore(w: World, name: string, ops: seq<Edit>, i: nat)
    requires i < |ops|
    ensures After(w, name, ops, i + 1) == Step(After(w, name, ops, i), name, ops[i]).0
  {
    hide Step;
  }

  /** Operation `i` took effect as a versioned write. */
  predicate Success(w: World, name: string, ops: seq<Edit>, i: nat)
    requires i < |ops|
  {
    Step(After(w, name, ops, i), name, ops[i]).1
  }

  function Successes(w: World, name: string, ops: seq<Edit>, i: nat): nat
    requires i <= |ops|
  {
    if i == 0 then 0 else Successes(w, name, ops, i - 1) + (if Success(w, name, ops, i - 1) then 1 else 0)
  }

  /** Two records of one key agree except that provisioning may have activated the older one. */
  predicate SameUpToActivation(older: Record, newer: Record) {
    newer == older || (older.status == "pending" && newer == Activated(older))
  }

  /** Equal versions mean equal records, up to an unversioned activation. */
  ghost predicate Tracked(w: World, name: string) {
    && Present(w, name)
    && forall e :: e in w.held ==>
         && w.held[e].name == name && w.held[e].version <= Current(w, name).version
         && (w.held[e].version == Current(w, name).version ==> SameUpToActivation(w.held[e], Current(w, name)))
  }

  /** What one step does to the key's record. */
  lemma {:induction false} StepOnRecord(w: World, name: string, op: Edit)
    requires Tracked(w, name)
    ensures var (v, ok) := Step(w, name, op);
            var c, d := Current(w, name), v.store.records[name];
            && Present(v, name)
            && (ok ==> d.version == c.version + 1)
            && (!ok ==> d == c || (op.Provision? && c.status == "pending" && d == Activated(c)))
            && (ok && op.Write? ==> SameUpToActivation(w.held[op.editor], c)
                                    && d == w.held[op.editor].(providers := op.providers, bindings := op.bindings,
                                                               version := c.version + 1))
  {
  }

  lemma {:induction false} StepTracks(w: World, name: string, op: Edit)
    requires Tracked(w, name)
    ensures Tracked(Step(w, name, op).0, name)
  {
    StepOnRecord(w, name, op);
    assert forall e :: e in Step(w, name, op).0.held ==>
        Step(w, name, op).0.held[e] == if op == Read(e) then Current(w, name) else w.held[e];
  }

  lemma {:induction false} RunTracks(w: World, name: string, ops: seq<Edit>, i: nat)
    requires Present(w, name) && w.held == map[] && i <= |ops|
    ensures Tracked(After(w, name, ops, i), name)
  {
    if i > 0 {
      RunTracks(w, name, ops, i - 1);
      StepTracks(After(w, name, ops, i - 1), name, ops[i - 1]);
    }
  }

  /** k successful writes raise the version by exactly k. */
  lemma {:induction false} VersionCountsSuccesses(w: World, name: string, ops: seq<Edit>, i: nat)
    requires Present(w, name) && w.held == map[] && i <= |ops|
    ensures Present(After(w, name, ops, i), name)
    ensures Current(After(w, name, ops, i), name).version == Current(w, name).version + Successes(w, name, ops, i)
  {
    if i > 0 {
      VersionCountsSuccesses(w, name, ops, i - 1);
      RunTracks(w, name, ops, i - 1);
      hide Step, Tracked;
      StepOnRecord(After(w, name, ops, i - 1), name, ops[i - 1]);
    }
  }

  /** Provisioning changed the record at step `m`. */
  ghost predicate ActivatesAt(w: World, name: string, ops: seq<Edit>, m: nat)
    requires m < |ops|
  {
    ops[m].Provision? && After(w, name, ops, m + 1).store.records != After(w, name, ops, m).store.records
  }

  /** Editor `e` last read the record at step `j` before step `i`. */
  ghost predicate LastRead(ops: seq<Edit>, j: nat, i: nat, e: nat) {
    j < i < |ops| && ops[j] == Read(e) && forall m :: j < m < i ==> ops[m] != Read(e)
  }

  lemma {:induction false} HeldSinceRead(w: World, name: string, ops: seq<Edit>, j: nat, m: nat, e: nat)
    requires Present(w, name) && w.held == map[]
    requires j < m <= |ops| && ops[j] == Read(e) && forall k :: j < k < m ==> ops[k] != Read(e)
    ensures Present(After(w, name, ops, j), name) && e in After(w, name, ops, m).held
    ensures After(w, name, ops, m).held[e] == Current(After(w, name, ops, j), name)
  {
    RunTracks(w, name, ops, j);
    if m > j + 1 { HeldSinceRead(w, name, ops, j, m - 1, e); }
  }

  /** While the version stands still, the record changes exactly when provisioning activates it. */
  lemma {:induction false} UnchangedIffNotActivated(w: World, name: string, ops: seq<Edit>, j: nat, m: nat)
    requires Present(w, name) && w.held == map[] && j <= m <= |ops|
    ensures Present(After(w, name, ops, j), name) && Present(After(w, name, ops, m), name)
    ensures var a, b := Current(After(w, name, ops, j), name), Current(After(w, name, ops, m), name);
            && a.version <= b.version
            && (a.version == b.version ==>
                  && (b == a || (a.status == "pending" && b == Activated(a)))
                  && (b == a <==> forall k :: j <= k < m ==> !ActivatesAt(w, name, ops, k)))
  {
    hide Step, Tracked, After;
    RunTracks(w, name, ops, j);
    TrackedIsPresent(After(w, name, ops, j), name);
    if m > j {
      UnchangedIffNotActivated(w, name, ops, j, m - 1);
      RunTracks(w, name, ops, m - 1);
      var v := After(w, name, ops, m - 1);
      AfterOneMore(w, name, ops, m - 1);
      StepOnRecord(v, name, ops[m - 1]);
      if ops[m - 1].Provision? { ActivationMeans(v, name, ops[m - 1]); }
      assert ActivatesAt(w, name, ops, m - 1)
          <==> ops[m - 1].Provision? && Current(After(w, name, ops, m), name) != Current(v, name);
    }
  }

  lemma {:induction false} TrackedIsPresent(w: World, name: string)
    requires Tracked(w, name)
    ensures Present(w, name)
  {
  }

  lemma {:induction false} ActivationMeans(v: World, name: string, op: Edit)
    requires Tracked(v, name) && op.Provision?
    ensures Present(Step(v, name, op).0, name)
    ensures Step(v, name, op).0.store.records != v.store.records
        <==> Current(Step(v, name, op).0, name) != Current(v, name)
  {
    StepOnRecord(v, name, op);
    var t := Step(v, name, op).0;
    if Current(t, name) == Current(v, name) { assert t.store.records == v.store.records; }
  }

  /** A successful edit was computed from the very record it replaced, unless provisioning slipped in unversioned. */
  lemma {:induction false} ComputedFromPredecessorIff(w: World, name: string, ops: seq<Edit>, j: nat, i: nat, e: nat)
    requires Present(w, name) && w.held == map[]
    requires LastRead(ops, j, i, e) && ops[i].Write? && ops[i].editor == e && Success(w, name, ops, i)
    ensures Present(After(w, name, ops, i), name) && e in After(w, name, ops, i).held
    ensures After(w, name, ops, i).held[e] == Current(After(w, name, ops, i), name)
        <==> forall k :: j <= k < i ==> !ActivatesAt(w, name, ops, k)
  {
    HeldSinceRead(w, name, ops, j, i, e);
    RunTracks(w, name, ops, i);
    UnchangedIffNotActivated(w, name, ops, j, i);
    var v := After(w, name, ops, i);
    StepOnRecord(v, name, ops[i]);
    assert v.held[e].version == Current(v, name).version;
  }

  /** The exception is real: an edit read before provisioning and written after it puts the key back to pending. */
  lemma {:induction false} EditUndoesProvisioning(w: World, name: string)
    requires Present(w, name) && w.held == map[] && Indexed(w.store)
    requires Current(w, name).status == "pending" && Current(w, name).accountId !in w.store.byAccount
    ensures var ops := [Read(0), Provision, Write(0, Current(w, name).version, [], map[])];
            && Success(w, name, ops, 2)
            && Current(After(w, name, ops, 2), name).status == "active"
            && name in After(w, name, ops, 3).store.records
            && Current(After(w, name, ops, 3), name).status == "pending"
            && !Indexed(After(w, name, ops, 3).store)
  {
    var ops := [Read(0), Provision, Write(0, Current(w, name).version, [], map[])];
    AfterOneMore(w, name, ops, 0);
    AfterOneMore(w, name, ops, 1);
    AfterOneMore(w, name, ops, 2);
    assert After(w, name, ops, 0) == w;
    var w3 := After(w, name, ops, 3);
    assert w3.store.byAccount[Current(w, name).accountId] == name;
  }
}
