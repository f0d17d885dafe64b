/**
  Provisioning of access keys by the admin service (`onr-admin/internal/service/service.go`) with local billing on.
  One service operation runs at a time, as a sequence of store writes held in a program counter; a crash may abandon it
  after any write, and any write may report failure whether or not it took effect. Restarting the service provisions
  the accounts of all active and pending keys again. Initial credits arrive as decimals; a text that is no decimal is
  refused like a negative one. `EnsureAccessKey` is a creation followed by a provisioning.
 */
module Provisioning {
  import opened Text
  import opened AccessKeys
  import opened Options
  import L = Ledger

  /** What follows the granting of initial credit. */
  datatype Next = AfterCreate | AfterProvision | AfterRestart(todo: seq<(Record, real)>)

  datatype Pc =
    | Idle
    | Opening(rec: Record, account: string, credit: real, next: Next)
    | Granting(rec: Record, account: string, credit: real, next: Next)
    | Failing(rec: Record)
    | Activating(rec: Record)

  /** An initial credit that took effect, and the account id it was provisioned for. */
  datatype Granted = Granted(id: string, op: L.Op)

  /** `grants` logs the initial credits that took effect. */
  datatype World = World(store: Store, books: L.Books, pc: Pc, grants: seq<Granted>)

  datatype Action =
    | StartCreate(input: Record, credit: real)
    | StartProvision(name: string, credit: real)
    | Restart(listed: seq<(Record, real)>)
    | Continue(effect: bool, reported: bool, currency: string)
    | Crash
    | RevokeKey(name: string)
    | RotateKey(name: string, newHash: string)
    | RouteKey(name: string, expected: int, providers: seq<string>, bindings: map<string, string>)
    | Bill(op: L.Op)

  const START := World(AccessKeys.EMPTY, L.EMPTY, Idle, [])

  function Mark(account: string): string { KeyPart(L.InitialCreditKey(account)) }

  /** The account the service provisions for a creation: the given one, else the subject, possibly blank. */
  function RequestedAccount(input: Record): string {
    if TrimSpace(input.accountId) == "" then TrimSpace(input.subjectId) else TrimSpace(input.accountId)
  }

  function PendingRecord(input: Record): Record {
    var account := RequestedAccount(input);
    Normalize(input.(accountId := account, status := "pending", provisioning := "pending", version := 0))
  }

  function GrantOp(account: string, credit: real, currency: string): L.Op
    requires L.AmountMicros(credit).Some?
  {
    L.Grant(KeyPart(account), Mark(account), currency, L.AmountMicros(credit).value)
  }

  predicate Acceptable(account: string, credit: real, currency: string) {
    L.Provisionable(account, credit, currency)
  }

  /** Where control goes when the ledger call fails. */
  function OnFailure(rec: Record, next: Next): Pc { if next == AfterCreate then Failing(rec) else Idle }

  function OnSuccess(rec: Record, next: Next): Pc {
    match next
    case AfterCreate => Activating(rec)
    case AfterProvision => Activating(rec)
    case AfterRestart(todo) => NextRestart(todo)
  }

  /** The next listed key that is active or pending and has an account, with the initial credit chosen for it. */
  function NextRestart(todo: seq<(Record, real)>): Pc {
    if todo == [] then Idle else
      var (rec, credit) := todo[0];
      if (rec.status != "active" && rec.status != "pending") || TrimSpace(rec.accountId) == ""
      then NextRestart(todo[1..])
      else Opening(rec, rec.accountId, credit, AfterRestart(todo[1..]))
  }

  function Ready(rec: Record): Record { rec.(status := "active", provisioning := "ready") }

  function Failed(rec: Record): Record { rec.(status := "pending", provisioning := "failed") }

  /** The next store write of the running operation. */
  function ContinueStep(w: World, effect: bool, reported: bool, currency: string): World {
    match w.pc
    case Idle => w
    case Opening(rec, account, credit, next) =>
      if !Acceptable(account, credit, currency) then w.(pc := OnFailure(rec, next)) else
        w.(books := if effect then L.Step(w.books, L.Open(KeyPart(account), currency)).0 else w.books,
           pc := if effect && reported then Granting(rec, account, credit, next) else OnFailure(rec, next))
    case Granting(rec, account, credit, next) =>
      if !Acceptable(account, credit, currency) then w.(pc := OnFailure(rec, next)) else
        var op := GrantOp(account, credit, currency);
        var (books, applied) := L.Step(w.books, op);
        w.(books := if effect then books else w.books,
           grants := if effect && applied then w.grants + [Granted(account, op)] else w.grants,
           pc := if effect && reported then OnSuccess(rec, next) else OnFailure(rec, next))
    case Failing(rec) =>
      w.(store := if effect then AccessKeys.Step(w.store, Put(Failed(rec))).0 else w.store, pc := Idle)
    case Activating(rec) =>
      w.(store := if effect then AccessKeys.Step(w.store, Put(Ready(rec))).0 else w.store, pc := Idle)
  }

  function Step(w: World, action: Action): World {
    match action
    case Continue(effect, reported, currency) => ContinueStep(w, effect, reported, currency)
    case Crash => w.(pc := Idle)
    case Bill(op) => if op.Adjust? || op.Record? then w.(books := L.Step(w.books, op).0) else w
    case _ =>
      if w.pc != Idle then w else
      match action
      case StartCreate(input, credit) =>
        var rec := PendingRecord(input);
        var (store, outcome) := AccessKeys.Step(w.store, Create(rec));
        w.(store := store,
           pc := if outcome == Done then Opening(rec, RequestedAccount(input), credit, AfterCreate) else Idle)
      case StartProvision(name, credit) =>
        if name in w.store.records && w.store.records[name].status == "pending"
        then w.(pc := Opening(w.store.records[name], w.store.records[name].accountId, credit, AfterProvision)) else w
      case Restart(listed) => w.(pc := NextRestart(listed))
      case RevokeKey(name) => w.(store := AccessKeys.Step(w.store, Revoke(name)).0)
      case RotateKey(name, newHash) =>
        if newHash in w.store.bySecret then w else w.(store := AccessKeys.Step(w.store, Rotate(name, newHash)).0)
      case RouteKey(name, expected, providers, bindings) =>
        if name !in w.store.records then w else
        w.(store := AccessKeys.Step(w.store,
                      Route(w.store.records[name].(providers := providers, bindings := bindings), expected)).0)
  }

  // ---------------------------------------------------------------- the invariant

  /** The running operation holds the pending record that is stored, and activates only a granted account. */
  ghost predicate PcSound(w: World) {
    match w.pc
    case Idle => true
    case Opening(rec, account, _, next) => next.AfterRestart? || Held(w, rec, account)
    case Granting(rec, account, _, next) => next.AfterRestart? || Held(w, rec, account)
    case Failing(rec) => Stored(w, rec)
    case Activating(rec) => Stored(w, rec) && Mark(rec.accountId) in w.books.marks
  }

  ghost predicate Stored(w: World, rec: Record) {
    rec.name in w.store.records && w.store.records[rec.name] == rec && rec.status == "pending"
  }

  /** A blank account is the one case where the provisioned account is not the record's; the ledger refuses it. */
  ghost predicate Held(w: World, rec: Record, account: string) {
    Stored(w, rec) && (account == rec.accountId || TrimSpace(account) == "")
  }

  ghost predicate ActiveIsGranted(w: World) {
    forall n :: n in w.store.records && Active(w.store.records[n]) ==>
      Mark(w.store.records[n].accountId) in w.books.marks
  }

  /** A logged grant went to the ledger account of its id, under the mark of its id. */
  predicate Booked(b: L.Books, g: Granted) {
    g.op.Grant? && g.op.account == KeyPart(g.id) && g.op.mark == Mark(g.id) && g.op.mark in b.marks
  }

  ghost predicate GrantsDistinct(w: World) {
    && (forall i :: 0 <= i < |w.grants| ==> Booked(w.books, w.grants[i]))
    && (forall i, j :: 0 <= i < j < |w.grants| ==> w.grants[i].op.mark != w.grants[j].op.mark)
  }

  ghost predicate Sound(w: World) { Indexed(w.store) && ActiveIsGranted(w) && PcSound(w) && GrantsDistinct(w) }

  lemma {:induction false} MarksOnlyGrow(b: L.Books, op: L.Op)
    ensures b.marks <= L.Step(b, op).0.marks
    ensures op.Grant? ==> op.mark in L.Step(b, op).0.marks
    ensures op.Grant? ==> (L.Step(b, op).1 <==> op.mark !in b.marks)
  {
  }

  lemma {:induction false} BooksKeepSound(w: World, v: World)
    requires Sound(w) && v.store == w.store && v.grants == w.grants && w.books.marks <= v.books.marks
    requires v.pc == w.pc || v.pc == Idle
    ensures Sound(v)
  {
    hide Mark, Indexed;
  }

  lemma {:induction false} RestartPc(todo: seq<(Record, real)>)
    ensures var pc := NextRestart(todo); pc == Idle || (pc.Opening? && pc.next.AfterRestart?)
  {
    if todo != [] { RestartPc(todo[1..]); }
  }

  lemma {:induction false} OpeningKeepsSound(w: World, effect: bool, reported: bool, currency: string)
    requires Sound(w) && w.pc.Opening?
    ensures Sound(ContinueStep(w, effect, reported, currency))
  {
    hide Mark, Indexed, L.Step, Acceptable, Active;
    MarksOnlyGrow(w.books, L.Open(KeyPart(w.pc.account), currency));
  }

  lemma {:induction false} GrantingKeepsSound(w: World, effect: bool, reported: bool, currency: string)
    requires Sound(w) && w.pc.Granting?
    ensures Sound(ContinueStep(w, effect, reported, currency))
  {
    hide Mark, Indexed, L.Step, L.AmountMicros, Active, TrimSpace, KeyPart;
    var account, credit, next := w.pc.account, w.pc.credit, w.pc.next;
    if Acceptable(account, credit, currency) {
      MarksOnlyGrow(w.books, GrantOp(account, credit, currency));
      if next.AfterRestart? { RestartPc(next.todo); }
    }
  }

  /** Writing back the held pending record, active or not, keeps the indexes and the grant rule. */
  lemma {:induction false} PutHeldKeepsSound(w: World, rec: Record, put: Record)
    requires Sound(w) && Stored(w, rec)
    requires put.name == rec.name && put.secretHash == rec.secretHash && put.accountId == rec.accountId
    requires Active(put) ==> Mark(rec.accountId) in w.books.marks
    ensures Sound(w.(store := AccessKeys.Step(w.store, Put(put)).0, pc := Idle))
  {
    hide Mark, Indexed;
    assert w.store.bySecret[rec.secretHash] == rec.name by { OwnSecret(w.store, rec.name); }
    PutKeepsIndexesIff(w.store, put);
  }

  lemma {:induction false} ContinueKeepsSound(w: World, effect: bool, reported: bool, currency: string)
    requires Sound(w)
    ensures Sound(ContinueStep(w, effect, reported, currency))
  {
    match w.pc
    case Idle =>
    case Opening(_, _, _, _) => OpeningKeepsSound(w, effect, reported, currency);
    case Granting(_, _, _, _) => GrantingKeepsSound(w, effect, reported, currency);
    case Failing(rec) =>
      BooksKeepSound(w, w.(pc := Idle));
      PutHeldKeepsSound(w, rec, Failed(rec));
    case Activating(rec) =>
      BooksKeepSound(w, w.(pc := Idle));
      PutHeldKeepsSound(w, rec, Ready(rec));
  }

  lemma {:induction false} CreateOutcome(s: Store, rec: Record)
    requires rec.status == "pending"
    ensures var (t, outcome) := AccessKeys.Step(s, Create(rec));
            if outcome == Done then t.records == s.records[rec.name := rec] else t == s
  {
  }

  lemma {:induction false} CreateKeepsSound(w: World, input: Record, credit: real)
    requires Sound(w) && w.pc == Idle
    ensures Sound(Step(w, StartCreate(input, credit)))
  {
    hide Mark, Indexed, AccessKeys.Step, PendingRecord, RequestedAccount, Booked, NextRestart;
    var rec := PendingRecord(input);
    PendingAccount(input);
    CreateOutcome(w.store, rec);
    StepKeepsIndexesIff(w.store, Create(rec));
  }

  lemma {:induction false} PendingAccount(input: Record)
    ensures PendingRecord(input).status == "pending"
    ensures RequestedAccount(input) == PendingRecord(input).accountId || TrimSpace(RequestedAccount(input)) == ""
  {
    TrimSpaceIdempotent(input.accountId);
    TrimSpaceIdempotent(input.subjectId);
    assert TrimSpace("pending") == "pending" by { TrimMeaning("pending", IsSpace); }
    assert TrimSpace("") == "";
  }

  lemma {:induction false} KeyWriteKeepsSound(w: World, op: Op)
    requires Sound(w) && w.pc == Idle && Harmless(w.store, op)
    requires var records := AccessKeys.Step(w.store, op).0.records;
             forall n :: n in records && Active(records[n]) ==>
               && n in w.store.records && Active(w.store.records[n])
               && records[n].accountId == w.store.records[n].accountId
    ensures Sound(w.(store := AccessKeys.Step(w.store, op).0))
  {
    hide Mark, Indexed, AccessKeys.Step, Harmless;
    StepKeepsIndexesIff(w.store, op);
  }

  lemma {:induction false} ProvisionKeepsSound(w: World, name: string, credit: real)
    requires Sound(w) && w.pc == Idle
    ensures Sound(Step(w, StartProvision(name, credit)))
  {
    hide Mark, Indexed;
    if name in w.store.records { OwnSecret(w.store, name); }
  }

  lemma {:induction false} RestartKeepsSound(w: World, listed: seq<(Record, real)>)
    requires Sound(w) && w.pc == Idle
    ensures Sound(w.(pc := NextRestart(listed)))
  {
    hide Mark, Indexed, NextRestart;
    RestartPc(listed);
  }

  lemma {:induction false} RevokeKeepsSound(w: World, name: string)
    requires Sound(w) && w.pc == Idle
    ensures Sound(w.(store := AccessKeys.Step(w.store, Revoke(name)).0))
  {
    hide Sound, Indexed;
    SoundIndexed(w);
    if name in w.store.records { OwnSecret(w.store, name); }
    KeyWriteKeepsSound(w, Revoke(name));
  }

  lemma {:induction false} SoundIndexed(w: World)
    requires Sound(w)
    ensures Indexed(w.store)
  {
  }

  lemma {:induction false} RotateKeepsSound(w: World, name: string, newHash: string)
    requires Sound(w) && w.pc == Idle && newHash !in w.store.bySecret
    ensures Sound(w.(store := AccessKeys.Step(w.store, Rotate(name, newHash)).0))
  {
    hide Sound, Indexed;
    KeyWriteKeepsSound(w, Rotate(name, newHash));
  }

  lemma {:induction false} RouteKeepsSound(w: World, name: string, expected: int, providers: seq<string>,
                                           bindings: map<string, string>)
    requires Sound(w) && w.pc == Idle && name in w.store.records
    ensures Sound(w.(store := AccessKeys.Step(w.store,
                      Route(w.store.records[name].(providers := providers, bindings := bindings), expected)).0))
  {
    hide Sound, Indexed;
    SoundIndexed(w);
    OwnSecret(w.store, name);
    KeyWriteKeepsSound(w, Route(w.store.records[name].(providers := providers, bindings := bindings), expected));
  }

  /** Every step of every operation, crash, restart and failure report keeps the system sound. */
  lemma {:induction false} StepKeepsSound(w: World, action: Action)
    requires Sound(w)
    ensures Sound(Step(w, action))
  {
    hide Sound, ContinueStep, AccessKeys.Step, L.Step, NextRestart;
    match action
    case Continue(effect, reported, currency) => ContinueKeepsSound(w, effect, reported, currency);
    case Crash => BooksKeepSound(w, w.(pc := Idle));
    case Bill(op) =>
      MarksOnlyGrow(w.books, op);
      BooksKeepSound(w, Step(w, action));
    case StartCreate(input, credit) => if w.pc == Idle { CreateKeepsSound(w, input, credit); }
    case StartProvision(name, credit) => if w.pc == Idle { ProvisionKeepsSound(w, name, credit); }
    case Restart(listed) => if w.pc == Idle { RestartKeepsSound(w, listed); }
    case RevokeKey(name) => if w.pc == Idle { RevokeKeepsSound(w, name); }
    case RotateKey(name, newHash) =>
      if w.pc == Idle && newHash !in w.store.bySecret { RotateKeepsSound(w, name, newHash); }
    case RouteKey(name, expected, providers, bindings) =>
      if w.pc == Idle && name in w.store.records { RouteKeepsSound(w, name, expected, providers, bindings); }
  }

  // ---------------------------------------------------------------- runs

  function After(actions: seq<Action>, i: nat): World
    requires i <= |actions|
  {
    if i == 0 then START else Step(After(actions, i - 1), actions[i - 1])
  }

  lemma {:induction false} RunKeepsSound(actions: seq<Action>, i: nat)
    requires i <= |actions|
    ensures Sound(After(actions, i))
  {
    hide Step, Mark;
    if i > 0 {
      RunKeepsSound(actions, i - 1);
      StepKeepsSound(After(actions, i - 1), actions[i - 1]);
    }
  }

  /** A key is active only if its account's initial-credit marker is set. */
  lemma {:induction false} ActiveOnlyIfGranted(actions: seq<Action>, i: nat, name: string)
    requires i <= |actions| && name in After(actions, i).store.records && Active(After(actions, i).store.records[name])
    ensures Mark(After(actions, i).store.records[name].accountId) in After(actions, i).books.marks
  {
    RunKeepsSound(actions, i);
  }

  // ---------------------------------------------------------------- one grant per account

  lemma {:induction false} MarkForm(a: string)
    ensures Mark(a) == TrimRight(L.InitialCreditKey(a), IsColon)
  {
    var t := L.InitialCreditKey(a);
    TrimMeaning(a, IsSpace);
    assert t[0] == 'o' && (TrimSpace(a) != "" ==> t[|t| - 1] == TrimSpace(a)[|TrimSpace(a)| - 1]);
    TrimMeaning(t, IsSpace);
  }

  lemma {:induction false} MarkOfStem(a: string)
    ensures Mark(a) == if Stem(a) == "" then "onr:initial-credit" else "onr:initial-credit:" + Stem(a)
  {
    hide TrimSpace, KeyPart;
    MarkForm(a);
    var p := "onr:initial-credit";
    assert "onr:initial-credit:" == p + ":" && (p + ":")[..|p|] == p && (p + ":")[|p|] == ':';
    assert TrimRight(p + ":", IsColon) == TrimRight(p, IsColon) == p;
    TrimRightAppend("onr:initial-credit:", TrimSpace(a), IsColon);
  }

  /** Marks follow the stem; equal marks mean one ledger account, but not the other way round. */
  lemma {:induction false} MarksAgreeIff(a: string, b: string)
    ensures Mark(a) == Mark(b) <==> Stem(a) == Stem(b)
    ensures Mark(a) == Mark(b) ==> KeyPart(a) == KeyPart(b)
  {
    hide Stem, Mark, KeyPart;
    var p := "onr:initial-credit:";
    MarkOfStem(a);
    MarkOfStem(b);
    StemDeterminesKeyPart(a);
    StemDeterminesKeyPart(b);
    assert Stem(a) != "" ==> (p + Stem(a))[|p|..] == Stem(a) && |p + Stem(a)| > 19;
    assert Stem(b) != "" ==> (p + Stem(b))[|p|..] == Stem(b) && |p + Stem(b)| > 19;
  }

  predicate LeadingColon(a: string) { TrimSpace(a) != "" && TrimSpace(a)[0] == ':' }

  /** Without a leading colon the stem is the account. */
  lemma {:induction false} PlainStem(a: string)
    requires !LeadingColon(a)
    ensures Stem(a) == KeyPart(a)
  {
    StemDeterminesKeyPart(a);
    TrimRightEnds(TrimSpace(a), IsColon);
  }

  /** In every run: two grants to one ledger account were provisioned under ids with different stems. */
  lemma {:induction false} GrantsToOneAccountDiffer(actions: seq<Action>, i: nat, j: nat, k: nat)
    requires i <= |actions| && j < k < |After(actions, i).grants|
    ensures var g := After(actions, i).grants;
            && Booked(After(actions, i).books, g[j]) && Booked(After(actions, i).books, g[k])
            && Stem(g[j].id) != Stem(g[k].id)
            && (!LeadingColon(g[j].id) && !LeadingColon(g[k].id) ==> g[j].op.account != g[k].op.account)
  {
    hide Stem, LeadingColon, Mark, KeyPart, After;
    RunKeepsSound(actions, i);
    var g := After(actions, i).grants;
    assert Booked(After(actions, i).books, g[j]) && Booked(After(actions, i).books, g[k]);
    MarksAgreeIff(g[j].id, g[k].id);
    if !LeadingColon(g[j].id) && !LeadingColon(g[k].id) {
      PlainStem(g[j].id);
      PlainStem(g[k].id);
    }
  }

  /** No account id that the action brings in starts with a colon. */
  predicate PlainIds(action: Action) {
    && (action.StartCreate? ==>
          !LeadingColon(RequestedAccount(action.input)) && !LeadingColon(PendingRecord(action.input).accountId))
    && (action.Restart? ==> PlainTodo(action.listed))
  }

  predicate PlainTodo(todo: seq<(Record, real)>) {
    forall i :: 0 <= i < |todo| ==> !LeadingColon(todo[i].0.accountId)
  }

  predicate PlainNext(next: Next) { next.AfterRestart? ==> PlainTodo(next.todo) }

  ghost predicate PlainPc(pc: Pc) {
    match pc
    case Idle => true
    case Opening(rec, account, _, next) => !LeadingColon(rec.accountId) && !LeadingColon(account) && PlainNext(next)
    case Granting(rec, account, _, next) => !LeadingColon(rec.accountId) && !LeadingColon(account) && PlainNext(next)
    case Failing(rec) => !LeadingColon(rec.accountId)
    case Activating(rec) => !LeadingColon(rec.accountId)
  }

  ghost predicate PlainRecords(s: Store) { forall n :: n in s.records ==> !LeadingColon(s.records[n].accountId) }

  ghost predicate PlainGrants(grants: seq<Granted>) { forall i :: 0 <= i < |grants| ==> !LeadingColon(grants[i].id) }

  ghost predicate Plain(w: World) { PlainRecords(w.store) && PlainPc(w.pc) && PlainGrants(w.grants) }

  lemma {:induction false} RestartIsPlain(todo: seq<(Record, real)>)
    requires PlainTodo(todo)
    ensures PlainPc(NextRestart(todo))
  {
    hide LeadingColon;
    if todo != [] {
      assert !LeadingColon(todo[0].0.accountId);
      RestartIsPlain(todo[1..]);
    }
  }

  lemma {:induction false} ContinueKeepsPlain(w: World, effect: bool, reported: bool, currency: string)
    requires Plain(w)
    ensures Plain(ContinueStep(w, effect, reported, currency))
  {
    hide LeadingColon, Acceptable, L.Step, PlainTodo, KeyPart, Mark, L.AmountMicros, NextRestart;
    if w.pc.Granting? && w.pc.next.AfterRestart? { RestartIsPlain(w.pc.next.todo); }
  }

  lemma {:induction false} StepKeepsPlain(w: World, action: Action)
    requires Plain(w) && PlainIds(action)
    ensures Plain(Step(w, action))
  {
    hide LeadingColon, ContinueStep, L.Step, PendingRecord, RequestedAccount, NextRestart, PlainGrants;
    match action
    case Continue(effect, reported, currency) => ContinueKeepsPlain(w, effect, reported, currency);
    case Restart(listed) => RestartIsPlain(listed);
    case _ =>
  }

  lemma {:induction false} RunKeepsPlain(actions: seq<Action>, i: nat)
    requires i <= |actions| && forall m :: 0 <= m < i ==> PlainIds(actions[m])
    ensures Plain(After(actions, i))
  {
    hide Step, PlainIds;
    if i > 0 {
      hide Plain;
      RunKeepsPlain(actions, i - 1);
      StepKeepsPlain(After(actions, i - 1), actions[i - 1]);
    }
  }

  /** Over all retries, crashes and restarts, no ledger account is credited its initial credit twice. */
  lemma {:induction false} GrantedAtMostOnce(actions: seq<Action>, i: nat, j: nat, k: nat)
    requires i <= |actions| && (forall m :: 0 <= m < i ==> PlainIds(actions[m])) && j < k < |After(actions, i).grants|
    ensures var g := After(actions, i).grants;
            g[j].op.Grant? && g[k].op.Grant? && g[j].op.account != g[k].op.account
  {
    hide After, PlainIds, LeadingColon, Stem, KeyPart, Mark;
    RunKeepsPlain(actions, i);
    GrantsToOneAccountDiffer(actions, i, j, k);
  }

  // ---------------------------------------------------------------- the credit total

  /** The logged initial credits of a ledger account. */
  function GrantedTo(grants: seq<Granted>, a: string): int {
    if grants == [] then 0 else
      var op := grants[|grants| - 1].op;
      GrantedTo(grants[..|grants| - 1], a) + (if op.Grant? && op.account == a then op.amount else 0)
  }

  /** The credit adjustments of a ledger account that were applied by the first `i` actions. */
  ghost function CreditedBy(actions: seq<Action>, i: nat, a: string): int
    requires i <= |actions|
  {
    if i == 0 then 0 else CreditedBy(actions, i - 1, a) + CreditIn(After(actions, i - 1), actions[i - 1], a)
  }

  function CreditIn(w: World, action: Action, a: string): int {
    if action.Bill? && action.op.Adjust? && action.op.account == a && action.op.delta > 0
       && L.Step(w.books, action.op).1
    then action.op.delta else 0
  }

  lemma {:induction false} GrantedAppend(grants: seq<Granted>, g: Granted, a: string)
    ensures GrantedTo(grants + [g], a)
         == GrantedTo(grants, a) + (if g.op.Grant? && g.op.account == a then g.op.amount else 0)
  {
    assert (grants + [g])[..|grants|] == grants;
  }

  lemma {:induction false} ContinueCredits(w: World, effect: bool, reported: bool, currency: string, a: string)
    ensures var v := ContinueStep(w, effect, reported, currency);
            L.Total(v.books, a, L.Credit) - L.Total(w.books, a, L.Credit)
                == GrantedTo(v.grants, a) - GrantedTo(w.grants, a)
  {
    hide KeyPart, Mark, L.AmountMicros, TrimSpace, AccessKeys.Step, NextRestart, L.Step, L.Total, GrantedTo;
    match w.pc
    case Opening(rec, account, credit, next) =>
      var op := L.Open(KeyPart(account), currency);
      L.StepEffect(w.books, op, a, L.Credit);
    case Granting(rec, account, credit, next) =>
      if Acceptable(account, credit, currency) {
        var op := GrantOp(account, credit, currency);
        L.StepEffect(w.books, op, a, L.Credit);
        GrantedAppend(w.grants, Granted(account, op), a);
      }
    case _ =>
  }

  lemma {:induction false} StepCredits(w: World, action: Action, a: string)
    ensures var v := Step(w, action);
            L.Total(v.books, a, L.Credit) - L.Total(w.books, a, L.Credit)
            == GrantedTo(v.grants, a) - GrantedTo(w.grants, a) + CreditIn(w, action, a)
  {
    hide AccessKeys.Step, L.Step, L.Total, GrantedTo, ContinueStep, NextRestart, PendingRecord, RequestedAccount;
    match action
    case Continue(effect, reported, currency) => ContinueCredits(w, effect, reported, currency, a);
    case Bill(op) => if op.Adjust? || op.Record? { L.StepEffect(w.books, op, a, L.Credit); }
    case _ =>
  }

  /** In every run the credit of an account is its logged initial credits plus its applied credit adjustments. */
  lemma {:induction false} CreditIsGrantsPlusAdjustments(actions: seq<Action>, i: nat, a: string)
    requires i <= |actions|
    ensures L.Total(After(actions, i).books, a, L.Credit)
         == GrantedTo(After(actions, i).grants, a) + CreditedBy(actions, i, a)
  {
    hide Step, L.Total, CreditIn;
    if i == 0 {
      NothingCredited(a);
    } else {
      CreditIsGrantsPlusAdjustments(actions, i - 1, a);
      StepCredits(After(actions, i - 1), actions[i - 1], a);
    }
  }

  lemma {:induction false} NothingCredited(a: string)
    ensures L.Total(L.EMPTY, a, L.Credit) == 0
  {
  }

  lemma {:induction false} OneGrantIsAll(grants: seq<Granted>, a: string, k: nat)
    requires k < |grants| && grants[k].op.Grant? && grants[k].op.account == a
    requires forall j :: 0 <= j < |grants| && j != k ==> grants[j].op.Grant? && grants[j].op.account != a
    ensures GrantedTo(grants, a) == grants[k].op.amount
  {
    var n := |grants| - 1;
    if k < n { OneGrantIsAll(grants[..n], a, k); } else { NoGrantIsNone(grants[..n], a); }
  }

  lemma {:induction false} NoGrantIsNone(grants: seq<Granted>, a: string)
    requires forall j :: 0 <= j < |grants| ==> grants[j].op.Grant? && grants[j].op.account != a
    ensures GrantedTo(grants, a) == 0
  {
    if grants != [] { NoGrantIsNone(grants[..|grants| - 1], a); }
  }

  /** Hence at most one initial credit is inside the balance: a granted account has exactly its one grant in it. */
  lemma {:induction false} BalanceHoldsOneInitialCredit(actions: seq<Action>, i: nat, k: nat)
    requires i <= |actions| && (forall m :: 0 <= m < i ==> PlainIds(actions[m])) && k < |After(actions, i).grants|
    ensures var w := After(actions, i);
            && w.grants[k].op.Grant?
            && L.Total(w.books, w.grants[k].op.account, L.Credit)
               == w.grants[k].op.amount + CreditedBy(actions, i, w.grants[k].op.account)
  {
    hide After, L.Total, PlainIds, CreditedBy, GrantedTo, Booked;
    var w := After(actions, i);
    RunKeepsSound(actions, i);
    assert Booked(w.books, w.grants[k]);
    BookedIsGrant(w.books, w.grants[k]);
    var a := w.grants[k].op.account;
    forall j | 0 <= j < |w.grants| && j != k ensures w.grants[j].op.Grant? && w.grants[j].op.account != a {
      if j < k { GrantedAtMostOnce(actions, i, j, k); } else { GrantedAtMostOnce(actions, i, k, j); }
    }
    OneGrantIsAll(w.grants, a, k);
    CreditIsGrantsPlusAdjustments(actions, i, a);
  }

  lemma {:induction false} BookedIsGrant(b: L.Books, g: Granted)
    requires Booked(b, g)
    ensures g.op.Grant?
  {
  }

  // ---------------------------------------------------------------- where one grant per account fails

  /** A creation that runs through: the record, the account, the credit and the activation. */
  function Creation(input: Record, credit: real, currency: string): seq<Action> {
    var go := Continue(true, true, currency);
    [StartCreate(input, credit), go, go, go]
  }

  function Created(w: World, input: Record, credit: real, currency: string): World {
    var go := Continue(true, true, currency);
    Step(Step(Step(Step(w, StartCreate(input, credit)), go), go), go)
  }

  lemma {:induction false} CreationAt(actions: seq<Action>, i: nat, input: Record, credit: real, currency: string)
    requires i + 4 <= |actions| && actions[i..i + 4] == Creation(input, credit, currency)
    ensures After(actions, i + 4) == Created(After(actions, i), input, credit, currency)
  {
    hide Step;
    var c := Creation(input, credit, currency);
    assert actions[i] == c[0] && actions[i + 1] == c[1] && actions[i + 2] == c[2] && actions[i + 3] == c[3];
    assert After(actions, i + 1) == Step(After(actions, i), actions[i]);
    assert After(actions, i + 2) == Step(After(actions, i + 1), actions[i + 1]);
    assert After(actions, i + 3) == Step(After(actions, i + 2), actions[i + 2]);
  }

  predicate NewKey(s: Store, rec: Record) { rec.name !in s.records && rec.secretHash !in s.bySecret }

  lemma {:induction false} CreateStarts(w: World, input: Record, credit: real)
    requires w.pc == Idle && NewKey(w.store, PendingRecord(input))
    ensures Step(w, StartCreate(input, credit))
         == w.(store := AccessKeys.Step(w.store, Create(PendingRecord(input))).0,
               pc := Opening(PendingRecord(input), RequestedAccount(input), credit, AfterCreate))
  {
    PendingAccount(input);
    hide PendingRecord, RequestedAccount;
  }

  /** What a creation that runs through leaves behind. */
  lemma {:induction false} CreationRuns(w: World, input: Record, credit: real, currency: string)
    requires w.pc == Idle && NewKey(w.store, PendingRecord(input))
    requires Acceptable(RequestedAccount(input), credit, currency)
    ensures var rec, account := PendingRecord(input), RequestedAccount(input);
            var ready := L.Step(w.books, L.Open(KeyPart(account), currency)).0;
            var (books, applied) := L.Step(ready, GrantOp(account, credit, currency));
            Created(w, input, credit, currency)
            == World(AccessKeys.Step(AccessKeys.Step(w.store, Create(rec)).0, Put(Ready(rec))).0, books, Idle,
                     w.grants + if applied then [Granted(account, GrantOp(account, credit, currency))] else [])
  {
    hide AccessKeys.Step, L.Step, PendingRecord, RequestedAccount, Acceptable, GrantOp, KeyPart;
    var go := Continue(true, true, currency);
    CreateStarts(w, input, credit);
    var w1 := Step(w, StartCreate(input, credit));
    var w2 := Step(w1, go);
    assert w2.pc == Granting(PendingRecord(input), RequestedAccount(input), credit, AfterCreate);
    var w3 := Step(w2, go);
    assert w3.pc == Activating(PendingRecord(input));
  }

  lemma {:induction false} OpenThenGrant(b: L.Books, account: string, credit: real, currency: string)
    requires L.AmountMicros(credit).Some?
    ensures var op := GrantOp(account, credit, currency);
            var (after, applied) := L.Step(L.Step(b, L.Open(KeyPart(account), currency)).0, op);
            && (applied <==> Mark(account) !in b.marks) && after.marks == b.marks + {Mark(account)}
            && L.Total(after, KeyPart(account), L.Credit)
               == L.Total(b, KeyPart(account), L.Credit) + if applied then op.amount else 0
  {
    hide KeyPart, Mark, L.AmountMicros;
    var open, op := L.Open(KeyPart(account), currency), GrantOp(account, credit, currency);
    L.StepEffect(b, open, KeyPart(account), L.Credit);
    L.StepEffect(L.Step(b, open).0, op, KeyPart(account), L.Credit);
    hide L.Total;
  }

  /** A key to create on an account. */
  function KeyOn(name: string, account: string): Record {
    Record(name, name, "", "", account, "", "", [], map[], None, 0)
  }

  lemma {:induction false} KeyOnIs(name: string, account: string)
    requires Ends(name, IsSpace) && TrimSpace(account) != ""
    ensures var rec := PendingRecord(KeyOn(name, account));
            rec.name == name && rec.secretHash == name && RequestedAccount(KeyOn(name, account)) == TrimSpace(account)
            && rec.accountId == TrimSpace(account) && rec.status == "pending"
    ensures KeyPart(TrimSpace(account)) == KeyPart(account) && Mark(TrimSpace(account)) == Mark(account)
  {
    TrimSpaceIdempotent(account);
    TrimMeaning(name, IsSpace);
    PendingAccount(KeyOn(name, account));
  }

  /** Two keys, one on each account id. */
  function TwoCreations(a: string, b: string, credit: real, currency: string): seq<Action> {
    Creation(KeyOn("k1", a), credit, currency) + Creation(KeyOn("k2", b), credit, currency)
  }

  lemma {:induction false} OneKeyMade(w: World, name: string, account: string, credit: real, currency: string)
    requires w.pc == Idle && Ends(name, IsSpace) && name !in w.store.records && name !in w.store.bySecret
    requires Acceptable(account, credit, currency)
    ensures var v := Created(w, KeyOn(name, account), credit, currency);
            && v.pc == Idle && v.books.marks == w.books.marks + {Mark(account)}
            && v.store.records.Keys == w.store.records.Keys + {name}
            && v.store.bySecret.Keys == w.store.bySecret.Keys + {name}
            && (TrimSpace(account) !in w.store.byAccount ==>
                  Active(v.store.records[name]) && v.store.records[name].accountId == TrimSpace(account))
            && L.Total(v.books, KeyPart(account), L.Credit) == L.Total(w.books, KeyPart(account), L.Credit)
                 + (if Mark(account) in w.books.marks then 0 else L.AmountMicros(credit).value)
            && v.grants == w.grants + if Mark(account) in w.books.marks then []
                                      else [Granted(TrimSpace(account), GrantOp(account, credit, currency))]
  {
    hide L.Step, L.Total, L.AmountMicros, TrimSpace, KeyPart, Mark, PendingRecord, RequestedAccount;
    hide KeyOn, Created, Ends;
    KeyOnIs(name, account);
    var input, t := KeyOn(name, account), TrimSpace(account);
    assert Acceptable(t, credit, currency) by { TrimSpaceIdempotent(account); }
    CreationRuns(w, input, credit, currency);
    OpenThenGrant(w.books, t, credit, currency);
  }

  /** Ids with one ledger account and different stems: a run of two creations credits that account twice. */
  lemma {:induction false} DifferentStemsCreditTwice(a: string, b: string, credit: real, currency: string)
    requires Acceptable(a, credit, currency) && Acceptable(b, credit, currency)
    requires KeyPart(a) == KeyPart(b) && Stem(a) != Stem(b)
    ensures var w := After(TwoCreations(a, b, credit, currency), 8);
            && L.Total(w.books, KeyPart(a), L.Credit) == 2 * L.AmountMicros(credit).value
            && |w.grants| == 2 && w.grants[0].op.Grant? && w.grants[0].op.account == KeyPart(a)
            && w.grants[1].op.Grant? && w.grants[1].op.account == KeyPart(a)
  {
    hide Created, L.AmountMicros, TrimSpace, KeyPart, Mark, KeyOn, Stem, Step;
    MarksAgreeIff(a, b);
    var actions := TwoCreations(a, b, credit, currency);
    assert actions[0..4] == Creation(KeyOn("k1", a), credit, currency);
    assert actions[4..8] == Creation(KeyOn("k2", b), credit, currency);
    CreationAt(actions, 0, KeyOn("k1", a), credit, currency);
    CreationAt(actions, 4, KeyOn("k2", b), credit, currency);
    OneKeyMade(START, "k1", a, credit, currency);
    OneKeyMade(After(actions, 4), "k2", b, credit, currency);
  }

  /** The ids "x" and ":x" are such a pair. */
  lemma {:induction false} PaddedIdIsCreditedTwice()
    ensures var w := After(TwoCreations("x", ":x", 1.0, "CNY"), 8);
            KeyPart("x") == "x" && L.Total(w.books, "x", L.Credit) == 2_000_000
  {
    hide After, TwoCreations, L.Total;
    TrimMeaning("x", IsSpace);
    TrimMeaning(":x", IsSpace);
    TrimMeaning("CNY", IsSpace);
    TrimMeaning("x", IsColon);
    assert TrimLeft(":x", IsColon) == "x" by { assert ":x"[1..] == "x"; }
    L.AmountMicrosMeaning(1.0, 1_000_000);
    DifferentStemsCreditTwice("x", ":x", 1.0, "CNY");
  }

  // ---------------------------------------------------------------- operations that run through

  function Provisioned(w: World, name: string, credit: real, currency: string): World {
    var go := Continue(true, true, currency);
    Step(Step(Step(Step(w, StartProvision(name, credit)), go), go), go)
  }

  lemma {:induction false} ProvisionSteps(w: World, name: string, credit: real, currency: string)
    requires w.pc == Idle && name in w.store.records && w.store.records[name].status == "pending"
    requires Acceptable(w.store.records[name].accountId, credit, currency)
    ensures var rec := w.store.records[name];
            var ready := L.Step(w.books, L.Open(KeyPart(rec.accountId), currency)).0;
            var (books, applied) := L.Step(ready, GrantOp(rec.accountId, credit, currency));
            Provisioned(w, name, credit, currency)
            == World(AccessKeys.Step(w.store, Put(Ready(rec))).0, books, Idle,
                     w.grants + if applied then [Granted(rec.accountId, GrantOp(rec.accountId, credit, currency))]
                         else [])
  {
    hide AccessKeys.Step, L.Step, Acceptable, GrantOp, KeyPart;
    var rec, go := w.store.records[name], Continue(true, true, currency);
    var w1 := Step(w, StartProvision(name, credit));
    var w2 := Step(w1, go);
    assert w2.pc == Granting(rec, rec.accountId, credit, AfterProvision);
    var w3 := Step(w2, go);
    assert w3.pc == Activating(rec);
  }

  /** Provisioning a pending key on a free account makes it active, grants its credit once and touches no other key. */
  lemma {:induction false} ProvisionRuns(w: World, name: string, credit: real, currency: string)
    requires Indexed(w.store) && w.pc == Idle && name in w.store.records && w.store.records[name].status == "pending"
    requires w.store.records[name].accountId !in w.store.byAccount
    requires Acceptable(w.store.records[name].accountId, credit, currency)
    ensures var rec, v := w.store.records[name], Provisioned(w, name, credit, currency);
            var id := rec.accountId;
            && v.pc == Idle
            && v.store.records == w.store.records[name := rec.(status := "active", provisioning := "ready")]
            && v.books.marks == w.books.marks + {Mark(id)}
            && L.Total(v.books, KeyPart(id), L.Credit) == L.Total(w.books, KeyPart(id), L.Credit)
                 + (if Mark(id) in w.books.marks then 0 else L.AmountMicros(credit).value)
            && v.grants == w.grants + if Mark(id) in w.books.marks then []
                                      else [Granted(id, GrantOp(id, credit, currency))]
  {
    hide AccessKeys.Step, L.Step, L.Total, Indexed, KeyPart, Mark, L.AmountMicros, Provisioned, TrimSpace;
    var rec := w.store.records[name];
    OwnSecret(w.store, name);
    ProvisionSteps(w, name, credit, currency);
    OpenThenGrant(w.books, rec.accountId, credit, currency);
    PutMeaning(w.store, Ready(rec));
  }

  /** A creation whose account or credit the ledger refuses leaves a pending key marked as failed, and no credit. */
  lemma {:induction false} RefusedCreationIsRecorded(w: World, input: Record, credit: real, currency: string)
    requires Indexed(w.store) && w.pc == Idle && NewKey(w.store, PendingRecord(input))
    requires !Acceptable(RequestedAccount(input), credit, currency)
    ensures var rec, go := PendingRecord(input), Continue(true, true, currency);
            var v := Step(Step(Step(w, StartCreate(input, credit)), go), go);
            && v.pc == Idle && v.books == w.books && v.grants == w.grants
            && v.store.records == w.store.records[rec.name := rec.(status := "pending", provisioning := "failed")]
  {
    hide AccessKeys.Step, L.Step, Indexed, PendingRecord, RequestedAccount, Acceptable;
    var rec, go := PendingRecord(input), Continue(true, true, currency);
    CreateStarts(w, input, credit);
    PendingAccount(input);
    CreateOutcome(w.store, rec);
    CreateGoesThrough(w.store, rec);
    var w1 := Step(w, StartCreate(input, credit));
    var w2 := Step(w1, go);
    assert w2.pc == Failing(rec);
    PutMeaning(w2.store, Failed(rec));
    assert !Refused(w2.store, Failed(rec));
    assert w.store.records[rec.name := rec][rec.name := Failed(rec)] == w.store.records[rec.name := Failed(rec)];
  }

  lemma {:induction false} CreateGoesThrough(s: Store, rec: Record)
    requires NewKey(s, rec) && rec.status == "pending"
    ensures AccessKeys.Step(s, Create(rec)).1 == Done
  {
  }

  /** A creation that crashes after its record and `j` ledger writes. */
  function Crashed(w: World, input: Record, credit: real, currency: string, j: nat): World {
    Step(Going(Step(w, StartCreate(input, credit)), j, currency), Crash)
  }

  lemma {:induction false} CrashedSteps(w: World, input: Record, credit: real, currency: string, j: nat)
    requires w.pc == Idle && NewKey(w.store, PendingRecord(input)) && j <= 2
    requires Acceptable(RequestedAccount(input), credit, currency)
    ensures var account := RequestedAccount(input);
            var ready := L.Step(w.books, L.Open(KeyPart(account), currency)).0;
            var (books, applied) := L.Step(ready, GrantOp(account, credit, currency));
            Crashed(w, input, credit, currency, j)
            == World(AccessKeys.Step(w.store, Create(PendingRecord(input))).0,
                     if j == 0 then w.books else if j == 1 then ready else books, Idle,
                     w.grants + if j == 2 && applied then [Granted(account, GrantOp(account, credit, currency))]
                         else [])
  {
    hide AccessKeys.Step, L.Step, PendingRecord, RequestedAccount, Acceptable, GrantOp, KeyPart;
    var go := Continue(true, true, currency);
    CreateStarts(w, input, credit);
    var w1 := Step(w, StartCreate(input, credit));
    var w2 := Step(w1, go);
    assert Going(w1, 0, currency) == w1 && Going(w2, 0, currency) == w2 && Going(w1, 1, currency) == w2;
    assert Going(w1, 2, currency) == Going(w2, 1, currency) == Step(w2, go) by {
      assert Going(Step(w2, go), 0, currency) == Step(w2, go);
    }
  }

  lemma {:induction false} OpenKeeps(b: L.Books, a: string, currency: string, f: L.Field)
    ensures var t := L.Step(b, L.Open(a, currency)).0; t.marks == b.marks && L.Total(t, a, f) == L.Total(b, a, f)
  {
    L.StepEffect(b, L.Open(a, currency), a, f);
  }

  /**
    However far a creation got before a crash, provisioning it afterwards makes the key active with one initial credit.
   */
  lemma {:induction false} CrashedCreationRecovers(w: World, input: Record, credit: real, currency: string, j: nat)
    requires Indexed(w.store) && w.pc == Idle && NewKey(w.store, PendingRecord(input)) && j <= 2
    requires Acceptable(RequestedAccount(input), credit, currency) && Mark(RequestedAccount(input)) !in w.books.marks
    requires RequestedAccount(input) !in w.store.byAccount
    ensures var rec, account := PendingRecord(input), RequestedAccount(input);
            var v := Provisioned(Crashed(w, input, credit, currency, j), rec.name, credit, currency);
            && rec.name in v.store.records && Active(v.store.records[rec.name]) && v.pc == Idle
            && L.Total(v.books, KeyPart(account), L.Credit)
               == L.Total(w.books, KeyPart(account), L.Credit) + L.AmountMicros(credit).value
            && |v.grants| == |w.grants| + 1
  {
    hide AccessKeys.Step, L.Step, L.Total, Indexed, KeyPart, Mark, L.AmountMicros, Provisioned, Crashed, TrimSpace;
    hide PendingRecord, RequestedAccount;
    var rec, account := PendingRecord(input), RequestedAccount(input);
    PendingAccount(input);
    CrashedSteps(w, input, credit, currency, j);
    OpenThenGrant(w.books, account, credit, currency);
    OpenKeeps(w.books, KeyPart(account), currency, L.Credit);
    CreateGoesThrough(w.store, rec);
    CreateOutcome(w.store, rec);
    StepKeepsIndexesIff(w.store, Create(rec));
    CreatePendingKeepsAccounts(w.store, rec);
    ProvisionRuns(Crashed(w, input, credit, currency, j), rec.name, credit, currency);
  }

  lemma {:induction false} CreatePendingKeepsAccounts(s: Store, rec: Record)
    requires rec.status == "pending"
    ensures AccessKeys.Step(s, Create(rec)).0.byAccount == s.byAccount && Harmless(s, Create(rec))
  {
  }

  predicate Listed(rec: Record) {
    (rec.status == "active" || rec.status == "pending") && TrimSpace(rec.accountId) != ""
  }

  /** So many ledger writes a restart takes. */
  function Goes(listed: seq<(Record, real)>): nat {
    if listed == [] then 0 else (if Listed(listed[0].0) then 2 else 0) + Goes(listed[1..])
  }

  function Going(w: World, n: nat, currency: string): World
    decreases n
  {
    if n == 0 then w else Going(Step(w, Continue(true, true, currency)), n - 1, currency)
  }

  function MarksOf(listed: seq<(Record, real)>): set<string> {
    if listed == [] then {} else
      (if Listed(listed[0].0) then {Mark(listed[0].0.accountId)} else {}) + MarksOf(listed[1..])
  }

  lemma {:induction false} MarksOfListed(listed: seq<(Record, real)>, i: nat)
    requires i < |listed| && Listed(listed[i].0)
    ensures Mark(listed[i].0.accountId) in MarksOf(listed)
  {
    hide Mark, Listed;
    if i > 0 { MarksOfListed(listed[1..], i - 1); }
  }

  lemma {:induction false} RestartTwoSteps(w: World, rec: Record, credit: real, rest: seq<(Record, real)>,
                                           currency: string)
    requires w.pc == Opening(rec, rec.accountId, credit, AfterRestart(rest))
            && Acceptable(rec.accountId, credit, currency)
    ensures var v := Going(w, 2, currency);
            && v.pc == NextRestart(rest) && v.store == w.store && v.books.marks == w.books.marks + {Mark(rec.accountId)}
  {
    hide L.Step, Acceptable, GrantOp, NextRestart, KeyPart, Mark, L.AmountMicros;
    var go := Continue(true, true, currency);
    var w1 := Step(w, go);
    assert w1.pc == Granting(rec, rec.accountId, credit, AfterRestart(rest));
    assert Going(w, 2, currency) == Going(w1, 1, currency) == Step(w1, go);
    AcceptableAmount(rec.accountId, credit, currency);
    OpenThenGrant(w.books, rec.accountId, credit, currency);
  }

  lemma {:induction false} AcceptableAmount(account: string, credit: real, currency: string)
    requires Acceptable(account, credit, currency)
    ensures L.AmountMicros(credit).Some?
  {
  }

  lemma {:induction false} GoingOn(w: World, m: nat, n: nat, currency: string)
    ensures Going(w, m + n, currency) == Going(Going(w, m, currency), n, currency)
    decreases m
  {
    hide Step;
    if m > 0 { GoingOn(Step(w, Continue(true, true, currency)), m - 1, n, currency); }
  }

  lemma {:induction false} RestartRunsFrom(w: World, listed: seq<(Record, real)>, currency: string)
    requires w.pc == NextRestart(listed)
    requires forall i :: 0 <= i < |listed| && Listed(listed[i].0) ==>
               Acceptable(listed[i].0.accountId, listed[i].1, currency)
    ensures var v := Going(w, Goes(listed), currency);
            v.pc == Idle && v.store == w.store && v.books.marks == w.books.marks + MarksOf(listed)
    decreases |listed|
  {
    hide Step, Going, Acceptable, Mark;
    if listed == [] {
      GoneNowhere(w, currency);
    } else {
      var rest := listed[1..];
      forall i | 0 <= i < |rest| && Listed(rest[i].0) ensures Acceptable(rest[i].0.accountId, rest[i].1, currency) {
        assert rest[i] == listed[i + 1];
      }
      if Listed(listed[0].0) {
        RestartTwoSteps(w, listed[0].0, listed[0].1, rest, currency);
        GoingOn(w, 2, Goes(rest), currency);
        RestartRunsFrom(Going(w, 2, currency), rest, currency);
      } else {
        RestartRunsFrom(w, rest, currency);
      }
    }
  }

  lemma {:induction false} GoneNowhere(w: World, currency: string)
    ensures Going(w, 0, currency) == w
  {
  }

  /**
    A restart without failures sets the mark of every listed active or pending key that has an account, and no other.
   */
  lemma {:induction false} RestartRuns(w: World, listed: seq<(Record, real)>, currency: string)
    requires w.pc == Idle
    requires forall i :: 0 <= i < |listed| && Listed(listed[i].0) ==>
               Acceptable(listed[i].0.accountId, listed[i].1, currency)
    ensures var v := Going(Step(w, Restart(listed)), Goes(listed), currency);
            && v.pc == Idle && v.store == w.store && v.books.marks == w.books.marks + MarksOf(listed)
            && (forall i :: 0 <= i < |listed| && Listed(listed[i].0) ==> Mark(listed[i].0.accountId) in v.books.marks)
  {
    hide Going, Acceptable, Mark, Listed, NextRestart, MarksOf, Goes;
    RestartRunsFrom(Step(w, Restart(listed)), listed, currency);
    forall i | 0 <= i < |listed| && Listed(listed[i].0) ensures Mark(listed[i].0.accountId) in MarksOf(listed) {
      MarksOfListed(listed, i);
    }
  }

  /** While no operation runs, revoking a key takes effect on its record. */
  lemma {:induction false} RevokeTakesEffect(w: World, name: string)
    requires Indexed(w.store) && w.pc == Idle && name in w.store.records
    ensures IsRevoked(Step(w, RevokeKey(name)), name)
  {
    RevokeMeaning(w.store, name, 0);
    hide Indexed, AccessKeys.Step;
  }

  /** So does rotating it to a secret that is free. */
  lemma {:induction false} RotateTakesEffect(w: World, name: string, h: string)
    requires w.pc == Idle && name in w.store.records && h !in w.store.bySecret
    ensures var rec := w.store.records[name];
            Step(w, RotateKey(name, h)).store.records
            == w.store.records[name := rec.(secretHash := h, version := rec.version + 1)]
  {
  }

  /** So does routing it, against its present version. */
  lemma {:induction false} RouteTakesEffect(w: World, name: string, p: seq<string>, b: map<string, string>)
    requires Indexed(w.store) && w.pc == Idle && name in w.store.records
    ensures var rec := w.store.records[name];
            Step(w, RouteKey(name, rec.version, p, b)).store.records
            == w.store.records[name := rec.(providers := p, bindings := b, version := rec.version + 1)]
  {
    OwnSecret(w.store, name);
    hide Indexed;
  }

  // ---------------------------------------------------------------- active keys and their grant

  ghost predicate Logged(w: World, mark: string) {
    exists k :: 0 <= k < |w.grants| && w.grants[k].op.Grant? && w.grants[k].op.mark == mark
  }

  /** Action `m` is an adjustment under the key `mark`. */
  predicate AdjustsUnder(action: Action, mark: string) { action.Bill? && action.op.Adjust? && action.op.mark == mark }

  lemma {:induction false} StepMarks(w: World, action: Action, mark: string)
    ensures mark in w.books.marks ==>
              mark in Step(w, action).books.marks && (Logged(Step(w, action), mark) <==> Logged(w, mark))
    ensures mark !in w.books.marks && !Logged(w, mark) ==>
              && (mark in Step(w, action).books.marks <==> Logged(Step(w, action), mark) || AdjustsUnder(action, mark))
              && !(Logged(Step(w, action), mark) && AdjustsUnder(action, mark))
  {
    hide AccessKeys.Step, KeyPart, Mark, L.AmountMicros, TrimSpace, PendingRecord, RequestedAccount, NextRestart;
    var v := Step(w, action);
    assert w.grants <= v.grants && (mark in w.books.marks ==> mark in v.books.marks);
    if mark in v.books.marks && mark !in w.books.marks && !AdjustsUnder(action, mark) {
      assert v.grants[|w.grants|].op.mark == mark;
    }
    if Logged(w, mark) {
      var k :| 0 <= k < |w.grants| && w.grants[k].op.Grant? && w.grants[k].op.mark == mark;
      assert v.grants[k] == w.grants[k];
    }
    if Logged(v, mark) {
      var k :| 0 <= k < |v.grants| && v.grants[k].op.Grant? && v.grants[k].op.mark == mark;
      assert k < |w.grants| ==> w.grants[k] == v.grants[k];
    }
  }

  /** Action `m` is an adjustment that was applied under the key `mark`. */
  ghost predicate TakesMark(actions: seq<Action>, m: nat, mark: string)
    requires m < |actions|
  {
    AdjustsUnder(actions[m], mark) && mark !in After(actions, m).books.marks
  }

  ghost predicate Taken(actions: seq<Action>, i: nat, mark: string)
    requires i <= |actions|
  {
    exists m :: 0 <= m < i && TakesMark(actions, m, mark)
  }

  lemma {:induction false} TakenOneMore(actions: seq<Action>, i: nat, mark: string)
    requires 0 < i <= |actions|
    ensures Taken(actions, i, mark) <==> Taken(actions, i - 1, mark) || TakesMark(actions, i - 1, mark)
  {
    hide TakesMark;
  }

  /** Every mark comes either from a logged grant or from an adjustment that found it unset, never from both. */
  lemma {:induction false} MarkHasOneOrigin(actions: seq<Action>, i: nat, mark: string)
    requires i <= |actions|
    ensures mark in After(actions, i).books.marks <==> Logged(After(actions, i), mark) || Taken(actions, i, mark)
    ensures !(Logged(After(actions, i), mark) && Taken(actions, i, mark))
  {
    hide Step, Logged, AdjustsUnder;
    if i == 0 {
      NothingLogged(mark);
    } else {
      hide Taken;
      MarkHasOneOrigin(actions, i - 1, mark);
      StepMarks(After(actions, i - 1), actions[i - 1], mark);
      TakenOneMore(actions, i, mark);
    }
  }

  lemma {:induction false} NothingLogged(mark: string)
    ensures !Logged(START, mark)
  {
  }

  /** An active key's account was granted its initial credit if and only if no adjustment took its mark first. */
  lemma {:induction false} ActiveIsGrantedIff(actions: seq<Action>, i: nat, name: string)
    requires i <= |actions| && name in After(actions, i).store.records && Active(After(actions, i).store.records[name])
    ensures var mark := Mark(After(actions, i).store.records[name].accountId);
            Logged(After(actions, i), mark) <==> !Taken(actions, i, mark)
  {
    hide After, Logged, Taken, Mark;
    ActiveOnlyIfGranted(actions, i, name);
    MarkHasOneOrigin(actions, i, Mark(After(actions, i).store.records[name].accountId));
  }

  /** Then exactly one logged grant went to that account. */
  lemma {:induction false} ActiveIsGrantedExactlyOnce(actions: seq<Action>, i: nat, name: string) returns (k: nat)
    requires i <= |actions| && name in After(actions, i).store.records && Active(After(actions, i).store.records[name])
    requires !Taken(actions, i, Mark(After(actions, i).store.records[name].accountId))
    ensures var w := After(actions, i);
            var id := w.store.records[name].accountId;
            && k < |w.grants| && w.grants[k].op.Grant?
            && w.grants[k].op.mark == Mark(id) && w.grants[k].op.account == KeyPart(id)
            && (forall j :: 0 <= j < |w.grants| && j != k ==> w.grants[j].op.Grant? && w.grants[j].op.mark != Mark(id))
            && (!LeadingColon(id) ==> forall j :: 0 <= j < |w.grants| && j != k && !LeadingColon(w.grants[j].id) ==>
                                        w.grants[j].op.account != KeyPart(id))
  {
    hide After, Taken, Mark, KeyPart, Indexed, LeadingColon, PcSound, Stem;
    var w := After(actions, i);
    var id := w.store.records[name].accountId;
    ActiveIsGrantedIff(actions, i, name);
    k :| 0 <= k < |w.grants| && w.grants[k].op.Grant? && w.grants[k].op.mark == Mark(id);
    RunKeepsSound(actions, i);
    assert Booked(w.books, w.grants[k]);
    MarksAgreeIff(id, w.grants[k].id);
    forall j | 0 <= j < |w.grants| && j != k
      ensures w.grants[j].op.Grant? && w.grants[j].op.mark != Mark(id)
      ensures !LeadingColon(id) && !LeadingColon(w.grants[j].id) ==> w.grants[j].op.account != KeyPart(id)
    {
      assert Booked(w.books, w.grants[j]);
      MarksAgreeIff(id, w.grants[j].id);
      if !LeadingColon(id) && !LeadingColon(w.grants[j].id) {
        PlainStem(id);
        PlainStem(w.grants[j].id);
      }
    }
  }

  /** The exception is real: a debit under the mark's text leaves an active key whose account was never credited. */
  lemma {:induction false} AdjustmentTakesTheMark(a: string, credit: real, currency: string)
    requires Acceptable(a, credit, currency)
    ensures var debit := L.Adjust(KeyPart(a), Mark(a), currency, -5);
            var w := After([Bill(debit)] + Creation(KeyOn("k1", a), credit, currency), 5);
            && "k1" in w.store.records && Active(w.store.records["k1"])
            && w.store.records["k1"].accountId == TrimSpace(a)
            && w.grants == [] && L.Total(w.books, KeyPart(a), L.Credit) == 0
  {
    hide Created, L.AmountMicros, TrimSpace, KeyPart, Mark, KeyOn;
    var debit := L.Adjust(KeyPart(a), Mark(a), currency, -5);
    var actions := [Bill(debit)] + Creation(KeyOn("k1", a), credit, currency);
    assert actions[1..5] == Creation(KeyOn("k1", a), credit, currency);
    assert After(actions, 0) == START && After(actions, 1) == Step(START, Bill(debit));
    L.StepEffect(L.EMPTY, debit, KeyPart(a), L.Credit);
    hide Step;
    CreationAt(actions, 1, KeyOn("k1", a), credit, currency);
    OneKeyMade(After(actions, 1), "k1", a, credit, currency);
  }

  ghost predicate IsRevoked(w: World, name: string) {
    name in w.store.records && w.store.records[name].status == "revoked"
  }

  lemma {:induction false} StepKeepsRevoked(w: World, action: Action, name: string)
    requires Sound(w) && IsRevoked(w, name)
    ensures IsRevoked(Step(w, action), name)
  {
    hide Mark, Indexed, L.Step, PendingRecord, Acceptable, NextRestart;
    OwnNames(w.store);
  }

  lemma {:induction false} OwnNames(s: Store)
    requires Indexed(s)
    ensures forall n :: n in s.records ==> s.records[n].name == n
  {
  }

  /** A revoked key never becomes active again. */
  lemma {:induction false} RevokedStaysRevoked(actions: seq<Action>, i: nat, j: nat, name: string)
    requires i <= j <= |actions| && IsRevoked(After(actions, i), name)
    ensures IsRevoked(After(actions, j), name)
  {
    hide Step, IsRevoked, Sound;
    if i < j {
      RevokedStaysRevoked(actions, i, j - 1, name);
      RunKeepsSound(actions, j - 1);
      StepKeepsRevoked(After(actions, j - 1), actions[j - 1], name);
    }
  }
}
