/**
  The local money ledger (`pkg/billing/ledger.go` over the billing scripts of `pkg/controlplane/redis.go`).
  Every write carries a key; a script that finds its key already used does nothing.
  Accounts, marks and events are stored under key parts (`Text.KeyPart`); events keep their raw ids.
 */
module Ledger {
  import opened Text
  import opened Options
  import opened SortedSets

  datatype Event = Event(id: string, accountId: string, accessKeyId: string, model: string, occurredAt: int,
                         input: int, output: int, cached: int, total: int, amount: int)

  datatype Field = Credit | Spent | InputTokens | OutputTokens | CachedTokens | TotalTokens

  datatype Account = Account(currency: Option<string>, totals: map<Field, int>)

  datatype Books = Books(accounts: map<string, Account>, marks: set<string>, events: map<string, Event>,
                         index: map<string, seq<Entry>>)

  datatype Op =
    | Open(account: string, currency: string)
    | Grant(account: string, mark: string, currency: string, amount: int)
    | Adjust(account: string, mark: string, currency: string, delta: int)
    | Record(account: string, key: string, event: Event)

  const EMPTY := Books(map[], {}, map[], map[])
  const BLANK := Account(None, map[])

  // ---------------------------------------------------------------- amounts

  const SCALE: real := 1000000.0

  /** `decimal.IntPart` of a non-negative decimal: the low 64 bits, read as a signed integer. */
  function IntPart(x: real): int
    requires x >= 0.0
  {
    var low := x.Floor % 0x1_0000_0000_0000_0000;
    if low >= 0x8000_0000_0000_0000 then low - 0x1_0000_0000_0000_0000 else low
  }

  function AmountMicros(amount: real): Option<int> {
    if amount < 0.0 then None
    else if IntPart(amount * SCALE) as real != amount * SCALE then None
    else Some(IntPart(amount * SCALE))
  }

  function FormatMicros(micros: int): real { micros as real / SCALE }

  /** Parsing accepts exactly the amounts that are a whole number of micros inside int64, and undoes formatting. */
  lemma {:induction false} AmountMicrosMeaning(amount: real, micros: int)
    ensures AmountMicros(amount) == Some(micros)
        <==> 0 <= micros < 0x8000_0000_0000_0000 && amount == FormatMicros(micros)
  {
    if amount >= 0.0 && amount == FormatMicros(micros) {
      assert amount * SCALE == micros as real;
      assert (amount * SCALE).Floor == micros;
    }
    if AmountMicros(amount) == Some(micros) {
      assert amount * SCALE == micros as real;
    }
  }

  // ---------------------------------------------------------------- the scripts as steps

  function AccountOf(b: Books, a: string): Account { if a in b.accounts then b.accounts[a] else BLANK }

  function TotalIn(acc: Account, f: Field): int { if f in acc.totals then acc.totals[f] else 0 }

  function Total(b: Books, a: string, f: Field): int { TotalIn(AccountOf(b, a), f) }

  /** HINCRBY */
  function Bump(acc: Account, f: Field, amount: int): Account {
    acc.(totals := acc.totals[f := (if f in acc.totals then acc.totals[f] else 0) + amount])
  }

  /** HSETNX of the currency */
  function WithCurrency(acc: Account, currency: string): Account {
    if acc.currency == None then acc.(currency := Some(currency)) else acc
  }

  function IndexOf(b: Books, a: string): seq<Entry> { if a in b.index then b.index[a] else [] }

  function RecordedOn(acc: Account, e: Event): Account {
    Bump(Bump(Bump(Bump(Bump(acc, Spent, e.amount), InputTokens, e.input), OutputTokens, e.output),
              CachedTokens, e.cached), TotalTokens, e.total)
  }

  function AdjustedOn(acc: Account, delta: int): Account {
    if delta > 0 then Bump(acc, Credit, delta) else Bump(acc, Spent, -delta)
  }

  /** The new books, and whether the operation was applied rather than recognised as a repeat. */
  function Step(b: Books, op: Op): (Books, bool) {
    match op
    case Open(a, currency) => (b.(accounts := b.accounts[a := WithCurrency(AccountOf(b, a), currency)]), true)
    case Grant(a, mark, currency, amount) =>
      if mark in b.marks then (b, false)
      else (b.(marks := b.marks + {mark},
               accounts := b.accounts[a := Bump(WithCurrency(AccountOf(b, a), currency), Credit, amount)]), true)
    case Adjust(a, mark, currency, delta) =>
      if mark in b.marks then (b, false)
      else (b.(marks := b.marks + {mark},
               accounts := b.accounts[a := AdjustedOn(WithCurrency(AccountOf(b, a), currency), delta)]), true)
    case Record(a, key, e) =>
      if key in b.events then (b, false)
      else (b.(events := b.events[key := e], index := b.index[a := Add(IndexOf(b, a), e.occurredAt, e.id)],
               accounts := b.accounts[a := RecordedOn(AccountOf(b, a), e)]), true)
  }

  function AdjustOp(accountId: string, idempotencyKey: string, delta: int, currency: string): Op {
    Adjust(KeyPart(accountId), KeyPart(idempotencyKey), currency, delta)
  }

  function InitialCreditKey(accountId: string): string { "onr:initial-credit:" + TrimSpace(accountId) }

  /** Whether an account can be opened with an initial credit. */
  predicate Provisionable(accountId: string, credit: real, currency: string) {
    AmountMicros(credit).Some? && TrimSpace(accountId) != "" && TrimSpace(currency) != ""
  }

  function RecordOp(e: Event): Op { Record(KeyPart(e.accountId), KeyPart(e.id), e) }

  /** The client's ledger keys in Redis. */
  class Store {
    var accounts: map<string, Account>
    var marks: set<string>
    var events: map<string, Event>
    var index: map<string, seq<Entry>>

    ghost function State(): Books reads this { Books(accounts, marks, events, index) }

    constructor ()
      ensures State() == EMPTY
    {
      accounts, marks, events, index := map[], {}, map[], map[];
    }

    method IncrBy(a: string, f: Field, amount: int)
      modifies this`accounts
      ensures accounts == old(accounts)[a := Bump(AccountOf(old(State()), a), f, amount)]
    {
      var acc := if a in accounts then accounts[a] else BLANK;
      var totals := acc.totals[f := (if f in acc.totals then acc.totals[f] else 0) + amount];
      accounts := accounts[a := acc.(totals := totals)];
    }

    method SetCurrencyIfAbsent(a: string, currency: string)
      modifies this`accounts
      ensures accounts == old(accounts)[a := WithCurrency(AccountOf(old(State()), a), currency)]
    {
      var acc := if a in accounts then accounts[a] else BLANK;
      accounts := accounts[a := if acc.currency == None then acc.(currency := Some(currency)) else acc];
    }

    /** `ProvisionAccountWithCredit`: open the account, then grant the initial credit under the account's own mark. */
    method ProvisionAccountWithCredit(accountId: string, currency: string, initialCredit: real) returns (ok: bool)
      modifies this
      ensures ok <==> Provisionable(accountId, initialCredit, currency)
      ensures State() == if !ok then old(State()) else
                var ready := Step(old(State()), Open(KeyPart(accountId), currency)).0;
                Step(ready, Grant(KeyPart(accountId), KeyPart(InitialCreditKey(accountId)), currency,
                                   AmountMicros(initialCredit).value)).0
    {
      hide KeyPart, TrimSpace, AmountMicros, InitialCreditKey, Step;
      var credit := AmountMicros(initialCredit);
      if credit == None || TrimSpace(accountId) == "" || TrimSpace(currency) == "" { return false; }
      OpenAccount(KeyPart(accountId), currency);
      GrantInitialCredit(KeyPart(accountId), KeyPart(InitialCreditKey(accountId)), currency, credit.value);
      return true;
    }

    method OpenAccount(a: string, currency: string)
      modifies this
      ensures State() == Step(old(State()), Open(a, currency)).0
    {
      SetCurrencyIfAbsent(a, currency);
    }

    method GrantInitialCredit(a: string, mark: string, currency: string, amount: int)
      modifies this
      ensures State() == Step(old(State()), Grant(a, mark, currency, amount)).0
    {
      if mark in marks { return; }
      marks := marks + {mark};
      SetCurrencyIfAbsent(a, currency);
      IncrBy(a, Credit, amount);
    }

    method AdjustScript(a: string, mark: string, delta: int, currency: string)
      modifies this
      ensures State() == Step(old(State()), Adjust(a, mark, currency, delta)).0
    {
      if mark in marks { return; }
      marks := marks + {mark};
      SetCurrencyIfAbsent(a, currency);
      if delta > 0 { IncrBy(a, Credit, delta); } else { IncrBy(a, Spent, -delta); }
    }

    method AdjustAccount(accountId: string, idempotencyKey: string, delta: int, currency: string) returns (ok: bool)
      modifies this
      ensures ok <==> TrimSpace(accountId) != "" && TrimSpace(idempotencyKey) != "" && delta != 0
      ensures State() == if ok then Step(old(State()), AdjustOp(accountId, idempotencyKey, delta, currency)).0
                         else old(State())
    {
      hide KeyPart, TrimSpace, Step;
      if TrimSpace(accountId) == "" || TrimSpace(idempotencyKey) == "" || delta == 0 { return false; }
      AdjustScript(KeyPart(accountId), KeyPart(idempotencyKey), delta, currency);
      return true;
    }

    /** `now` stamps an event that carries no time. */
    method RecordEvent(input: Event, now: int) returns (ok: bool, duplicate: bool)
      modifies this
      ensures ok <==> TrimSpace(input.id) != "" && TrimSpace(input.accountId) != "" && input.amount >= 0
      ensures !ok ==> State() == old(State()) && !duplicate
      ensures ok ==> (State(), !duplicate) == Step(old(State()), RecordOp(Stamped(input, now)))
      ensures ok && !duplicate ==>
                && KeyPart(input.id) in events
                && events[KeyPart(input.id)]
                   == input.(occurredAt := if input.occurredAt > 0 then input.occurredAt else now)
    {
      hide KeyPart, TrimSpace, Add, RecordedOn;
      if TrimSpace(input.id) == "" || TrimSpace(input.accountId) == "" || input.amount < 0 { return false, false; }
      var e := if input.occurredAt <= 0 then input.(occurredAt := now) else input;
      var key, a := KeyPart(e.id), KeyPart(e.accountId);
      if key in events { return true, true; }
      events := events[key := e];
      index := index[a := Add(if a in index then index[a] else [], e.occurredAt, e.id)];
      CountEvent(a, e);
      return true, false;
    }

    method CountEvent(a: string, e: Event)
      modifies this`accounts
      ensures accounts == old(accounts)[a := RecordedOn(AccountOf(old(State()), a), e)]
    {
      hide Bump;
      CountMoney(a, e);
      ghost var spent := accounts[a];
      IncrBy(a, OutputTokens, e.output);
      IncrBy(a, CachedTokens, e.cached);
      assert accounts[a] == Bump(Bump(spent, OutputTokens, e.output), CachedTokens, e.cached);
      IncrBy(a, TotalTokens, e.total);
    }

    method CountMoney(a: string, e: Event)
      modifies this`accounts
      ensures accounts
           == old(accounts)[a := Bump(Bump(AccountOf(old(State()), a), Spent, e.amount), InputTokens, e.input)]
    {
      hide Bump;
      IncrBy(a, Spent, e.amount);
      IncrBy(a, InputTokens, e.input);
    }

    /** `ReadLocalBillingEvents`: ids newest first up to the limit, then fetched back to front. */
    method ReadEvents(accountId: string, start: int, end: int, limit: int) returns (out: Option<seq<Event>>)
      ensures out == Fetch(events, LastN(Window(IndexOf(State(), KeyPart(accountId)), start, end), ClampLimit(limit)))
    {
      hide KeyPart, Window, LastN;
      var bound := if limit < 0 then 0 else if limit > 10000 then 10000 else limit;
      ghost var picked := LastN(Window(IndexOf(State(), KeyPart(accountId)), start, end), ClampLimit(limit));
      var ids := NewestFirst(if KeyPart(accountId) in index then index[KeyPart(accountId)] else [], start, end, bound);
      var found := [];
      var i := |ids|;
      assert Fetch(events, picked[..0]) == Some([]);
      hide Fetch;
      while i > 0
        invariant 0 <= i <= |ids|
        invariant Fetch(events, picked[..|ids| - i]) == Some(found)
      {
        i := i - 1;
        ghost var k := |ids| - i;
        FetchOneMore(events, picked, k);
        if KeyPart(ids[i]) !in events {
          FetchFails(events, picked, k - 1);
          return None;
        }
        found := found + [events[KeyPart(ids[i])]];
      }
      assert picked[..|ids|] == picked;
      return Some(found);
    }

    /**
      `BatchAdjustAccessKeyBalance`: one adjustment per name, keyed by prefix and name; unknown names fail alone.
      `accountIds` gives the accounts of the stored records by record key.
     */
    method BatchAdjust(names: seq<string>, accountIds: map<string, string>, prefix: string, delta: int,
                       currency: string)
      returns (oks: seq<bool>)
      modifies this
      ensures State() == Run(old(State()), BatchOps(names, accountIds, prefix, delta, currency))
      ensures oks == Reports(names, accountIds, delta)
    {
      hide KeyPart, TrimSpace, Step;
      oks := [];
      var i := 0;
      while i < |names|
        invariant 0 <= i <= |names|
        invariant State() == Run(old(State()), BatchOps(names[..i], accountIds, prefix, delta, currency))
        invariant oks == Reports(names[..i], accountIds, delta)
      {
        assert names[..i + 1][..i] == names[..i];
        ghost var earlier := BatchOps(names[..i], accountIds, prefix, delta, currency);
        RunAppend(old(State()), earlier, BatchOp(names[i], accountIds, prefix, delta, currency));
        var name := TrimSpace(names[i]);
        if name != "" {
          var ok := false;
          if KeyPart(name) in accountIds {
            ColonIsKept(prefix, name);
            ok := AdjustAccount(accountIds[KeyPart(name)], TrimSpace(prefix) + ":" + name, delta, currency);
          }
          oks := oks + [ok];
        }
        i := i + 1;
      }
      assert names[..i] == names;
    }
  }

  function Stamped(e: Event, now: int): Event { if e.occurredAt <= 0 then e.(occurredAt := now) else e }

  // ---------------------------------------------------------------- runs

  function Run(b: Books, ops: seq<Op>): Books {
    if ops == [] then b else Step(Run(b, ops[..|ops| - 1]), ops[|ops| - 1]).0
  }

  lemma {:induction false} RunAppend(b: Books, xs: seq<Op>, ys: seq<Op>)
    ensures Run(b, xs + ys) == Run(Run(b, xs), ys)
  {
    hide Step;
    if ys == [] {
      assert xs + ys == xs;
    } else {
      assert (xs + ys)[..|xs + ys| - 1] == xs + ys[..|ys| - 1];
      RunAppend(b, xs, ys[..|ys| - 1]);
    }
  }

  function BatchKey(prefix: string, name: string): string { KeyPart(TrimSpace(prefix) + ":" + name) }

  /** Whether the adjustment for one raw name of a batch is carried out: a known name on a nonblank account. */
  predicate Adjusts(rawName: string, accountIds: map<string, string>, delta: int) {
    var name := TrimSpace(rawName);
    name != "" && KeyPart(name) in accountIds && TrimSpace(accountIds[KeyPart(name)]) != "" && delta != 0
  }

  /** The zero or one ledger operations that one raw name of a batch leads to. */
  function BatchOp(rawName: string, accountIds: map<string, string>, prefix: string, delta: int, currency: string)
    : seq<Op>
  {
    if Adjusts(rawName, accountIds, delta)
    then [BatchAdjustment(TrimSpace(rawName), accountIds, prefix, delta, currency)] else []
  }

  /** One report for each nonblank name: whether its adjustment was carried out. */
  function Reports(names: seq<string>, accountIds: map<string, string>, delta: int): seq<bool> {
    if names == [] then [] else
      var last := names[|names| - 1];
      Reports(names[..|names| - 1], accountIds, delta)
      + (if TrimSpace(last) == "" then [] else [Adjusts(last, accountIds, delta)])
  }

  /** An idempotency key of a batch is never blank. */
  lemma {:induction false} ColonIsKept(prefix: string, name: string)
    ensures TrimSpace(TrimSpace(prefix) + ":" + name) != ""
  {
    var t := TrimSpace(prefix) + ":" + name;
    if TrimSpace(t) == "" { TrimKeeps(t, |TrimSpace(prefix)|, IsSpace); }
  }

  function BatchOps(names: seq<string>, accountIds: map<string, string>, prefix: string, delta: int, currency: string)
    : seq<Op>
  {
    if names == [] then []
    else BatchOps(names[..|names| - 1], accountIds, prefix, delta, currency)
         + BatchOp(names[|names| - 1], accountIds, prefix, delta, currency)
  }

  // ---------------------------------------------------------------- conservation

  datatype Key = Unkeyed | MarkKey(mark: string) | EventKey(key: string)

  function KeyOf(op: Op): Key {
    match op
    case Open(_, _) => Unkeyed
    case Grant(_, mark, _, _) => MarkKey(mark)
    case Adjust(_, mark, _, _) => MarkKey(mark)
    case Record(_, key, _) => EventKey(key)
  }

  /** What an operation is meant to add to one total of one account. */
  function Effect(op: Op, a: string, f: Field): int {
    if op.account != a then 0 else
    match op
    case Open(_, _) => 0
    case Grant(_, _, _, amount) => if f == Credit then amount else 0
    case Adjust(_, _, _, delta) =>
      if delta > 0 then (if f == Credit then delta else 0) else (if f == Spent then -delta else 0)
    case Record(_, _, e) =>
      match f
      case Credit => 0
      case Spent => e.amount
      case InputTokens => e.input
      case OutputTokens => e.output
      case CachedTokens => e.cached
      case TotalTokens => e.total
  }

  /** Whether the key of `op` occurs among `ops`. */
  ghost predicate Used(ops: seq<Op>, op: Op) {
    KeyOf(op) != Unkeyed && exists j :: 0 <= j < |ops| && KeyOf(ops[j]) == KeyOf(op)
  }

  /** The sum of the effects of the operations that come first under their key. */
  ghost function SumFirst(ops: seq<Op>, a: string, f: Field): int {
    if ops == [] then 0 else
      var n := |ops| - 1;
      SumFirst(ops[..n], a, f) + (if Used(ops[..n], ops[n]) then 0 else Effect(ops[n], a, f))
  }

  lemma {:induction false} RecordedTotals(acc: Account, e: Event, f: Field)
    ensures TotalIn(RecordedOn(acc, e), f) == TotalIn(acc, f) + Effect(Record("", "", e), "", f)
  {
  }

  lemma {:induction false} BumpTotal(acc: Account, currency: string, f: Field, amount: int, g: Field)
    ensures TotalIn(WithCurrency(acc, currency), g) == TotalIn(acc, g)
    ensures TotalIn(Bump(WithCurrency(acc, currency), f, amount), g) == TotalIn(acc, g) + (if f == g then amount else 0)
  {
  }

  lemma {:induction false} StepEffect(b: Books, op: Op, a: string, f: Field)
    ensures Total(Step(b, op).0, a, f) == Total(b, a, f) + (if Step(b, op).1 then Effect(op, a, f) else 0)
  {
    hide Add, RecordedOn, Bump, WithCurrency, TotalIn;
    var acc := AccountOf(b, op.account);
    match op
    case Open(_, currency) => BumpTotal(acc, currency, Credit, 0, f);
    case Grant(_, _, currency, amount) => BumpTotal(acc, currency, Credit, amount, f);
    case Adjust(_, _, currency, delta) =>
      BumpTotal(acc, currency, Credit, delta, f);
      BumpTotal(acc, currency, Spent, -delta, f);
    case Record(_, _, e) => RecordedTotals(acc, e, f);
  }

  predicate Seen(b: Books, k: Key) {
    match k
    case Unkeyed => false
    case MarkKey(mark) => mark in b.marks
    case EventKey(key) => key in b.events
  }

  lemma {:induction false} StepSees(b: Books, op: Op, k: Key)
    ensures Seen(Step(b, op).0, k) <==> Seen(b, k) || (k != Unkeyed && KeyOf(op) == k)
  {
    hide Add, RecordedOn, AdjustedOn;
  }

  lemma {:induction false} SeenIffUsed(ops: seq<Op>, op: Op)
    ensures Seen(Run(EMPTY, ops), KeyOf(op)) <==> Used(ops, op)
  {
    hide Step, KeyOf;
    if ops != [] {
      hide Seen;
      var n := |ops| - 1;
      SeenIffUsed(ops[..n], op);
      StepSees(Run(EMPTY, ops[..n]), ops[n], KeyOf(op));
      assert forall j :: 0 <= j < n ==> ops[j] == ops[..n][j];
    }
  }

  /** Conservation: every total of every account is the sum of the distinctly keyed operations, in any run. */
  lemma {:induction false} Conservation(ops: seq<Op>, a: string, f: Field)
    ensures Total(Run(EMPTY, ops), a, f) == SumFirst(ops, a, f)
  {
    if ops != [] {
      var n := |ops| - 1;
      Conservation(ops[..n], a, f);
      SeenIffUsed(ops[..n], ops[n]);
      StepEffect(Run(EMPTY, ops[..n]), ops[n], a, f);
      AppliedIffUnseen(Run(EMPTY, ops[..n]), ops[n]);
      hide Step, Total, Effect;
    }
  }

  lemma {:induction false} AppliedIffUnseen(b: Books, op: Op)
    ensures Step(b, op).1 <==> !Seen(b, KeyOf(op))
  {
  }

  /** The currency of the first applied operation that brings one to the account. */
  ghost function FirstCurrency(ops: seq<Op>, a: string): Option<string> {
    if ops == [] then None else
      var n := |ops| - 1;
      var before := FirstCurrency(ops[..n], a);
      if before.Some? || ops[n].Record? || ops[n].account != a || Used(ops[..n], ops[n]) then before
      else Some(ops[n].currency)
  }

  /** In every run an account keeps the currency it got first. */
  lemma {:induction false} CurrencyIsTheFirst(ops: seq<Op>, a: string)
    ensures AccountOf(Run(EMPTY, ops), a).currency == FirstCurrency(ops, a)
  {
    hide KeyOf, Used, Step, Seen;
    if ops != [] {
      var n := |ops| - 1;
      CurrencyIsTheFirst(ops[..n], a);
      SeenIffUsed(ops[..n], ops[n]);
      AppliedIffUnseen(Run(EMPTY, ops[..n]), ops[n]);
      StepCurrency(Run(EMPTY, ops[..n]), ops[n], a);
    }
  }

  lemma {:induction false} StepCurrency(b: Books, op: Op, a: string)
    ensures AccountOf(Step(b, op).0, a).currency
         == if AccountOf(b, a).currency.Some? || op.Record? || op.account != a || !Step(b, op).1
            then AccountOf(b, a).currency else Some(op.currency)
  {
    hide Add;
  }

  // ---------------------------------------------------------------- order and replays

  ghost predicate KeysDetermine(s: set<Op>) {
    forall x, y :: x in s && y in s && KeyOf(x) == KeyOf(y) != Unkeyed ==> x == y
  }

  ghost function SumOver(s: set<Op>, a: string, f: Field): int {
    if s == {} then 0 else var x :| x in s; Effect(x, a, f) + SumOver(s - {x}, a, f)
  }

  lemma {:induction false} SumOverAdd(s: set<Op>, x: Op, a: string, f: Field)
    requires x !in s
    ensures SumOver(s + {x}, a, f) == SumOver(s, a, f) + Effect(x, a, f)
  {
    hide Effect;
    var t := s + {x};
    var y :| y in t && SumOver(t, a, f) == Effect(y, a, f) + SumOver(t - {y}, a, f);
    if y == x {
      assert t - {x} == s;
    } else {
      assert t - {y} == (s - {y}) + {x};
      SumOverAdd(s - {y}, x, a, f);
      SumOverAdd(s - {y}, y, a, f);
      assert s == (s - {y}) + {y};
    }
  }

  function OpSet(ops: seq<Op>): set<Op> { set x | x in ops }

  lemma {:induction false} TotalIsSetSum(ops: seq<Op>, a: string, f: Field)
    requires KeysDetermine(OpSet(ops))
    ensures SumFirst(ops, a, f) == SumOver(OpSet(ops), a, f)
  {
    hide Effect, KeyOf;
    if ops != [] {
      var n := |ops| - 1;
      var before, x := ops[..n], ops[n];
      assert OpSet(ops) == OpSet(before) + {x};
      TotalIsSetSum(before, a, f);
      if x in before {
        assert OpSet(ops) == OpSet(before);
        RepeatAddsNothing(before, x, a, f);
      } else {
        assert !Used(before, x);
        SumOverAdd(OpSet(before), x, a, f);
      }
    }
  }

  lemma {:induction false} RepeatAddsNothing(ops: seq<Op>, x: Op, a: string, f: Field)
    requires x in ops
    ensures Used(ops, x) || Effect(x, a, f) == 0
  {
    var j :| 0 <= j < |ops| && ops[j] == x;
  }

  /** Equal keys mean equal effects, whatever else the operations say. */
  ghost predicate KeysDetermineEffects(s: set<Op>) {
    forall x, y :: x in s && y in s && KeyOf(x) == KeyOf(y) != Unkeyed ==> SameEffect(x, y)
  }

  ghost predicate SameEffect(x: Op, y: Op) { forall a, f :: Effect(x, a, f) == Effect(y, a, f) }

  /** One operation of the set for each key. */
  ghost function Chosen(s: set<Op>, k: Key): Op
    requires exists x :: x in s && KeyOf(x) == k
  {
    var x :| x in s && KeyOf(x) == k; x
  }

  ghost function Representative(s: set<Op>, x: Op): Op
    requires x in s
  {
    if KeyOf(x) == Unkeyed then x else Chosen(s, KeyOf(x))
  }

  ghost function Representatives(s: set<Op>, ops: seq<Op>): seq<Op>
    requires OpSet(ops) <= s
  {
    if ops == [] then [] else
      assert ops[|ops| - 1] in OpSet(ops);
      assert OpSet(ops[..|ops| - 1]) <= OpSet(ops);
      Representatives(s, ops[..|ops| - 1]) + [Representative(s, ops[|ops| - 1])]
  }

  lemma {:induction false} RepresentativeAt(s: set<Op>, ops: seq<Op>, i: nat)
    requires OpSet(ops) <= s && i < |ops|
    ensures |Representatives(s, ops)| == |ops| && ops[i] in s && Representatives(s, ops)[i] == Representative(s, ops[i])
  {
    hide KeyOf, Representative;
    assert ops[i] in OpSet(ops);
    if |ops| > 1 { RepresentativeAt(s, ops[..|ops| - 1], if i < |ops| - 1 then i else 0); }
  }

  lemma {:induction false} RepresentativeIs(s: set<Op>, x: Op)
    requires x in s && KeysDetermineEffects(s)
    ensures var y := Representative(s, x); y in s && KeyOf(y) == KeyOf(x) && SameEffect(x, y)
  {
    hide KeyOf;
  }

  lemma {:induction false} SameKeysUsed(xs: seq<Op>, ys: seq<Op>, x: Op, y: Op)
    requires |xs| == |ys| && KeyOf(x) == KeyOf(y) && forall i :: 0 <= i < |xs| ==> KeyOf(xs[i]) == KeyOf(ys[i])
    ensures Used(xs, x) <==> Used(ys, y)
  {
    hide KeyOf;
    if Used(xs, x) { var j :| 0 <= j < |xs| && KeyOf(xs[j]) == KeyOf(x); assert KeyOf(ys[j]) == KeyOf(y); }
    if Used(ys, y) { var j :| 0 <= j < |ys| && KeyOf(ys[j]) == KeyOf(y); assert KeyOf(xs[j]) == KeyOf(x); }
  }

  lemma {:induction false} RepresentativesSum(s: set<Op>, ops: seq<Op>, a: string, f: Field)
    requires OpSet(ops) <= s && KeysDetermineEffects(s)
    ensures SumFirst(Representatives(s, ops), a, f) == SumFirst(ops, a, f)
  {
    hide KeyOf, Effect, Representative, Used;
    if ops != [] {
      var n := |ops| - 1;
      var before, reps := ops[..n], Representatives(s, ops);
      assert OpSet(before) <= OpSet(ops) && ops[n] in OpSet(ops);
      RepresentativesSum(s, before, a, f);
      RepresentativeAt(s, ops, n);
      assert reps[..n] == Representatives(s, before);
      RepresentativeIs(s, ops[n]);
      forall i | 0 <= i < n ensures KeyOf(reps[..n][i]) == KeyOf(before[i]) {
        RepresentativeAt(s, ops, i);
        RepresentativeIs(s, ops[i]);
      }
      SameKeysUsed(before, reps[..n], ops[n], reps[n]);
    }
  }

  lemma {:induction false} RepresentativesOfSameSet(s: set<Op>, xs: seq<Op>, ys: seq<Op>)
    requires OpSet(xs) == OpSet(ys) <= s
    ensures OpSet(Representatives(s, xs)) <= OpSet(Representatives(s, ys))
  {
    hide Representative;
    var rx, ry := Representatives(s, xs), Representatives(s, ys);
    forall z | z in OpSet(rx) ensures z in OpSet(ry) {
      if xs != [] { RepresentativeAt(s, xs, 0); }
      var i :| 0 <= i < |rx| && rx[i] == z;
      RepresentativeAt(s, xs, i);
      assert xs[i] in OpSet(xs);
      var j :| 0 <= j < |ys| && ys[j] == xs[i];
      RepresentativeAt(s, ys, j);
    }
  }

  lemma {:induction false} RepresentativesDetermine(s: set<Op>, ops: seq<Op>)
    requires OpSet(ops) <= s && KeysDetermineEffects(s)
    ensures KeysDetermine(OpSet(Representatives(s, ops)))
  {
    hide KeyOf, SameEffect, KeysDetermineEffects;
    var reps := Representatives(s, ops);
    forall x, y | x in OpSet(reps) && y in OpSet(reps) && KeyOf(x) == KeyOf(y) != Unkeyed ensures x == y {
      if ops != [] { RepresentativeAt(s, ops, 0); }
      var i :| 0 <= i < |reps| && reps[i] == x;
      var j :| 0 <= j < |reps| && reps[j] == y;
      RepresentativeAt(s, ops, i);
      RepresentativeAt(s, ops, j);
      RepresentativeIs(s, ops[i]);
      RepresentativeIs(s, ops[j]);
    }
  }

  /** If equal keys mean equal effects, totals depend on which operations were sent, not on order or replays. */
  lemma {:induction false} OrderAndReplaysDoNotMatter(xs: seq<Op>, ys: seq<Op>, a: string, f: Field)
    requires KeysDetermineEffects(OpSet(xs)) && OpSet(xs) == OpSet(ys)
    ensures Total(Run(EMPTY, xs), a, f) == Total(Run(EMPTY, ys), a, f)
  {
    hide Total, Run, KeysDetermineEffects, Representatives, KeysDetermine;
    var s := OpSet(xs);
    Conservation(xs, a, f);
    Conservation(ys, a, f);
    RepresentativesSum(s, xs, a, f);
    RepresentativesSum(s, ys, a, f);
    RepresentativesDetermine(s, xs);
    RepresentativesDetermine(s, ys);
    RepresentativesOfSameSet(s, xs, ys);
    RepresentativesOfSameSet(s, ys, xs);
    assert OpSet(Representatives(s, xs)) == OpSet(Representatives(s, ys));
    TotalIsSetSum(Representatives(s, xs), a, f);
    TotalIsSetSum(Representatives(s, ys), a, f);
  }

  /** Whichever of two operations under one key comes first decides the totals, whatever follows. */
  lemma {:induction false} FirstOneCounts(x: Op, y: Op, rest: seq<Op>, a: string, f: Field)
    requires KeyOf(x) == KeyOf(y) != Unkeyed
    ensures SumFirst([x, y] + rest, a, f) - Effect(x, a, f) == SumFirst([y, x] + rest, a, f) - Effect(y, a, f)
  {
    hide KeyOf, Effect, Used;
    var p, q := [x, y] + rest, [y, x] + rest;
    if rest == [] {
      TwoUnderOneKey(x, y, a, f);
      TwoUnderOneKey(y, x, a, f);
      assert p == [x, y] && q == [y, x];
    } else {
      var n := |rest| - 1;
      FirstOneCounts(x, y, rest[..n], a, f);
      assert p[..|p| - 1] == [x, y] + rest[..n] && q[..|q| - 1] == [y, x] + rest[..n];
      SameKeysUsed([x, y] + rest[..n], [y, x] + rest[..n], rest[n], rest[n]);
    }
  }

  lemma {:induction false} TwoUnderOneKey(x: Op, y: Op, a: string, f: Field)
    requires KeyOf(x) == KeyOf(y) != Unkeyed
    ensures SumFirst([x, y], a, f) == Effect(x, a, f)
  {
    hide KeyOf, Effect;
    assert [x, y][..1] == [x] && [x][..0] == [];
    assert SumFirst([x], a, f) == Effect(x, a, f);
    assert KeyOf([x][0]) == KeyOf(y);
  }

  ghost predicate OrderIsIrrelevant(s: set<Op>) {
    forall xs, ys, a, f :: OpSet(xs) == s && OpSet(ys) == s ==>
      Total(Run(EMPTY, xs), a, f) == Total(Run(EMPTY, ys), a, f)
  }

  /**
    Exactly then: the totals of a set of operations are independent of order and replays iff keys determine effects.
   */
  lemma {:induction false} OrderIsIrrelevantIff(ops: seq<Op>)
    ensures OrderIsIrrelevant(OpSet(ops)) <==> KeysDetermineEffects(OpSet(ops))
  {
    hide Total, Run, KeyOf, Effect;
    var s := OpSet(ops);
    if KeysDetermineEffects(s) {
      forall xs, ys, a, f | OpSet(xs) == s && OpSet(ys) == s
        ensures Total(Run(EMPTY, xs), a, f) == Total(Run(EMPTY, ys), a, f)
      {
        OrderAndReplaysDoNotMatter(xs, ys, a, f);
      }
    } else {
      var x, y :| x in s && y in s && KeyOf(x) == KeyOf(y) != Unkeyed && !SameEffect(x, y);
      var a, f :| Effect(x, a, f) != Effect(y, a, f);
      var xs, ys := [x, y] + ops, [y, x] + ops;
      assert OpSet(xs) == s && OpSet(ys) == s;
      FirstOneCounts(x, y, ops, a, f);
      Conservation(xs, a, f);
      Conservation(ys, a, f);
    }
  }

  /** The condition is needed: one key used for two amounts makes the totals depend on the order. */
  lemma {:induction false} SharedKeyMakesOrderMatter()
    ensures var x, y := Adjust("a", "k", "CNY", 1), Adjust("a", "k", "CNY", 2);
            Total(Run(EMPTY, [x, y]), "a", Credit) == 1 && Total(Run(EMPTY, [y, x]), "a", Credit) == 2
  {
    var x, y := Adjust("a", "k", "CNY", 1), Adjust("a", "k", "CNY", 2);
    assert [x, y][..1] == [x] && [y, x][..1] == [y] && [x][..0] == [] && [y][..0] == [];
    assert Run(EMPTY, [x][..0]) == EMPTY && Run(EMPTY, [y][..0]) == EMPTY;
    assert Run(EMPTY, [x]) == Step(EMPTY, x).0 && Run(EMPTY, [y]) == Step(EMPTY, y).0;
    assert Run(EMPTY, [x, y]) == Run(EMPTY, [x]) && Run(EMPTY, [y, x]) == Run(EMPTY, [y]);
  }

  // ---------------------------------------------------------------- batch adjustments

  /** What the text does not cut stays: trimming on the left stops inside `p` if it can. */
  lemma {:induction false} TrimLeftAppend(p: string, q: string, cut: char -> bool)
    ensures TrimLeft(p + q, cut) == if TrimLeft(p, cut) == "" then TrimLeft(q, cut) else TrimLeft(p, cut) + q
  {
    if p == "" {
      assert p + q == q;
    } else if cut(p[0]) {
      assert (p + q)[1..] == p[1..] + q;
      TrimLeftAppend(p[1..], q, cut);
    }
  }

  /** A name as the batch uses it. */
  predicate BatchName(name: string) { name != "" && TrimSpace(name) == name }

  lemma {:induction false} BatchTextIsTrimmed(prefix: string, name: string)
    requires BatchName(name)
    ensures TrimSpace(TrimSpace(prefix) + ":" + name) == TrimSpace(prefix) + ":" + name
  {
    var p := TrimSpace(prefix);
    var t := p + ":" + name;
    TrimMeaning(prefix, IsSpace);
    TrimMeaning(name, IsSpace);
    assert t[|t| - 1] == name[|name| - 1] && t[0] == if p == "" then ':' else p[0];
    TrimSpaceKeeps(t);
  }

  /** A prefix that is blank or has only colons disappears from the key. */
  predicate Vanishes(prefix: string) { TrimLeft(TrimSpace(prefix), IsColon) == "" }

  lemma {:induction false} BatchKeyForm(prefix: string, name: string)
    requires BatchName(name)
    ensures Vanishes(prefix) ==> BatchKey(prefix, name) == KeyPart(name)
    ensures !Vanishes(prefix) ==>
              var p := TrimLeft(TrimSpace(prefix), IsColon);
              BatchKey(prefix, name) == if Stem(name) == "" then TrimRight(p, IsColon) else p + ":" + Stem(name)
  {
    hide TrimSpace;
    var p := TrimSpace(prefix);
    var t := p + ":" + name;
    BatchTextIsTrimmed(prefix, name);
    assert t == p + (":" + name) && (":" + name)[1..] == name;
    TrimLeftAppend(p, ":" + name, IsColon);
    assert TrimLeft(":" + name, IsColon) == TrimLeft(name, IsColon);
    if !Vanishes(prefix) {
      var q := TrimLeft(p, IsColon);
      assert q + (":" + name) == (q + ":") + name;
      TrimRightAppend(q + ":", name, IsColon);
      assert (q + ":")[..|q|] == q;
    }
  }

  /** Two names of a batch get one key exactly if they agree up to trailing colons, or up to all under a bare prefix. */
  lemma {:induction false} BatchKeysAgreeIff(prefix: string, m: string, n: string)
    requires BatchName(m) && BatchName(n)
    ensures BatchKey(prefix, m) == BatchKey(prefix, n)
        <==> if Vanishes(prefix) then KeyPart(m) == KeyPart(n) else Stem(m) == Stem(n)
    ensures BatchKey(prefix, m) == BatchKey(prefix, n) ==> KeyPart(m) == KeyPart(n)
  {
    hide Stem, KeyPart, BatchKey, BatchName;
    BatchKeyForm(prefix, m);
    BatchKeyForm(prefix, n);
    StemDeterminesKeyPart(m);
    StemDeterminesKeyPart(n);
    var p := TrimLeft(TrimSpace(prefix), IsColon);
    TrimRightEnds(p, IsColon);
    hide Vanishes, TrimLeft, TrimRight;
    assert (p + ":" + Stem(m))[|p| + 1..] == Stem(m) && (p + ":" + Stem(n))[|p| + 1..] == Stem(n);
    assert |p + ":" + Stem(m)| > |p| && |p + ":" + Stem(n)| > |p|;
  }

  function BatchAdjustment(name: string, accountIds: map<string, string>, prefix: string, delta: int, currency: string)
    : Op
    requires KeyPart(name) in accountIds
  {
    Adjust(KeyPart(accountIds[KeyPart(name)]), BatchKey(prefix, name), currency, delta)
  }

  /** Names of stored records, as a batch uses them. */
  ghost predicate Known(names: set<string>, accountIds: map<string, string>) {
    forall n :: n in names ==> BatchName(n) && KeyPart(n) in accountIds
  }

  ghost function BatchSet(names: set<string>, accountIds: map<string, string>, prefix: string, delta: int,
                          currency: string): set<Op>
    requires Known(names, accountIds)
  {
    set n | n in names :: BatchAdjustment(n, accountIds, prefix, delta, currency)
  }

  ghost function NamesOn(names: set<string>, accountIds: map<string, string>, a: string): set<string>
    requires Known(names, accountIds)
  {
    set n | n in names && KeyPart(accountIds[KeyPart(n)]) == a
  }

  function KeysOf(names: set<string>, prefix: string): set<string> { set n | n in names :: BatchKey(prefix, n) }

  function RecordsOf(names: set<string>): set<string> { set n | n in names :: KeyPart(n) }

  /** A batch adds its amount to an account once for each different key among the names on it. */
  lemma {:induction false} BatchSum(names: set<string>, accountIds: map<string, string>, prefix: string, delta: int,
                                    currency: string, a: string, f: Field)
    requires Known(names, accountIds)
    requires f == if delta > 0 then Credit else Spent
    ensures SumOver(BatchSet(names, accountIds, prefix, delta, currency), a, f)
         == (if delta > 0 then delta else -delta) * |KeysOf(NamesOn(names, accountIds, a), prefix)|
  {
    hide KeyPart, BatchName, BatchKey, SumOver, BatchSet, BatchAdjustment, KeysOf, NamesOn;
    if names == {} {
      NoBatch(accountIds, prefix, delta, currency, a, f);
    } else {
      var n :| n in names;
      var rest := names - {n};
      BatchSum(rest, accountIds, prefix, delta, currency, a, f);
      OneMoreName(names, n, accountIds, prefix, delta, currency, a);
      var one := BatchAdjustment(n, accountIds, prefix, delta, currency);
      if one !in BatchSet(rest, accountIds, prefix, delta, currency) {
        SumOverAdd(BatchSet(rest, accountIds, prefix, delta, currency), one, a, f);
        AdjustmentEffect(n, accountIds, prefix, delta, currency, a, f);
      }
    }
  }

  lemma {:induction false} AdjustmentEffect(n: string, accountIds: map<string, string>, prefix: string, delta: int,
                                            currency: string, a: string, f: Field)
    requires KeyPart(n) in accountIds && f == if delta > 0 then Credit else Spent
    ensures Effect(BatchAdjustment(n, accountIds, prefix, delta, currency), a, f)
         == if KeyPart(accountIds[KeyPart(n)]) == a then (if delta > 0 then delta else -delta) else 0
  {
    hide KeyPart, BatchKey;
  }

  lemma {:induction false} NoBatch(accountIds: map<string, string>, prefix: string, delta: int, currency: string,
                                   a: string, f: Field)
    ensures SumOver(BatchSet({}, accountIds, prefix, delta, currency), a, f) == 0
    ensures KeysOf(NamesOn({}, accountIds, a), prefix) == {}
  {
    assert BatchSet({}, accountIds, prefix, delta, currency) == {};
  }

  /** One more name adds its adjustment and its key, or neither. */
  lemma {:induction false} OneMoreName(names: set<string>, n: string, accountIds: map<string, string>, prefix: string,
                                       delta: int, currency: string, a: string)
    requires Known(names, accountIds) && n in names
    ensures Known(names - {n}, accountIds)
    ensures var rest := BatchSet(names - {n}, accountIds, prefix, delta, currency);
            var one := BatchAdjustment(n, accountIds, prefix, delta, currency);
            var keys := KeysOf(NamesOn(names - {n}, accountIds, a), prefix);
            && BatchSet(names, accountIds, prefix, delta, currency) == rest + {one}
            && (one in rest ==> rest + {one} == rest && KeysOf(NamesOn(names, accountIds, a), prefix) == keys)
            && (one !in rest ==>
                  if KeyPart(accountIds[KeyPart(n)]) == a
                  then BatchKey(prefix, n) !in keys
                       && KeysOf(NamesOn(names, accountIds, a), prefix) == keys + {BatchKey(prefix, n)}
                  else KeysOf(NamesOn(names, accountIds, a), prefix) == keys)
  {
    hide KeyPart, BatchName, BatchKey;
    forall m | m in names && BatchKey(prefix, m) == BatchKey(prefix, n) ensures KeyPart(m) == KeyPart(n) {
      BatchKeysAgreeIff(prefix, m, n);
    }
  }

  // ---------------------------------------------------------------- batches among other operations

  /** The names of a batch that it adjusts. */
  function Adjusted(names: seq<string>, accountIds: map<string, string>, delta: int): set<string> {
    set i | 0 <= i < |names| && Adjusts(names[i], accountIds, delta) :: TrimSpace(names[i])
  }

  lemma {:induction false} AdjustedAreKnown(names: seq<string>, accountIds: map<string, string>, delta: int)
    ensures Known(Adjusted(names, accountIds, delta), accountIds)
  {
    hide TrimSpace, KeyPart;
    forall i | 0 <= i < |names| ensures TrimSpace(TrimSpace(names[i])) == TrimSpace(names[i]) {
      TrimSpaceIdempotent(names[i]);
    }
  }

  /** What the batch sends is exactly one adjustment for each name it adjusts. */
  lemma {:induction false} BatchOpsAreBatchSet(names: seq<string>, accountIds: map<string, string>, prefix: string,
                                               delta: int, currency: string)
    ensures Known(Adjusted(names, accountIds, delta), accountIds)
    ensures OpSet(BatchOps(names, accountIds, prefix, delta, currency))
         == BatchSet(Adjusted(names, accountIds, delta), accountIds, prefix, delta, currency)
  {
    hide BatchAdjustment, Adjusts, TrimSpace, KeyPart, Known;
    AdjustedAreKnown(names, accountIds, delta);
    if names != [] {
      var n := |names| - 1;
      var init, last := names[..n], names[n];
      BatchOpsAreBatchSet(init, accountIds, prefix, delta, currency);
      assert names == init + [last];
      assert Adjusted(names, accountIds, delta)
          == Adjusted(init, accountIds, delta) + (if Adjusts(last, accountIds, delta) then {TrimSpace(last)} else {});
      AddToBatch(Adjusted(init, accountIds, delta), last, accountIds, prefix, delta, currency);
      OpSetAppend(BatchOps(init, accountIds, prefix, delta, currency),
                  BatchOp(last, accountIds, prefix, delta, currency));
    }
  }

  lemma {:induction false} AddToBatch(names: set<string>, raw: string, accountIds: map<string, string>, prefix: string,
                                      delta: int, currency: string)
    requires Known(names, accountIds)
    ensures Adjusts(raw, accountIds, delta) ==>
              && Known(names + {TrimSpace(raw)}, accountIds)
              && BatchSet(names + {TrimSpace(raw)}, accountIds, prefix, delta, currency)
                 == BatchSet(names, accountIds, prefix, delta, currency)
                    + {BatchAdjustment(TrimSpace(raw), accountIds, prefix, delta, currency)}
  {
    hide BatchAdjustment, TrimSpace, KeyPart;
    TrimSpaceIdempotent(raw);
  }

  lemma {:induction false} OpSetAppend(xs: seq<Op>, ys: seq<Op>)
    ensures OpSet(xs + ys) == OpSet(xs) + OpSet(ys)
  {
  }

  function Without(ops: seq<Op>, batch: set<Op>): seq<Op> {
    if ops == [] then [] else
      Without(ops[..|ops| - 1], batch) + (if ops[|ops| - 1] in batch then [] else [ops[|ops| - 1]])
  }

  /** The operations of the batch are keyed, and no other operation of the run uses one of their keys. */
  ghost predicate OwnsItsKeys(ops: seq<Op>, batch: set<Op>) {
    && (forall y :: y in batch ==> KeyOf(y) != Unkeyed)
    && (forall x, y :: x in ops && y in batch && KeyOf(x) == KeyOf(y) ==> x == y)
  }

  lemma {:induction false} UsedWithout(ops: seq<Op>, batch: set<Op>, x: Op)
    requires x !in batch && forall y :: y in batch ==> KeyOf(y) != KeyOf(x)
    ensures Used(Without(ops, batch), x) <==> Used(ops, x)
  {
    hide KeyOf;
    if ops != [] {
      var n := |ops| - 1;
      UsedWithout(ops[..n], batch, x);
      assert forall j :: 0 <= j < n ==> ops[j] == ops[..n][j];
      var w := Without(ops[..n], batch);
      if Used(w, x) {
        var j :| 0 <= j < |w| && KeyOf(w[j]) == KeyOf(x);
        assert Without(ops, batch)[j] == w[j];
      }
      if ops[n] !in batch { assert Without(ops, batch)[|w|] == ops[n]; }
    }
  }

  lemma {:induction false} OwnedIsUsedIffSent(ops: seq<Op>, batch: set<Op>, x: Op)
    requires OwnsItsKeys(ops, batch) && x in batch
    ensures Used(ops, x) <==> x in ops
  {
    hide KeyOf;
  }

  lemma {:induction false} OwnedPrefix(ops: seq<Op>, batch: set<Op>)
    requires ops != [] && OwnsItsKeys(ops, batch)
    ensures OwnsItsKeys(ops[..|ops| - 1], batch)
    ensures ops[|ops| - 1] !in batch ==> forall y :: y in batch ==> KeyOf(y) != KeyOf(ops[|ops| - 1])
  {
    hide KeyOf;
    assert ops[|ops| - 1] in ops;
  }

  lemma {:induction false} SumFirstAppend(ops: seq<Op>, x: Op, a: string, f: Field)
    ensures SumFirst(ops + [x], a, f) == SumFirst(ops, a, f) + (if Used(ops, x) then 0 else Effect(x, a, f))
  {
    hide Used, Effect;
    assert (ops + [x])[..|ops|] == ops;
  }

  lemma {:induction false} SentAppend(ops: seq<Op>, x: Op, batch: set<Op>)
    ensures Without(ops + [x], batch) == if x in batch then Without(ops, batch) else Without(ops, batch) + [x]
    ensures OpSet(ops + [x]) * batch == if x in batch then OpSet(ops) * batch + {x} else OpSet(ops) * batch
  {
    assert (ops + [x])[..|ops|] == ops;
  }

  /** The first uses split into those of the other operations and one for each operation of the batch. */
  lemma {:induction false} FirstUsesSplit(ops: seq<Op>, batch: set<Op>, a: string, f: Field)
    requires OwnsItsKeys(ops, batch)
    ensures SumFirst(ops, a, f) == SumFirst(Without(ops, batch), a, f) + SumOver(OpSet(ops) * batch, a, f)
  {
    hide KeyOf, Effect, Used, OwnsItsKeys;
    if ops == [] {
      assert OpSet(ops) * batch == {};
    } else {
      hide SumOver, SumFirst, Without, OpSet;
      var n := |ops| - 1;
      var before, x := ops[..n], ops[n];
      OwnedPrefix(ops, batch);
      FirstUsesSplit(before, batch, a, f);
      assert ops == before + [x];
      SumFirstAppend(before, x, a, f);
      SentAppend(before, x, batch);
      if x in batch {
        OwnedIsUsedIffSent(before, batch, x);
        BatchPart(before, x, batch, a, f);
      } else {
        UsedWithout(before, batch, x);
        SumFirstAppend(Without(before, batch), x, a, f);
      }
    }
  }

  lemma {:induction false} BatchPart(ops: seq<Op>, x: Op, batch: set<Op>, a: string, f: Field)
    requires x in batch
    ensures SumOver(OpSet(ops) * batch + {x}, a, f)
         == SumOver(OpSet(ops) * batch, a, f) + if x in ops then 0 else Effect(x, a, f)
  {
    hide Effect, SumOver;
    if x in ops {
      assert OpSet(ops) * batch + {x} == OpSet(ops) * batch;
    } else {
      SumOverAdd(OpSet(ops) * batch, x, a, f);
    }
  }

  /**
    However often and in whatever parts a batch is retried with one prefix, among any other operations: the totals are
    those of the other operations alone plus the amount once for each different key among the names on the account.
   */
  lemma {:induction false} RetriedBatchAppliesEachKeyOnce(ops: seq<Op>, names: seq<string>,
                                                          accountIds: map<string, string>, prefix: string,
                                                          delta: int, currency: string, a: string)
    requires var batch := OpSet(BatchOps(names, accountIds, prefix, delta, currency));
             batch <= OpSet(ops) && OwnsItsKeys(ops, batch)
    ensures Known(Adjusted(names, accountIds, delta), accountIds)
    ensures var others := Without(ops, OpSet(BatchOps(names, accountIds, prefix, delta, currency)));
            var on := NamesOn(Adjusted(names, accountIds, delta), accountIds, a);
            Total(Run(EMPTY, ops), a, if delta > 0 then Credit else Spent)
            == Total(Run(EMPTY, others), a, if delta > 0 then Credit else Spent)
               + (if delta > 0 then delta else -delta) * |KeysOf(on, prefix)|
  {
    hide KeyPart, BatchName, BatchKey, Total, Run, Effect, Adjusts, Known, KeysOf, NamesOn;
    var f := if delta > 0 then Credit else Spent;
    var batch := OpSet(BatchOps(names, accountIds, prefix, delta, currency));
    BatchOpsAreBatchSet(names, accountIds, prefix, delta, currency);
    Conservation(ops, a, f);
    Conservation(Without(ops, batch), a, f);
    FirstUsesSplit(ops, batch, a, f);
    assert OpSet(ops) * batch == batch;
    BatchSum(Adjusted(names, accountIds, delta), accountIds, prefix, delta, currency, a, f);
  }

  ghost predicate Injective(h: map<string, string>) { forall x, y :: x in h && y in h && h[x] == h[y] ==> x == y }

  lemma {:induction false} MapSizes(h: map<string, string>)
    ensures |h.Values| <= |h|
    ensures |h.Values| == |h| <==> Injective(h)
  {
    if h != map[] {
      var k :| k in h;
      var rest := h - {k};
      MapSizes(rest);
      assert h == rest[k := h[k]] && |h| == |rest| + 1;
      if h[k] in rest.Values {
        var x :| x in rest && rest[x] == h[k];
        assert h.Values == rest.Values && h[x] == h[k];
      } else {
        assert h.Values == rest.Values + {h[k]};
        forall x, y | x in rest && y in rest && rest[x] == rest[y] ensures h[x] == h[y] {}
      }
    }
  }

  /** No two names of one record in the batch differ in the part that their key keeps. */
  ghost predicate OneSpelling(names: set<string>, prefix: string) {
    Vanishes(prefix) || forall m, n :: m in names && n in names && KeyPart(m) == KeyPart(n) ==> Stem(m) == Stem(n)
  }

  /** `h` takes the key of each name to its record. */
  ghost predicate KeyToRecord(h: map<string, string>, names: set<string>, prefix: string) {
    && (forall n :: n in names ==> BatchKey(prefix, n) in h && h[BatchKey(prefix, n)] == KeyPart(n))
    && (forall k :: k in h ==> exists n :: n in names && BatchKey(prefix, n) == k)
  }

  lemma {:induction false} KeysToRecords(names: set<string>, prefix: string) returns (h: map<string, string>)
    requires forall n :: n in names ==> BatchName(n)
    ensures KeyToRecord(h, names, prefix)
  {
    hide KeyPart, BatchName, BatchKey;
    h := map[];
    if names != {} {
      var n :| n in names;
      var g := KeysToRecords(names - {n}, prefix);
      h := g[BatchKey(prefix, n) := KeyPart(n)];
      forall m | m in names ensures BatchKey(prefix, m) in h && h[BatchKey(prefix, m)] == KeyPart(m) {
        BatchKeysAgreeIff(prefix, m, n);
      }
    }
  }

  lemma {:induction false} KeyToRecordSizes(h: map<string, string>, names: set<string>, prefix: string)
    requires KeyToRecord(h, names, prefix)
    ensures h.Keys == KeysOf(names, prefix) && h.Values == RecordsOf(names)
  {
    hide KeyPart, BatchKey;
    forall v | v in RecordsOf(names) ensures v in h.Values {
      var n :| n in names && KeyPart(n) == v;
      assert h[BatchKey(prefix, n)] == v;
    }
    forall v | v in h.Values ensures v in RecordsOf(names) {
      var k :| k in h && h[k] == v;
      var n :| n in names && BatchKey(prefix, n) == k;
      assert v == KeyPart(n);
    }
  }

  lemma {:induction false} OneSpellingIsInjective(h: map<string, string>, names: set<string>, prefix: string)
    requires KeyToRecord(h, names, prefix) && forall n :: n in names ==> BatchName(n)
    ensures Injective(h) <==> OneSpelling(names, prefix)
  {
    hide KeyPart, BatchName, BatchKey, Stem, Vanishes;
    if Injective(h) && !Vanishes(prefix) {
      forall m, n | m in names && n in names && KeyPart(m) == KeyPart(n) ensures Stem(m) == Stem(n) {
        assert h[BatchKey(prefix, m)] == h[BatchKey(prefix, n)];
        BatchKeysAgreeIff(prefix, m, n);
      }
    }
    if OneSpelling(names, prefix) {
      forall x, y | x in h && y in h && h[x] == h[y] ensures x == y {
        var m :| m in names && BatchKey(prefix, m) == x;
        var n :| n in names && BatchKey(prefix, n) == y;
        BatchKeysAgreeIff(prefix, m, n);
      }
    }
  }

  /** So each record is adjusted once if and only if the batch spells its name in one way, up to trailing colons. */
  lemma {:induction false} EachRecordOnceIff(names: set<string>, prefix: string)
    requires forall n :: n in names ==> BatchName(n)
    ensures |KeysOf(names, prefix)| >= |RecordsOf(names)|
    ensures |KeysOf(names, prefix)| == |RecordsOf(names)| <==> OneSpelling(names, prefix)
  {
    hide BatchName, KeyToRecord, OneSpelling, Injective, KeysOf, RecordsOf;
    var h := KeysToRecords(names, prefix);
    KeyToRecordSizes(h, names, prefix);
    OneSpellingIsInjective(h, names, prefix);
    MapSizes(h);
    assert |h| == |h.Keys|;
  }

  /** Over whole runs: a retried batch adjusts each record once if and only if it spells each name in one way. */
  lemma {:induction false} RetriedBatchAppliesEachRecordOnceIff(ops: seq<Op>, names: seq<string>,
                                                                accountIds: map<string, string>, prefix: string,
                                                                delta: int, currency: string, a: string)
    requires delta != 0
    requires var batch := OpSet(BatchOps(names, accountIds, prefix, delta, currency));
             batch <= OpSet(ops) && OwnsItsKeys(ops, batch)
    ensures Known(Adjusted(names, accountIds, delta), accountIds)
    ensures var others := Without(ops, OpSet(BatchOps(names, accountIds, prefix, delta, currency)));
            var on := NamesOn(Adjusted(names, accountIds, delta), accountIds, a);
            Total(Run(EMPTY, ops), a, if delta > 0 then Credit else Spent)
            == Total(Run(EMPTY, others), a, if delta > 0 then Credit else Spent)
               + (if delta > 0 then delta else -delta) * |RecordsOf(on)|
            <==> OneSpelling(on, prefix)
  {
    hide BatchName, Total, Run, Adjusts, KeysOf, RecordsOf, OneSpelling, BatchOps, OwnsItsKeys, Without, OpSet;
    RetriedBatchAppliesEachKeyOnce(ops, names, accountIds, prefix, delta, currency, a);
    var on := NamesOn(Adjusted(names, accountIds, delta), accountIds, a);
    EachRecordOnceIff(on, prefix);
    SameFactor(if delta > 0 then delta else -delta, |KeysOf(on, prefix)|, |RecordsOf(on)|);
  }

  lemma {:induction false} SameFactor(d: int, x: int, y: int)
    requires d > 0
    ensures d * x == d * y <==> x == y
  {
    assert d * x - d * y == d * (x - y);
  }

  /** The names "x" and ":x" of one record are adjusted twice, and both are reported as carried out. */
  lemma {:induction false} PaddedNameIsAdjustedTwice()
    ensures var names, accountIds := ["x", ":x"], map["x" := "a"];
            && Reports(names, accountIds, 5) == [true, true]
            && Total(Run(EMPTY, BatchOps(names, accountIds, "p", 5, "CNY")), "a", Credit) == 10
  {
    hide TrimSpace, KeyPart, Stem, Vanishes, BatchKey, BatchOps, Reports, Total, Run;
    PaddedNames();
    BatchKeysAgreeIff("p", "x", ":x");
    PaddedBatch();
    TwoCredits(BatchKey("p", "x"), BatchKey("p", ":x"));
  }

  lemma {:induction false} PaddedBatch()
    ensures var names, accountIds := ["x", ":x"], map["x" := "a"];
            && Reports(names, accountIds, 5) == [true, true]
            && BatchOps(names, accountIds, "p", 5, "CNY")
               == [Adjust("a", BatchKey("p", "x"), "CNY", 5), Adjust("a", BatchKey("p", ":x"), "CNY", 5)]
  {
    hide TrimSpace, KeyPart, Stem, Vanishes, BatchKey;
    var names, accountIds := ["x", ":x"], map["x" := "a"];
    PaddedNames();
    assert Adjusts("x", accountIds, 5) && Adjusts(":x", accountIds, 5);
    var x, y := Adjust("a", BatchKey("p", "x"), "CNY", 5), Adjust("a", BatchKey("p", ":x"), "CNY", 5);
    assert BatchOp("x", accountIds, "p", 5, "CNY") == [x] && BatchOp(":x", accountIds, "p", 5, "CNY") == [y];
    hide Adjusts, BatchOp;
    assert names[..1] == ["x"] && ["x"][..0] == [];
    assert BatchOps(["x"], accountIds, "p", 5, "CNY") == [x];
    assert BatchOps(names, accountIds, "p", 5, "CNY") == [x] + [y];
    assert Reports(["x"], accountIds, 5) == [true];
    assert Reports(names, accountIds, 5) == [true] + [true];
  }

  lemma {:induction false} TwoCredits(m: string, n: string)
    requires m != n
    ensures Total(Run(EMPTY, [Adjust("a", m, "CNY", 5), Adjust("a", n, "CNY", 5)]), "a", Credit) == 10
  {
    var x, y := Adjust("a", m, "CNY", 5), Adjust("a", n, "CNY", 5);
    Conservation([x, y], "a", Credit);
    hide Total, Run;
    assert [x, y][..1] == [x] && [x][..0] == [];
    assert SumFirst([x], "a", Credit) == 5;
  }

  lemma {:induction false} PaddedNames()
    ensures TrimSpace("x") == "x" && TrimSpace(":x") == ":x" && TrimSpace("a") == "a" && TrimSpace("p") == "p"
    ensures KeyPart("x") == "x" && KeyPart(":x") == "x" && KeyPart("a") == "a"
    ensures Stem("x") == "x" && Stem(":x") == ":x" && !Vanishes("p")
  {
    TrimSpaceKeeps("x");
    TrimSpaceKeeps(":x");
    TrimSpaceKeeps("a");
    TrimSpaceKeeps("p");
    assert ":x"[1..] == "x";
  }

  /** Names under one key name one record, so every batch owns its keys against itself and repeating it is a retry. */
  lemma {:induction false} BatchOwnsItsKeys(names: seq<string>, accountIds: map<string, string>, prefix: string,
                                            delta: int, currency: string)
    ensures var ops := BatchOps(names, accountIds, prefix, delta, currency); OwnsItsKeys(ops, OpSet(ops))
  {
    hide KeyPart, BatchName, BatchKey, Adjusts;
    BatchOpsAreBatchSet(names, accountIds, prefix, delta, currency);
    var s := Adjusted(names, accountIds, delta);
    var ops := BatchOps(names, accountIds, prefix, delta, currency);
    hide BatchOps;
    forall x, y | x in ops && y in ops && KeyOf(x) == KeyOf(y) ensures x == y {
      assert x in OpSet(ops) && y in OpSet(ops);
      var m :| m in s && x == BatchAdjustment(m, accountIds, prefix, delta, currency);
      var n :| n in s && y == BatchAdjustment(n, accountIds, prefix, delta, currency);
      BatchKeysAgreeIff(prefix, m, n);
    }
    forall y | y in OpSet(ops) ensures KeyOf(y) != Unkeyed {
      var n :| n in s && y == BatchAdjustment(n, accountIds, prefix, delta, currency);
    }
  }

  // ---------------------------------------------------------------- the account index

  predicate WellKeyed(op: Op) {
    op.Record? ==> op.key == KeyPart(op.event.id) && op.account == KeyPart(op.event.accountId)
  }

  function EntryOf(e: Event): Entry { Entry(e.occurredAt, e.id) }

  ghost predicate Listed(b: Books, k: string)
    requires k in b.events
  {
    KeyPart(b.events[k].id) == k && EntryOf(b.events[k]) in IndexOf(b, KeyPart(b.events[k].accountId))
  }

  ghost predicate Backed(b: Books, a: string, x: Entry) {
    var k := KeyPart(x.member);
    k in b.events && EntryOf(b.events[k]) == x && KeyPart(b.events[k].accountId) == a
  }

  /** Each account's index is a sorted set holding exactly that account's recorded events at their times. */
  ghost predicate IndexExact(b: Books) {
    && (forall a :: a in b.index ==> Valid(b.index[a]))
    && (forall k :: k in b.events ==> Listed(b, k))
    && (forall a, x :: a in b.index && x in b.index[a] ==> Backed(b, a, x))
  }

  lemma {:induction false} AddEntries(z: seq<Entry>, score: int, member: string)
    requires Valid(z) && forall x :: x in z ==> x.member != member
    ensures Valid(Add(z, score, member))
    ensures forall x :: x in Add(z, score, member) <==> x == Entry(score, member) || x in z
    ensures Add(z, score, member) == Insert(z, Entry(score, member))
  {
    RemoveAbsent(z, member);
    InsertSorted(z, Entry(score, member));
  }

  lemma {:induction false} RemoveAbsent(z: seq<Entry>, member: string)
    requires forall x :: x in z ==> x.member != member
    ensures Remove(z, member) == z
  {
    if z != [] {
      assert z[0] in z;
      RemoveAbsent(z[1..], member);
    }
  }

  lemma {:induction false} StepKeepsIndex(b: Books, op: Op)
    requires IndexExact(b) && WellKeyed(op)
    ensures IndexExact(Step(b, op).0)
  {
    hide KeyPart, Valid, RecordedOn, AdjustedOn, Add, WithCurrency;
    if op.Record? && op.key !in b.events {
      RecordKeepsIndex(b, op);
    } else {
      var c := Step(b, op).0;
      assert c.index == b.index && c.events == b.events;
      forall k | k in c.events ensures Listed(c, k) { assert Listed(b, k); }
      forall a, x | a in c.index && x in c.index[a] ensures Backed(c, a, x) { assert Backed(b, a, x); }
    }
  }

  lemma {:induction false} RecordKeepsIndex(b: Books, op: Op)
    requires IndexExact(b) && WellKeyed(op) && op.Record? && op.key !in b.events
    ensures IndexExact(Step(b, op).0)
  {
    hide KeyPart, Valid, RecordedOn, AdjustedOn, Add;
    EmptyIsValid();
    var z, e, c := IndexOf(b, op.account), op.event, Step(b, op).0;
    forall x | x in z ensures x.member != e.id { assert Backed(b, op.account, x); }
    AddEntries(z, e.occurredAt, e.id);
    forall k | k in c.events ensures Listed(c, k) { if k != op.key { assert Listed(b, k); } }
    forall a, x | a in c.index && x in c.index[a] ensures Backed(c, a, x) {
      if !(a == op.account && x == EntryOf(e)) { assert Backed(b, a, x); }
    }
  }

  lemma {:induction false} EmptyIsValid()
    ensures Valid([])
  {
  }

  lemma {:induction false} RunKeepsIndex(ops: seq<Op>)
    requires forall i :: 0 <= i < |ops| ==> WellKeyed(ops[i])
    ensures IndexExact(Run(EMPTY, ops))
  {
    if ops != [] {
      hide IndexExact, Step;
      RunKeepsIndex(ops[..|ops| - 1]);
      StepKeepsIndex(Run(EMPTY, ops[..|ops| - 1]), ops[|ops| - 1]);
    }
  }

  // ---------------------------------------------------------------- reading events

  function ClampLimit(limit: int): nat { if limit < 0 then 0 else if limit > 10000 then 10000 else limit }

  /** The entries with a score in a closed range, ascending. */
  function Window(z: seq<Entry>, lo: int, hi: int): seq<Entry> {
    if z == [] then [] else (if lo <= z[0].score <= hi then [z[0]] else []) + Window(z[1..], lo, hi)
  }

  lemma {:induction false} WindowContent(z: seq<Entry>, lo: int, hi: int)
    ensures forall x :: x in Window(z, lo, hi) <==> x in z && lo <= x.score <= hi
  {
    if z != [] { WindowContent(z[1..], lo, hi); }
  }

  /** Members from the end of `w` backwards, `limit` of them; zero means all. */
  function Backwards(w: seq<Entry>, limit: nat): (ids: seq<string>)
    ensures |ids| == |LastN(w, limit)|
    ensures forall k :: 0 <= k < |ids| ==> ids[k] == LastN(w, limit)[|ids| - 1 - k].member
  {
    var n := if limit == 0 || |w| <= limit then |w| else limit;
    seq(n, k requires 0 <= k < |w| => w[|w| - 1 - k].member)
  }

  /** ZREVRANGEBYSCORE with an optional count; zero means no count. */
  function NewestFirst(z: seq<Entry>, lo: int, hi: int, limit: nat): seq<string> {
    Backwards(Window(z, lo, hi), limit)
  }

  /** The last `limit` elements; zero means all of them. */
  function LastN<T>(s: seq<T>, limit: nat): seq<T> {
    if limit == 0 || |s| <= limit then s else s[|s| - limit..]
  }

  /** The events behind index entries, unless one is missing. */
  function Fetch(events: map<string, Event>, z: seq<Entry>): Option<seq<Event>> {
    if z == [] then Some([]) else
      var n := |z| - 1;
      var init := Fetch(events, z[..n]);
      if init == None || KeyPart(z[n].member) !in events then None
      else Some(init.value + [events[KeyPart(z[n].member)]])
  }

  lemma {:induction false} FetchOneMore(events: map<string, Event>, z: seq<Entry>, k: nat)
    requires 0 < k <= |z|
    ensures var key := KeyPart(z[k - 1].member);
            var before := Fetch(events, z[..k - 1]);
            before.Some? && key in events ==> Fetch(events, z[..k]) == Some(before.value + [events[key]])
  {
    hide KeyPart;
    assert z[..k][..k - 1] == z[..k - 1];
  }

  lemma {:induction false} FetchFails(events: map<string, Event>, z: seq<Entry>, k: nat)
    requires k < |z| && KeyPart(z[k].member) !in events
    ensures Fetch(events, z) == None
  {
    hide KeyPart;
    if k < |z| - 1 {
      assert z[..|z| - 1][k] == z[k];
      FetchFails(events, z[..|z| - 1], k);
    }
  }

  lemma {:induction false} FetchFinds(events: map<string, Event>, z: seq<Entry>)
    requires forall i :: 0 <= i < |z| ==> KeyPart(z[i].member) in events
    ensures Fetch(events, z).Some? && |Fetch(events, z).value| == |z|
    ensures forall i :: 0 <= i < |z| ==> Fetch(events, z).value[i] == events[KeyPart(z[i].member)]
  {
    hide KeyPart;
    if z != [] {
      var n := |z| - 1;
      FetchFinds(events, z[..n]);
      assert forall i :: 0 <= i < n ==> z[..n][i] == z[i];
    }
  }

  ghost predicate TimeOrdered(es: seq<Event>) {
    forall i, j :: 0 <= i < j < |es| ==> Before(EntryOf(es[i]), EntryOf(es[j])) && es[i].id != es[j].id
  }

  lemma {:induction false} WindowOrdered(z: seq<Entry>, lo: int, hi: int)
    requires Valid(z)
    ensures Valid(Window(z, lo, hi))
  {
    if z != [] {
      WindowOrdered(z[1..], lo, hi);
      WindowContent(z[1..], lo, hi);
      var rest := Window(z[1..], lo, hi);
      forall j | 0 <= j < |rest| ensures Before(z[0], rest[j]) && z[0].member != rest[j].member {
        assert rest[j] in z[1..];
      }
    }
  }

  ghost predicate InWindow(b: Books, a: string, lo: int, hi: int, e: Event) {
    KeyPart(e.id) in b.events && b.events[KeyPart(e.id)] == e && KeyPart(e.accountId) == a && lo <= e.occurredAt <= hi
  }

  lemma {:induction false} WindowHas(b: Books, a: string, lo: int, hi: int, e: Event)
    requires IndexExact(b) && InWindow(b, a, lo, hi, e)
    ensures EntryOf(e) in Window(IndexOf(b, a), lo, hi)
  {
    hide KeyPart, Window, Valid, Backed;
    WindowContent(IndexOf(b, a), lo, hi);
    assert Listed(b, KeyPart(e.id));
  }

  lemma {:induction false} WindowEntryIs(b: Books, a: string, lo: int, hi: int, x: Entry)
    requires IndexExact(b) && x in Window(IndexOf(b, a), lo, hi)
    ensures var k := KeyPart(x.member);
            k in b.events && EntryOf(b.events[k]) == x && InWindow(b, a, lo, hi, b.events[k])
  {
    hide KeyPart, Window, Valid, Listed;
    WindowContent(IndexOf(b, a), lo, hi);
    WindowBacked(b, a, lo, hi);
  }

  /** An unlimited read returns exactly the account's recorded events of the window, each once, oldest first. */
  lemma {:induction false} WindowIsAccountEvents(b: Books, a: string, lo: int, hi: int)
    requires IndexExact(b)
    ensures var es := Fetch(b.events, Window(IndexOf(b, a), lo, hi));
            && es.Some? && TimeOrdered(es.value)
            && forall e :: e in es.value <==> InWindow(b, a, lo, hi, e)
  {
    hide KeyPart, Window, Before, Fetch, InWindow, IndexExact;
    var w := Window(IndexOf(b, a), lo, hi);
    forall i | 0 <= i < |w|
      ensures var k := KeyPart(w[i].member);
              k in b.events && EntryOf(b.events[k]) == w[i] && InWindow(b, a, lo, hi, b.events[k])
    {
      WindowEntryIs(b, a, lo, hi, w[i]);
    }
    FetchFinds(b.events, w);
    var es := Fetch(b.events, w).value;
    forall e | InWindow(b, a, lo, hi, e) ensures e in es {
      WindowHas(b, a, lo, hi, e);
      var i :| 0 <= i < |w| && w[i] == EntryOf(e);
      EventOfEntry(b, a, lo, hi, e);
      assert es[i] == e;
    }
    IndexIsValid(b, a);
    WindowOrdered(IndexOf(b, a), lo, hi);
    assert forall i :: 0 <= i < |w| ==> EntryOf(es[i]) == w[i];
  }

  lemma {:induction false} EventOfEntry(b: Books, a: string, lo: int, hi: int, e: Event)
    requires InWindow(b, a, lo, hi, e)
    ensures KeyPart(EntryOf(e).member) in b.events && b.events[KeyPart(EntryOf(e).member)] == e
  {
    hide KeyPart;
  }

  lemma {:induction false} IndexIsValid(b: Books, a: string)
    requires IndexExact(b)
    ensures Valid(IndexOf(b, a))
  {
    hide Listed, Backed, Before;
  }

  lemma {:induction false} WindowBacked(b: Books, a: string, lo: int, hi: int)
    requires IndexExact(b)
    ensures forall x :: x in Window(IndexOf(b, a), lo, hi) ==> Backed(b, a, x)
  {
    hide Backed, Listed, Valid;
    WindowContent(IndexOf(b, a), lo, hi);
  }

  lemma {:induction false} LimitedRead(b: Books, a: string, lo: int, hi: int, n: nat)
    requires IndexExact(b)
    ensures var all := Fetch(b.events, Window(IndexOf(b, a), lo, hi));
            all.Some? && Fetch(b.events, LastN(Window(IndexOf(b, a), lo, hi), n)) == Some(LastN(all.value, n))
  {
    hide KeyPart, IndexExact;
    var w := Window(IndexOf(b, a), lo, hi);
    WindowBacked(b, a, lo, hi);
    forall i | 0 <= i < |w| ensures KeyPart(w[i].member) in b.events { assert w[i] in w && Backed(b, a, w[i]); }
    FetchFinds(b.events, w);
    FetchFinds(b.events, LastN(w, n));
    assert Fetch(b.events, LastN(w, n)).value == LastN(Fetch(b.events, w).value, n);
  }

  /** So many events a read returns of `n`: all without a limit, else at most the limit and at most ten thousand. */
  function ReadSize(n: nat, limit: int): nat {
    if limit <= 0 || (n <= limit && n <= 10000) then n else if limit < 10000 then limit else 10000
  }

  /** A limited read is the newest part of the unlimited one, in the same order. */
  lemma {:induction false} LimitedReadIsNewest(b: Books, a: string, lo: int, hi: int, limit: int)
    requires IndexExact(b)
    ensures var all := Fetch(b.events, Window(IndexOf(b, a), lo, hi));
            && all.Some?
            && Fetch(b.events, LastN(Window(IndexOf(b, a), lo, hi), ClampLimit(limit)))
               == Some(all.value[|all.value| - ReadSize(|all.value|, limit)..])
  {
    hide Fetch, Window, IndexExact;
    LimitedRead(b, a, lo, hi, ClampLimit(limit));
  }

  // ---------------------------------------------------------------- spent against events

  function SumAmounts(es: seq<Event>): int { if es == [] then 0 else SumAmounts(es[..|es| - 1]) + es[|es| - 1].amount }

  /** The sum of the debits that came first under their key. */
  ghost function Debits(ops: seq<Op>, a: string): int {
    if ops == [] then 0 else
      var n := |ops| - 1;
      Debits(ops[..n], a)
      + (if ops[n].Adjust? && ops[n].delta <= 0 && ops[n].account == a && !Used(ops[..n], ops[n])
         then -ops[n].delta else 0)
  }

  ghost function AmountsOf(events: map<string, Event>, z: seq<Entry>): int {
    if z == [] then 0
    else (if KeyPart(z[0].member) in events then events[KeyPart(z[0].member)].amount else 0) + AmountsOf(events, z[1..])
  }

  lemma {:induction false} InsertAddsAmount(events: map<string, Event>, z: seq<Entry>, x: Entry)
    ensures AmountsOf(events, Insert(z, x)) == AmountsOf(events, z) + AmountsOf(events, [x])
  {
    hide KeyPart;
    if z == [] || Before(x, z[0]) {
      assert ([x] + z)[1..] == z;
    } else {
      assert Insert(z, x)[1..] == Insert(z[1..], x);
      InsertAddsAmount(events, z[1..], x);
    }
  }

  lemma {:induction false} NewEventKeepsAmounts(events: map<string, Event>, z: seq<Entry>, key: string, e: Event)
    requires forall x :: x in z ==> KeyPart(x.member) != key
    ensures AmountsOf(events[key := e], z) == AmountsOf(events, z)
  {
    hide KeyPart;
    if z != [] {
      assert z[0] in z;
      NewEventKeepsAmounts(events, z[1..], key, e);
    }
  }

  lemma {:induction false} RecordAddsAmount(b: Books, op: Op, a: string)
    requires IndexExact(b) && WellKeyed(op)
    ensures var c := Step(b, op).0;
            AmountsOf(c.events, IndexOf(c, a))
            == AmountsOf(b.events, IndexOf(b, a))
               + (if op.Record? && op.account == a && Step(b, op).1 then op.event.amount else 0)
  {
    hide KeyPart, Valid, RecordedOn, AdjustedOn, WithCurrency, Add;
    if op.Record? && op.key !in b.events {
      EmptyIsValid();
      var z, e := IndexOf(b, a), op.event;
      forall x | x in z ensures KeyPart(x.member) != op.key { assert Backed(b, a, x); }
      NewEventKeepsAmounts(b.events, z, op.key, e);
      if op.account == a {
        AddEntries(z, e.occurredAt, e.id);
        InsertAddsAmount(b.events[op.key := e], z, EntryOf(e));
        assert [EntryOf(e)][1..] == [];
      }
    }
  }

  lemma {:induction false} SpentIsIndexPlusDebits(ops: seq<Op>, a: string)
    requires forall i :: 0 <= i < |ops| ==> WellKeyed(ops[i])
    ensures Total(Run(EMPTY, ops), a, Spent)
         == AmountsOf(Run(EMPTY, ops).events, IndexOf(Run(EMPTY, ops), a)) + Debits(ops, a)
  {
    if ops != [] {
      hide IndexExact, WellKeyed, Step, Total, AmountsOf, IndexOf;
      var n := |ops| - 1;
      var b := Run(EMPTY, ops[..n]);
      SpentIsIndexPlusDebits(ops[..n], a);
      RunKeepsIndex(ops[..n]);
      RecordAddsAmount(b, ops[n], a);
      StepEffect(b, ops[n], a, Spent);
      SeenIffUsed(ops[..n], ops[n]);
      AppliedIffUnseen(b, ops[n]);
    } else {
      EmptyBooks(a);
    }
  }

  lemma {:induction false} EmptyBooks(a: string)
    ensures Total(EMPTY, a, Spent) == 0 && AmountsOf(EMPTY.events, IndexOf(EMPTY, a)) == 0
  {
  }

  lemma {:induction false} AmountsOfLast(events: map<string, Event>, z: seq<Entry>)
    requires z != [] && KeyPart(z[|z| - 1].member) in events
    ensures AmountsOf(events, z) == AmountsOf(events, z[..|z| - 1]) + events[KeyPart(z[|z| - 1].member)].amount
  {
    hide KeyPart;
    if |z| == 1 {
      assert z[1..] == [] && z[..0] == [];
    } else {
      var n := |z| - 1;
      AmountsOfLast(events, z[1..]);
      assert z[1..][..n - 1] == z[..n][1..];
    }
  }

  lemma {:induction false} FetchedAmounts(events: map<string, Event>, z: seq<Entry>)
    requires Fetch(events, z).Some?
    ensures SumAmounts(Fetch(events, z).value) == AmountsOf(events, z)
  {
    hide KeyPart;
    if z != [] {
      var n := |z| - 1;
      FetchedAmounts(events, z[..n]);
      AmountsOfLast(events, z);
      var es := Fetch(events, z).value;
      assert es[..|es| - 1] == Fetch(events, z[..n]).value;
    }
  }

  lemma {:induction false} WholeWindow(z: seq<Entry>, lo: int, hi: int)
    requires forall x :: x in z ==> lo <= x.score <= hi
    ensures Window(z, lo, hi) == z
  {
    if z != [] {
      assert z[0] in z;
      WholeWindow(z[1..], lo, hi);
    }
  }

  /** Spent is the sum of all the account's recorded events plus its applied debits. */
  lemma {:induction false} SpentIsEventsPlusDebits(ops: seq<Op>, a: string, lo: int, hi: int)
    requires forall i :: 0 <= i < |ops| ==> WellKeyed(ops[i])
    requires forall x :: x in IndexOf(Run(EMPTY, ops), a) ==> lo <= x.score <= hi
    ensures var b := Run(EMPTY, ops);
            var es := Fetch(b.events, Window(IndexOf(b, a), lo, hi));
            es.Some? && Total(b, a, Spent) == SumAmounts(es.value) + Debits(ops, a)
  {
    hide KeyPart, Step, Total;
    var b := Run(EMPTY, ops);
    RunKeepsIndex(ops);
    WindowIsAccountEvents(b, a, lo, hi);
    WholeWindow(IndexOf(b, a), lo, hi);
    FetchedAmounts(b.events, IndexOf(b, a));
    SpentIsIndexPlusDebits(ops, a);
  }
}
