/**
  The streaming translator from Claude message events to chat-completion chunks (`claudeSSEToChatState` in
  `onr-core/pkg/apitransform/claude_sse_to_openai_chat.go`), and the non-stream usage mapping of `claude_openai.go`
  that its incremental usage must agree with. Events arrive with their JSON decoded.
 */
module ClaudeToChat {
  import opened Text
  import opened Options

  datatype Iteration = Iteration(kind: string, model: string, input: int, output: int, cacheWrite: int, cacheRead: int)

  /** One usage report of the provider. */
  datatype Counters = Counters(input: int, output: int, cacheWrite: int, cacheRead: int, iterations: seq<Iteration>)

  datatype Details = Details(cached: int, cacheWrite: int)

  datatype ModelUsage = ModelUsage(kind: string, model: string, prompt: int, completion: int, total: int,
                                   details: Option<Details>)

  datatype Usage = Usage(prompt: int, completion: int, total: int, details: Option<Details>,
                         iterations: seq<ModelUsage>)

  datatype Block = Block(kind: string, id: string, name: string)

  datatype Delta = Delta(kind: string, text: string, partialJson: string, stopReason: string)

  /** `start` is the start message, if there is one: its usage report, if any. */
  datatype Message = Message(kind: string, start: Option<Option<Counters>>, index: int, block: Option<Block>,
                             delta: Option<Delta>, usage: Option<Counters>)

  datatype Event = Event(name: string, message: Option<Message>)

  datatype Chunk =
    | Role
    | Content(index: int, text: string)
    | ToolStart(index: int, id: string, name: string)
    | ToolArgs(index: int, id: string, args: string)
    | Finish(reason: string)
    | UsageChunk(usage: Usage)
    | Done

  datatype State = State(roleSent: bool, doneSent: bool, tools: map<int, Block>, usage: Option<Usage>, out: seq<Chunk>)

  const INIT := State(false, false, map[], None, [])
  const NO_USAGE := Usage(0, 0, 0, None, [])
  const ZERO := Counters(0, 0, 0, 0, [])

  // ---------------------------------------------------------------- usage

  function MapIteration(i: Iteration): ModelUsage {
    var prompt := i.input + i.cacheWrite + i.cacheRead;
    ModelUsage(i.kind, i.model, prompt, i.output, prompt + i.output,
               if i.cacheRead > 0 || i.cacheWrite > 0 then Some(Details(i.cacheRead, i.cacheWrite)) else None)
  }

  function MapIterations(items: seq<Iteration>): seq<ModelUsage> {
    if items == [] then [] else [MapIteration(items[0])] + MapIterations(items[1..])
  }

  /** Each model's usage keeps its kind and model; cache tokens count as prompt tokens and appear in the details. */
  lemma {:induction false} IterationsMeaning(items: seq<Iteration>, i: nat)
    requires i < |items|
    ensures |MapIterations(items)| == |items|
    ensures var it, u := items[i], MapIterations(items)[i];
            && u.kind == it.kind && u.model == it.model && u.completion == it.output
            && u.prompt - it.cacheRead - it.cacheWrite == it.input && u.total - u.prompt == it.output
            && (u.details == None <==> it.cacheRead <= 0 && it.cacheWrite <= 0)
            && (u.details.Some? ==>
                  u.details.value.cached == it.cacheRead && u.details.value.cacheWrite == it.cacheWrite)
  {
    if i > 0 {
      IterationsMeaning(items[1..], i - 1);
    } else if |items| > 1 {
      IterationsMeaning(items[1..], 0);
    }
  }

  /** The non-stream mapping of final counters. */
  function MapUsage(c: Counters): Usage {
    var prompt := c.input + c.cacheWrite + c.cacheRead;
    Usage(prompt, c.output, prompt + c.output,
          if c.cacheRead > 0 || c.cacheWrite > 0 then Some(Details(c.cacheRead, c.cacheWrite)) else None,
          MapIterations(c.iterations))
  }

  function DetailsOf(u: Usage): Details { if u.details.Some? then u.details.value else Details(0, 0) }

  /** The incremental merge of one report, branch by branch as the stream does it. */
  function Merge(u: Usage, r: Counters): Usage {
    var a := if r.input > 0 then u.(prompt := r.input) else u;
    var b := if r.output > 0 then a.(completion := r.output) else a;
    var c := if r.cacheRead > 0
             then b.(details := Some(DetailsOf(b).(cached := r.cacheRead)), prompt := b.prompt + r.cacheRead) else b;
    var d := if r.cacheWrite > 0
             then c.(details := Some(DetailsOf(c).(cacheWrite := r.cacheWrite)), prompt := c.prompt + r.cacheWrite)
             else c;
    if r.iterations != [] then d.(iterations := MapIterations(r.iterations)) else d
  }

  function LatestOf(before: int, reported: int): int { if reported > 0 then reported else before }

  /** The final counters: for each counter, the last report that carried it. */
  function Latest(f: Counters, r: Counters): Counters {
    Counters(LatestOf(f.input, r.input), LatestOf(f.output, r.output), LatestOf(f.cacheWrite, r.cacheWrite),
             LatestOf(f.cacheRead, r.cacheRead), if r.iterations != [] then r.iterations else f.iterations)
  }

  predicate NonNegative(c: Counters) { c.input >= 0 && c.output >= 0 && c.cacheWrite >= 0 && c.cacheRead >= 0 }

  /** A report with input tokens repeats every cache counter seen so far; one without repeats none of them. */
  predicate Mergeable(f: Counters, r: Counters) {
    if r.input > 0 then (f.cacheRead > 0 ==> r.cacheRead > 0) && (f.cacheWrite > 0 ==> r.cacheWrite > 0)
    else !(f.cacheRead > 0 && r.cacheRead > 0) && !(f.cacheWrite > 0 && r.cacheWrite > 0)
  }

  /** Zero on the prompt side, or a cumulative snapshot with input tokens. */
  predicate Cumulative(f: Counters, r: Counters) {
    (r.input == 0 && r.cacheRead == 0 && r.cacheWrite == 0)
    || (r.input > 0 && r.cacheRead >= f.cacheRead && r.cacheWrite >= f.cacheWrite)
  }

  /** The streamed usage that agrees with counters `f`; its total is filled in when it is sent. */
  function Streamed(f: Counters): Usage { MapUsage(f).(total := 0) }

  /** Merging a report keeps the streamed usage equal to the non-stream mapping exactly for mergeable reports. */
  lemma {:induction false} MergeAgreesIff(f: Counters, r: Counters)
    requires NonNegative(f) && NonNegative(r)
    ensures Merge(Streamed(f), r) == Streamed(Latest(f, r)) <==> Mergeable(f, r)
    ensures NonNegative(Latest(f, r))
  {
    hide MapIterations;
  }

  lemma {:induction false} CumulativeIsMergeable(f: Counters, r: Counters)
    requires NonNegative(f) && NonNegative(r) && Cumulative(f, r)
    ensures Mergeable(f, r)
  {
  }

  /** The condition is needed: repeating a cache counter without input tokens counts it twice. */
  lemma {:induction false} RepeatedCacheReadCountsTwice()
    ensures var f, r := Counters(10, 0, 0, 5, []), Counters(0, 1, 0, 5, []);
            Merge(Streamed(f), r).prompt == 20 && MapUsage(Latest(f, r)).prompt == 15
  {
  }

  // ---------------------------------------------------------------- steps

  function Emit(s: State, c: Chunk): State { s.(out := s.out + [c]) }

  function EmitRole(s: State): State { if s.roleSent then s else Emit(s.(roleSent := true), Role) }

  function MergeReport(s: State, r: Option<Counters>): State {
    if r == None then s else s.(usage := Some(Merge(if s.usage.Some? then s.usage.value else NO_USAGE, r.value)))
  }

  function UsageToSend(s: State): Option<Usage> {
    if s.usage == None then None else
      var u := s.usage.value;
      if u.total > 0 then Some(u)
      else if u.prompt <= 0 && u.completion <= 0 then None
      else Some(u.(total := u.prompt + u.completion))
  }

  function EmitDone(s: State): State {
    if s.doneSent then s else
      var t := s.(doneSent := true);
      match UsageToSend(s)
      case None => Emit(t, Done)
      case Some(u) => Emit(Emit(t.(usage := None), UsageChunk(u)), Done)
  }

  function MapStop(stop: string): string {
    if stop == "max_tokens" then "length" else if stop == "tool_use" then "tool_calls"
    else if stop == "stop_sequence" then "content_filter" else "stop"
  }

  function BlockStart(s: State, m: Message): State {
    if m.block == None || TrimSpace(m.block.value.kind) != "tool_use" then s else
      var t := EmitRole(s);
      var name := TrimSpace(m.block.value.name);
      if name == "" then t
      else Emit(t.(tools := t.tools[m.index := m.block.value]), ToolStart(m.index, TrimSpace(m.block.value.id), name))
  }

  function ToolId(tools: map<int, Block>, index: int): string {
    if index in tools then TrimSpace(tools[index].id) else ""
  }

  function BlockDelta(s: State, m: Message): State {
    if m.delta == None then s else
      var t, d := EmitRole(s), m.delta.value;
      if TrimSpace(d.kind) == "text_delta" then
        (if TrimSpace(d.text) == "" then t else Emit(t, Content(m.index, d.text)))
      else if TrimSpace(d.kind) == "input_json_delta" then
        (if d.partialJson == "" then t else Emit(t, ToolArgs(m.index, ToolId(t.tools, m.index), d.partialJson)))
      else t
  }

  function MessageDelta(s: State, m: Message): State {
    var t := MergeReport(s, m.usage);
    if m.delta == None || TrimSpace(m.delta.value.stopReason) == "" then t
    else Emit(t, Finish(MapStop(TrimSpace(m.delta.value.stopReason))))
  }

  datatype Kind = MessageStart | ContentBlockStart | ContentBlockDelta | MessageDeltaKind | MessageStop | Ignored

  function KindOf(ev: Event): Kind {
    if ev.message == None then Ignored else
      var name := if ev.name == "" then Lower(TrimSpace(ev.message.value.kind)) else Lower(ev.name);
      if name == "message_start" then MessageStart
      else if name == "content_block_start" then ContentBlockStart
      else if name == "content_block_delta" then ContentBlockDelta
      else if name == "message_delta" then MessageDeltaKind
      else if name == "message_stop" then MessageStop
      else Ignored
  }

  function Handle(s: State, ev: Event): State {
    if ev.message == None then s else
    var m := ev.message.value;
    match KindOf(ev)
    case MessageStart => if m.start == None then s else EmitRole(MergeReport(s, m.start.value))
    case ContentBlockStart => BlockStart(s, m)
    case ContentBlockDelta => BlockDelta(s, m)
    case MessageDeltaKind => MessageDelta(s, m)
    case MessageStop => EmitDone(s)
    case Ignored => s
  }

  function Run(events: seq<Event>): State {
    if events == [] then INIT else Handle(Run(events[..|events| - 1]), events[|events| - 1])
  }

  // ---------------------------------------------------------------- the translator object

  class Translator {
    var roleSent: bool
    var doneSent: bool
    var tools: map<int, Block>
    var usage: Option<Usage>
    var out: seq<Chunk>

    ghost function View(): State reads this { State(roleSent, doneSent, tools, usage, out) }

    constructor ()
      ensures View() == INIT
    {
      roleSent, doneSent, tools, usage, out := false, false, map[], None, [];
    }

    method SendRole()
      modifies this
      ensures View() == EmitRole(old(View()))
    {
      if roleSent { return; }
      roleSent := true;
      out := out + [Role];
    }

    method MergeUsage(r: Option<Counters>)
      modifies this`usage
      ensures View() == MergeReport(old(View()), r)
    {
      hide MapIterations;
      if r == None { return; }
      var raw, u := r.value, if usage.Some? then usage.value else NO_USAGE;
      if raw.input > 0 { u := u.(prompt := raw.input); }
      if raw.output > 0 { u := u.(completion := raw.output); }
      if raw.cacheRead > 0 {
        if u.details == None { u := u.(details := Some(Details(0, 0))); }
        u := u.(details := Some(u.details.value.(cached := raw.cacheRead)));
        u := u.(prompt := u.prompt + raw.cacheRead);
      }
      if raw.cacheWrite > 0 {
        if u.details == None { u := u.(details := Some(Details(0, 0))); }
        u := u.(details := Some(u.details.value.(cacheWrite := raw.cacheWrite)));
        u := u.(prompt := u.prompt + raw.cacheWrite);
      }
      if |raw.iterations| > 0 { u := u.(iterations := MapIterations(raw.iterations)); }
      usage := Some(u);
    }

    method SendDone()
      modifies this
      ensures View() == EmitDone(old(View()))
    {
      if doneSent { return; }
      doneSent := true;
      if usage.Some? {
        var u := usage.value;
        if u.total > 0 || u.prompt > 0 || u.completion > 0 {
          if u.total <= 0 { u := u.(total := u.prompt + u.completion); }
          usage := None;
          out := out + [UsageChunk(u)];
        }
      }
      out := out + [Done];
    }

    method HandleEvent(ev: Event)
      modifies this
      ensures View() == Handle(old(View()), ev)
    {
      hide TrimSpace, Merge, KindOf, UsageToSend;
      if ev.message == None { return; }
      var m := ev.message.value;
      match KindOf(ev)
      case MessageStart =>
        if m.start == None { return; }
        MergeUsage(m.start.value);
        SendRole();
      case ContentBlockStart =>
        if m.block == None || TrimSpace(m.block.value.kind) != "tool_use" { return; }
        SendRole();
        var name := TrimSpace(m.block.value.name);
        if name == "" { return; }
        tools := tools[m.index := m.block.value];
        out := out + [ToolStart(m.index, TrimSpace(m.block.value.id), name)];
      case ContentBlockDelta =>
        if m.delta == None { return; }
        SendRole();
        var d := m.delta.value;
        if TrimSpace(d.kind) == "text_delta" {
          if TrimSpace(d.text) == "" { return; }
          out := out + [Content(m.index, d.text)];
        } else if TrimSpace(d.kind) == "input_json_delta" {
          if d.partialJson == "" { return; }
          out := out + [ToolArgs(m.index, ToolId(tools, m.index), d.partialJson)];
        }
      case MessageDeltaKind =>
        MergeUsage(m.usage);
        if m.delta == None || TrimSpace(m.delta.value.stopReason) == "" { return; }
        out := out + [Finish(MapStop(TrimSpace(m.delta.value.stopReason)))];
      case MessageStop => SendDone();
      case Ignored =>
    }
  }

  /** The whole translation; the end of input closes the stream if no stop event did. */
  method Transform(events: seq<Event>) returns (out: seq<Chunk>)
    ensures out == EmitDone(Run(events)).out
  {
    hide Handle, EmitDone;
    var t := new Translator();
    var i := 0;
    while i < |events|
      invariant 0 <= i <= |events| && t.View() == Run(events[..i])
    {
      assert events[..i + 1][..i] == events[..i];
      t.HandleEvent(events[i]);
      i := i + 1;
    }
    assert events[..i] == events;
    t.SendDone();
    out := t.out;
  }

  // ---------------------------------------------------------------- role, [DONE] and usage chunk

  predicate NeedsRole(c: Chunk) { c.Content? || c.ToolStart? || c.ToolArgs? }

  function Count(out: seq<Chunk>, p: Chunk -> bool): nat {
    if out == [] then 0 else Count(out[..|out| - 1], p) + (if p(out[|out| - 1]) then 1 else 0)
  }

  predicate IsRole(c: Chunk) { c.Role? }
  predicate IsDone(c: Chunk) { c.Done? }
  predicate IsUsage(c: Chunk) { c.UsageChunk? }

  ghost predicate HasRole(out: seq<Chunk>) { exists j :: 0 <= j < |out| && out[j].Role? }

  ghost predicate RoleFirst(out: seq<Chunk>) { forall i :: 0 <= i < |out| && NeedsRole(out[i]) ==> HasRole(out[..i]) }

  predicate UsageThenDone(out: seq<Chunk>) {
    forall i :: 0 <= i < |out| && out[i].UsageChunk? ==> i + 1 < |out| && out[i + 1].Done?
  }

  ghost predicate Shaped(s: State) {
    && Count(s.out, IsRole) == (if s.roleSent then 1 else 0)
    && Count(s.out, IsDone) == (if s.doneSent then 1 else 0)
    && Count(s.out, IsUsage) <= (if s.doneSent then 1 else 0)
    && RoleFirst(s.out) && (s.roleSent ==> HasRole(s.out)) && UsageThenDone(s.out)
  }

  lemma {:induction false} CountStep(out: seq<Chunk>, c: Chunk, p: Chunk -> bool)
    ensures Count(out + [c], p) == Count(out, p) + (if p(c) then 1 else 0)
  {
    assert (out + [c])[..|out|] == out;
  }

  lemma {:induction false} CountsStep(out: seq<Chunk>, c: Chunk)
    ensures Count(out + [c], IsRole) == Count(out, IsRole) + (if c.Role? then 1 else 0)
    ensures Count(out + [c], IsDone) == Count(out, IsDone) + (if c.Done? then 1 else 0)
    ensures Count(out + [c], IsUsage) == Count(out, IsUsage) + (if c.UsageChunk? then 1 else 0)
  {
    CountStep(out, c, IsRole);
    CountStep(out, c, IsDone);
    CountStep(out, c, IsUsage);
  }

  lemma {:induction false} OrderStep(out: seq<Chunk>, c: Chunk)
    requires RoleFirst(out) && (NeedsRole(c) ==> HasRole(out))
    ensures RoleFirst(out + [c]) && (HasRole(out) || c.Role? ==> HasRole(out + [c]))
  {
    var t := out + [c];
    assert t[|out|] == c;
    if HasRole(out) {
      var j :| 0 <= j < |out| && out[j].Role?;
      assert t[j].Role?;
    }
    forall i | 0 <= i < |t| && NeedsRole(t[i]) ensures HasRole(t[..i]) {
      assert t[..i] == if i < |out| then out[..i] else out;
    }
  }

  lemma {:induction false} UsageStep(out: seq<Chunk>, c: Chunk)
    requires UsageThenDone(out) && !c.UsageChunk?
    ensures UsageThenDone(out + [c])
  {
  }

  /** Appending a chunk that is neither usage nor [DONE], once its role requirement is met. */
  lemma {:induction false} EmitKeepsShape(s: State, c: Chunk)
    requires Shaped(s) && !c.Role? && !c.UsageChunk? && !c.Done? && (NeedsRole(c) ==> s.roleSent)
    ensures Shaped(Emit(s, c))
  {
    hide Count, HasRole, RoleFirst, UsageThenDone;
    CountsStep(s.out, c);
    OrderStep(s.out, c);
    UsageStep(s.out, c);
  }

  lemma {:induction false} RoleKeepsShape(s: State)
    requires Shaped(s)
    ensures Shaped(EmitRole(s)) && EmitRole(s).roleSent
  {
    hide Count, HasRole, RoleFirst, UsageThenDone;
    if !s.roleSent {
      CountsStep(s.out, Role);
      OrderStep(s.out, Role);
      UsageStep(s.out, Role);
    }
  }

  lemma {:induction false} DoneKeepsShape(s: State)
    requires Shaped(s)
    ensures Shaped(EmitDone(s)) && EmitDone(s).doneSent
  {
    hide Count, HasRole, RoleFirst, UsageThenDone, UsageToSend;
    if !s.doneSent {
      if UsageToSend(s).Some? {
        var u := UsageChunk(UsageToSend(s).value);
        CountsStep(s.out, u);
        OrderStep(s.out, u);
        CountsStep(s.out + [u], Done);
        OrderStep(s.out + [u], Done);
        ClosingUsage(s.out, u);
      } else {
        CountsStep(s.out, Done);
        OrderStep(s.out, Done);
        UsageStep(s.out, Done);
      }
    }
  }

  lemma {:induction false} ClosingUsage(out: seq<Chunk>, u: Chunk)
    requires UsageThenDone(out)
    ensures UsageThenDone(out + [u] + [Done])
  {
  }

  lemma {:induction false} CopyKeepsShape(s: State, t: State)
    requires Shaped(s) && t.out == s.out && t.roleSent == s.roleSent && t.doneSent == s.doneSent
    ensures Shaped(t)
  {
  }

  lemma {:induction false} BlockStartKeepsShape(s: State, m: Message)
    requires Shaped(s)
    ensures Shaped(BlockStart(s, m))
  {
    hide Shaped, TrimSpace;
    if m.block.Some? {
      RoleKeepsShape(s);
      var t := EmitRole(s);
      var u := t.(tools := t.tools[m.index := m.block.value]);
      CopyKeepsShape(t, u);
      EmitKeepsShape(u, ToolStart(m.index, TrimSpace(m.block.value.id), TrimSpace(m.block.value.name)));
    }
  }

  lemma {:induction false} BlockDeltaKeepsShape(s: State, m: Message)
    requires Shaped(s)
    ensures Shaped(BlockDelta(s, m))
  {
    hide Shaped, TrimSpace;
    if m.delta.Some? {
      RoleKeepsShape(s);
      var t := EmitRole(s);
      EmitKeepsShape(t, Content(m.index, m.delta.value.text));
      EmitKeepsShape(t, ToolArgs(m.index, ToolId(t.tools, m.index), m.delta.value.partialJson));
    }
  }

  lemma {:induction false} MessageDeltaKeepsShape(s: State, m: Message)
    requires Shaped(s)
    ensures Shaped(MessageDelta(s, m))
  {
    hide Shaped, TrimSpace, MapStop, Merge;
    var u := MergeReport(s, m.usage);
    CopyKeepsShape(s, u);
    if m.delta.Some? { EmitKeepsShape(u, Finish(MapStop(TrimSpace(m.delta.value.stopReason)))); }
  }

  lemma {:induction false} HandleKeepsShape(s: State, ev: Event)
    requires Shaped(s)
    ensures Shaped(Handle(s, ev))
  {
    hide Shaped, KindOf, BlockStart, BlockDelta, MessageDelta, EmitDone, Merge, EmitRole;
    if ev.message.Some? {
      var m := ev.message.value;
      BlockStartKeepsShape(s, m);
      BlockDeltaKeepsShape(s, m);
      MessageDeltaKeepsShape(s, m);
      DoneKeepsShape(s);
      if m.start.Some? {
        CopyKeepsShape(s, MergeReport(s, m.start.value));
        RoleKeepsShape(MergeReport(s, m.start.value));
      }
    }
  }

  lemma {:induction false} RunIsShaped(events: seq<Event>)
    ensures Shaped(Run(events))
  {
    hide Handle;
    if events == [] {
      assert Count([], IsRole) == 0;
    } else {
      RunIsShaped(events[..|events| - 1]);
      HandleKeepsShape(Run(events[..|events| - 1]), events[|events| - 1]);
    }
  }

  /** Every event sequence: one role chunk at most, before content and tools; one [DONE], right after any usage. */
  lemma {:induction false} StreamShape(events: seq<Event>)
    ensures var out := EmitDone(Run(events)).out;
            && Count(out, IsRole) <= 1 && Count(out, IsDone) == 1 && Count(out, IsUsage) <= 1
            && (forall i :: 0 <= i < |out| && NeedsRole(out[i]) ==> HasRole(out[..i]))
            && (forall i :: 0 <= i < |out| && out[i].UsageChunk? ==> i + 1 < |out| && out[i + 1].Done?)
  {
    RunIsShaped(events);
    DoneKeepsShape(Run(events));
    hide Count, EmitDone, HasRole;
  }

  /** The event makes the stream announce its role: a start message, a tool block or any block delta. */
  predicate WantsRole(ev: Event) {
    ev.message.Some? &&
    var m := ev.message.value;
    || (KindOf(ev) == MessageStart && m.start.Some?)
    || (KindOf(ev) == ContentBlockStart && m.block.Some? && TrimSpace(m.block.value.kind) == "tool_use")
    || (KindOf(ev) == ContentBlockDelta && m.delta.Some?)
  }

  lemma {:induction false} HandleRole(s: State, ev: Event)
    ensures Handle(s, ev).roleSent <==> s.roleSent || WantsRole(ev)
  {
    hide TrimSpace, KindOf, Merge, MapStop, UsageToSend;
  }

  /** The role is announced as soon as an event wants it, and not before. */
  lemma {:induction false} RoleIsSentIff(events: seq<Event>)
    ensures Run(events).roleSent <==> exists i :: 0 <= i < |events| && WantsRole(events[i])
    ensures Run(events).roleSent <==> HasRole(Run(events).out)
  {
    hide Handle, WantsRole;
    RunIsShaped(events);
    RoleFlag(Run(events));
    if events != [] {
      var n := |events| - 1;
      RoleIsSentIff(events[..n]);
      HandleRole(Run(events[..n]), events[n]);
      assert forall i :: 0 <= i < n ==> events[..n][i] == events[i];
    }
  }

  lemma {:induction false} RoleFlag(s: State)
    requires Shaped(s)
    ensures s.roleSent <==> HasRole(s.out)
  {
    if HasRole(s.out) {
      var j :| 0 <= j < |s.out| && s.out[j].Role?;
      RoleCounts(s.out, j);
    }
  }

  lemma {:induction false} RoleCounts(out: seq<Chunk>, j: nat)
    requires j < |out| && out[j].Role?
    ensures Count(out, IsRole) > 0
  {
    if j < |out| - 1 { RoleCounts(out[..|out| - 1], j); }
  }

  // ---------------------------------------------------------------- content

  /** What the chunks carry: text, tool calls, their arguments and stop reasons. */
  datatype Fragment =
    | Text(index: int, text: string)
    | Call(index: int, id: string, name: string)
    | Args(index: int, id: string, args: string)
    | Stop(reason: string)

  function Fragments(out: seq<Chunk>): seq<Fragment> {
    if out == [] then [] else
      Fragments(out[..|out| - 1]) + FragmentOf(out[|out| - 1])
  }

  function FragmentOf(c: Chunk): seq<Fragment> {
    match c
    case Content(i, t) => [Text(i, t)]
    case ToolStart(i, id, name) => [Call(i, id, name)]
    case ToolArgs(i, id, a) => [Args(i, id, a)]
    case Finish(reason) => [Stop(reason)]
    case _ => []
  }

  /** The event starts a tool block with a name. */
  predicate StartsTool(ev: Event) {
    KindOf(ev) == ContentBlockStart && ev.message.Some? && ev.message.value.block.Some?
    && TrimSpace(ev.message.value.block.value.kind) == "tool_use" && TrimSpace(ev.message.value.block.value.name) != ""
  }

  /** The id of the tool that was last started at a block index. */
  function IdAt(events: seq<Event>, index: int): string {
    if events == [] then "" else
      var last := events[|events| - 1];
      if StartsTool(last) && last.message.value.index == index then TrimSpace(last.message.value.block.value.id)
      else IdAt(events[..|events| - 1], index)
  }

  const FINISH_REASONS := map["max_tokens" := "length", "tool_use" := "tool_calls", "stop_sequence" := "content_filter"]

  /** What an event must put into the stream; `id` is the id of the tool at its block index. */
  function FragmentIn(ev: Event, id: string): seq<Fragment> {
    if ev.message == None then [] else
      var m := ev.message.value;
      if StartsTool(ev) then [Call(m.index, TrimSpace(m.block.value.id), TrimSpace(m.block.value.name))]
      else if m.delta == None then []
      else if KindOf(ev) == ContentBlockDelta then DeltaFragment(m.index, m.delta.value, id)
      else if KindOf(ev) == MessageDeltaKind then StopFragment(TrimSpace(m.delta.value.stopReason))
      else []
  }

  function DeltaFragment(index: int, d: Delta, id: string): seq<Fragment> {
    if TrimSpace(d.kind) == "text_delta" then (if TrimSpace(d.text) == "" then [] else [Text(index, d.text)])
    else if TrimSpace(d.kind) == "input_json_delta" && d.partialJson != "" then [Args(index, id, d.partialJson)]
    else []
  }

  function StopFragment(reason: string): seq<Fragment> {
    if reason == "" then [] else [Stop(if reason in FINISH_REASONS then FINISH_REASONS[reason] else "stop")]
  }

  function FragmentsIn(events: seq<Event>): seq<Fragment> {
    if events == [] then [] else
      var before, ev := events[..|events| - 1], events[|events| - 1];
      FragmentsIn(before) + FragmentIn(ev, if ev.message == None then "" else IdAt(before, ev.message.value.index))
  }

  lemma {:induction false} FragmentsStep(out: seq<Chunk>, c: Chunk)
    ensures Fragments(out + [c]) == Fragments(out) + FragmentOf(c)
  {
    assert (out + [c])[..|out|] == out;
  }

  lemma {:induction false} StopTable(reason: string)
    ensures reason != "" ==> StopFragment(reason) == [Stop(MapStop(reason))]
  {
    assert "max_tokens" != "tool_use" && "max_tokens" != "stop_sequence" by {
      assert |"max_tokens"| == 10 && |"tool_use"| == 8 && |"stop_sequence"| == 13;
    }
  }

  lemma {:induction false} RoleCarriesNothing(s: State)
    ensures Fragments(EmitRole(s).out) == Fragments(s.out) && EmitRole(s).tools == s.tools
  {
    hide Fragments;
    FragmentsStep(s.out, Role);
  }

  lemma {:induction false} StartCarries(s: State, m: Message)
    ensures var t := BlockStart(s, m);
            if m.block.Some? && TrimSpace(m.block.value.kind) == "tool_use" && TrimSpace(m.block.value.name) != ""
            then Fragments(t.out) == Fragments(s.out)
                   + [Call(m.index, TrimSpace(m.block.value.id), TrimSpace(m.block.value.name))]
                 && t.tools == s.tools[m.index := m.block.value]
            else Fragments(t.out) == Fragments(s.out) && t.tools == s.tools
  {
    hide TrimSpace, Fragments, EmitRole;
    RoleCarriesNothing(s);
    if m.block.Some? {
      var block := m.block.value;
      FragmentsStep(EmitRole(s).out, ToolStart(m.index, TrimSpace(block.id), TrimSpace(block.name)));
    }
  }

  lemma {:induction false} DeltaCarries(s: State, m: Message)
    ensures var t := BlockDelta(s, m);
            && t.tools == s.tools
            && Fragments(t.out) == Fragments(s.out)
               + (if m.delta == None then [] else DeltaFragment(m.index, m.delta.value, ToolId(s.tools, m.index)))
  {
    hide TrimSpace, Fragments, EmitRole, ToolId;
    RoleCarriesNothing(s);
    if m.delta.Some? {
      var t := EmitRole(s);
      FragmentsStep(t.out, Content(m.index, m.delta.value.text));
      FragmentsStep(t.out, ToolArgs(m.index, ToolId(t.tools, m.index), m.delta.value.partialJson));
    }
  }

  lemma {:induction false} MessageDeltaCarries(s: State, m: Message)
    ensures var t := MessageDelta(s, m);
            && t.tools == s.tools
            && Fragments(t.out) == Fragments(s.out)
               + (if m.delta == None then [] else StopFragment(TrimSpace(m.delta.value.stopReason)))
  {
    hide TrimSpace, Fragments, Merge, MapStop;
    if m.delta.Some? {
      var reason := TrimSpace(m.delta.value.stopReason);
      StopTable(reason);
      FragmentsStep(s.out, Finish(MapStop(reason)));
      hide StopFragment;
      if reason == "" { NoStop(); }
    }
  }

  lemma {:induction false} NoStop()
    ensures StopFragment("") == []
  {
  }

  lemma {:induction false} HandleCarriesFragments(s: State, ev: Event)
    ensures Fragments(Handle(s, ev).out) == Fragments(s.out)
              + FragmentIn(ev, if ev.message == None then "" else ToolId(s.tools, ev.message.value.index))
    ensures Handle(s, ev).tools == if StartsTool(ev) then
            s.tools[ev.message.value.index := ev.message.value.block.value]
                                   else s.tools
  {
    hide TrimSpace, KindOf, Merge, Fragments, ToolId, BlockStart, BlockDelta, MessageDelta, EmitDone, EmitRole;
    hide DeltaFragment, StopFragment;
    if ev.message.Some? {
      var m := ev.message.value;
      StartCarries(s, m);
      DeltaCarries(s, m);
      MessageDeltaCarries(s, m);
      DoneCarriesNothing(s);
      if m.start.Some? { RoleCarriesNothing(MergeReport(s, m.start.value)); }
    }
  }

  lemma {:induction false} DoneCarriesNothing(s: State)
    ensures Fragments(EmitDone(s).out) == Fragments(s.out) && EmitDone(s).tools == s.tools
  {
    hide UsageToSend, Fragments;
    FragmentsStep(s.out, Done);
    if UsageToSend(s).Some? {
      FragmentsStep(s.out, UsageChunk(UsageToSend(s).value));
      FragmentsStep(s.out + [UsageChunk(UsageToSend(s).value)], Done);
    }
  }

  lemma {:induction false} ToolsFollowEvents(events: seq<Event>, index: int)
    ensures ToolId(Run(events).tools, index) == IdAt(events, index)
  {
    hide Handle, StartsTool, TrimSpace;
    if events != [] {
      var n := |events| - 1;
      ToolsFollowEvents(events[..n], index);
      HandleCarriesFragments(Run(events[..n]), events[n]);
      StartsHasBlock(events[n]);
    }
  }

  lemma {:induction false} StartsHasBlock(ev: Event)
    ensures StartsTool(ev) ==> ev.message.Some? && ev.message.value.block.Some?
  {
  }

  /**
    Every event sequence: the stream carries, in order and nothing else, the non-blank text deltas unchanged,
        one call for
    each named tool block, the argument fragments unchanged under the id of their block's tool,
        and one finish reason for
    each stop reason.
   */
  lemma {:induction false} FragmentsArriveUnchanged(events: seq<Event>)
    ensures Fragments(EmitDone(Run(events)).out) == FragmentsIn(events)
  {
    hide Handle, FragmentIn, EmitDone, IdAt, ToolId;
    DoneCarriesNothing(Run(events));
    if events != [] {
      var n := |events| - 1;
      FragmentsArriveUnchanged(events[..n]);
      DoneCarriesNothing(Run(events[..n]));
      HandleCarriesFragments(Run(events[..n]), events[n]);
      if events[n].message.Some? { ToolsFollowEvents(events[..n], events[n].message.value.index); }
    }
  }

  // ---------------------------------------------------------------- streamed usage

  function ReportIn(ev: Event): Option<Counters> {
    if KindOf(ev) == MessageStart && ev.message.Some? && ev.message.value.start.Some? then ev.message.value.start.value
    else if KindOf(ev) == MessageDeltaKind && ev.message.Some? then ev.message.value.usage
    else None
  }

  /** The final counters of a stream, none if nothing was reported. */
  function FinalCounters(events: seq<Event>): Option<Counters> {
    if events == [] then None else
      var before, r := FinalCounters(events[..|events| - 1]), ReportIn(events[|events| - 1]);
      if r == None then before else Some(Latest(if before.Some? then before.value else ZERO, r.value))
  }

  predicate ReportOk(events: seq<Event>, i: nat)
    requires i < |events|
  {
    var f := FinalCounters(events[..i]);
    ReportIn(events[i]).Some? ==>
      NonNegative(ReportIn(events[i]).value) && Mergeable(if f.Some? then f.value else ZERO, ReportIn(events[i]).value)
  }

  lemma {:induction false} HandleMerges(s: State, ev: Event)
    requires KindOf(ev) != MessageStop
    ensures Handle(s, ev).usage == MergeReport(s, ReportIn(ev)).usage && Handle(s, ev).doneSent == s.doneSent
  {
    hide TrimSpace, KindOf, Merge, MapStop;
  }

  lemma {:induction false} UsageFollowsCounters(events: seq<Event>)
    requires forall i :: 0 <= i < |events| ==> KindOf(events[i]) != MessageStop && ReportOk(events, i)
    ensures !Run(events).doneSent
    ensures FinalCounters(events).None? ==> Run(events).usage == None
    ensures FinalCounters(events).Some? ==>
              && NonNegative(FinalCounters(events).value)
              && Run(events).usage == Some(Streamed(FinalCounters(events).value))
  {
    hide Handle, KindOf, Merge, MapUsage, Mergeable, Latest, ReportIn;
    if events != [] {
      var n := |events| - 1;
      forall i | 0 <= i < n ensures KindOf(events[..n][i]) != MessageStop && ReportOk(events[..n], i) {
        assert events[..n][..i] == events[..i];
      }
      UsageFollowsCounters(events[..n]);
      HandleMerges(Run(events[..n]), events[n]);
      if ReportIn(events[n]).Some? {
        var f := FinalCounters(events[..n]);
        StreamedZero();
        assert ReportOk(events, n);
        MergeAgreesIff(if f.Some? then f.value else ZERO, ReportIn(events[n]).value);
      }
    }
  }

  lemma {:induction false} StreamedZero()
    ensures Streamed(ZERO) == NO_USAGE && NonNegative(ZERO)
  {
  }

  /** Closing the stream at that point sends the non-stream mapping of the counters; nothing if they are all zero. */
  lemma {:induction false} ClosingSendsMappedUsage(events: seq<Event>)
    requires forall i :: 0 <= i < |events| ==> KindOf(events[i]) != MessageStop && ReportOk(events, i)
    ensures var s := Run(events);
            EmitDone(s).doneSent && EmitDone(s).out == s.out + UsageChunks(MappedUsage(FinalCounters(events))) + [Done]
  {
    hide Run, FinalCounters, MapIterations, Handle, KindOf, ReportOk;
    UsageFollowsCounters(events);
  }

  function MappedUsage(f: Option<Counters>): seq<Usage> {
    if f.Some? && MapUsage(f.value).total > 0 then [MapUsage(f.value)] else []
  }

  function UsageChunks(us: seq<Usage>): seq<Chunk> {
    if us == [] then [] else [UsageChunk(us[0])] + UsageChunks(us[1..])
  }

  /** The usage reports that were sent downstream. */
  function UsagesSent(out: seq<Chunk>): seq<Usage> {
    if out == [] then [] else
      UsagesSent(out[..|out| - 1]) + (if out[|out| - 1].UsageChunk? then [out[|out| - 1].usage] else [])
  }

  lemma {:induction false} UsagesStep(out: seq<Chunk>, c: Chunk)
    ensures UsagesSent(out + [c]) == UsagesSent(out) + (if c.UsageChunk? then [c.usage] else [])
  {
    assert (out + [c])[..|out|] == out;
  }

  /** Only the first stop event sends a usage report. */
  lemma {:induction false} HandleSendsNoUsage(s: State, ev: Event)
    requires KindOf(ev) == MessageStop ==> s.doneSent
    ensures UsagesSent(Handle(s, ev).out) == UsagesSent(s.out) && Handle(s, ev).doneSent == s.doneSent
  {
    hide TrimSpace, KindOf, Merge, UsagesSent, MapStop;
    if ev.message.Some? {
      var m := ev.message.value;
      UsagesStep(s.out, Role);
      var t := EmitRole(s);
      match KindOf(ev)
      case ContentBlockStart =>
        if m.block.Some? {
          var block := m.block.value;
          UsagesStep(t.out, ToolStart(m.index, TrimSpace(block.id), TrimSpace(block.name)));
        }
      case ContentBlockDelta =>
        if m.delta.Some? {
          UsagesStep(t.out, Content(m.index, m.delta.value.text));
          UsagesStep(t.out, ToolArgs(m.index, ToolId(t.tools, m.index), m.delta.value.partialJson));
        }
      case MessageDeltaKind =>
        if m.delta.Some? { UsagesStep(s.out, Finish(MapStop(TrimSpace(m.delta.value.stopReason)))); }
      case _ =>
    }
  }

  lemma {:induction false} NoUsageBeforeStop(events: seq<Event>)
    requires forall i :: 0 <= i < |events| ==> KindOf(events[i]) != MessageStop
    ensures UsagesSent(Run(events).out) == []
  {
    hide Handle, KindOf;
    if events != [] {
      NoUsageBeforeStop(events[..|events| - 1]);
      HandleSendsNoUsage(Run(events[..|events| - 1]), events[|events| - 1]);
    }
  }

  lemma {:induction false} NoUsageAfterDone(events: seq<Event>, n: nat)
    requires n <= |events| && Run(events[..n]).doneSent
    ensures Run(events).doneSent && UsagesSent(Run(events).out) == UsagesSent(Run(events[..n]).out)
    decreases |events|
  {
    hide Handle, KindOf;
    if n < |events| {
      var last := |events| - 1;
      assert events[..last][..n] == events[..n];
      NoUsageAfterDone(events[..last], n);
      HandleSendsNoUsage(Run(events[..last]), events[last]);
    } else {
      assert events[..n] == events;
    }
  }

  /** `n` is the first stop event, or the end of the stream if there is none. */
  ghost predicate StopsAt(events: seq<Event>, n: nat) {
    && n <= |events|
    && (forall i :: 0 <= i < n ==> KindOf(events[i]) != MessageStop)
    && (n < |events| ==> KindOf(events[n]) == MessageStop)
  }

  /** Whole streams: the usage sent is the non-stream mapping of the counters at the first stop, whatever follows it. */
  lemma {:induction false} StreamedUsageIsMappedUsage(events: seq<Event>, n: nat)
    requires StopsAt(events, n) && forall i :: 0 <= i < n ==> ReportOk(events, i)
    ensures UsagesSent(EmitDone(Run(events)).out) == MappedUsage(FinalCounters(events[..n]))
  {
    var head := events[..n];
    forall i | 0 <= i < n ensures KindOf(head[i]) != MessageStop && ReportOk(head, i) {
      assert head[i] == events[i] && head[..i] == events[..i] && ReportOk(events, i);
    }
    ClosingSendsMappedUsage(head);
    NoUsageBeforeStop(head);
    ClosedUsages(Run(head).out, MappedUsage(FinalCounters(head)));
    if n < |events| {
      StopCloses(events, n);
      NoUsageAfterDone(events, n + 1);
    } else {
      assert head == events;
    }
  }

  lemma {:induction false} StopCloses(events: seq<Event>, n: nat)
    requires n < |events| && KindOf(events[n]) == MessageStop
    ensures Run(events[..n + 1]) == EmitDone(Run(events[..n]))
  {
    hide EmitDone;
    assert events[..n + 1][..n] == events[..n];
  }

  lemma {:induction false} ClosedUsages(out: seq<Chunk>, us: seq<Usage>)
    requires UsagesSent(out) == [] && |us| <= 1
    ensures UsagesSent(out + UsageChunks(us) + [Done]) == us
  {
    hide UsagesSent;
    if us != [] {
      assert UsageChunks(us) == [UsageChunk(us[0])];
      UsagesStep(out, UsageChunk(us[0]));
    } else {
      assert out + UsageChunks(us) == out;
    }
    UsagesStep(out + UsageChunks(us), Done);
  }

  // ---------------------------------------------------------------- exactly which streams report the mapped usage

  /** The streamed usage agrees with the latest counters. */
  ghost predicate UsageAgrees(events: seq<Event>) {
    var f := FinalCounters(events);
    Run(events).usage == if f == None then None else Some(Streamed(f.value))
  }

  ghost predicate AgreesUpTo(events: seq<Event>, n: nat)
    requires n <= |events|
  {
    forall i :: 0 <= i <= n ==> UsageAgrees(events[..i])
  }

  ghost predicate ReportsOkUpTo(events: seq<Event>, n: nat)
    requires n <= |events|
  {
    forall i :: 0 <= i < n ==> ReportOk(events, i)
  }

  /** No stop event, and counters that are not negative. */
  predicate PlainEvent(ev: Event) {
    KindOf(ev) != MessageStop && (ReportIn(ev).Some? ==> NonNegative(ReportIn(ev).value))
  }

  lemma {:induction false} LatestNonNegative(f: Counters, r: Counters)
    requires NonNegative(f) && NonNegative(r)
    ensures NonNegative(Latest(f, r))
  {
  }

  lemma {:induction false} CountersNonNegative(events: seq<Event>)
    requires forall i :: 0 <= i < |events| ==> PlainEvent(events[i])
    ensures FinalCounters(events).Some? ==> NonNegative(FinalCounters(events).value)
  {
    hide ReportIn, Latest, NonNegative, KindOf, PlainEvent;
    if events != [] {
      var n := |events| - 1;
      CountersNonNegative(events[..n]);
      assert PlainEvent(events[n]);
      PlainReport(events[n]);
      CountersStep(events);
      hide FinalCounters;
      var f, r := FinalCounters(events[..n]), ReportIn(events[n]);
      if r.Some? {
        assert NonNegative(ZERO) by { StreamedZero(); }
        LatestNonNegative(if f.Some? then f.value else ZERO, r.value);
      }
    }
  }

  lemma {:induction false} CountersStep(events: seq<Event>)
    requires events != []
    ensures var f, r := FinalCounters(events[..|events| - 1]), ReportIn(events[|events| - 1]);
            FinalCounters(events) == if r == None then f else Some(Latest(if f.Some? then f.value else ZERO, r.value))
  {
    hide ReportIn, Latest;
  }

  lemma {:induction false} NotAStop(ev: Event)
    requires PlainEvent(ev)
    ensures KindOf(ev) != MessageStop
  {
  }

  lemma {:induction false} PlainReport(ev: Event)
    requires PlainEvent(ev)
    ensures ReportIn(ev).Some? ==> NonNegative(ReportIn(ev).value)
  {
    hide ReportIn, NonNegative, KindOf;
  }

  lemma {:induction false} AgreementStepIff(events: seq<Event>, i: nat)
    requires i < |events| && (forall j :: 0 <= j <= i ==> PlainEvent(events[j])) && UsageAgrees(events[..i])
    ensures UsageAgrees(events[..i + 1]) <==> ReportOk(events, i)
  {
    hide ReportIn, Latest, NonNegative, KindOf, Handle, Merge, Mergeable, MapUsage, PlainEvent;
    var before, ev := events[..i], events[i];
    assert events[..i + 1][..i] == before && events[..i + 1][i] == ev && PlainEvent(ev);
    CountersNonNegative(before);
    PlainReport(ev);
    NotAStop(ev);
    HandleMerges(Run(before), ev);
    StreamedZero();
    var f, r := FinalCounters(before), ReportIn(ev);
    if r.Some? { MergeAgreesIff(if f.Some? then f.value else ZERO, r.value); }
  }

  lemma {:induction false} OneMoreAgrees(events: seq<Event>, n: nat)
    requires 0 < n <= |events|
    ensures AgreesUpTo(events, n) <==> AgreesUpTo(events, n - 1) && UsageAgrees(events[..n])
    ensures AgreesUpTo(events, n - 1) ==> UsageAgrees(events[..n - 1])
  {
    hide UsageAgrees;
  }

  lemma {:induction false} OneMoreReport(events: seq<Event>, n: nat)
    requires 0 < n <= |events|
    ensures ReportsOkUpTo(events, n) <==> ReportsOkUpTo(events, n - 1) && ReportOk(events, n - 1)
  {
    hide ReportOk;
  }

  /** Before any stop, the usage agrees after every event if and only if every report is mergeable. */
  lemma {:induction false} UsageAgreesIff(events: seq<Event>, n: nat)
    requires n <= |events| && forall j :: 0 <= j < n ==> PlainEvent(events[j])
    ensures AgreesUpTo(events, n) <==> ReportsOkUpTo(events, n)
  {
    hide UsageAgrees, ReportOk, PlainEvent;
    if n == 0 {
      NothingReported();
      assert events[..0] == [];
    } else {
      UsageAgreesIff(events, n - 1);
      OneMoreAgrees(events, n);
      OneMoreReport(events, n);
      hide AgreesUpTo, ReportsOkUpTo;
      if UsageAgrees(events[..n - 1]) { AgreementStepIff(events, n - 1); }
    }
  }

  lemma {:induction false} NothingReported()
    ensures UsageAgrees([])
  {
  }

  /** A start message with a usage report. */
  function StartEvent(c: Counters): Event {
    Event("message_start", Some(Message("", Some(Some(c)), 0, None, None, None)))
  }

  /** A message delta with a usage report and nothing else. */
  function DeltaEvent(c: Counters): Event {
    Event("message_delta", Some(Message("", None, 0, None, None, Some(c))))
  }

  lemma {:induction false} ReportKinds(c: Counters)
    ensures KindOf(StartEvent(c)) == MessageStart && ReportIn(StartEvent(c)) == Some(c)
    ensures KindOf(DeltaEvent(c)) == MessageDeltaKind && ReportIn(DeltaEvent(c)) == Some(c)
  {
    hide TrimSpace, Lower;
    var a, b := "message_start", "message_delta";
    LowerKeepsLower(a);
    LowerKeepsLower(b);
    assert |a| == 13 && |b| == 13 && |"content_block_start"| == 19 && |"content_block_delta"| == 19;
    assert a[8] == 's' && b[8] == 'd';
  }

  /** A stream that repeats its cache counter without input tokens sends a prompt of 20 where the mapping gives 15. */
  lemma {:induction false} RepeatedCacheReadIsSentTwice()
    ensures var events := [StartEvent(Counters(10, 0, 0, 5, [])), DeltaEvent(Counters(0, 1, 0, 5, []))];
            var sent := UsagesSent(EmitDone(Run(events)).out);
            && |sent| == 1 && sent[0].prompt == 20
            && FinalCounters(events).Some? && MapUsage(FinalCounters(events).value).prompt == 15
  {
    hide KindOf, Handle, UsagesSent, EmitDone, ReportIn, StartEvent, DeltaEvent;
    var c, d := Counters(10, 0, 0, 5, []), Counters(0, 1, 0, 5, []);
    var one, two := [StartEvent(c)], [StartEvent(c), DeltaEvent(d)];
    ReportKinds(c);
    ReportKinds(d);
    assert one[..0] == [] && two[..1] == one;
    HandleMerges(INIT, StartEvent(c));
    HandleMerges(Run(one), DeltaEvent(d));
    assert Run(one) == Handle(INIT, StartEvent(c)) && Run(two) == Handle(Run(one), DeltaEvent(d));
    assert FinalCounters([]) == None;
    CountersStep(one);
    CountersStep(two);
    hide FinalCounters;
    assert FinalCounters(one) == Some(Latest(ZERO, c));
    assert FinalCounters(two) == Some(Latest(Latest(ZERO, c), d));
    RepeatedCacheReadCountsTwice();
    NoUsageBeforeStop(two);
    SentUsage(Run(two), Merge(Merge(NO_USAGE, c), d));
  }

  /** Closing an unclosed stream sends its usage with the total filled in. */
  lemma {:induction false} SentUsage(s: State, u: Usage)
    requires !s.doneSent && s.usage == Some(u) && u.total == 0 && u.prompt > 0 && u.completion > 0
    requires UsagesSent(s.out) == []
    ensures UsagesSent(EmitDone(s).out) == [u.(total := u.prompt + u.completion)]
  {
    hide UsagesSent;
    var v := u.(total := u.prompt + u.completion);
    UsagesStep(s.out, UsageChunk(v));
    UsagesStep(s.out + [UsageChunk(v)], Done);
  }

  /** The event names of the message stream and what they are taken for; without a name the payload's type counts. */
  lemma {:induction false} EventKinds(m: Message)
    ensures KindOf(Event("message_start", Some(m))) == MessageStart
    ensures KindOf(Event("content_block_start", Some(m))) == ContentBlockStart
    ensures KindOf(Event("content_block_delta", Some(m))) == ContentBlockDelta
    ensures KindOf(Event("message_delta", Some(m))) == MessageDeltaKind
    ensures KindOf(Event("message_stop", Some(m))) == MessageStop
    ensures TrimSpace(m.kind) != "" ==> KindOf(Event("", Some(m))) == KindOf(Event(TrimSpace(m.kind), Some(m)))
  {
    hide Lower, TrimSpace;
    var a, b, c, d := "message_start", "content_block_start", "content_block_delta", "message_delta";
    LowerKeepsLower(a);
    LowerKeepsLower(b);
    LowerKeepsLower(c);
    LowerKeepsLower(d);
    LowerKeepsLower("message_stop");
    assert |a| == 13 && |b| == 19 && |c| == 19 && |d| == 13 && |"message_stop"| == 12;
    assert a[8] == 's' && d[8] == 'd' && b[14] == 's' && c[14] == 'd';
  }
}
