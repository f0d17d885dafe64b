/**
  The streaming translator from Responses events to chat-completion chunks (`responsesSSEToChatState` in
  `onr-core/pkg/apitransform/openai_responses_sse_to_chat.go`). Events arrive with their JSON decoded: text fields as
  the coercion helper yields them, untrimmed, "" when absent. `clock` is the time stamp used when no response id is
  known.
 */
module ResponsesToChat {
  import opened Text
  import opened Options

  datatype Item = Item(kind: string, id: string, callId: string, name: string, arguments: string)

  /** A response object; `finish` is the finish reason its non-stream mapping carries. */
  datatype Response = Response(id: string, status: string, finish: string)

  datatype Root = Root(kind: string, responseId: string, id: string, delta: string, itemId: string, item: Option<Item>,
                       response: Option<Response>, status: Option<string>, finish: string)

  /** An event whose payload is no JSON object has no root. */
  datatype Event = Event(name: string, root: Option<Root>)

  datatype Chunk =
    | Start(id: string)
    | Content(id: string, content: string)
    | Tool(id: string, index: nat, callId: string, name: Option<string>, args: string)
    | Terminal(id: string, finish: string)
    | Done

  datatype State = State(clock: string, chatId: string, sentStart: bool, sawText: bool, sawTool: bool,
                         index: map<string, nat>, names: map<string, string>, args: map<string, string>,
                         nameSent: set<string>, canonical: map<string, string>, final: Option<Root>, out: seq<Chunk>)

  const ID_PREFIX := "chatcmpl_"

  function Init(clock: string): State {
    State(clock, "", false, false, false, map[], map[], map[], {}, map[], None, [])
  }

  function Get(m: map<string, string>, k: string): string { if k in m then m[k] else "" }

  // ---------------------------------------------------------------- steps

  function MakeId(seed: string, clock: string): (r: string)
    ensures r != ""
  {
    var id := if TrimSpace(seed) == "" then clock else TrimSpace(seed);
    if ID_PREFIX <= id then id else ID_PREFIX + id
  }

  function IdFor(current: string, seed: string, clock: string): string {
    if current != "" then current else MakeId(seed, clock)
  }

  /** The first id the stream learns is the id of all its chunks. */
  function EnsureId(s: State, seed: string): State { s.(chatId := IdFor(s.chatId, seed, s.clock)) }

  function SendStart(s: State): State {
    if s.sentStart then s else
      var t := EnsureId(s, "");
      t.(sentStart := true, out := t.out + [Start(t.chatId)])
  }

  function SendText(s: State, delta: string): State {
    if TrimSpace(delta) == "" then s else
      var t := EnsureId(s, "");
      t.(sawText := true, sentStart := true, out := t.out + [Content(t.chatId, delta)])
  }

  function IndexWith(index: map<string, nat>, callId: string): map<string, nat> {
    if callId in index then index else index[callId := |index|]
  }

  function NamesWith(names: map<string, string>, callId: string, name: string): map<string, string> {
    if TrimSpace(name) != "" then names[callId := TrimSpace(name)] else names
  }

  function NameToSend(names: map<string, string>, nameSent: set<string>, callId: string): Option<string> {
    if Get(names, callId) != "" && callId !in nameSent then Some(names[callId]) else None
  }

  /** The tool-call chunk itself, once the stream has been started. */
  function PushTool(s: State, callId: string, name: string, delta: string): State {
    var names := NamesWith(s.names, callId, name);
    var sent := NameToSend(names, s.nameSent, callId);
    var t := EnsureId(s, "");
    t.(index := IndexWith(s.index, callId), names := names, sawTool := true,
       nameSent := if sent.Some? then s.nameSent + {callId} else s.nameSent,
       out := t.out + [Tool(t.chatId, IndexWith(s.index, callId)[callId], callId, sent, delta)])
  }

  function SendTool(s: State, callId: string, name: string, delta: string): State {
    if TrimSpace(callId) == "" || s.sawText then s else PushTool(SendStart(s), callId, name, delta)
  }

  /** The part of a snapshot that has not been seen yet; a snapshot that does not extend the past is sent whole. */
  function ArgsDelta(prev: string, next: string): string {
    if TrimSpace(next) == "" then "" else if prev <= next then next[|prev|..] else next
  }

  function CallIdOf(item: Item): string {
    if TrimSpace(item.callId) == "" then TrimSpace(item.id) else TrimSpace(item.callId)
  }

  function OutputItem(s: State, root: Root): State {
    if root.item == None || TrimSpace(root.item.value.kind) != "function_call" then s else
      var item := root.item.value;
      var itemId, callId, name := TrimSpace(item.id), CallIdOf(item), TrimSpace(item.name);
      var t := s.(canonical := if itemId != "" && callId != "" then s.canonical[itemId := callId] else s.canonical,
                  names := if name != "" then s.names[callId := name] else s.names,
                  args := if item.arguments != "" then s.args[callId := item.arguments] else s.args);
      SendTool(t, callId, name, ArgsDelta(Get(s.args, callId), item.arguments))
  }

  function TargetOf(s: State, root: Root): string {
    var itemId := TrimSpace(root.itemId);
    if Get(s.canonical, itemId) == "" then itemId else s.canonical[itemId]
  }

  function ArgsEvent(s: State, root: Root): State {
    var callId := TargetOf(s, root);
    if callId == "" then s else
      var t := if root.delta != "" then s.(args := s.args[callId := Get(s.args, callId) + root.delta]) else s;
      SendTool(t, callId, "", root.delta)
  }

  function EventName(ev: Event): string
    requires ev.root.Some?
  {
    if TrimSpace(ev.name) == "" then TrimSpace(ev.root.value.kind) else TrimSpace(ev.name)
  }

  function Common(s: State, name: string, root: Root): State { s.(chatId := CommonId(s, name, root)) }

  function CommonId(s: State, name: string, root: Root): string {
    var id := if TrimSpace(root.responseId) == "" then s.chatId
              else IdFor(s.chatId, TrimSpace(root.responseId), s.clock);
    if TrimSpace(root.id) != "" && "response." <= Lower(name) then IdFor(id, TrimSpace(root.id), s.clock) else id
  }

  predicate IsTerminalStatus(status: string) {
    Lower(TrimSpace(status)) in {"completed", "incomplete", "failed", "canceled", "cancelled"}
  }

  /** `strings.Contains` */
  predicate Contains(s: string, part: string) { part <= s || (s != "" && Contains(s[1..], part)) }

  predicate IsFinal(name: string, root: Root) {
    Contains(Lower(name), "completed")
    || (if root.response.Some? then IsTerminalStatus(root.response.value.status)
        else root.status.Some? && IsTerminalStatus(root.status.value))
  }

  datatype Kind = Created | TextDelta | OutputItemEvent | ArgsDeltaEvent | ArgsDone | Completed | Other

  function KindOf(name: string): Kind {
    var n := Lower(name);
    if n == "response.created" then Created
    else if n == "response.output_text.delta" then TextDelta
    else if n == "response.output_item.added" || n == "response.output_item.done" then OutputItemEvent
    else if n == "response.function_call_arguments.delta" then ArgsDeltaEvent
    else if n == "response.function_call_arguments.done" then ArgsDone
    else if n == "response.completed" then Completed
    else Other
  }

  function Dispatch(s: State, name: string, root: Root): State {
    match KindOf(name)
    case Created =>
      if root.response.Some? && TrimSpace(root.response.value.id) != ""
      then EnsureId(s, TrimSpace(root.response.value.id)) else s
    case TextDelta => SendText(s, TrimSpace(root.delta))
    case OutputItemEvent => OutputItem(s, root)
    case ArgsDeltaEvent => ArgsEvent(s, root)
    case ArgsDone => s
    case Completed => s.(final := Some(root))
    case Other => if IsFinal(name, root) then s.(final := Some(root)) else s
  }

  function Handle(s: State, ev: Event): State {
    if ev.root == None then s else Dispatch(Common(s, EventName(ev), ev.root.value), EventName(ev), ev.root.value)
  }

  function FinishOf(s: State, root: Root): string {
    var mapped := TrimSpace(if root.response.Some? then root.response.value.finish else root.finish);
    if s.sawTool && !s.sawText then "tool_calls" else if mapped == "" then "stop" else mapped
  }

  function Close(s: State): State {
    if s.final == None then s else
      var root := s.final.value;
      var seed := if root.response.Some? then root.response.value.id else root.id;
      var t := SendStart(EnsureId(s, seed));
      t.(out := t.out + [Terminal(t.chatId, FinishOf(t, root)), Done])
  }

  function Run(clock: string, events: seq<Event>): State {
    if events == [] then Init(clock) else Handle(Run(clock, events[..|events| - 1]), events[|events| - 1])
  }

  // ---------------------------------------------------------------- the translator object

  class Translator {
    const clock: string
    var chatId: string
    var sentStart: bool
    var sawText: bool
    var sawTool: bool
    var index: map<string, nat>
    var names: map<string, string>
    var args: map<string, string>
    var nameSent: set<string>
    var canonical: map<string, string>
    var final: Option<Root>
    var out: seq<Chunk>

    ghost function View(): State
      reads this
    {
      State(clock, chatId, sentStart, sawText, sawTool, index, names, args, nameSent, canonical, final, out)
    }

    constructor (clock: string)
      ensures View() == Init(clock)
    {
      this.clock := clock;
      chatId, sentStart, sawText, sawTool, final, out := "", false, false, false, None, [];
      index, names, args, nameSent, canonical := map[], map[], map[], {}, map[];
    }

    method EnsureChatId(seed: string)
      modifies this`chatId
      ensures View() == EnsureId(old(View()), seed)
    {
      if chatId != "" { return; }
      var id := TrimSpace(seed);
      if id == "" { id := clock; }
      if !(ID_PREFIX <= id) { id := ID_PREFIX + id; }
      chatId := id;
    }

    method SendStartIfNeeded()
      modifies this
      ensures View() == SendStart(old(View()))
    {
      if sentStart { return; }
      EnsureChatId("");
      out := out + [Start(chatId)];
      sentStart := true;
    }

    method SendTextDelta(delta: string)
      modifies this
      ensures View() == SendText(old(View()), delta)
    {
      if TrimSpace(delta) == "" { return; }
      sawText := true;
      EnsureChatId("");
      out := out + [Content(chatId, delta)];
      sentStart := true;
    }

    method SendToolCallDelta(callId: string, name: string, delta: string)
      modifies this
      ensures View() == SendTool(old(View()), callId, name, delta)
    {
      hide TrimSpace, IdFor, SendStart, IndexWith, NamesWith, NameToSend;
      if TrimSpace(callId) == "" || sawText { return; }
      SendStartIfNeeded();
      var sent := NumberAndName(callId, name);
      EnsureChatId("");
      out := out + [Tool(chatId, index[callId], callId, sent, delta)];
      sawTool := true;
    }

    /** Numbers a new call, remembers its name, and returns the name if it has not been sent yet. */
    method NumberAndName(callId: string, name: string) returns (sent: Option<string>)
      modifies this`index, this`names, this`nameSent
      ensures index == IndexWith(old(index), callId) && names == NamesWith(old(names), callId, name)
      ensures callId in index && sent == NameToSend(names, old(nameSent), callId)
      ensures nameSent == if sent.Some? then old(nameSent) + {callId} else old(nameSent)
    {
      hide TrimSpace;
      sent := None;
      if callId !in index { index := index[callId := |index|]; }
      if TrimSpace(name) != "" { names := names[callId := TrimSpace(name)]; }
      var known := if callId in names then names[callId] else "";
      if known != "" && callId !in nameSent {
        sent := Some(known);
        nameSent := nameSent + {callId};
      }
    }

    method HandleOutputItem(root: Root)
      modifies this
      ensures View() == OutputItem(old(View()), root)
    {
      hide TrimSpace, SendTool, ArgsDelta;
      if root.item == None || TrimSpace(root.item.value.kind) != "function_call" { return; }
      var item := root.item.value;
      var itemId, callId, name := TrimSpace(item.id), TrimSpace(item.callId), TrimSpace(item.name);
      if callId == "" { callId := itemId; }
      if itemId != "" && callId != "" { canonical := canonical[itemId := callId]; }
      if name != "" { names := names[callId := name]; }
      var prev := if callId in args then args[callId] else "";
      if item.arguments != "" { args := args[callId := item.arguments]; }
      SendToolCallDelta(callId, name, ArgsDelta(prev, item.arguments));
    }

    method HandleArgsDelta(root: Root)
      modifies this
      ensures View() == ArgsEvent(old(View()), root)
    {
      hide TrimSpace, SendTool;
      var itemId := TrimSpace(root.itemId);
      var callId := if itemId in canonical then canonical[itemId] else "";
      if callId == "" { callId := itemId; }
      if callId == "" { return; }
      if root.delta != "" { args := args[callId := (if callId in args then args[callId] else "") + root.delta]; }
      SendToolCallDelta(callId, "", root.delta);
    }

    method HandleEvent(ev: Event)
      modifies this
      ensures View() == Handle(old(View()), ev)
    {
      hide TrimSpace, SendTool, SendText, OutputItem, ArgsEvent, IdFor, KindOf, IsFinal, Lower;
      if ev.root == None { return; }
      var root := ev.root.value;
      var name := TrimSpace(ev.name);
      if name == "" { name := TrimSpace(root.kind); }
      if TrimSpace(root.responseId) != "" { EnsureChatId(TrimSpace(root.responseId)); }
      if TrimSpace(root.id) != "" && "response." <= Lower(name) { EnsureChatId(TrimSpace(root.id)); }
      assert View() == Common(old(View()), name, root);
      hide CommonId;
      match KindOf(name)
      case Created =>
        if root.response.Some? && TrimSpace(root.response.value.id) != "" {
          EnsureChatId(TrimSpace(root.response.value.id));
        }
      case TextDelta => SendTextDelta(TrimSpace(root.delta));
      case OutputItemEvent => HandleOutputItem(root);
      case ArgsDeltaEvent => HandleArgsDelta(root);
      case ArgsDone =>
      case Completed => final := Some(root);
      case Other => if IsFinal(name, root) { final := Some(root); }
    }

    method EmitFinalIfPending()
      modifies this
      ensures View() == Close(old(View()))
    {
      hide TrimSpace, SendStart, IdFor;
      if final == None { return; }
      var root := final.value;
      EnsureChatId(if root.response.Some? then root.response.value.id else root.id);
      var finish := TrimSpace(if root.response.Some? then root.response.value.finish else root.finish);
      if finish == "" { finish := "stop"; }
      SendStartIfNeeded();
      if sawTool && !sawText { finish := "tool_calls"; }
      out := out + [Terminal(chatId, finish)];
      out := out + [Done];
    }
  }

  /** The whole translation of a decoded event sequence. */
  method Transform(clock: string, events: seq<Event>) returns (out: seq<Chunk>)
    ensures out == Close(Run(clock, events)).out
  {
    hide Handle, Close;
    var t := new Translator(clock);
    var i := 0;
    while i < |events|
      invariant 0 <= i <= |events| && t.View() == Run(clock, events[..i])
    {
      assert events[..i + 1][..i] == events[..i];
      t.HandleEvent(events[i]);
      i := i + 1;
    }
    assert events[..i] == events;
    t.EmitFinalIfPending();
    out := t.out;
  }

  // ---------------------------------------------------------------- shape of every output

  /** Call ids in the order of their first tool chunk. */
  function CallOrder(out: seq<Chunk>): seq<string> {
    if out == [] then [] else
      var before, last := CallOrder(out[..|out| - 1]), out[|out| - 1];
      if last.Tool? && last.callId !in before then before + [last.callId] else before
  }

  ghost predicate OneId(s: State) {
    forall i :: 0 <= i < |s.out| ==> !s.out[i].Done? && s.chatId != "" && s.out[i].id == s.chatId
  }

  /** The index map numbers the call ids densely in order of first appearance, and chunks carry those numbers. */
  ghost predicate Numbered(s: State) {
    var order := CallOrder(s.out);
    && |s.index| == |order|
    && (forall c :: c in s.index <==> c in order)
    && (forall k :: 0 <= k < |order| ==> order[k] in s.index && s.index[order[k]] == k)
    && (forall i :: 0 <= i < |s.out| && s.out[i].Tool? ==>
          s.out[i].callId in s.index && s.index[s.out[i].callId] == s.out[i].index)
  }

  ghost predicate NamedOnce(s: State) {
    && (forall i :: 0 <= i < |s.out| && s.out[i].Tool? && s.out[i].name.Some? ==> s.out[i].callId in s.nameSent)
    && (forall i, j :: 0 <= i < j < |s.out| && s.out[i].Tool? && s.out[j].Tool?
                       && s.out[i].name.Some? && s.out[j].name.Some? ==>
          s.out[i].callId != s.out[j].callId)
  }

  ghost predicate TextLast(s: State) {
    && (forall i :: 0 <= i < |s.out| && s.out[i].Content? ==> s.sawText)
    && (forall i, j :: 0 <= i < j < |s.out| && s.out[i].Content? ==> !s.out[j].Tool?)
  }

  ghost predicate StartFirst(s: State) {
    && (s.sentStart <==> s.out != [])
    && (forall i :: 0 <= i < |s.out| ==> !s.out[i].Terminal? && (s.out[i].Start? ==> i == 0))
    && (s.out != [] ==> s.out[0].Start? || s.out[0].Content?)
  }

  ghost predicate Shaped(s: State) { OneId(s) && Numbered(s) && NamedOnce(s) && TextLast(s) && StartFirst(s) }

  /** Everything the shape depends on. */
  predicate SameShape(s: State, t: State) {
    t.chatId == s.chatId && t.sentStart == s.sentStart && t.sawText == s.sawText && t.index == s.index
    && t.nameSent == s.nameSent && t.out == s.out
  }

  lemma {:induction false} CallOrderStep(out: seq<Chunk>, c: Chunk)
    ensures CallOrder(out + [c])
         == if c.Tool? && c.callId !in CallOrder(out) then CallOrder(out) + [c.callId] else CallOrder(out)
  {
    assert (out + [c])[..|out|] == out;
  }

  lemma {:induction false} EnsureKeepsShape(s: State, seed: string)
    requires Shaped(s)
    ensures Shaped(EnsureId(s, seed)) && EnsureId(s, seed).chatId != ""
  {
    hide CallOrder, MakeId;
    assert s.out == [] || s.chatId != "" by { if s.out != [] { assert s.out[0].id == s.chatId; } }
  }

  lemma {:induction false} StartKeepsShape(s: State)
    requires Shaped(s)
    ensures Shaped(SendStart(s)) && SendStart(s).out != []
  {
    if !s.sentStart {
      hide CallOrder, IdFor;
      EnsureKeepsShape(s, "");
      CallOrderStep([], Start(EnsureId(s, "").chatId));
      assert EnsureId(s, "").out + [Start(EnsureId(s, "").chatId)] == [] + [Start(EnsureId(s, "").chatId)];
    }
  }

  lemma {:induction false} TextKeepsShape(s: State, delta: string)
    requires Shaped(s)
    ensures Shaped(SendText(s, delta))
  {
    hide CallOrder, IdFor, TrimSpace;
    EnsureKeepsShape(s, "");
    CallOrderStep(s.out, Content(EnsureId(s, "").chatId, delta));
  }

  /** `t` is `s` with one more tool chunk `c` and its number and name recorded. */
  ghost predicate Pushed(s: State, t: State, c: Chunk) {
    && c.Tool? && t.out == s.out + [c] && t.chatId == c.id && t.sentStart == s.sentStart && t.sawText == s.sawText
    && t.index == IndexWith(s.index, c.callId) && t.index[c.callId] == c.index
    && (c.name.Some? ==> c.callId !in s.nameSent)
    && t.nameSent == (if c.name.Some? then s.nameSent + {c.callId} else s.nameSent)
  }

  lemma {:induction false} PushIsPushed(s: State, callId: string, name: string, delta: string) returns (c: Chunk)
    ensures Pushed(EnsureId(s, ""), PushTool(s, callId, name, delta), c)
  {
    hide IdFor, NamesWith;
    c := PushTool(s, callId, name, delta).out[|s.out|];
  }

  lemma {:induction false} PushedNumbers(s: State, t: State, c: Chunk)
    requires Pushed(s, t, c) && Numbered(s)
    ensures Numbered(t)
  {
    hide CallOrder;
    CallOrderStep(s.out, c);
    assert forall i :: 0 <= i < |s.out| ==> t.out[i] == s.out[i];
  }

  lemma {:induction false} PushedNames(s: State, t: State, c: Chunk)
    requires Pushed(s, t, c) && NamedOnce(s)
    ensures NamedOnce(t)
  {
    assert forall i :: 0 <= i < |s.out| ==> t.out[i] == s.out[i];
  }

  lemma {:induction false} PushedRest(s: State, t: State, c: Chunk)
    requires Pushed(s, t, c) && OneId(s) && TextLast(s) && StartFirst(s) && s.chatId != "" && !s.sawText && s.out != []
    requires t.chatId == s.chatId
    ensures OneId(t) && TextLast(t) && StartFirst(t)
  {
    assert forall i :: 0 <= i < |s.out| ==> t.out[i] == s.out[i];
  }

  lemma {:induction false} PushKeepsShape(s: State, callId: string, name: string, delta: string)
    requires Shaped(s) && !s.sawText && s.out != []
    ensures Shaped(PushTool(s, callId, name, delta))
  {
    hide OneId, Numbered, NamedOnce, TextLast, StartFirst, IdFor, TrimSpace, Get;
    EnsureKeepsShape(s, "");
    var t := PushTool(s, callId, name, delta);
    var c := PushIsPushed(s, callId, name, delta);
    PushedNumbers(EnsureId(s, ""), t, c);
    PushedNames(EnsureId(s, ""), t, c);
    PushedRest(EnsureId(s, ""), t, c);
  }

  lemma {:induction false} ToolKeepsShape(s: State, callId: string, name: string, delta: string)
    requires Shaped(s)
    ensures Shaped(SendTool(s, callId, name, delta))
  {
    hide Shaped, PushTool, TrimSpace;
    if TrimSpace(callId) != "" && !s.sawText {
      StartKeepsShape(s);
      PushKeepsShape(SendStart(s), callId, name, delta);
    }
  }

  lemma {:induction false} CopyKeepsShape(s: State, t: State)
    requires Shaped(s) && SameShape(s, t)
    ensures Shaped(t)
  {
    hide CallOrder;
  }

  lemma {:induction false} HandleKeepsShape(s: State, ev: Event)
    requires Shaped(s)
    ensures Shaped(Handle(s, ev))
  {
    if ev.root.Some? {
      hide Shaped, TrimSpace, SendTool, SendText, IdFor, KindOf, IsFinal, Lower, ArgsDelta, CallIdOf, TargetOf;
      var root, name := ev.root.value, EventName(ev);
      CommonKeepsShape(s, name, root);
      var t := Common(s, name, root);
      hide CommonId;
      match KindOf(name)
      case Created => if root.response.Some? { EnsureKeepsShape(t, TrimSpace(root.response.value.id)); }
      case TextDelta => TextKeepsShape(t, TrimSpace(root.delta));
      case OutputItemEvent => ItemKeepsShape(t, root);
      case ArgsDeltaEvent => ArgsKeepShape(t, root);
      case ArgsDone =>
      case Completed => CopyKeepsShape(t, t.(final := Some(root)));
      case Other => CopyKeepsShape(t, t.(final := Some(root)));
    }
  }

  lemma {:induction false} CommonKeepsShape(s: State, name: string, root: Root)
    requires Shaped(s)
    ensures Shaped(Common(s, name, root))
  {
    hide Shaped, TrimSpace, IdFor, Lower;
    EnsureKeepsShape(s, TrimSpace(root.responseId));
    EnsureKeepsShape(EnsureId(s, TrimSpace(root.responseId)), TrimSpace(root.id));
    EnsureKeepsShape(s, TrimSpace(root.id));
  }

  lemma {:induction false} ItemKeepsShape(s: State, root: Root)
    requires Shaped(s)
    ensures Shaped(OutputItem(s, root))
  {
    hide Shaped, TrimSpace, SendTool, ArgsDelta, CallIdOf;
    if root.item.Some? {
      var item := root.item.value;
      var itemId, callId, name := TrimSpace(item.id), CallIdOf(item), TrimSpace(item.name);
      var t := s.(canonical := if itemId != "" && callId != "" then s.canonical[itemId := callId] else s.canonical,
                  names := if name != "" then s.names[callId := name] else s.names,
                  args := if item.arguments != "" then s.args[callId := item.arguments] else s.args);
      CopyKeepsShape(s, t);
      ToolKeepsShape(t, callId, name, ArgsDelta(Get(s.args, callId), item.arguments));
    }
  }

  lemma {:induction false} ArgsKeepShape(s: State, root: Root)
    requires Shaped(s)
    ensures Shaped(ArgsEvent(s, root))
  {
    hide Shaped, TrimSpace, SendTool, TargetOf;
    var callId := TargetOf(s, root);
    var t := if root.delta != "" then s.(args := s.args[callId := Get(s.args, callId) + root.delta]) else s;
    CopyKeepsShape(s, t);
    ToolKeepsShape(t, callId, "", root.delta);
  }

  /** Every event sequence: one id, dense stable numbering, names once, no tool chunk after text, start first. */
  lemma {:induction false} RunIsShaped(clock: string, events: seq<Event>)
    ensures Shaped(Run(clock, events))
  {
    hide Handle;
    if events != [] {
      RunIsShaped(clock, events[..|events| - 1]);
      HandleKeepsShape(Run(clock, events[..|events| - 1]), events[|events| - 1]);
    }
  }

  /** Whether some event of the stream is taken as the final response. */
  predicate Captures(ev: Event) {
    ev.root.Some? &&
    var kind := KindOf(EventName(ev));
    kind == Completed || (kind == Other && IsFinal(EventName(ev), ev.root.value))
  }

  lemma {:induction false} SendingKeepsFinal(s: State, callId: string, name: string, delta: string)
    ensures SendTool(s, callId, name, delta).final == s.final && SendText(s, delta).final == s.final
  {
    hide TrimSpace, IdFor, Get;
  }

  lemma {:induction false} ToolEventsKeepFinal(s: State, root: Root)
    ensures OutputItem(s, root).final == s.final && ArgsEvent(s, root).final == s.final
  {
    hide TrimSpace, SendTool, ArgsDelta, Get, TargetOf;
    forall t, callId, name, delta ensures SendTool(t, callId, name, delta).final == t.final {
      SendingKeepsFinal(t, callId, name, delta);
    }
  }

  lemma {:induction false} DispatchCaptures(s: State, name: string, root: Root)
    ensures Dispatch(s, name, root).final
         == if KindOf(name) == Completed || (KindOf(name) == Other && IsFinal(name, root)) then Some(root) else s.final
  {
    hide TrimSpace, KindOf, IsFinal, OutputItem, ArgsEvent, SendText, IdFor;
    ToolEventsKeepFinal(s, root);
    SendingKeepsFinal(s, "", "", TrimSpace(root.delta));
  }

  lemma {:induction false} HandleCaptures(s: State, ev: Event)
    ensures Handle(s, ev).final == if Captures(ev) then ev.root else s.final
  {
    hide KindOf, IsFinal, CommonId, EventName, Dispatch;
    if ev.root.Some? {
      DispatchCaptures(Common(s, EventName(ev), ev.root.value), EventName(ev), ev.root.value);
    }
  }

  lemma {:induction false} FinalIffCaptured(clock: string, events: seq<Event>)
    ensures Run(clock, events).final.Some? <==> exists i :: 0 <= i < |events| && Captures(events[i])
  {
    hide Handle, Captures;
    if events != [] {
      var n := |events| - 1;
      FinalIffCaptured(clock, events[..n]);
      HandleCaptures(Run(clock, events[..n]), events[n]);
      CapturesHasRoot(events[n]);
      assert forall i :: 0 <= i < n ==> events[..n][i] == events[i];
    }
  }

  lemma {:induction false} CapturesHasRoot(ev: Event)
    ensures Captures(ev) ==> ev.root.Some?
  {
  }

  /** Terminal chunk and [DONE] close the output exactly when a final response was captured, else never appear. */
  lemma {:induction false} TerminalExactlyOnceAndLast(clock: string, events: seq<Event>)
    ensures var body, out := Run(clock, events).out, Close(Run(clock, events)).out;
            && body <= out
            && (forall i :: 0 <= i < |body| ==> !body[i].Terminal? && !body[i].Done?)
            && (if exists i :: 0 <= i < |events| && Captures(events[i]) then
                  && |out| >= 3 && out[|out| - 1] == Done && out[|out| - 2].Terminal?
                  && (forall i :: 0 <= i < |out| - 2 ==> !out[i].Terminal? && !out[i].Done?)
                  && (forall i :: 0 <= i < |out| - 1 ==> out[i].id == out[0].id)
                else out == body)
  {
    hide Captures, Shaped, Run;
    var s := Run(clock, events);
    RunIsShaped(clock, events);
    FinalIffCaptured(clock, events);
    BodyIsOpen(s);
    if s.final.Some? { CloseAppends(s); }
  }

  lemma {:induction false} BodyIsOpen(s: State)
    requires Shaped(s)
    ensures forall i :: 0 <= i < |s.out| ==> !s.out[i].Terminal? && !s.out[i].Done? && s.out[i].id == s.chatId
  {
    hide CallOrder;
  }

  lemma {:induction false} CloseIs(s: State)
    requires s.final.Some?
    ensures var root := s.final.value;
            var u := SendStart(EnsureId(s, if root.response.Some? then root.response.value.id else root.id));
            Close(s).out == u.out + [Terminal(u.chatId, FinishOf(u, root)), Done]
  {
    hide FinishOf, IdFor;
  }

  lemma {:induction false} CloseAppends(s: State)
    requires Shaped(s) && s.final.Some?
    ensures var out := Close(s).out;
            && s.out <= out && |out| >= 3 && out[|out| - 1] == Done && out[|out| - 2].Terminal?
            && (forall i :: 0 <= i < |out| - 2 ==> !out[i].Terminal? && !out[i].Done?)
            && (forall i :: 0 <= i < |out| - 1 ==> out[i].id == out[0].id)
  {
    hide Shaped, FinishOf, EnsureId, Close, SendStart;
    var root := s.final.value;
    var seed := if root.response.Some? then root.response.value.id else root.id;
    EnsureKeepsShape(s, seed);
    var t := EnsureId(s, seed);
    StartKeepsShape(t);
    StartExtends(s, seed);
    BodyIsOpen(SendStart(t));
    CloseIs(s);
    var u := SendStart(t);
    Closed(u.out, u.chatId, FinishOf(u, root));
  }

  lemma {:induction false} StartExtends(s: State, seed: string)
    ensures s.out <= SendStart(EnsureId(s, seed)).out
  {
    hide IdFor;
  }

  lemma {:induction false} Closed(body: seq<Chunk>, id: string, finish: string)
    requires body != [] && forall i :: 0 <= i < |body| ==> !body[i].Terminal? && !body[i].Done? && body[i].id == id
    ensures var out := body + [Terminal(id, finish), Done];
            && body <= out && |out| >= 3 && out[|out| - 1] == Done && out[|out| - 2].Terminal?
            && (forall i :: 0 <= i < |out| - 2 ==> !out[i].Terminal? && !out[i].Done?)
            && (forall i :: 0 <= i < |out| - 1 ==> out[i].id == out[0].id)
  {
  }

  // ---------------------------------------------------------------- text

  function Texts(out: seq<Chunk>): seq<string> {
    if out == [] then [] else
      Texts(out[..|out| - 1]) + (if out[|out| - 1].Content? then [out[|out| - 1].content] else [])
  }

  function TextOf(ev: Event): seq<string> {
    if ev.root.Some? && KindOf(EventName(ev)) == TextDelta && TrimSpace(ev.root.value.delta) != ""
    then [TrimSpace(ev.root.value.delta)] else []
  }

  function TextsSent(events: seq<Event>): seq<string> {
    if events == [] then [] else TextsSent(events[..|events| - 1]) + TextOf(events[|events| - 1])
  }

  lemma {:induction false} TextsStep(out: seq<Chunk>, c: Chunk)
    ensures Texts(out + [c]) == Texts(out) + (if c.Content? then [c.content] else [])
  {
    assert (out + [c])[..|out|] == out;
  }

  lemma {:induction false} ToolKeepsTexts(s: State, callId: string, name: string, delta: string)
    ensures Texts(SendTool(s, callId, name, delta).out) == Texts(s.out)
  {
    hide TrimSpace, Texts, IdFor, Get;
    var t := EnsureId(s, "");
    TextsStep(t.out, Start(t.chatId));
    var u := SendStart(s);
    var v := SendTool(s, callId, name, delta);
    if v != s {
      TextsStep(u.out, v.out[|u.out|]);
      assert v.out == u.out + [v.out[|u.out|]];
    }
  }

  lemma {:induction false} ItemKeepsTexts(s: State, root: Root)
    ensures Texts(OutputItem(s, root).out) == Texts(s.out)
  {
    hide TrimSpace, SendTool, Texts, CallIdOf, ArgsDelta, Get;
    if root.item.Some? {
      var item := root.item.value;
      var itemId, callId, name := TrimSpace(item.id), CallIdOf(item), TrimSpace(item.name);
      var t := s.(canonical := if itemId != "" && callId != "" then s.canonical[itemId := callId] else s.canonical,
                  names := if name != "" then s.names[callId := name] else s.names,
                  args := if item.arguments != "" then s.args[callId := item.arguments] else s.args);
      ToolKeepsTexts(t, callId, name, ArgsDelta(Get(s.args, callId), item.arguments));
    }
  }

  lemma {:induction false} ArgsKeepTexts(s: State, root: Root)
    ensures Texts(ArgsEvent(s, root).out) == Texts(s.out)
  {
    hide SendTool, Texts, Get, TargetOf;
    var callId := TargetOf(s, root);
    ToolKeepsTexts(s, callId, "", root.delta);
    ToolKeepsTexts(s.(args := s.args[callId := Get(s.args, callId) + root.delta]), callId, "", root.delta);
  }

  lemma {:induction false} HandleSendsText(s: State, ev: Event)
    ensures Texts(Handle(s, ev).out) == Texts(s.out) + TextOf(ev)
  {
    hide TrimSpace, KindOf, IsFinal, Lower, IdFor, OutputItem, ArgsEvent, Texts, CommonId;
    if ev.root.Some? {
      var root, name := ev.root.value, EventName(ev);
      var t := Common(s, name, root);
      TrimSpaceIdempotent(root.delta);
      TextsStep(t.out, Content(EnsureId(t, "").chatId, TrimSpace(root.delta)));
      ItemKeepsTexts(t, root);
      ArgsKeepTexts(t, root);
    }
  }

  /** The content chunks are exactly the trimmed non-blank text deltas, in order. */
  lemma {:induction false} TextsAreTheTrimmedDeltas(clock: string, events: seq<Event>)
    ensures Texts(Run(clock, events).out) == TextsSent(events)
  {
    hide Handle, TextOf;
    if events != [] {
      TextsAreTheTrimmedDeltas(clock, events[..|events| - 1]);
      HandleSendsText(Run(clock, events[..|events| - 1]), events[|events| - 1]);
    }
  }

  // ---------------------------------------------------------------- tool-call arguments

  /** The argument fragments sent for one call, joined. */
  function Emitted(out: seq<Chunk>, callId: string): string {
    if out == [] then "" else
      var last := out[|out| - 1];
      Emitted(out[..|out| - 1], callId) + (if last.Tool? && last.callId == callId then last.args else "")
  }

  /** What was sent for a call is a prefix of its accumulated arguments, and all of them while no text was sent. */
  ghost predicate Tracked(s: State, c: string) {
    Emitted(s.out, c) <= Get(s.args, c) && (!s.sawText ==> Emitted(s.out, c) == Get(s.args, c))
  }

  ghost predicate ArgsTracked(s: State) {
    && (forall c :: c != "" ==> Tracked(s, c))
    && (forall x :: x in s.canonical ==> TrimSpace(s.canonical[x]) == s.canonical[x])
  }

  predicate IsCallItem(ev: Event) {
    ev.root.Some? && KindOf(EventName(ev)) == OutputItemEvent && ev.root.value.item.Some?
    && TrimSpace(ev.root.value.item.value.kind) == "function_call" && CallIdOf(ev.root.value.item.value) != ""
  }

  /** A non-empty snapshot repeats or extends the arguments accumulated so far, and is not blank unless it repeats. */
  predicate Extends(prev: string, next: string) {
    next == "" || next == prev || (TrimSpace(next) != "" && prev <= next)
  }

  predicate SnapshotExtends(s: State, ev: Event) {
    IsCallItem(ev) ==> Extends(Get(s.args, CallIdOf(ev.root.value.item.value)), ev.root.value.item.value.arguments)
  }

  /** Whether a snapshot keeps what was sent a prefix of the arguments, and before any text equal to them. */
  predicate Fits(s: State, callId: string, next: string) {
    if s.sawText then next == "" || Emitted(s.out, callId) <= next else Extends(Get(s.args, callId), next)
  }

  predicate SnapshotFits(s: State, ev: Event) {
    IsCallItem(ev) ==> Fits(s, CallIdOf(ev.root.value.item.value), ev.root.value.item.value.arguments)
  }

  lemma {:induction false} EmittedStep(out: seq<Chunk>, c: Chunk, callId: string)
    ensures Emitted(out + [c], callId) == Emitted(out, callId) + (if c.Tool? && c.callId == callId then c.args else "")
  {
    assert (out + [c])[..|out|] == out;
  }

  lemma {:induction false} StartEmitsNothing(s: State, c: string)
    ensures var t := SendStart(s);
            && t.args == s.args && t.sawText == s.sawText && t.canonical == s.canonical
            && Emitted(t.out, c) == Emitted(s.out, c)
  {
    hide Emitted, IdFor;
    EmittedStep(EnsureId(s, "").out, Start(EnsureId(s, "").chatId), c);
  }

  lemma {:induction false} PushEmits(s: State, callId: string, name: string, delta: string, c: string)
    ensures var t := PushTool(s, callId, name, delta);
            && t.args == s.args && t.sawText == s.sawText && t.canonical == s.canonical
            && Emitted(t.out, c) == Emitted(s.out, c) + (if c == callId then delta else "")
  {
    hide Emitted, IdFor, TrimSpace, Get;
    var t := PushTool(s, callId, name, delta);
    EmittedStep(s.out, t.out[|s.out|], c);
  }

  lemma {:induction false} SendToolEmits(s: State, callId: string, name: string, delta: string, c: string)
    ensures var t := SendTool(s, callId, name, delta);
            && t.args == s.args && t.sawText == s.sawText && t.canonical == s.canonical
            && Emitted(t.out, c)
               == Emitted(s.out, c) + (if c == callId && TrimSpace(callId) != "" && !s.sawText then delta else "")
  {
    hide TrimSpace, Emitted, SendStart, PushTool;
    StartEmitsNothing(s, c);
    PushEmits(SendStart(s), callId, name, delta, c);
  }

  /** Cutting off what was already seen completes the past to the snapshot exactly when the snapshot extends it. */
  lemma {:induction false} ArgsDeltaCompletesIff(prev: string, next: string)
    requires next != ""
    ensures prev + ArgsDelta(prev, next) == next <==> Extends(prev, next)
  {
    hide TrimSpace;
    if TrimSpace(next) != "" && !(prev <= next) {
      assert |prev + next| > |next|;
    }
  }

  /** The state in which a function-call item sends its chunk. */
  function Noted(s: State, item: Item): State {
    var itemId, callId, name := TrimSpace(item.id), CallIdOf(item), TrimSpace(item.name);
    s.(canonical := if itemId != "" && callId != "" then s.canonical[itemId := callId] else s.canonical,
       names := if name != "" then s.names[callId := name] else s.names,
       args := if item.arguments != "" then s.args[callId := item.arguments] else s.args)
  }

  lemma {:induction false} ItemIsSend(s: State, root: Root)
    requires root.item.Some? && TrimSpace(root.item.value.kind) == "function_call"
    ensures var item := root.item.value;
            OutputItem(s, root) == SendTool(Noted(s, item), CallIdOf(item), TrimSpace(item.name),
                                            ArgsDelta(Get(s.args, CallIdOf(item)), item.arguments))
  {
    hide TrimSpace, SendTool, ArgsDelta, CallIdOf, Get;
  }

  /** What a function-call item does to the accumulated and to the sent arguments. */
  lemma {:induction false} ItemEffect(s: State, root: Root, c: string)
    requires root.item.Some? && TrimSpace(root.item.value.kind) == "function_call"
    ensures var item, u := root.item.value, OutputItem(s, root);
            var callId := CallIdOf(item);
            && u.args == (if item.arguments != "" then s.args[callId := item.arguments] else s.args)
            && u.sawText == s.sawText
            && u.canonical == (if TrimSpace(item.id) != "" && callId != ""
                               then s.canonical[TrimSpace(item.id) := callId] else s.canonical)
            && Emitted(u.out, c) == Emitted(s.out, c)
               + (if c == callId && callId != "" && !s.sawText
                  then ArgsDelta(Get(s.args, callId), item.arguments) else "")
  {
    hide TrimSpace, SendTool, Emitted, ArgsDelta, CallIdOf, OutputItem, Get;
    var item := root.item.value;
    CallIdTrimmed(item);
    ItemIsSend(s, root);
    SendToolEmits(Noted(s, item), CallIdOf(item), TrimSpace(item.name),
                  ArgsDelta(Get(s.args, CallIdOf(item)), item.arguments), c);
  }

  lemma {:induction false} ItemTracksIff(s: State, root: Root)
    requires ArgsTracked(s) && root.item.Some? && TrimSpace(root.item.value.kind) == "function_call"
    ensures var callId := CallIdOf(root.item.value);
            ArgsTracked(OutputItem(s, root)) <==> callId == "" || Fits(s, callId, root.item.value.arguments)
  {
    hide TrimSpace, Emitted, ArgsDelta, Extends, CallIdOf, OutputItem;
    var item, u := root.item.value, OutputItem(s, root);
    var callId := CallIdOf(item);
    CallIdTrimmed(item);
    ItemEffect(s, root, callId);
    forall c | c != "" && c != callId ensures Tracked(u, c) {
      assert Tracked(s, c);
      ItemEffect(s, root, c);
    }
    if callId != "" {
      var prev, next := Get(s.args, callId), item.arguments;
      assert Tracked(s, callId);
      EmptySnapshot(prev);
      if next != "" { ArgsDeltaCompletesIff(prev, next); }
      ExtendsIsPrefix(prev, next);
      assert ArgsTracked(u) ==> Tracked(u, callId);
    }
  }

  lemma {:induction false} CallIdTrimmed(item: Item)
    ensures TrimSpace(CallIdOf(item)) == CallIdOf(item)
  {
    TrimSpaceIdempotent(item.id);
    TrimSpaceIdempotent(item.callId);
  }

  lemma {:induction false} EmptySnapshot(prev: string)
    ensures ArgsDelta(prev, "") == "" && Extends(prev, "")
  {
    assert TrimSpace("") == "";
  }

  lemma {:induction false} ExtendsIsPrefix(prev: string, next: string)
    ensures Extends(prev, next) && next != "" ==> prev <= next
  {
  }

  /** What an argument delta does to the accumulated and to the sent arguments. */
  lemma {:induction false} ArgsEffect(s: State, root: Root, c: string)
    requires TrimSpace(TargetOf(s, root)) == TargetOf(s, root) != ""
    ensures var callId, u := TargetOf(s, root), ArgsEvent(s, root);
            && u.canonical == s.canonical && u.sawText == s.sawText
            && u.args == (if root.delta == "" then s.args else s.args[callId := Get(s.args, callId) + root.delta])
            && Emitted(u.out, c) == Emitted(s.out, c) + (if c == callId && !s.sawText then root.delta else "")
  {
    hide TrimSpace, SendTool, Emitted, TargetOf, Get;
    var callId := TargetOf(s, root);
    var t := if root.delta != "" then s.(args := s.args[callId := Get(s.args, callId) + root.delta]) else s;
    SendToolEmits(t, callId, "", root.delta, c);
  }

  lemma {:induction false} TargetIsTrimmed(s: State, root: Root)
    requires ArgsTracked(s)
    ensures TrimSpace(TargetOf(s, root)) == TargetOf(s, root)
  {
    hide TrimSpace, Tracked;
    TrimSpaceIdempotent(root.itemId);
  }

  lemma {:induction false} ArgsEventTracks(s: State, root: Root)
    requires ArgsTracked(s)
    ensures ArgsTracked(ArgsEvent(s, root))
  {
    hide TrimSpace, Emitted, ArgsEvent, TargetOf;
    TargetIsTrimmed(s, root);
    var callId, u := TargetOf(s, root), ArgsEvent(s, root);
    if callId == "" {
      NoTarget(s, root);
    } else {
      ArgsEffect(s, root, callId);
      forall c | c != "" ensures Tracked(u, c) {
        assert Tracked(s, c);
        ArgsEffect(s, root, c);
      }
    }
  }

  lemma {:induction false} NoTarget(s: State, root: Root)
    requires TargetOf(s, root) == ""
    ensures ArgsEvent(s, root) == s
  {
    hide TargetOf;
  }

  lemma {:induction false} TextTracks(s: State, delta: string)
    requires ArgsTracked(s)
    ensures ArgsTracked(SendText(s, delta))
  {
    hide TrimSpace, Emitted, IdFor;
    var t := EnsureId(s, "");
    forall c | c != "" ensures Tracked(SendText(s, delta), c) {
      assert Tracked(s, c);
      EmittedStep(t.out, Content(t.chatId, delta), c);
    }
  }

  lemma {:induction false} CopyTracks(s: State, t: State)
    requires ArgsTracked(s) && t.out == s.out && t.args == s.args
    requires t.sawText == s.sawText && t.canonical == s.canonical
    ensures ArgsTracked(t)
  {
    hide TrimSpace, Emitted;
    forall c | c != "" ensures Tracked(t, c) { assert Tracked(s, c); }
  }

  /** One event keeps the sent arguments exact if and only if its snapshot fits, before and after text. */
  lemma {:induction false} HandleTracksIff(s: State, ev: Event)
    requires ArgsTracked(s)
    ensures ArgsTracked(Handle(s, ev)) <==> SnapshotFits(s, ev)
  {
    hide TrimSpace, KindOf, Dispatch, OutputItem, CallIdOf, Fits, ArgsTracked, CommonId, EventName;
    if ev.root.Some? {
      var root, name := ev.root.value, EventName(ev);
      var t := Common(s, name, root);
      CopyTracks(s, t);
      DispatchKeepsCanonical(t, name, root);
      if KindOf(name) != OutputItemEvent {
        OtherKindsTrack(t, name, root);
      } else {
        OtherItemIsIgnored(t, root);
        if root.item.Some? && TrimSpace(root.item.value.kind) == "function_call" {
          ItemTracksIff(t, root);
          CopyFits(s, t, CallIdOf(root.item.value), root.item.value.arguments);
        }
      }
    }
  }

  lemma {:induction false} QuietKinds(s: State, name: string, root: Root)
    requires !KindOf(name).TextDelta? && !KindOf(name).OutputItemEvent? && !KindOf(name).ArgsDeltaEvent?
    ensures Dispatch(s, name, root)
         == s.(chatId := Dispatch(s, name, root).chatId, final := Dispatch(s, name, root).final)
  {
    hide TrimSpace, KindOf, IsFinal, IdFor, ArgsEvent, SendText, OutputItem;
    var t := Dispatch(s, name, root);
    match KindOf(name)
    case Created =>
      if root.response.Some? {
        assert t == s || t == EnsureId(s, TrimSpace(root.response.value.id));
      } else {
        assert t == s;
      }
    case ArgsDone => assert t == s;
    case Completed => assert t == s.(final := Some(root));
    case Other => assert t == s || t == s.(final := Some(root));
  }

  lemma {:induction false} OtherKindsTrack(s: State, name: string, root: Root)
    requires ArgsTracked(s) && KindOf(name) != OutputItemEvent
    ensures ArgsTracked(Dispatch(s, name, root))
  {
    hide TrimSpace, KindOf, ArgsEvent, SendText, ArgsTracked, IsFinal, EnsureId;
    if KindOf(name) == TextDelta {
      TextTracks(s, TrimSpace(root.delta));
    } else if KindOf(name) == ArgsDeltaEvent {
      ArgsEventTracks(s, root);
    } else {
      QuietKinds(s, name, root);
      hide Dispatch;
      CopyTracks(s, Dispatch(s, name, root));
    }
  }

  lemma {:induction false} OtherItemIsIgnored(s: State, root: Root)
    ensures !(root.item.Some? && TrimSpace(root.item.value.kind) == "function_call") ==> OutputItem(s, root) == s
  {
  }

  lemma {:induction false} CopyFits(s: State, t: State, callId: string, next: string)
    requires t.out == s.out && t.args == s.args && t.sawText == s.sawText
    ensures Fits(t, callId, next) <==> Fits(s, callId, next)
  {
    hide Extends, Emitted;
  }

  /** A snapshot that extends the accumulated arguments always fits. */
  lemma {:induction false} ExtendingFits(s: State, ev: Event)
    requires ArgsTracked(s) && SnapshotExtends(s, ev)
    ensures SnapshotFits(s, ev)
  {
    hide TrimSpace, Emitted, CallIdOf;
    if IsCallItem(ev) { assert Tracked(s, CallIdOf(ev.root.value.item.value)); }
  }

  lemma {:induction false} InitIsTracked(clock: string)
    ensures ArgsTracked(Init(clock))
  {
    assert forall c :: Tracked(Init(clock), c);
  }

  ghost predicate TrackedUpTo(clock: string, events: seq<Event>, n: nat)
    requires n <= |events|
  {
    forall i :: 0 <= i <= n ==> ArgsTracked(Run(clock, events[..i]))
  }

  ghost predicate FitsUpTo(clock: string, events: seq<Event>, n: nat)
    requires n <= |events|
  {
    forall i :: 0 <= i < n ==> SnapshotFits(Run(clock, events[..i]), events[i])
  }

  lemma {:induction false} OneMoreTracked(clock: string, events: seq<Event>, n: nat)
    requires 0 < n <= |events|
    ensures TrackedUpTo(clock, events, n) <==> TrackedUpTo(clock, events, n - 1) && ArgsTracked(Run(clock, events[..n]))
    ensures TrackedUpTo(clock, events, n - 1) ==> ArgsTracked(Run(clock, events[..n - 1]))
  {
    hide ArgsTracked, Run;
  }

  lemma {:induction false} OneMoreFits(clock: string, events: seq<Event>, n: nat)
    requires 0 < n <= |events|
    ensures FitsUpTo(clock, events, n)
        <==> FitsUpTo(clock, events, n - 1) && SnapshotFits(Run(clock, events[..n - 1]), events[n - 1])
  {
    hide SnapshotFits, Run;
  }

  /** Whole streams: sent and accumulated arguments agree after every event if and only if every snapshot fits. */
  lemma {:induction false} ArgumentsTrackedIff(clock: string, events: seq<Event>, n: nat)
    requires n <= |events|
    ensures TrackedUpTo(clock, events, n) <==> FitsUpTo(clock, events, n)
  {
    hide Handle, SnapshotFits, ArgsTracked;
    if n == 0 {
      InitIsTracked(clock);
      assert events[..0] == [];
    } else {
      ArgumentsTrackedIff(clock, events, n - 1);
      OneMoreTracked(clock, events, n);
      OneMoreFits(clock, events, n);
      hide TrackedUpTo, FitsUpTo;
      var s := Run(clock, events[..n - 1]);
      assert events[..n][..n - 1] == events[..n - 1];
      assert Run(clock, events[..n]) == Handle(s, events[n - 1]);
      if ArgsTracked(s) { HandleTracksIff(s, events[n - 1]); }
    }
  }

  /** If all snapshots extend the past, what was sent for a call never runs ahead of or repeats its arguments. */
  lemma {:induction false} ArgumentsAreNeverRepeated(clock: string, events: seq<Event>)
    requires forall i :: 0 <= i < |events| ==> SnapshotExtends(Run(clock, events[..i]), events[i])
    ensures ArgsTracked(Run(clock, events))
  {
    hide Handle, SnapshotExtends;
    if events == [] {
      assert forall c :: Tracked(Init(clock), c);
    } else {
      var n := |events| - 1;
      forall i | 0 <= i < n ensures SnapshotExtends(Run(clock, events[..n][..i]), events[..n][i]) {
        assert events[..n][..i] == events[..i];
      }
      ArgumentsAreNeverRepeated(clock, events[..n]);
      ExtendingFits(Run(clock, events[..n]), events[n]);
      HandleTracksIff(Run(clock, events[..n]), events[n]);
    }
  }

  /** A finished function-call item with a snapshot of its arguments. */
  function ItemDone(args: string): Event {
    Event("response.output_item.done",
          Some(Root("", "", "", "", "", Some(Item("function_call", "i", "c", "f", args)), None, None, "")))
  }

  lemma {:induction false} ItemDoneKind()
    ensures var name := "response.output_item.done"; TrimSpace(name) == name && KindOf(name) == OutputItemEvent
  {
    hide TrimSpace, Lower;
    var name := "response.output_item.done";
    TrimSpaceKeeps(name);
    LowerKeepsLower(name);
    assert |name| == 25 && |"response.created"| == 16 && |"response.output_text.delta"| == 26;
  }

  lemma {:induction false} ItemDoneIsCall(args: string)
    ensures IsCallItem(ItemDone(args)) && CallIdOf(ItemDone(args).root.value.item.value) == "c"
  {
    hide TrimSpace, KindOf;
    ItemDoneKind();
    TrimSpaceKeeps("function_call");
    TrimSpaceKeeps("c");
  }

  /** The condition is needed: after the snapshot "a" the snapshot "b" is sent whole, so the client holds "ab". */
  lemma {:induction false} NonExtendingSnapshotIsAppended(clock: string)
    ensures var s := Run(clock, [ItemDone("a"), ItemDone("b")]);
            Emitted(s.out, "c") == "ab" && Get(s.args, "c") == "b" && !ArgsTracked(s)
  {
    hide TrimSpace, ItemDone, IsCallItem, CallIdOf, Handle;
    var one, two := [ItemDone("a")], [ItemDone("a"), ItemDone("b")];
    ItemDoneIsCall("a");
    ItemDoneIsCall("b");
    assert one[..0] == [] && two[..1] == one;
    var s0 := Run(clock, one[..0]);
    assert s0 == Init(clock);
    SnapshotSent(s0, "a");
    assert "a"[0] != "b"[0];
    SnapshotSent(Run(clock, one), "b");
    assert Tracked(Run(clock, two), "c") ==> "ab" <= "b";
    assert |"ab"| > |"b"|;
  }

  lemma {:induction false} SnapshotSent(s: State, args: string)
    requires !s.sawText && args in {"a", "b"} && !(Get(s.args, "c") <= args && Get(s.args, "c") != "")
    ensures var t := Handle(s, ItemDone(args));
            !t.sawText && Get(t.args, "c") == args && Emitted(t.out, "c") == Emitted(s.out, "c") + args
  {
    hide TrimSpace, KindOf, OutputItem, Emitted, CommonId, CallIdOf, ArgsDelta;
    ItemDoneIsCall(args);
    var ev := ItemDone(args);
    var t := Common(s, EventName(ev), ev.root.value);
    ItemEffect(t, ev.root.value, "c");
    WholeSnapshot(Get(s.args, "c"), args);
  }

  lemma {:induction false} WholeSnapshot(prev: string, args: string)
    requires args in {"a", "b"} && !(prev <= args && prev != "")
    ensures ArgsDelta(prev, args) == args
  {
    TrimMeaning(args, IsSpace);
  }

  /** A snapshot that closes a call before any text leaves exactly that snapshot sent, not a repetition of it. */
  lemma {:induction false} FinalSnapshotIsWhatWasSent(clock: string, events: seq<Event>)
    requires forall i :: 0 <= i < |events| ==> SnapshotExtends(Run(clock, events[..i]), events[i])
    requires events != [] && IsCallItem(events[|events| - 1]) && !Run(clock, events).sawText
    requires events[|events| - 1].root.value.item.value.arguments != ""
    ensures var item := events[|events| - 1].root.value.item.value;
            Emitted(Run(clock, events).out, CallIdOf(item)) == item.arguments
  {
    var n := |events| - 1;
    var s, root := Run(clock, events[..n]), events[n].root.value;
    ArgumentsAreNeverRepeated(clock, events);
    ItemSetsArgs(s, events[n]);
    hide Handle, ArgsDelta, TrimSpace, CallIdOf;
    assert Tracked(Run(clock, events), CallIdOf(root.item.value));
  }

  lemma {:induction false} ItemSetsArgs(s: State, ev: Event)
    requires IsCallItem(ev) && ev.root.value.item.value.arguments != ""
    ensures Get(Handle(s, ev).args, CallIdOf(ev.root.value.item.value)) == ev.root.value.item.value.arguments
  {
    hide TrimSpace, KindOf, IsFinal, Lower, IdFor, OutputItem, CallIdOf, ArgsDelta, Emitted;
    var t := Common(s, EventName(ev), ev.root.value);
    assert t.args == s.args;
    ItemEffect(t, ev.root.value, "");
  }

  // ---------------------------------------------------------------- announced items

  predicate Announces(ev: Event, itemId: string) {
    IsCallItem(ev) && TrimSpace(ev.root.value.item.value.id) == itemId
  }

  lemma {:induction false} DispatchKeepsCanonical(s: State, name: string, root: Root)
    ensures if KindOf(name) == OutputItemEvent then Dispatch(s, name, root) == OutputItem(s, root)
            else Dispatch(s, name, root).canonical == s.canonical
  {
    hide TrimSpace, KindOf, IsFinal, IdFor, OutputItem, ArgsEvent, SendText;
    TextKeepsCanonical(s, TrimSpace(root.delta));
    ArgsEventKeepsCanonical(s, root);
  }

  lemma {:induction false} HandleKeepsAnnouncement(s: State, ev: Event, itemId: string)
    requires itemId != ""
    ensures Get(Handle(s, ev).canonical, itemId)
         == if Announces(ev, itemId) then CallIdOf(ev.root.value.item.value) else Get(s.canonical, itemId)
  {
    hide TrimSpace, KindOf, OutputItem, CallIdOf, Get, CommonId, EventName, Dispatch;
    if ev.root.Some? {
      var root, name := ev.root.value, EventName(ev);
      var t := Common(s, name, root);
      DispatchKeepsCanonical(t, name, root);
      ItemKeepsAnnouncement(t, root, itemId);
    }
  }

  lemma {:induction false} TextKeepsCanonical(s: State, delta: string)
    ensures SendText(s, delta).canonical == s.canonical
  {
  }

  lemma {:induction false} ItemKeepsAnnouncement(s: State, root: Root, itemId: string)
    requires itemId != ""
    ensures Get(OutputItem(s, root).canonical, itemId)
         == if root.item.Some? && TrimSpace(root.item.value.kind) == "function_call" && CallIdOf(root.item.value) != ""
               && TrimSpace(root.item.value.id) == itemId
            then CallIdOf(root.item.value) else Get(s.canonical, itemId)
  {
    hide TrimSpace, OutputItem, CallIdOf, Emitted, ArgsDelta;
    OtherItemIsIgnored(s, root);
    if root.item.Some? && TrimSpace(root.item.value.kind) == "function_call" { ItemEffect(s, root, ""); }
  }

  lemma {:induction false} ArgsEventKeepsCanonical(s: State, root: Root)
    ensures ArgsEvent(s, root).canonical == s.canonical
  {
    hide TrimSpace, SendTool, Emitted;
    var callId := TargetOf(s, root);
    SendToolEmits(s, callId, "", root.delta, "");
    SendToolEmits(s.(args := s.args[callId := Get(s.args, callId) + root.delta]), callId, "", root.delta, "");
  }

  lemma {:induction false} AnnouncementLasts(clock: string, events: seq<Event>, k: nat, itemId: string)
    requires k < |events| && itemId != "" && Announces(events[k], itemId)
    requires forall i :: k < i < |events| ==> !Announces(events[i], itemId)
    ensures Get(Run(clock, events).canonical, itemId) == CallIdOf(events[k].root.value.item.value)
    decreases |events|
  {
    hide Handle, Announces, CallIdOf;
    var n := |events| - 1;
    HandleKeepsAnnouncement(Run(clock, events[..n]), events[n], itemId);
    if k < n { AnnouncementLasts(clock, events[..n], k, itemId); }
  }

  /** Deltas of an announced item are sent under the call id it was announced with. */
  lemma {:induction false} DeltasFollowTheirCall(clock: string, events: seq<Event>, k: nat, ev: Event)
    requires ev.root.Some? && KindOf(EventName(ev)) == ArgsDeltaEvent
    requires k < |events| && TrimSpace(ev.root.value.itemId) != ""
    requires Announces(events[k], TrimSpace(ev.root.value.itemId))
    requires forall i :: k < i < |events| ==> !Announces(events[i], TrimSpace(ev.root.value.itemId))
    requires !Run(clock, events).sawText
    ensures var callId := CallIdOf(events[k].root.value.item.value);
            Emitted(Run(clock, events + [ev]).out, callId)
            == Emitted(Run(clock, events).out, callId) + ev.root.value.delta
  {
    var item, root := events[k].root.value.item.value, ev.root.value;
    AnnouncementLasts(clock, events, k, TrimSpace(root.itemId));
    CallIdTrimmed(item);
    assert (events + [ev])[..|events|] == events;
    var s := Run(clock, events);
    assert CallIdOf(item) != "";
    ArgsEventEmits(s, ev, CallIdOf(item));
  }

  lemma {:induction false} ArgsEventEmits(s: State, ev: Event, callId: string)
    requires ev.root.Some? && KindOf(EventName(ev)) == ArgsDeltaEvent && !s.sawText
    requires callId != "" && TrimSpace(callId) == callId && Get(s.canonical, TrimSpace(ev.root.value.itemId)) == callId
    ensures Emitted(Handle(s, ev).out, callId) == Emitted(s.out, callId) + ev.root.value.delta
  {
    hide TrimSpace, KindOf, IsFinal, Lower, IdFor, SendTool, Emitted;
    var root := ev.root.value;
    var t := Common(s, EventName(ev), root);
    assert t.canonical == s.canonical && t.out == s.out && t.sawText == s.sawText;
    SendToolEmits(t, callId, "", root.delta, callId);
    SendToolEmits(t.(args := t.args[callId := Get(t.args, callId) + root.delta]), callId, "", root.delta, callId);
  }

  // ---------------------------------------------------------------- tool names

  /** The names that the chunks of call `c` carry, in order. */
  function NamesSent(out: seq<Chunk>, c: string): seq<string> {
    if out == [] then [] else
      var last := out[|out| - 1];
      NamesSent(out[..|out| - 1], c)
          + (if last.Tool? && last.callId == c && last.name.Some? then [last.name.value] else [])
  }

  /** The event is a function-call item of call `c` with a name. */
  predicate GivesName(ev: Event, c: string) {
    IsCallItem(ev) && CallIdOf(ev.root.value.item.value) == c && TrimSpace(ev.root.value.item.value.name) != ""
  }

  /** The name of the first item event that named call `c` before any text. */
  function FirstName(events: seq<Event>, c: string): Option<string> {
    if events == [] then None else
      var before, ev := FirstName(events[..|events| - 1], c), events[|events| - 1];
      if before.Some? then before
      else if GivesName(ev, c) && TextsSent(events[..|events| - 1]) == [] then
          Some(TrimSpace(ev.root.value.item.value.name))
      else None
  }

  function AsSeq(o: Option<string>): seq<string> { if o == None then [] else [o.value] }

  lemma {:induction false} NamesStep(out: seq<Chunk>, ch: Chunk, c: string)
    ensures NamesSent(out + [ch], c)
         == NamesSent(out, c) + (if ch.Tool? && ch.callId == c && ch.name.Some? then [ch.name.value] else [])
  {
    assert (out + [ch])[..|out|] == out;
  }

  /** A known name has been sent, unless text came first; names sent and their record agree. */
  ghost predicate NamesTracked(s: State, c: string) {
    && (Get(s.names, c) != "" && !s.sawText ==> c in s.nameSent)
    && (c in s.nameSent <==> NamesSent(s.out, c) != [])
  }

  lemma {:induction false} PushNames(s: State, callId: string, name: string, delta: string, c: string)
    ensures var t, names := PushTool(s, callId, name, delta), NamesWith(s.names, callId, name);
            var unsent := Get(names, callId) != "" && callId !in s.nameSent;
            && t.names == names && t.sawText == s.sawText
            && t.nameSent == (if unsent then s.nameSent + {callId} else s.nameSent)
            && NamesSent(t.out, c) == NamesSent(s.out, c) + (if unsent && c == callId then [Get(names, callId)] else [])
  {
    hide NamesSent, IdFor, TrimSpace, NamesWith, IndexWith;
    var t := PushTool(s, callId, name, delta);
    NamesStep(s.out, t.out[|s.out|], c);
  }

  lemma {:induction false} StartNames(s: State, c: string)
    ensures var t := SendStart(s);
            t.names == s.names && t.sawText == s.sawText && t.nameSent == s.nameSent
            && NamesSent(t.out, c) == NamesSent(s.out, c)
  {
    hide NamesSent, IdFor;
    NamesStep(s.out, Start(EnsureId(s, "").chatId), c);
  }

  /** The name that sending a chunk for `callId` puts on it. */
  function NameNow(s: State, callId: string, name: string): string {
    var known := Get(NamesWith(s.names, callId, name), callId);
    if TrimSpace(callId) == "" || s.sawText || callId in s.nameSent then "" else known
  }

  lemma {:induction false} SendToolNames(s: State, callId: string, name: string, delta: string, c: string)
    ensures var t, now := SendTool(s, callId, name, delta), NameNow(s, callId, name);
            && t.sawText == s.sawText
            && t.names == (if TrimSpace(callId) == "" || s.sawText then s.names else NamesWith(s.names, callId, name))
            && t.nameSent == (if now != "" then s.nameSent + {callId} else s.nameSent)
            && NamesSent(t.out, c) == NamesSent(s.out, c) + (if now != "" && c == callId then [now] else [])
  {
    hide TrimSpace, NamesSent, SendStart, PushTool, NamesWith;
    StartNames(s, c);
    PushNames(SendStart(s), callId, name, delta, c);
  }

  lemma {:induction false} ItemNames(s: State, root: Root, c: string)
    requires root.item.Some? && TrimSpace(root.item.value.kind) == "function_call" && c != "" && NamesTracked(s, c)
    ensures var item, t := root.item.value, OutputItem(s, root);
            var gives := CallIdOf(item) == c && TrimSpace(item.name) != "" && !s.sawText && NamesSent(s.out, c) == [];
            && NamesTracked(t, c) && t.sawText == s.sawText
            && NamesSent(t.out, c) == NamesSent(s.out, c) + (if gives then [TrimSpace(item.name)] else [])
  {
    hide TrimSpace, SendTool, ArgsDelta, CallIdOf, OutputItem, NamesSent;
    var item := root.item.value;
    ItemIsSend(s, root);
    CallIdTrimmed(item);
    TrimSpaceIdempotent(item.name);
    SendToolNames(Noted(s, item), CallIdOf(item), TrimSpace(item.name),
                  ArgsDelta(Get(s.args, CallIdOf(item)), item.arguments), c);
  }

  lemma {:induction false} ArgsNames(s: State, root: Root, c: string)
    requires c != "" && NamesTracked(s, c)
    ensures var t := ArgsEvent(s, root);
            NamesTracked(t, c) && t.sawText == s.sawText && NamesSent(t.out, c) == NamesSent(s.out, c)
  {
    hide SendTool, NamesSent, TargetOf, TrimSpace;
    TrimSpaceKeeps("");
    var callId := TargetOf(s, root);
    var t := if root.delta != "" then s.(args := s.args[callId := Get(s.args, callId) + root.delta]) else s;
    SendToolNames(t, callId, "", root.delta, c);
  }

  lemma {:induction false} TextNames(s: State, delta: string, c: string)
    requires NamesTracked(s, c)
    ensures var t := SendText(s, delta);
            NamesTracked(t, c) && NamesSent(t.out, c) == NamesSent(s.out, c)
            && (t.sawText <==> s.sawText || TrimSpace(delta) != "")
  {
    hide TrimSpace, NamesSent, IdFor, Get;
    NamesStep(s.out, Content(EnsureId(s, "").chatId, delta), c);
  }

  lemma {:induction false} OtherKindsNames(s: State, name: string, root: Root, c: string)
    requires c != "" && NamesTracked(s, c) && KindOf(name) != OutputItemEvent
    ensures var t := Dispatch(s, name, root);
            && NamesTracked(t, c) && NamesSent(t.out, c) == NamesSent(s.out, c)
            && (t.sawText <==> s.sawText || (KindOf(name) == TextDelta && TrimSpace(root.delta) != ""))
  {
    hide TrimSpace, KindOf, ArgsEvent, SendText, NamesTracked, NamesSent, IsFinal, EnsureId;
    if KindOf(name) == TextDelta {
      TrimSpaceIdempotent(root.delta);
      TextNames(s, TrimSpace(root.delta), c);
    } else if KindOf(name) == ArgsDeltaEvent {
      ArgsNames(s, root, c);
    } else {
      QuietKinds(s, name, root);
      hide Dispatch;
      CopyNames(s, Dispatch(s, name, root), c);
    }
  }

  lemma {:induction false} CopyNames(s: State, t: State, c: string)
    requires NamesTracked(s, c) && t.names == s.names && t.nameSent == s.nameSent && t.sawText == s.sawText && t.out
            == s.out
    ensures NamesTracked(t, c)
  {
  }

  lemma {:induction false} HandleNames(s: State, ev: Event, c: string)
    requires c != "" && NamesTracked(s, c)
    ensures var t := Handle(s, ev);
            && NamesTracked(t, c)
            && NamesSent(t.out, c) == NamesSent(s.out, c)
               + (if GivesName(ev, c) && !s.sawText && NamesSent(s.out, c) == []
                  then [TrimSpace(ev.root.value.item.value.name)] else [])
            && (t.sawText <==> s.sawText || TextOf(ev) != [])
  {
    hide TrimSpace, KindOf, Dispatch, OutputItem, CallIdOf, CommonId, EventName, NamesTracked, NamesSent;
    if ev.root.Some? {
      var root, name := ev.root.value, EventName(ev);
      var t := Common(s, name, root);
      CopyNames(s, t, c);
      DispatchKeepsCanonical(t, name, root);
      if KindOf(name) != OutputItemEvent {
        OtherKindsNames(t, name, root, c);
      } else {
        OtherItemIsIgnored(t, root);
        if root.item.Some? && TrimSpace(root.item.value.kind) == "function_call" { ItemNames(t, root, c); }
      }
    }
  }

  /**
    Every event sequence: the names sent for a call are exactly one, that of the first item event that named it before
    any text, or none if there is no such event.
   */
  lemma {:induction false} NamesAreSentOnce(clock: string, events: seq<Event>, c: string)
    requires c != ""
    ensures NamesTracked(Run(clock, events), c)
    ensures NamesSent(Run(clock, events).out, c) == AsSeq(FirstName(events, c))
    ensures Run(clock, events).sawText <==> TextsSent(events) != []
  {
    hide Handle, GivesName, TextOf, TrimSpace;
    if events != [] {
      hide NamesTracked, NamesSent;
      var n := |events| - 1;
      NamesAreSentOnce(clock, events[..n], c);
      HandleNames(Run(clock, events[..n]), events[n], c);
    }
  }

  /** The last chunk is a tool chunk of call `c` with the trimmed name. */
  predicate EndsNamed(out: seq<Chunk>, c: string, name: string) {
    out != [] && out[|out| - 1].Tool? && out[|out| - 1].callId == c && out[|out| - 1].name == Some(TrimSpace(name))
  }

  /** That name is on the chunk which the item event itself sends, so no chunk after it is needed to learn the name. */
  lemma {:induction false} NameIsOnTheItemsChunk(clock: string, events: seq<Event>, ev: Event, c: string)
    requires c != "" && GivesName(ev, c) && TextsSent(events) == [] && FirstName(events, c) == None
    ensures var s, t := Run(clock, events), Run(clock, events + [ev]);
            |t.out| > |s.out| && EndsNamed(t.out, c, ev.root.value.item.value.name)
  {
    hide TrimSpace, CallIdOf, NamesTracked, NamesSent, KindOf, IdFor, CommonId, EventName, ArgsDelta, Get;
    var s := Run(clock, events);
    NamesAreSentOnce(clock, events, c);
    assert (events + [ev])[..|events|] == events;
    var root := ev.root.value;
    var u := Common(s, EventName(ev), root);
    FreshName(u, root, c);
    NotSent(s, c);
    DispatchKeepsCanonical(u, EventName(ev), root);
  }

  lemma {:induction false} NotSent(s: State, c: string)
    requires NamesTracked(s, c) && NamesSent(s.out, c) == []
    ensures c !in s.nameSent
  {
  }

  lemma {:induction false} FreshName(s: State, root: Root, c: string)
    requires c != "" && root.item.Some? && TrimSpace(root.item.value.kind) == "function_call"
    requires CallIdOf(root.item.value) == c && TrimSpace(root.item.value.name) != ""
    ensures !s.sawText && c !in s.nameSent ==>
              var t := OutputItem(s, root);
              |t.out| > |s.out| && EndsNamed(t.out, c, root.item.value.name)
  {
    hide TrimSpace, ArgsDelta, CallIdOf, IdFor, OutputItem;
    var item := root.item.value;
    ItemIsSend(s, root);
    CallIdTrimmed(item);
    TrimSpaceIdempotent(item.name);
  }

  // ---------------------------------------------------------------- the start chunk

  /** A start chunk opens the stream only in front of a tool chunk; text needs none. */
  predicate StartThenTool(out: seq<Chunk>) { out != [] && out[0].Start? ==> |out| > 1 && out[1].Tool? }

  lemma {:induction false} AppendKeepsStart(out: seq<Chunk>, ch: Chunk)
    requires StartThenTool(out) && !ch.Start?
    ensures StartThenTool(out + [ch])
  {
  }

  lemma {:induction false} ToolKeepsStart(s: State, callId: string, name: string, delta: string)
    requires StartThenTool(s.out) && (s.sentStart <==> s.out != [])
    ensures var t := SendTool(s, callId, name, delta); StartThenTool(t.out) && (t.sentStart <==> t.out != [])
  {
    hide TrimSpace, IdFor, NamesWith, NameToSend, IndexWith;
    var u := SendStart(s);
    var t := PushTool(u, callId, name, delta);
    assert t.out == u.out + [t.out[|u.out|]] && t.out[|u.out|].Tool?;
  }

  lemma {:induction false} TextKeepsStart(s: State, delta: string)
    requires StartThenTool(s.out) && (s.sentStart <==> s.out != [])
    ensures var t := SendText(s, delta); StartThenTool(t.out) && (t.sentStart <==> t.out != [])
  {
    hide TrimSpace, IdFor;
    AppendKeepsStart(s.out, Content(EnsureId(s, "").chatId, delta));
  }

  lemma {:induction false} DispatchKeepsStart(s: State, name: string, root: Root)
    requires StartThenTool(s.out) && (s.sentStart <==> s.out != [])
    ensures var t := Dispatch(s, name, root); StartThenTool(t.out) && (t.sentStart <==> t.out != [])
  {
    hide StartThenTool, TrimSpace, KindOf, SendTool, SendText, IsFinal, EnsureId, TargetOf, ArgsDelta, CallIdOf, Get;
    if KindOf(name) == TextDelta {
      TextKeepsStart(s, TrimSpace(root.delta));
    } else if KindOf(name) == ArgsDeltaEvent {
      var callId := TargetOf(s, root);
      ToolKeepsStart(s, callId, "", root.delta);
      ToolKeepsStart(s.(args := s.args[callId := Get(s.args, callId) + root.delta]), callId, "", root.delta);
    } else if KindOf(name) == OutputItemEvent {
      OtherItemIsIgnored(s, root);
      if root.item.Some? && TrimSpace(root.item.value.kind) == "function_call" {
        var item := root.item.value;
        ItemIsSend(s, root);
        ToolKeepsStart(Noted(s, item), CallIdOf(item), TrimSpace(item.name),
                       ArgsDelta(Get(s.args, CallIdOf(item)), item.arguments));
        hide OutputItem;
      }
    } else {
      QuietKinds(s, name, root);
      hide Dispatch;
    }
  }

  /** In every stream a start chunk is followed by the tool chunk it opens the stream for. */
  lemma {:induction false} StartOpensTools(clock: string, events: seq<Event>)
    ensures StartThenTool(Run(clock, events).out)
    ensures Run(clock, events).sentStart <==> Run(clock, events).out != []
  {
    if events != [] {
      hide StartThenTool, Dispatch, EventName, CommonId;
      var n := |events| - 1;
      StartOpensTools(clock, events[..n]);
      var s, ev := Run(clock, events[..n]), events[n];
      if ev.root.Some? { DispatchKeepsStart(Common(s, EventName(ev), ev.root.value), EventName(ev), ev.root.value); }
    }
  }

  // ---------------------------------------------------------------- event names and statuses

  lemma {:induction false} KindCreated()
    ensures KindOf("response.created") == Created && KindOf("response.completed") == Completed
  {
    hide Lower;
    var a, b := "response.created", "response.completed";
    LowerKeepsLower(a);
    LowerKeepsLower(b);
    assert |a| == 16 && |b| == 18;
    assert |"response.output_text.delta"| == 26 && |"response.output_item.added"| == 26;
    assert |"response.output_item.done"| == 25 && |"response.function_call_arguments.delta"| == 38;
    assert |"response.function_call_arguments.done"| == 37;
  }

  lemma {:induction false} KindOutput()
    ensures KindOf("response.output_text.delta") == TextDelta
    ensures KindOf("response.output_item.added") == OutputItemEvent
  {
    hide Lower;
    var a, b := "response.output_text.delta", "response.output_item.added";
    LowerKeepsLower(a);
    LowerKeepsLower(b);
    assert |a| == 26 && |b| == 26 && |"response.created"| == 16;
    assert a[16] == 't' && b[16] == 'i';
  }

  lemma {:induction false} KindArgumentsDelta()
    ensures KindOf("response.function_call_arguments.delta") == ArgsDeltaEvent
  {
    hide Lower;
    var a := "response.function_call_arguments.delta";
    LowerKeepsLower(a);
    assert |a| == 38 && |"response.created"| == 16 && |"response.output_text.delta"| == 26;
    assert |"response.output_item.added"| == 26 && |"response.output_item.done"| == 25;
  }

  lemma {:induction false} KindArgumentsDone()
    ensures KindOf("response.function_call_arguments.done") == ArgsDone
  {
    hide Lower;
    var a := "response.function_call_arguments.done";
    LowerKeepsLower(a);
    assert |a| == 37 && |"response.created"| == 16 && |"response.output_text.delta"| == 26;
    assert |"response.output_item.added"| == 26 && |"response.output_item.done"| == 25;
    assert |"response.function_call_arguments.delta"| == 38;
  }

  /** The event names of the Responses stream and what they are taken for. */
  lemma {:induction false} EventKinds()
    ensures KindOf("response.created") == Created
    ensures KindOf("response.output_text.delta") == TextDelta
    ensures KindOf("response.output_item.added") == OutputItemEvent
    ensures KindOf("response.output_item.done") == OutputItemEvent
    ensures KindOf("response.function_call_arguments.delta") == ArgsDeltaEvent
    ensures KindOf("response.function_call_arguments.done") == ArgsDone
    ensures KindOf("response.completed") == Completed
  {
    hide KindOf, TrimSpace;
    KindCreated();
    KindOutput();
    KindArgumentsDelta();
    KindArgumentsDone();
    ItemDoneKind();
  }

  predicate OccursAt(s: string, part: string, i: int) { 0 <= i <= |s| && part <= s[i..] }

  ghost predicate Occurs(s: string, part: string) { exists i :: OccursAt(s, part, i) }

  lemma {:induction false} ContainsMeaning(s: string, part: string)
    ensures Contains(s, part) <==> Occurs(s, part)
  {
    assert s[0..] == s;
    if part <= s {
      assert OccursAt(s, part, 0);
    } else if s != "" {
      var t := s[1..];
      ContainsMeaning(t, part);
      if i :| OccursAt(t, part, i) {
        assert t[i..] == s[i + 1..];
        assert OccursAt(s, part, i + 1);
      }
      if i :| OccursAt(s, part, i) {
        assert i != 0;
        assert s[i..] == t[i - 1..];
        assert OccursAt(t, part, i - 1);
      }
    }
  }

  /** Which other events end a response: "completed" anywhere in the name, or a terminal status. */
  lemma {:induction false} FinalMeaning(name: string, root: Root)
    ensures IsFinal(name, root)
        <==> Occurs(Lower(name), "completed")
             || (root.response.Some? && IsTerminalStatus(root.response.value.status))
             || (root.response == None && root.status.Some? && IsTerminalStatus(root.status.value))
  {
    hide Occurs;
    ContainsMeaning(Lower(name), "completed");
  }

  /** The statuses that end a response, in lower case. */
  lemma {:induction false} TerminalStatuses(status: string)
    requires Ends(status, IsSpace) && forall i :: 0 <= i < |status| ==> !('A' <= status[i] <= 'Z')
    ensures IsTerminalStatus(status)
        <==> status == "completed" || status == "incomplete" || status == "failed" || status == "canceled"
             || status == "cancelled"
  {
    TrimSpaceKeeps(status);
    LowerKeepsLower(status);
    hide TrimSpace, Lower;
  }

  // ---------------------------------------------------------------- finish reason and id

  predicate HasTool(out: seq<Chunk>) { exists i :: 0 <= i < |out| && out[i].Tool? }

  predicate HasText(out: seq<Chunk>) { exists i :: 0 <= i < |out| && out[i].Content? }

  /** The flags say what was sent. */
  ghost predicate FlagsExact(s: State) { (s.sawTool <==> HasTool(s.out)) && (s.sawText <==> HasText(s.out)) }

  lemma {:induction false} HasAppend(out: seq<Chunk>, ch: Chunk)
    ensures HasTool(out + [ch]) <==> HasTool(out) || ch.Tool?
    ensures HasText(out + [ch]) <==> HasText(out) || ch.Content?
  {
    var t := out + [ch];
    assert t[|out|] == ch && forall i :: 0 <= i < |out| ==> t[i] == out[i];
  }

  lemma {:induction false} StartFlags(s: State)
    requires FlagsExact(s)
    ensures FlagsExact(SendStart(s))
  {
    hide HasTool, HasText, IdFor;
    HasAppend(s.out, Start(EnsureId(s, "").chatId));
  }

  lemma {:induction false} ToolFlags(s: State, callId: string, name: string, delta: string)
    requires FlagsExact(s)
    ensures FlagsExact(SendTool(s, callId, name, delta))
  {
    hide HasTool, HasText, IdFor, TrimSpace, SendStart, NamesWith, NameToSend, IndexWith;
    StartFlags(s);
    var u := SendStart(s);
    var t := PushTool(u, callId, name, delta);
    HasAppend(u.out, t.out[|u.out|]);
  }

  lemma {:induction false} TextFlags(s: State, delta: string)
    requires FlagsExact(s)
    ensures FlagsExact(SendText(s, delta))
  {
    hide HasTool, HasText, IdFor, TrimSpace;
    HasAppend(s.out, Content(EnsureId(s, "").chatId, delta));
  }

  lemma {:induction false} DispatchFlags(s: State, name: string, root: Root)
    requires FlagsExact(s)
    ensures FlagsExact(Dispatch(s, name, root))
  {
    hide HasTool, HasText, TrimSpace, KindOf, SendTool, SendText, IsFinal, EnsureId, TargetOf, ArgsDelta, CallIdOf, Get;
    if KindOf(name) == TextDelta {
      TextFlags(s, TrimSpace(root.delta));
    } else if KindOf(name) == ArgsDeltaEvent {
      var callId := TargetOf(s, root);
      ToolFlags(s, callId, "", root.delta);
      ToolFlags(s.(args := s.args[callId := Get(s.args, callId) + root.delta]), callId, "", root.delta);
    } else if KindOf(name) == OutputItemEvent {
      OtherItemIsIgnored(s, root);
      if root.item.Some? && TrimSpace(root.item.value.kind) == "function_call" {
        var item := root.item.value;
        ItemIsSend(s, root);
        ToolFlags(Noted(s, item), CallIdOf(item), TrimSpace(item.name),
                  ArgsDelta(Get(s.args, CallIdOf(item)), item.arguments));
        hide OutputItem;
      }
    } else {
      QuietKinds(s, name, root);
      hide Dispatch;
    }
  }

  lemma {:induction false} RunFlags(clock: string, events: seq<Event>)
    ensures FlagsExact(Run(clock, events))
  {
    if events != [] {
      hide FlagsExact, Dispatch, EventName, CommonId;
      var n := |events| - 1;
      RunFlags(clock, events[..n]);
      var s, ev := Run(clock, events[..n]), events[n];
      if ev.root.Some? {
        var t := Common(s, EventName(ev), ev.root.value);
        CopyFlags(s, t);
        DispatchFlags(t, EventName(ev), ev.root.value);
      }
    }
  }

  lemma {:induction false} CopyFlags(s: State, t: State)
    requires FlagsExact(s) && t.out == s.out && t.sawTool == s.sawTool && t.sawText == s.sawText
    ensures FlagsExact(t)
  {
  }

  /** The finish reason that the mapped response of the last capturing event carries. */
  function MappedFinish(events: seq<Event>): string {
    if events == [] then "" else
      var ev := events[|events| - 1];
      if !Captures(ev) then MappedFinish(events[..|events| - 1])
      else TrimSpace(if ev.root.value.response.Some? then ev.root.value.response.value.finish else ev.root.value.finish)
  }

  lemma {:induction false} FinalIsLastCaptured(clock: string, events: seq<Event>)
    ensures var final := Run(clock, events).final;
            final.Some? ==> TrimSpace(if final.value.response.Some? then final.value.response.value.finish
                                      else final.value.finish) == MappedFinish(events)
  {
    hide Handle, TrimSpace;
    if events != [] {
      var n := |events| - 1;
      FinalIsLastCaptured(clock, events[..n]);
      HandleCaptures(Run(clock, events[..n]), events[n]);
      hide Captures;
    }
  }

  /**
    The stream ends with "tool_calls" exactly if it sent tool chunks and no text, else with the mapped reason or "stop".
   */
  lemma {:induction false} FinishReason(clock: string, events: seq<Event>)
    requires exists i :: 0 <= i < |events| && Captures(events[i])
    ensures var body, out := Run(clock, events).out, Close(Run(clock, events)).out;
            && |out| >= 2 && out[|out| - 2].Terminal?
            && out[|out| - 2].finish == (if HasTool(body) && !HasText(body) then "tool_calls"
                                         else if MappedFinish(events) == "" then "stop" else MappedFinish(events))
  {
    hide Captures, Shaped, Run, TrimSpace, HasTool, HasText, IdFor;
    FinalIffCaptured(clock, events);
    RunFlags(clock, events);
    FinalIsLastCaptured(clock, events);
    CloseIs(Run(clock, events));
    hide Close;
  }

  /** The id an event brings: of its response, of itself if it is a response event, or of a created response. */
  function SeedOf(ev: Event): string {
    if ev.root == None then "" else
      var root, name := ev.root.value, EventName(ev);
      if TrimSpace(root.responseId) != "" then TrimSpace(root.responseId)
      else if TrimSpace(root.id) != "" && "response." <= Lower(name) then TrimSpace(root.id)
      else if KindOf(name) == Created && root.response.Some? then TrimSpace(root.response.value.id)
      else ""
  }

  function ChatIdOf(seed: string): string { if "chatcmpl_" <= seed then seed else "chatcmpl_" + seed }

  lemma {:induction false} MakeIdIs(seed: string, clock: string)
    requires TrimSpace(seed) == seed != ""
    ensures MakeId(seed, clock) == ChatIdOf(seed)
  {
    hide TrimSpace;
  }

  lemma {:induction false} SeedIsTrimmed(ev: Event)
    ensures TrimSpace(SeedOf(ev)) == SeedOf(ev)
  {
    hide TrimSpace, KindOf, EventName, Lower;
    assert TrimSpace("") == "" by { TrimSpaceKeeps(""); }
    if ev.root.Some? {
      TrimSpaceIdempotent(ev.root.value.responseId);
      TrimSpaceIdempotent(ev.root.value.id);
      if ev.root.value.response.Some? { TrimSpaceIdempotent(ev.root.value.response.value.id); }
    }
  }

  lemma {:induction false} HandleKeepsId(s: State, ev: Event)
    requires s.chatId != ""
    ensures Handle(s, ev).chatId == s.chatId
  {
    hide TrimSpace, EventName, Lower, Dispatch;
    if ev.root.Some? { DispatchKeepsId(Common(s, EventName(ev), ev.root.value), EventName(ev), ev.root.value); }
  }

  lemma {:induction false} HandleSetsId(s: State, ev: Event)
    requires s.chatId == "" && SeedOf(ev) != ""
    ensures Handle(s, ev).chatId == ChatIdOf(SeedOf(ev))
  {
    hide TrimSpace, KindOf, EventName, Lower, Dispatch;
    SeedIsTrimmed(ev);
    MakeIdIs(SeedOf(ev), s.clock);
    var root, name := ev.root.value, EventName(ev);
    var t := Common(s, name, root);
    hide MakeId;
    if t.chatId != "" {
      DispatchKeepsId(t, name, root);
    } else {
      CreatedSetsId(t, name, root);
    }
  }

  lemma {:induction false} SendingKeepsId(s: State, callId: string, name: string, delta: string)
    requires s.chatId != ""
    ensures SendTool(s, callId, name, delta).chatId == s.chatId && SendText(s, delta).chatId == s.chatId
  {
    hide TrimSpace, MakeId, NamesWith, NameToSend, IndexWith;
  }

  lemma {:induction false} ItemKeepsId(s: State, root: Root)
    requires s.chatId != ""
    ensures OutputItem(s, root).chatId == s.chatId
  {
    hide TrimSpace, ArgsDelta, CallIdOf, SendTool, OutputItem, Get;
    OtherItemIsIgnored(s, root);
    if root.item.Some? && TrimSpace(root.item.value.kind) == "function_call" {
      var item := root.item.value;
      ItemIsSend(s, root);
      SendingKeepsId(Noted(s, item), CallIdOf(item), TrimSpace(item.name),
                     ArgsDelta(Get(s.args, CallIdOf(item)), item.arguments));
    }
  }

  lemma {:induction false} DispatchKeepsId(s: State, name: string, root: Root)
    requires s.chatId != ""
    ensures Dispatch(s, name, root).chatId == s.chatId
  {
    hide TrimSpace, KindOf, IsFinal, MakeId, SendText, ArgsEvent, OutputItem;
    var t := Dispatch(s, name, root);
    match KindOf(name)
    case Created => assert t == s;
    case TextDelta =>
      SendingKeepsId(s, "", "", TrimSpace(root.delta));
      assert t == SendText(s, TrimSpace(root.delta));
    case OutputItemEvent =>
      ItemKeepsId(s, root);
      assert t == OutputItem(s, root);
    case ArgsDeltaEvent =>
      ArgsKeepsId(s, root);
      assert t == ArgsEvent(s, root);
    case ArgsDone => assert t == s;
    case Completed => assert t == s.(final := Some(root));
    case Other => assert t == s || t == s.(final := Some(root));
  }

  lemma {:induction false} ArgsKeepsId(s: State, root: Root)
    requires s.chatId != ""
    ensures ArgsEvent(s, root).chatId == s.chatId
  {
    hide Get, TargetOf, SendTool;
    var callId := TargetOf(s, root);
    SendingKeepsId(s, callId, "", root.delta);
    SendingKeepsId(s.(args := s.args[callId := Get(s.args, callId) + root.delta]), callId, "", root.delta);
  }

  lemma {:induction false} CreatedSetsId(s: State, name: string, root: Root)
    requires s.chatId == "" && KindOf(name) == Created && root.response.Some? && TrimSpace(root.response.value.id) != ""
    ensures Dispatch(s, name, root).chatId == MakeId(TrimSpace(root.response.value.id), s.clock)
  {
    hide TrimSpace, KindOf, MakeId;
  }

  /** All chunks carry the first id that the stream brings, unless something was sent before it. */
  lemma {:induction false} ChatIdIsTheFirstSeed(clock: string, events: seq<Event>, k: nat)
    requires k < |events| && Run(clock, events[..k]).chatId == "" && SeedOf(events[k]) != ""
    ensures Run(clock, events).chatId == ChatIdOf(SeedOf(events[k]))
    ensures forall i :: 0 <= i < |Run(clock, events).out| ==>
              !Run(clock, events).out[i].Done? && Run(clock, events).out[i].id == ChatIdOf(SeedOf(events[k]))
    decreases |events|
  {
    hide Handle, SeedOf, Shaped;
    var n := |events| - 1;
    if k == n {
      HandleSetsId(Run(clock, events[..n]), events[n]);
    } else {
      assert events[..n][..k] == events[..k];
      ChatIdIsTheFirstSeed(clock, events[..n], k);
      HandleKeepsId(Run(clock, events[..n]), events[n]);
    }
    RunIsShaped(clock, events);
    BodyIsOpen(Run(clock, events));
  }
}
