/**
  Server-sent-event framing (`sseEventParser` and the inline read loops of `onr-core/pkg/apitransform`).
  The specification splits the lines into blocks at blank lines; each block yields the last event name and the joined
  data lines. Sections 9.2.5 and 9.2.6 of the WHATWG HTML Living Standard, except that data lines are trimmed and a
  block left open at the end of input is dispatched too.
 */
module SseFraming {
  import opened Text
  import opened Options

  datatype Event = Event(name: string, data: string)

  const EVENT_PREFIX := "event:"
  const DATA_PREFIX := "data:"
  const DONE := "[DONE]"

  // ---------------------------------------------------------------- specification

  predicate IsBlank(line: string) { TrimSpace(line) == "" }

  predicate IsName(line: string) { EVENT_PREFIX <= TrimSpace(line) }

  predicate IsData(line: string) { DATA_PREFIX <= TrimSpace(line) }

  function NameIn(line: string): string
    requires IsName(line)
  {
    TrimSpace(TrimSpace(line)[|EVENT_PREFIX|..])
  }

  function DataIn(line: string): string
    requires IsData(line)
  {
    TrimSpace(TrimSpace(line)[|DATA_PREFIX|..])
  }

  function FirstBlank(lines: seq<string>): (n: nat)
    ensures n <= |lines| && (forall i :: 0 <= i < n ==> !IsBlank(lines[i])) && (n < |lines| ==> IsBlank(lines[n]))
  {
    if lines == [] || IsBlank(lines[0]) then 0 else 1 + FirstBlank(lines[1..])
  }

  /** The maximal runs of lines between blank lines. */
  function Blocks(lines: seq<string>): seq<seq<string>> {
    var n := FirstBlank(lines);
    if n == |lines| then [lines] else [lines[..n]] + Blocks(lines[n + 1..])
  }

  /** The name on the last event line of a block. */
  function LastName(block: seq<string>): string {
    if block == [] then "" else
      var last := block[|block| - 1];
      if IsName(last) then NameIn(last) else LastName(block[..|block| - 1])
  }

  function DataLines(block: seq<string>): seq<string> {
    if block == [] then [] else
      var last := block[|block| - 1];
      DataLines(block[..|block| - 1]) + (if IsData(last) then [DataIn(last)] else [])
  }

  function Payload(data: seq<string>): string { TrimSpace(Join(data, "\n")) }

  /** What collected data lines dispatch: nothing without data, for blank data, or for the end marker. */
  function Dispatch(name: string, data: seq<string>): seq<Event> {
    if data == [] || Payload(data) == "" || Payload(data) == DONE then [] else [Event(name, Payload(data))]
  }

  function EventsOf(blocks: seq<seq<string>>): seq<Event> {
    if blocks == [] then [] else Dispatch(LastName(blocks[0]), DataLines(blocks[0])) + EventsOf(blocks[1..])
  }

  function Payloads(events: seq<Event>): seq<string> {
    if events == [] then [] else [events[0].data] + Payloads(events[1..])
  }

  // ---------------------------------------------------------------- the line-at-a-time parser

  datatype Pending = Pending(name: string, data: seq<string>)

  const START := Pending("", [])

  function Feed(p: Pending, line: string): (Pending, seq<Event>) {
    if IsBlank(line) then (START, Dispatch(TrimSpace(p.name), p.data))
    else if IsName(line) then (p.(name := NameIn(line)), [])
    else if IsData(line) then (p.(data := p.data + [DataIn(line)]), [])
    else (p, [])
  }

  /** The events still to come when `lines` follow the collected part. */
  function ParseFrom(p: Pending, lines: seq<string>): seq<Event>
    decreases |lines|
  {
    if lines == [] then Dispatch(TrimSpace(p.name), p.data)
    else Feed(p, lines[0]).1 + ParseFrom(Feed(p, lines[0]).0, lines[1..])
  }

  class Parser {
    var curEvent: string
    var curData: seq<string>

    ghost function State(): Pending reads this { Pending(curEvent, curData) }

    constructor ()
      ensures State() == START
    {
      curEvent, curData := "", [];
    }

    method FeedLine(line: string) returns (out: seq<Event>)
      modifies this
      ensures (State(), out) == Feed(old(State()), line)
    {
      var trim := TrimSpace(line);
      if |trim| == 0 {
        out := Flush();
      } else if EVENT_PREFIX <= trim {
        curEvent := TrimSpace(trim[|EVENT_PREFIX|..]);
        out := [];
      } else if DATA_PREFIX <= trim {
        curData := curData + [TrimSpace(trim[|DATA_PREFIX|..])];
        out := [];
      } else {
        out := [];
      }
    }

    method Flush() returns (out: seq<Event>)
      modifies this
      ensures State() == START && out == Dispatch(TrimSpace(old(curEvent)), old(curData))
    {
      if |curData| == 0 {
        curEvent := "";
        return [];
      }
      var payload, name := TrimSpace(Join(curData, "\n")), TrimSpace(curEvent);
      curData, curEvent := [], "";
      if |payload| == 0 || payload == DONE { return []; }
      return [Event(name, payload)];
    }
  }

  /** Feeding every line and flushing at the end of input yields exactly the events of the blocks. */
  method ParseLines(lines: seq<string>) returns (events: seq<Event>)
    ensures events == EventsOf(Blocks(lines))
  {
    hide Feed, Dispatch, Blocks, EventsOf;
    ParserRefinesBlocks(lines);
    var p := new Parser();
    events := [];
    var i := 0;
    while i < |lines|
      invariant 0 <= i <= |lines|
      invariant events + ParseFrom(p.State(), lines[i..]) == ParseFrom(START, lines)
    {
      assert lines[i..][1..] == lines[i + 1..];
      var more := p.FeedLine(lines[i]);
      events := events + more;
      i := i + 1;
    }
    var last := p.Flush();
    events := events + last;
  }

  // ---------------------------------------------------------------- the inline loops

  /** The read loop that `transformOpenAIChatSSE` and the Gemini transform share: the payloads handed to the mapper. */
  method InlinePayloads(lines: seq<string>) returns (payloads: seq<string>)
    ensures payloads == Payloads(EventsOf(Blocks(lines)))
  {
    hide Dispatch, Blocks, EventsOf, FlushInline, InlineFrom, TrimSpace;
    ParserRefinesBlocks(lines);
    InlineMatchesParser("", [], lines);
    assert lines[0..] == lines;
    payloads := [];
    var dataLines: seq<string> := [];
    var i := 0;
    while i < |lines|
      invariant 0 <= i <= |lines|
      invariant payloads + InlineFrom(dataLines, lines[i..]) == InlineFrom([], lines)
    {
      InlineOneMore(dataLines, lines, i);
      var trim := TrimSpace(lines[i]);
      if |trim| == 0 {
        payloads := payloads + FlushInline(dataLines);
        dataLines := [];
      } else if DATA_PREFIX <= trim {
        dataLines := dataLines + [TrimSpace(trim[|DATA_PREFIX|..])];
      }
      i := i + 1;
    }
    assert lines[i..] == [];
    InlineAtEnd(dataLines);
    payloads := payloads + FlushInline(dataLines);
  }

  lemma {:induction false} InlineOneMore(data: seq<string>, lines: seq<string>, i: nat)
    requires i < |lines|
    ensures InlineFrom(data, lines[i..])
         == if IsBlank(lines[i]) then FlushInline(data) + InlineFrom([], lines[i + 1..])
            else InlineFrom(if IsData(lines[i]) then data + [DataIn(lines[i])] else data, lines[i + 1..])
  {
    hide IsBlank, IsData, DataIn, FlushInline;
    assert lines[i..][1..] == lines[i + 1..];
  }

  lemma {:induction false} InlineAtEnd(data: seq<string>)
    ensures InlineFrom(data, []) == FlushInline(data)
  {
  }

  function FlushInline(data: seq<string>): seq<string> {
    if |data| == 0 then [] else
      var payload := TrimSpace(Join(data, "\n"));
      if |payload| == 0 || payload == DONE then [] else [payload]
  }

  function InlineFrom(data: seq<string>, lines: seq<string>): seq<string>
    decreases |lines|
  {
    if lines == [] then FlushInline(data)
    else if IsBlank(lines[0]) then FlushInline(data) + InlineFrom([], lines[1..])
    else if IsData(lines[0]) then InlineFrom(data + [DataIn(lines[0])], lines[1..])
    else InlineFrom(data, lines[1..])
  }

  // ---------------------------------------------------------------- refinement

  lemma {:induction false} LastNameTrimmed(block: seq<string>)
    ensures TrimSpace(LastName(block)) == LastName(block)
  {
    if block != [] {
      var last := block[|block| - 1];
      if IsName(last) {
        TrimSpaceIdempotent(TrimSpace(last)[|EVENT_PREFIX|..]);
      } else {
        LastNameTrimmed(block[..|block| - 1]);
      }
    }
  }

  lemma {:induction false} FirstBlankIs(lines: seq<string>, n: nat)
    requires n <= |lines| && (forall i :: 0 <= i < n ==> !IsBlank(lines[i])) && (n < |lines| ==> IsBlank(lines[n]))
    ensures FirstBlank(lines) == n
  {
    hide IsBlank;
    var m := FirstBlank(lines);
    assert m >= n;
  }

  /** A block that a blank line or the end of input closes. */
  lemma {:induction false} BlockCloses(pre: seq<string>, rest: seq<string>)
    requires forall i :: 0 <= i < |pre| ==> !IsBlank(pre[i])
    ensures EventsOf(Blocks(pre)) == Dispatch(LastName(pre), DataLines(pre))
    ensures rest != [] && IsBlank(rest[0]) ==>
              EventsOf(Blocks(pre + rest)) == Dispatch(LastName(pre), DataLines(pre)) + EventsOf(Blocks(rest[1..]))
  {
    hide IsBlank, Dispatch, LastName, DataLines;
    FirstBlankIs(pre, |pre|);
    assert Blocks(pre) == [pre] && [pre][1..] == [];
    if rest != [] && IsBlank(rest[0]) {
      var all := pre + rest;
      FirstBlankIs(all, |pre|);
      assert all[..|pre|] == pre && all[|pre| + 1..] == rest[1..];
      assert Blocks(all) == [pre] + Blocks(rest[1..]);
      assert ([pre] + Blocks(rest[1..]))[1..] == Blocks(rest[1..]);
    }
  }

  /** What a line that is not blank does to the collected part. */
  lemma {:induction false} FeedCollects(pre: seq<string>, line: string)
    requires !IsBlank(line)
    ensures Feed(Pending(LastName(pre), DataLines(pre)), line)
         == (Pending(LastName(pre + [line]), DataLines(pre + [line])), [])
  {
    hide IsBlank, NameIn, DataIn, Dispatch;
    assert (pre + [line])[..|pre|] == pre;
    NameOrData(line);
    assert DataLines(pre) + [] == DataLines(pre);
  }

  /** With the lines of an unfinished block collected, the parser yields the events of that block and the rest. */
  lemma {:induction false} ParseFromBlock(pre: seq<string>, lines: seq<string>)
    requires forall i :: 0 <= i < |pre| ==> !IsBlank(pre[i])
    ensures ParseFrom(Pending(LastName(pre), DataLines(pre)), lines) == EventsOf(Blocks(pre + lines))
    decreases |lines|
  {
    hide IsBlank, IsName, IsData, Dispatch, Blocks, EventsOf;
    LastNameTrimmed(pre);
    BlockCloses(pre, lines);
    if lines == [] {
      assert pre + lines == pre;
    } else if IsBlank(lines[0]) {
      ParseFromBlock([], lines[1..]);
      assert [] + lines[1..] == lines[1..];
    } else {
      FeedCollects(pre, lines[0]);
      var more := pre + [lines[0]];
      assert more + lines[1..] == pre + lines;
      ParseFromBlock(more, lines[1..]);
    }
  }

  lemma {:induction false} NameOrData(line: string)
    ensures !(IsName(line) && IsData(line))
  {
    assert IsName(line) ==> TrimSpace(line)[0] == 'e';
    assert IsData(line) ==> TrimSpace(line)[0] == 'd';
  }

  /** The stateful parser refines the block specification on every line sequence. */
  lemma {:induction false} ParserRefinesBlocks(lines: seq<string>)
    ensures ParseFrom(START, lines) == EventsOf(Blocks(lines))
  {
    ParseFromBlock([], lines);
    assert [] + lines == lines;
  }

  lemma {:induction false} PayloadsAppend(xs: seq<Event>, ys: seq<Event>)
    ensures Payloads(xs + ys) == Payloads(xs) + Payloads(ys)
  {
    if xs == [] {
      assert xs + ys == ys;
    } else {
      assert (xs + ys)[1..] == xs[1..] + ys;
      PayloadsAppend(xs[1..], ys);
    }
  }

  /** The inline loops see the parser's payloads, whatever event lines are mixed in. */
  lemma {:induction false} InlineMatchesParser(name: string, data: seq<string>, lines: seq<string>)
    ensures InlineFrom(data, lines) == Payloads(ParseFrom(Pending(name, data), lines))
    decreases |lines|
  {
    hide IsBlank, NameIn, DataIn, Join;
    assert FlushInline(data) == Payloads(Dispatch(TrimSpace(name), data));
    if lines != [] {
      var p := Pending(name, data);
      var (q, out) := Feed(p, lines[0]);
      InlineMatchesParser(q.name, q.data, lines[1..]);
      PayloadsAppend(out, ParseFrom(q, lines[1..]));
      NameOrData(lines[0]);
    }
  }

  // ---------------------------------------------------------------- printing and parsing back

  predicate IsNewline(c: char) { c == '\n' || c == '\r' }

  /** The reader's lines: pieces ending in LF with their line end cut off, and a last piece if it is not empty. */
  function SplitLines(s: string): seq<string>
    decreases |s|
  {
    if s == "" then [] else
      var n := LineEnd(s);
      [TrimRight(s[..n], IsNewline)] + SplitLines(s[n..])
  }

  /** The length of the first line including its LF. */
  function LineEnd(s: string): (n: nat)
    requires s != ""
    ensures 0 < n <= |s|
  {
    if s[0] == '\n' || |s| == 1 then 1 else 1 + LineEnd(s[1..])
  }

  /** `writeSSEDataJSON` of each payload in turn. */
  function Print(payloads: seq<string>): string {
    if payloads == [] then "" else "data: " + payloads[0] + "\n\n" + Print(payloads[1..])
  }

  /** Single-line text without surrounding space, not empty and not the end marker. */
  predicate Printable(p: string) { p != "" && Ends(p, IsSpace) && '\n' !in p && p != DONE }

  lemma {:induction false} LineEndAt(s: string, rest: string)
    requires '\n' !in s
    ensures LineEnd(s + "\n" + rest) == |s| + 1
  {
    var t := s + "\n" + rest;
    if s != "" {
      assert t[0] == s[0] && t[1..] == s[1..] + "\n" + rest;
      LineEndAt(s[1..], rest);
    }
  }

  lemma {:induction false} PrintedLine(p: string)
    requires p != "" && Ends(p, IsSpace)
    ensures var line := "data: " + p;
            && TrimRight(line + "\n", IsNewline) == line
            && IsData(line) && !IsBlank(line) && !IsName(line) && DataIn(line) == p
  {
    var line := "data: " + p;
    var t := line + "\n";
    assert t[..|t| - 1] == line && line[|line| - 1] == p[|p| - 1];
    TrimMeaning(line, IsSpace);
    assert line[0] == 'd' && TrimSpace(line) == line;
    assert line[..5] == DATA_PREFIX;
    assert line[5..] == " " + p;
    assert (" " + p)[1..] == p;
    TrimMeaning(p, IsSpace);
    assert TrimLeft(" " + p, IsSpace) == TrimLeft(p, IsSpace);
    NameOrData(line);
  }

  lemma {:induction false} FirstLine(line: string, rest: string)
    requires '\n' !in line && TrimRight(line + "\n", IsNewline) == line
    ensures SplitLines(line + "\n" + rest) == [line] + SplitLines(rest)
  {
    hide TrimRight;
    var s := line + "\n" + rest;
    LineEndAt(line, rest);
    assert s[..|line| + 1] == line + "\n" && s[|line| + 1..] == rest;
  }

  lemma {:induction false} PrintedLines(p: string, rest: string)
    requires p != "" && Ends(p, IsSpace) && '\n' !in p
    ensures SplitLines("data: " + p + "\n\n" + rest) == ["data: " + p, ""] + SplitLines(rest)
  {
    hide SplitLines, TrimSpace, DataIn;
    var line := "data: " + p;
    PrintedLine(p);
    assert line + "\n\n" + rest == line + "\n" + ("" + "\n" + rest);
    FirstLine(line, "" + "\n" + rest);
    assert TrimRight("" + "\n", IsNewline) == "" by { assert ("" + "\n")[..0] == ""; }
    FirstLine("", rest);
    assert [line] + ([""] + SplitLines(rest)) == [line, ""] + SplitLines(rest);
  }

  lemma {:induction false} ParsePrinted(p: string, lines: seq<string>)
    requires p != "" && Ends(p, IsSpace)
    ensures ParseFrom(START, ["data: " + p, ""] + lines)
         == (if p == DONE then [] else [Event("", p)]) + ParseFrom(START, lines)
  {
    var line := "data: " + p;
    PrintedLine(p);
    TrimMeaning(p, IsSpace);
    var all := [line, ""] + lines;
    assert all[1..] == [""] + lines && ([""] + lines)[1..] == lines;
    assert IsBlank("") && TrimSpace("") == "";
    assert Payload([p]) == p;
    assert [] + [p] == [p];
    assert Feed(START, line) == (Pending("", [p]), []);
    assert Feed(Pending("", [p]), "") == (START, if p == DONE then [] else [Event("", p)]);
    assert ParseFrom(Pending("", [p]), [""] + lines)
        == (if p == DONE then [] else [Event("", p)]) + ParseFrom(START, lines);
  }

  /** Parsing the printed form of any list of printable payloads gives back that list, with or without an end marker. */
  lemma {:induction false} ParseUndoesPrint(payloads: seq<string>, tail: string)
    requires (forall i :: 0 <= i < |payloads| ==> Printable(payloads[i])) && tail in {"", "data: [DONE]\n\n"}
    ensures Payloads(EventsOf(Blocks(SplitLines(Print(payloads) + tail)))) == payloads
  {
    hide Blocks, EventsOf, SplitLines, ParseFrom;
    ParserRefinesBlocks(SplitLines(Print(payloads) + tail));
    if payloads == [] {
      EndMarkerParsesToNothing(tail);
      assert Print(payloads) + tail == tail;
    } else {
      var p, rest := payloads[0], Print(payloads[1..]) + tail;
      ParseUndoesPrint(payloads[1..], tail);
      ParserRefinesBlocks(SplitLines(rest));
      assert Print(payloads) + tail == "data: " + p + "\n\n" + rest;
      PrintedLines(p, rest);
      ParsePrinted(p, SplitLines(rest));
      PayloadsAppend([Event("", p)], ParseFrom(START, SplitLines(rest)));
    }
  }

  lemma {:induction false} EndMarkerParsesToNothing(tail: string)
    requires tail in {"", "data: [DONE]\n\n"}
    ensures ParseFrom(START, SplitLines(tail)) == []
  {
    assert ParseFrom(START, SplitLines("")) == [];
    if tail != "" {
      assert tail == "data: " + DONE + "\n\n" + "";
      PrintedLines(DONE, "");
      ParsePrinted(DONE, SplitLines(""));
    }
  }

  lemma {:induction false} NamedLine(n: string)
    requires n != "" && Ends(n, IsSpace)
    ensures var line := "event: " + n; !IsBlank(line) && IsName(line) && NameIn(line) == n
  {
    var line := "event: " + n;
    assert line[0] == 'e' && line[|line| - 1] == n[|n| - 1];
    TrimSpaceKeeps(line);
    assert line[..6] == EVENT_PREFIX && line[6..] == " " + n && (" " + n)[1..] == n;
    TrimMeaning(n, IsSpace);
    assert TrimLeft(" " + n, IsSpace) == TrimLeft(n, IsSpace);
  }

  /** A block with a name and two data lines is one event with that name, its data joined by a line feed. */
  lemma {:induction false} NamedBlockParses(n: string, a: string, b: string)
    requires n != "" && Ends(n, IsSpace) && a != "" && Ends(a, IsSpace) && b != "" && Ends(b, IsSpace)
    ensures EventsOf(Blocks(["event: " + n, "data: " + a, "data: " + b, ""])) == [Event(n, a + "\n" + b)]
  {
    hide Blocks, EventsOf, IsBlank, IsName, IsData, NameIn, DataIn, TrimSpace;
    var e, x, y := "event: " + n, "data: " + a, "data: " + b;
    var lines := [e, x, y, ""];
    ParserRefinesBlocks(lines);
    NamedLine(n);
    PrintedLine(a);
    PrintedLine(b);
    BlankLine();
    TrimSpaceKeeps(n);
    assert lines[1..] == [x, y, ""] && [x, y, ""][1..] == [y, ""] && [y, ""][1..] == [""] && [""][1..] == [];
    assert [] + [a] == [a] && [a] + [b] == [a, b];
    assert Feed(START, e) == (Pending(n, []), []) && Feed(Pending(n, []), x) == (Pending(n, [a]), []);
    assert Feed(Pending(n, [a]), y) == (Pending(n, [a, b]), []);
    JoinedPayload(n, a, b);
    hide Dispatch;
    assert ParseFrom(START, []) == [] by { assert Dispatch(TrimSpace(""), []) == [] by { NothingToDispatch(""); } }
    assert ParseFrom(Pending(n, [a, b]), [""]) == [Event(n, a + "\n" + b)];
    assert ParseFrom(Pending(n, [a]), [y, ""]) == [Event(n, a + "\n" + b)];
    assert ParseFrom(Pending(n, []), [x, y, ""]) == [Event(n, a + "\n" + b)];
    assert ParseFrom(START, lines) == [Event(n, a + "\n" + b)];
  }

  lemma {:induction false} NothingToDispatch(name: string)
    ensures Dispatch(TrimSpace(name), []) == []
  {
  }

  lemma {:induction false} BlankLine()
    ensures IsBlank("")
  {
  }

  lemma {:induction false} JoinedPayload(n: string, a: string, b: string)
    requires a != "" && Ends(a, IsSpace) && b != "" && Ends(b, IsSpace)
    ensures Dispatch(n, [a, b]) == [Event(n, a + "\n" + b)]
  {
    var t := a + "\n" + b;
    assert [a, b][1..] == [b] && Join([b], "\n") == b;
    assert Join([a, b], "\n") == t;
    assert t[0] == a[0] && t[|t| - 1] == b[|b| - 1];
    TrimSpaceKeeps(t);
    assert t[|a|] == '\n' && forall i :: 0 <= i < |DONE| ==> DONE[i] != '\n';
  }
}
