/**
 Assembling the visible text of a Claude run from its stream of lines, by the newer line parser and by the older one,
 with the accumulator each threads from line to line.  A line is taken after JSON decoding.
 */
module ClaudeStream {
  import opened Options
  import opened Text

  datatype Delta = NoDelta | TextPart(text: Option<string>) | JsonPart(partial: string)

  datatype Item = TextItem(text: Option<string>) | ToolUse(complete: bool) | OtherItem

  datatype Content = Items(items: seq<Item>) | Plain(text: string) | NoContent

  datatype Line =
    | Blank
    | Raw(text: string)
    | NotObject
    | BareStreamEvent
    | StreamEvent(blockStart: bool, tool: bool, delta: Delta)
    | Assistant(message: Option<Content>)
    | Result(subtype: string, error: string, text: string, usage: bool, session: string)
    | System(retry: bool)
    | Error(text: string)
    | Hook(known: bool)
    | OtherObject

  datatype Tag = TextDelta | MessageCompleted | ToolStarted | ToolCompleted | Activity | Failed | Usage | Finished | Retry | Progress

  datatype Channel = Text | ErrorChannel | UsageChannel

  /** An event of the newer parser: its runtime tag and what it means to a stream consumer. */
  datatype Event = Event(tag: Tag, delta: string, channel: Channel)

  function Quiet(tag: Tag): Event { Event(tag, "", Text) }

  datatype Parsed = Parsed(events: seq<Event>, text: string)

  /** The text a stream consumer sees. */
  function Shown(events: seq<Event>): string {
    if events == [] then "" else (if events[0].channel.Text? then events[0].delta else "") + Shown(events[1..])
  }

  // ---- The newer parser ----

  function PieceOf(item: Item): string { if item.TextItem? && item.text.Some? then item.text.value else "" }

  function ToolOf(item: Item): seq<Event> {
    if item.ToolUse? then [Quiet(if item.complete then ToolCompleted else ToolStarted)] else []
  }

  function TextOf(items: seq<Item>): string {
    if items == [] then "" else PieceOf(items[0]) + TextOf(items[1..])
  }

  function ToolsOf(items: seq<Item>): seq<Event> {
    if items == [] then [] else ToolOf(items[0]) + ToolsOf(items[1..])
  }

  function SnapshotOf(content: Content): string {
    match content
    case Items(items) => TextOf(items)
    case Plain(text) => text
    case NoContent => ""
  }

  /** What of a snapshot is new, given the text so far. */
  function Unseen(snapshot: string, text: string): string {
    if StartsWith(snapshot, text) then snapshot[|text|..] else snapshot
  }

  function SnapshotEvents(content: Content, text: string): seq<Event> {
    var snapshot := SnapshotOf(content);
    var tools := if content.Items? then ToolsOf(content.items) else [];
    var delta := Unseen(snapshot, text);
    if snapshot == "" then tools
    else [Quiet(MessageCompleted)] + tools + if delta == "" then [] else [Event(TextDelta, delta, Text)]
  }

  function ParseAssistant(content: Content, text: string): Parsed {
    var snapshot := SnapshotOf(content);
    Parsed(SnapshotEvents(content, text) + [Quiet(Activity)],
           if snapshot == "" || Unseen(snapshot, text) == "" then text else snapshot)
  }

  predicate Succeeded(subtype: string) { subtype == "success" || subtype == "done" }

  function ParseResult(line: Line, emitted: bool): seq<Event>
    requires line.Result?
  {
    if !Succeeded(line.subtype) then
      [Event(Failed, if line.error != "" then line.error else "Claude Code result status: " + line.subtype, ErrorChannel)]
    else
      (if line.usage then [Event(Usage, "", UsageChannel)] else [])
      + (if line.text != "" && !emitted then [Event(TextDelta, line.text, Text)] else [])
      + (if line.session != "" then [Quiet(Finished)] else [])
  }

  /** `parse_line`. */
  function Parse(line: Line, text: string, emitted: bool): Parsed {
    match line
    case Blank => Parsed([], text)
    case Raw(raw) => Parsed([Event(Activity, raw, Text)], text)
    case NotObject => Parsed([], text)
    case BareStreamEvent => Parsed([Quiet(Activity)], text)
    case StreamEvent(blockStart, tool, delta) =>
      if blockStart then Parsed([Quiet(if tool then ToolStarted else Activity)], text)
      else if delta.TextPart? && delta.text.Some? && delta.text.value != ""
      then Parsed([Event(TextDelta, delta.text.value, Text)], text + delta.text.value)
      else Parsed([Quiet(Activity)], text)
    case Assistant(message) => if message.None? then Parsed([], text) else ParseAssistant(message.value, text)
    case Result(_, _, _, _, _) => Parsed(ParseResult(line, emitted), text)
    case System(retry) => Parsed(if retry then [Quiet(Retry), Quiet(Activity)] else [Quiet(Activity)], text)
    case Error(error) => Parsed([Event(Failed, error, ErrorChannel)], text)
    case Hook(known) => Parsed(if known then [Quiet(Progress), Quiet(Activity)] else [Quiet(Activity)], text)
    case OtherObject => Parsed([Quiet(Activity)], text)
  }

  // ---- The older parser ----

  function StreamText(line: Line): string
    requires line.StreamEvent?
  {
    if line.delta.TextPart? && line.delta.text.Some? then line.delta.text.value else ""
  }

  /** `_claude_stream_events_from_line`. */
  function ParseOld(line: Line, text: string, emitted: bool): Parsed {
    match line
    case Raw(raw) => Parsed([Event(Activity, raw, Text)], text)
    case StreamEvent(_, _, _) =>
      if StreamText(line) == "" then Parsed([], text) else Parsed([Event(TextDelta, StreamText(line), Text)], text + StreamText(line))
    case Assistant(message) =>
      var snapshot := if message.Some? then SnapshotOf(message.value) else "";
      if snapshot == "" then Parsed([], text)
      else
        Parsed(if Unseen(snapshot, text) == "" then [] else [Event(TextDelta, Unseen(snapshot, text), Text)],
               if StartsWith(snapshot, text) then snapshot else text + snapshot)
    case Result(subtype, error, result, usage, _) =>
      if subtype != "" && !Succeeded(subtype) then
        Parsed([Event(Failed, if error != "" then error else "Claude Code result status: " + subtype, ErrorChannel)], text)
      else
        Parsed((if result != "" && !emitted then [Event(TextDelta, result, Text)] else [])
               + (if usage then [Event(Usage, "", UsageChannel)] else []), text)
    case Error(error) => Parsed([Event(Failed, error, ErrorChannel)], text)
    case _ => Parsed([], text)
  }

  // ---- Streams ----

  /** The text shown so far and the accumulator. */
  datatype View = View(shown: string, text: string)

  function Feed(v: View, line: Line): View {
    var p := Parse(line, v.text, v.shown != "");
    View(v.shown + Shown(p.events), p.text)
  }

  function FeedOld(v: View, line: Line): View {
    var p := ParseOld(line, v.text, v.shown != "");
    View(v.shown + Shown(p.events), p.text)
  }

  function Stream(v: View, lines: seq<Line>): View
    decreases |lines|
  {
    if lines == [] then v else Stream(Feed(v, lines[0]), lines[1..])
  }

  function StreamOld(v: View, lines: seq<Line>): View
    decreases |lines|
  {
    if lines == [] then v else StreamOld(FeedOld(v, lines[0]), lines[1..])
  }

  // ---- What an event list shows ----

  lemma {:induction false} ShownOfConcat(a: seq<Event>, b: seq<Event>)
    ensures Shown(a + b) == Shown(a) + Shown(b)
  {
    if a == [] {
      assert a + b == b;
    } else {
      assert (a + b)[0] == a[0] && (a + b)[1..] == a[1..] + b;
      ShownOfConcat(a[1..], b);
    }
  }

  lemma {:induction false} ToolsShowNothing(items: seq<Item>)
    ensures Shown(ToolsOf(items)) == ""
  {
    if items != [] {
      ToolsShowNothing(items[1..]);
      ShownOfConcat(ToolOf(items[0]), ToolsOf(items[1..]));
    }
  }

  lemma ShownOne(e: Event)
    ensures Shown([e]) == if e.channel.Text? then e.delta else ""
  {
    assert [e][1..] == [];
  }

  /** A message shows exactly the unseen part of its snapshot. */
  lemma AssistantShows(content: Content, text: string)
    ensures Shown(ParseAssistant(content, text).events) == if SnapshotOf(content) == "" then "" else Unseen(SnapshotOf(content), text)
  {
    var snapshot := SnapshotOf(content);
    var tools := if content.Items? then ToolsOf(content.items) else [];
    var delta := Unseen(snapshot, text);
    if content.Items? { ToolsShowNothing(content.items); }
    var tail := if delta == "" then [] else [Event(TextDelta, delta, Text)];
    ShownOne(Quiet(MessageCompleted));
    ShownOne(Quiet(Activity));
    ShownOne(Event(TextDelta, delta, Text));
    ShownOfConcat([Quiet(MessageCompleted)], tools);
    ShownOfConcat([Quiet(MessageCompleted)] + tools, tail);
    ShownOfConcat(SnapshotEvents(content, text), [Quiet(Activity)]);
  }

  lemma ResultShows(line: Line, emitted: bool)
    requires line.Result?
    ensures Shown(ParseResult(line, emitted)) == if Succeeded(line.subtype) && line.text != "" && !emitted then line.text else ""
  {
    if Succeeded(line.subtype) {
      var usage := if line.usage then [Event(Usage, "", UsageChannel)] else [];
      var text := if line.text != "" && !emitted then [Event(TextDelta, line.text, Text)] else [];
      var session := if line.session != "" then [Quiet(Finished)] else [];
      ShownOne(Event(Usage, "", UsageChannel));
      ShownOne(Event(TextDelta, line.text, Text));
      ShownOne(Quiet(Finished));
      ShownOfConcat(usage, text);
      ShownOfConcat(usage + text, session);
    } else {
      ShownOne(ParseResult(line, emitted)[0]);
    }
  }

  /** What one line adds to the shown text. */
  function Added(line: Line, text: string, emitted: bool): string {
    match line
    case Raw(raw) => raw
    case StreamEvent(blockStart, _, _) => if blockStart then "" else StreamText(line)
    case Assistant(message) =>
      if message.None? || SnapshotOf(message.value) == "" then "" else Unseen(SnapshotOf(message.value), text)
    case Result(subtype, _, result, _, _) => if Succeeded(subtype) && !emitted then result else ""
    case _ => ""
  }

  lemma FeedAdds(v: View, line: Line)
    ensures Feed(v, line).shown == v.shown + Added(line, v.text, v.shown != "")
  {
    hide Shown, ParseAssistant, ParseResult, Unseen, SnapshotOf;
    var p := Parse(line, v.text, v.shown != "");
    match line
    case Assistant(message) =>
      if message.Some? { AssistantShows(message.value, v.text); } else { ShownShort([]); }
    case Result(_, _, _, _, _) => ResultShows(line, v.shown != "");
    case _ => ShownShort(p.events);
  }

  lemma ShownShort(events: seq<Event>)
    requires |events| <= 2
    ensures Shown(events) == (if |events| > 0 && events[0].channel.Text? then events[0].delta else "")
                             + if |events| > 1 && events[1].channel.Text? then events[1].delta else ""
  {
    if |events| == 2 {
      assert events[1..] == [events[1]];
      ShownOne(events[1]);
    } else if |events| == 1 {
      assert events[1..] == [];
    }
  }

  /** What one line adds under the older parser. */
  function AddedOld(line: Line, text: string, emitted: bool): string {
    match line
    case StreamEvent(_, _, _) => StreamText(line)
    case Result(subtype, _, result, _, _) => if (subtype == "" || Succeeded(subtype)) && !emitted then result else ""
    case _ => Added(line, text, emitted)
  }

  lemma FeedOldAdds(v: View, line: Line)
    ensures FeedOld(v, line).shown == v.shown + AddedOld(line, v.text, v.shown != "")
  {
    hide Shown, Unseen, SnapshotOf, StartsWith, ParseOld;
    OldShows(line, v.text, v.shown != "");
  }

  lemma OldShows(line: Line, text: string, emitted: bool)
    ensures Shown(ParseOld(line, text, emitted).events) == AddedOld(line, text, emitted)
  {
    hide Shown, Unseen, SnapshotOf, StartsWith, Succeeded;
    var events := ParseOld(line, text, emitted).events;
    match line
    case Result(subtype, _, result, usage, _) =>
      ShownShort(events);
      assert events == [] || events[0].channel.Text? || |events| == 1;
    case StreamEvent(_, _, _) => ShownShort(events);
    case _ => ShownShort(events);
  }

  // ---- The accumulator against the shown text ----

  lemma EndsWithAppend(s: string, suffix: string, more: string)
    requires EndsWith(s, suffix)
    ensures EndsWith(s + more, suffix + more)
  {
    assert (s + more)[|s| - |suffix|..] == s[|s| - |suffix|..] + more;
  }

  lemma UnseenCompletes(shown: string, text: string, snapshot: string)
    requires EndsWith(shown, text)
    ensures EndsWith(shown + Unseen(snapshot, text), snapshot)
    ensures Unseen(snapshot, text) == "" ==> snapshot == text || snapshot == ""
  {
    if StartsWith(snapshot, text) {
      assert snapshot == text + snapshot[|text|..];
      EndsWithAppend(shown, text, snapshot[|text|..]);
    } else {
      assert EndsWith(shown + snapshot, snapshot);
    }
  }

  function Snapshot(line: Line): string {
    if line.Assistant? && line.message.Some? then SnapshotOf(line.message.value) else ""
  }

  /** One decoded line keeps the accumulator at the end of the shown text, and leaves a snapshot there too. */
  lemma FeedKeepsSuffix(v: View, line: Line)
    requires EndsWith(v.shown, v.text) && !line.Raw?
    ensures var w := Feed(v, line);
            EndsWith(w.shown, w.text) && (Snapshot(line) != "" ==> w.text == Snapshot(line) && EndsWith(w.shown, Snapshot(line)))
  {
    hide SnapshotOf, Unseen, Shown, SnapshotEvents, EndsWith, ParseResult;
    FeedAdds(v, line);
    UnseenCompletes(v.shown, v.text, Snapshot(line));
    if line.StreamEvent? { EndsWithAppend(v.shown, v.text, StreamText(line)); }
    if line.Result? { ResultSuffix(v, line.text); }
    assert v.shown + "" == v.shown;
  }

  /** A result's own text is shown only when nothing was, and then the accumulator is empty. */
  lemma ResultSuffix(v: View, text: string)
    requires EndsWith(v.shown, v.text)
    ensures v.shown == "" ==> v.text == "" && EndsWith(v.shown + text, v.text)
  {}

  /** Over every stream of decoded lines the accumulator is a suffix of the shown text. */
  lemma {:induction false} AccumulatorIsSuffix(v: View, lines: seq<Line>)
    requires EndsWith(v.shown, v.text) && forall i :: 0 <= i < |lines| ==> !lines[i].Raw?
    ensures EndsWith(Stream(v, lines).shown, Stream(v, lines).text)
    decreases |lines|
  {
    hide Feed;
    if lines != [] {
      FeedKeepsSuffix(v, lines[0]);
      AccumulatorIsSuffix(Feed(v, lines[0]), lines[1..]);
    }
  }

  /** After a stream that ends in a non-empty snapshot, the shown text ends with it. */
  lemma SnapshotIsShown(lines: seq<Line>, last: Line)
    requires !last.Raw? && Snapshot(last) != "" && forall i :: 0 <= i < |lines| ==> !lines[i].Raw?
    ensures EndsWith(Feed(Stream(View("", ""), lines), last).shown, Snapshot(last))
  {
    hide Feed;
    AccumulatorIsSuffix(View("", ""), lines);
    FeedKeepsSuffix(Stream(View("", ""), lines), last);
  }

  /** A line that is not JSON is shown but not accumulated, and parts the two. */
  lemma RawLineParts()
    ensures var v := Stream(View("", ""), [StreamEvent(false, false, TextPart(Some("a"))), Raw("b")]);
            v == View("ab", "a") && !EndsWith(v.shown, v.text)
  {
    var delta := StreamEvent(false, false, TextPart(Some("a")));
    var lines := [delta, Raw("b")];
    FeedAdds(View("", ""), delta);
    FeedAdds(View("a", "a"), Raw("b"));
    assert lines[1..] == [Raw("b")];
    assert Stream(View("ab", "a"), []) == View("ab", "a");
    assert "a" + "b" == "ab";
  }

  /** The line is decoded, shows no result fallback, and its snapshot, if any, extends the text so far. */
  predicate Orderly(v: View, line: Line) {
    && !line.Raw? && (Snapshot(line) != "" ==> StartsWith(Snapshot(line), v.text))
    && (line.Result? && Succeeded(line.subtype) && v.shown == "" ==> line.text == "")
  }

  predicate AllOrderly(v: View, lines: seq<Line>)
    decreases |lines|
  {
    lines == [] || (Orderly(v, lines[0]) && AllOrderly(Feed(v, lines[0]), lines[1..]))
  }

  lemma FeedKeepsEqual(v: View, line: Line)
    requires v.shown == v.text && Orderly(v, line)
    ensures Feed(v, line).shown == Feed(v, line).text
  {
    hide SnapshotOf, Shown, SnapshotEvents, ParseResult;
    FeedAdds(v, line);
    assert v.shown + "" == v.shown;
    if Snapshot(line) != "" {
      assert v.text + Snapshot(line)[|v.text|..] == Snapshot(line);
    }
  }

  /** On orderly streams the shown text is the accumulator: nothing is missing and nothing is repeated. */
  lemma {:induction false} NoGapNoRepeat(v: View, lines: seq<Line>)
    requires v.shown == v.text && AllOrderly(v, lines)
    ensures Stream(v, lines).shown == Stream(v, lines).text
    decreases |lines|
  {
    hide Feed, Orderly;
    if lines != [] {
      FeedKeepsEqual(v, lines[0]);
      NoGapNoRepeat(Feed(v, lines[0]), lines[1..]);
    }
  }

  // ---- The two parsers ----

  /** The line on which both parsers show and accumulate the same. */
  predicate Agreeable(v: View, line: Line) {
    && (Snapshot(line) != "" ==> StartsWith(Snapshot(line), v.text))
    && (line.Result? && line.subtype == "" ==> line.text == "" || v.shown != "")
    && (line.StreamEvent? && line.blockStart ==> StreamText(line) == "")
  }

  /** From the same state the two parsers agree on a line exactly when it is agreeable. */
  lemma ParsersAgreeExactly(v: View, line: Line)
    ensures Feed(v, line) == FeedOld(v, line) <==> Agreeable(v, line)
  {
    hide SnapshotOf, Shown, SnapshotEvents, ParseResult;
    FeedAdds(v, line);
    FeedOldAdds(v, line);
    if Snapshot(line) != "" && !StartsWith(Snapshot(line), v.text) {
      assert |v.text| > 0;
      assert |Feed(v, line).text| < |FeedOld(v, line).text|;
    }
    assert Added(line, v.text, v.shown != "") == AddedOld(line, v.text, v.shown != "") || line.StreamEvent? || line.Result?;
    if line.StreamEvent? && line.blockStart {
      assert |FeedOld(v, line).shown| == |v.shown| + |StreamText(line)|;
    }
    if line.Result? && line.subtype == "" && v.shown == "" {
      assert |FeedOld(v, line).shown| == |line.text|;
    }
  }

  predicate AllAgreeable(v: View, lines: seq<Line>)
    decreases |lines|
  {
    lines == [] || (Agreeable(v, lines[0]) && AllAgreeable(Feed(v, lines[0]), lines[1..]))
  }

  /** So over a whole stream of such lines they show the same text and end with the same accumulator. */
  lemma {:induction false} ParsersAgree(v: View, lines: seq<Line>)
    requires AllAgreeable(v, lines)
    ensures Stream(v, lines) == StreamOld(v, lines)
    decreases |lines|
  {
    hide Feed, FeedOld, Agreeable;
    if lines != [] {
      ParsersAgreeExactly(v, lines[0]);
      ParsersAgree(Feed(v, lines[0]), lines[1..]);
    }
  }

  // ---- What a message says, block by block ----

  lemma {:induction false} TextConcat(a: seq<Item>, b: seq<Item>)
    ensures TextOf(a + b) == TextOf(a) + TextOf(b) && ToolsOf(a + b) == ToolsOf(a) + ToolsOf(b)
  {
    hide PieceOf, ToolOf;
    if a == [] {
      assert a + b == b;
    } else {
      assert (a + b)[0] == a[0] && (a + b)[1..] == a[1..] + b;
      TextConcat(a[1..], b);
    }
  }

  lemma OneItem(item: Item)
    ensures TextOf([item]) == PieceOf(item) && ToolsOf([item]) == ToolOf(item)
  {
    hide PieceOf, ToolOf;
    assert [item][1..] == [];
  }

  /**
   The snapshot of a message is its plain text, or the texts of its blocks one after the other, in whatever way the blocks
   are cut in two; a block that is no text adds none, and the tools announced are those of its tool blocks, in order.
   */
  lemma SnapshotIsBlockTexts(a: seq<Item>, b: seq<Item>, t: string)
    ensures SnapshotOf(Plain(t)) == t && SnapshotOf(NoContent) == "" && SnapshotOf(Items([])) == ""
    ensures SnapshotOf(Items(a + [TextItem(Some(t))] + b)) == SnapshotOf(Items(a)) + t + SnapshotOf(Items(b))
    ensures forall other: Item :: !(other.TextItem? && other.text.Some?) ==>
              SnapshotOf(Items(a + [other] + b)) == SnapshotOf(Items(a)) + SnapshotOf(Items(b))
    ensures forall item: Item :: ToolsOf(a + [item] + b) == ToolsOf(a) + (match item
              case ToolUse(true) => [Event(ToolCompleted, "", Text)]
              case ToolUse(false) => [Event(ToolStarted, "", Text)]
              case _ => []) + ToolsOf(b)
  {
    hide TextOf, ToolsOf;
    forall item: Item ensures TextOf(a + [item] + b) == TextOf(a) + PieceOf(item) + TextOf(b)
      ensures ToolsOf(a + [item] + b) == ToolsOf(a) + ToolOf(item) + ToolsOf(b) {
      TextConcat(a + [item], b);
      TextConcat(a, [item]);
      OneItem(item);
    }
    NoItems();
  }

  lemma NoItems()
    ensures TextOf([]) == ""
  {}

  /** What each line shows and accumulates, kind by kind. */
  lemma LinesTell(v: View, line: Line)
    ensures var w := Feed(v, line);
            match line
            case Raw(t) => w == View(v.shown + t, v.text)
            case StreamEvent(false, _, TextPart(Some(t))) => w == View(v.shown + t, v.text + t)
            case StreamEvent(_, _, _) => w == v
            case Assistant(Some(content)) =>
              var t := SnapshotOf(content);
              if t == "" || t == v.text then w == v
              else w == View(v.shown + (if |v.text| <= |t| && t[..|v.text|] == v.text then t[|v.text|..] else t), t)
            case Result(subtype, _, t, _, _) =>
              w == View(v.shown + if (subtype == "success" || subtype == "done") && v.shown == "" then t else "", v.text)
            case _ => w == v
  {
    hide SnapshotOf, Shown, SnapshotEvents, ParseResult;
    FeedAdds(v, line);
    assert v.shown + "" == v.shown && v.text + "" == v.text;
  }

  // ---- Heartbeats ----

  predicate JsonObject(line: Line) { !(line.Blank? || line.Raw? || line.NotObject?) }

  /** A JSON object yields no event at all exactly in two cases: a message without a body, and a bare successful result. */
  lemma SilentExactly(line: Line, text: string, emitted: bool)
    requires JsonObject(line)
    ensures Parse(line, text, emitted).events == [] <==>
              || line == Assistant(None)
              || (line.Result? && (line.subtype == "success" || line.subtype == "done") && !line.usage && line.session == ""
                  && (line.text == "" || emitted))
  {}
}

/** The loops of the parser and of the streaming backend. */
module ClaudeStreamLoops {
  import opened Options
  import opened Text
  import opened ClaudeStream

  lemma {:induction false} TextAppend(items: seq<Item>, item: Item)
    ensures TextOf(items + [item]) == TextOf(items) + PieceOf(item)
  {
    hide PieceOf;
    if items == [] {
      assert items + [item] == [item] && [item][1..] == [];
    } else {
      assert (items + [item])[0] == items[0] && (items + [item])[1..] == items[1..] + [item];
      TextAppend(items[1..], item);
      assert TextOf(items) == PieceOf(items[0]) + TextOf(items[1..]);
    }
  }

  lemma {:induction false} ToolsAppend(items: seq<Item>, item: Item)
    ensures ToolsOf(items + [item]) == ToolsOf(items) + ToolOf(item)
  {
    hide ToolOf;
    if items == [] {
      assert items + [item] == [item] && [item][1..] == [];
    } else {
      assert (items + [item])[0] == items[0] && (items + [item])[1..] == items[1..] + [item];
      ToolsAppend(items[1..], item);
      assert ToolsOf(items) == ToolOf(items[0]) + ToolsOf(items[1..]);
    }
  }

  /** `_handle_assistant` for a list of blocks: one pass collects the text and the tool events. */
  method HandleAssistantItems(items: seq<Item>, text: string) returns (p: Parsed)
    ensures p == ParseAssistant(Items(items), text)
  {
    var current, tools := "", [];
    for i := 0 to |items|
      invariant current == TextOf(items[..i]) && tools == ToolsOf(items[..i])
    {
      assert items[..i + 1] == items[..i] + [items[i]];
      TextAppend(items[..i], items[i]);
      ToolsAppend(items[..i], items[i]);
      match items[i]
      case TextItem(t) =>
        if t.Some? {
          current := current + t.value;
        }
      case ToolUse(complete) =>
        tools := tools + [Quiet(if complete then ToolCompleted else ToolStarted)];
      case OtherItem =>
    }
    assert items[..|items|] == items;
    var events, accumulated := tools, text;
    if current != "" {
      events := [Quiet(MessageCompleted)] + events;
      var delta := current;
      if StartsWith(current, accumulated) {
        delta := current[|accumulated|..];
      } else {
        accumulated := accumulated + delta;
      }
      if delta != "" {
        events := events + [Event(TextDelta, delta, Text)];
        accumulated := current;
      }
    }
    return Parsed(events + [Quiet(Activity)], accumulated);
  }

  lemma ShownStep(events: seq<Event>, i: nat)
    requires i < |events|
    ensures Shown(events[..i + 1]) == Shown(events[..i]) + if events[i].channel.Text? then events[i].delta else ""
  {
    assert events[..i + 1] == events[..i] + [events[i]];
    ShownOfConcat(events[..i], [events[i]]);
    ShownOne(events[i]);
  }

  lemma {:induction false} StreamStep(v: View, lines: seq<Line>, i: nat)
    requires i < |lines|
    ensures Stream(v, lines[..i + 1]) == Feed(Stream(v, lines[..i]), lines[i])
    decreases |lines|
  {
    hide Feed;
    if i == 0 {
      assert lines[..1] == [lines[0]] && lines[..1][1..] == [];
      assert Stream(Feed(v, lines[0]), []) == Feed(v, lines[0]);
    } else {
      assert lines[..i + 1][1..] == lines[1..][..i] && lines[..i][1..] == lines[1..][..i - 1];
      StreamStep(Feed(v, lines[0]), lines[1..], i - 1);
    }
  }

  /** Event `i` has visible content, and the text shown with it asks for permission. */
  predicate StopsAt(events: seq<Event>, before: string, asks: string -> bool, i: nat) {
    i < |events| && events[i].channel.Text? && events[i].delta != "" && asks(before + Shown(events[..i + 1]))
  }

  /** The first such event, and the text shown up to it. */
  ghost predicate StoppedAt(events: seq<Event>, before: string, asks: string -> bool, i: nat, shown: string) {
    && StopsAt(events, before, asks, i) && shown == before + Shown(events[..i + 1])
    && forall k: nat :: k < i ==> !StopsAt(events, before, asks, k)
  }

  ghost predicate NeverStops(events: seq<Event>, before: string, asks: string -> bool) {
    forall k: nat :: !StopsAt(events, before, asks, k)
  }

  /** The consumer's side of one line: text events with content are shown, until the text asks for permission. */
  method ShowEvents(events: seq<Event>, before: string, asks: string -> bool) returns (shown: string, stopped: bool)
    ensures !stopped ==> shown == before + Shown(events) && NeverStops(events, before, asks)
    ensures stopped ==> exists i: nat :: StoppedAt(events, before, asks, i, shown)
  {
    shown := before;
    assert Shown(events[..0]) == "";
    for i := 0 to |events|
      invariant shown == before + Shown(events[..i])
      invariant forall k: nat :: k < i ==> !StopsAt(events, before, asks, k)
    {
      hide Shown;
      ShownStep(events, i);
      if events[i].channel.Text? && events[i].delta != "" {
        shown := shown + events[i].delta;
        assert shown == before + Shown(events[..i + 1]);
        if asks(shown) {
          assert StoppedAt(events, before, asks, i, shown);
          return shown, true;
        }
      }
    }
    assert events[..|events|] == events;
    return shown, false;
  }

  /** The events of line `n` and the text shown before it. */
  function EventsOf(lines: seq<Line>, n: nat): seq<Event>
    requires n < |lines|
  {
    var v := Stream(View("", ""), lines[..n]);
    Parse(lines[n], v.text, v.shown != "").events
  }

  function ShownBefore(lines: seq<Line>, n: nat): string
    requires n < |lines|
  {
    Stream(View("", ""), lines[..n]).shown
  }

  /** The stream stops at event `i` of line `n`, before any other stop. */
  ghost predicate FirstStop(lines: seq<Line>, asks: string -> bool, n: nat, i: nat, shown: string) {
    && n < |lines| && StoppedAt(EventsOf(lines, n), ShownBefore(lines, n), asks, i, shown)
    && forall m: nat :: m < n ==> NeverStops(EventsOf(lines, m), ShownBefore(lines, m), asks)
  }

  /**
   The accumulation in `send_streaming`, line by line and event by event, with the stop on a text that asks for
   permission: it shows the whole stream exactly if no text on the way asks, and otherwise stops at the first that does.
   */
  method SendStreaming(lines: seq<Line>, asks: string -> bool) returns (shown: string, text: string, stopped: bool)
    ensures !stopped ==> View(shown, text) == Stream(View("", ""), lines)
    ensures !stopped ==> forall n: nat :: n < |lines| ==> NeverStops(EventsOf(lines, n), ShownBefore(lines, n), asks)
    ensures stopped ==> exists n: nat, i: nat :: FirstStop(lines, asks, n, i, shown)
  {
    hide Parse, Shown, NeverStops, StoppedAt;
    shown, text, stopped := "", "", false;
    assert Stream(View("", ""), lines[..0]) == View("", "");
    for n := 0 to |lines|
      invariant View(shown, text) == Stream(View("", ""), lines[..n])
      invariant forall m: nat :: m < n ==> NeverStops(EventsOf(lines, m), ShownBefore(lines, m), asks)
    {
      StreamStep(View("", ""), lines, n);
      var p := Parse(lines[n], text, shown != "");
      ghost var before := shown;
      shown, stopped := ShowEvents(p.events, shown, asks);
      text := p.text;
      if stopped {
        ghost var i: nat :| StoppedAt(p.events, before, asks, i, shown);
        assert FirstStop(lines, asks, n, i, shown);
        return;
      }
    }
    assert lines[..|lines|] == lines;
    return;
  }
}
