/** Reading one turn out of a transcript: a single pass over its lines that must
    agree with cutting the turn out first. */
module Transcript {
  datatype Block = Block(kind: string, text: string)

  /** What a content field decodes to. */
  datatype Shape = Absent | Null | Plain(text: string) | Blocks(blocks: seq<Block>) | Unsupported

  /** `raw` is the field's text. */
  datatype Content = Content(raw: string, shape: Shape)

  datatype Usage = Usage(input: int, output: int, cacheRead: int, cacheCreation: int)

  /** `digest` is that of the line's text. */
  datatype Line =
    | Malformed
    | Line(kind: string, uuid: string, timestamp: string, isMeta: bool,
           id: string, model: string, content: Content, usage: Usage, digest: string)

  datatype Message = Message(id: string, source: string, uuid: string, timestamp: string, model: string, content: Content)

  datatype TurnStats = TurnStats(
    turn: string, text: string, input: int, output: int, model: string,
    messages: seq<Message>, status: string, reason: string)

  const MALFORMED := "transcript contains malformed or incomplete JSON records"
  const CLIPPED := "transcript exceeds 256 MiB read window; earlier content unavailable"
  const NAMELESS := "assistant record lacks message identity"
  const EMPTY_CONTENT := "assistant record has no supported content"
  const UNKNOWN_CONTENT := "assistant content format unavailable"
  const NO_MESSAGES := "no assistant messages found for the latest turn"

  // ---- Lines ----

  predicate RealUserPrompt(s: Shape) {
    match s
    case Null => true
    case Plain(_) => true
    case Blocks(blocks) =>
      && (forall i :: 0 <= i < |blocks| ==> blocks[i].kind != "tool_result")
      && (exists i :: 0 <= i < |blocks| && blocks[i].kind != "")
    case _ => false
  }

  predicate IsPrompt(line: Line) {
    line.Line? && line.kind == "user" && !line.isMeta && RealUserPrompt(line.content.shape)
  }

  function PromptId(line: Line): string
    requires IsPrompt(line)
  {
    if line.uuid != "" then line.uuid else "prompt-" + line.digest
  }

  predicate IsAssistant(line: Line) {
    line.Line? && line.kind == "assistant"
  }

  function RecordId(line: Line): string
    requires IsAssistant(line)
  {
    if line.id != "" then line.id else if line.uuid != "" then line.uuid else "record-" + line.digest
  }

  function TextBlocks(blocks: seq<Block>): seq<string> {
    if blocks == [] then []
    else
      var n := |blocks| - 1;
      TextBlocks(blocks[..n]) + if blocks[n].kind == "text" then [blocks[n].text] else []
  }

  function Texts(s: Shape): seq<string> {
    match s
    case Plain(text) => [text]
    case Blocks(blocks) => TextBlocks(blocks)
    case _ => []
  }

  function Join(texts: seq<string>): string {
    if texts == [] then ""
    else if |texts| == 1 then texts[0]
    else Join(texts[..|texts| - 1]) + "\n" + texts[|texts| - 1]
  }

  // ---- The pass ----

  datatype Tally = Tally(input: int, output: int, model: string)

  datatype Reader = Reader(
    turn: string, messages: seq<Message>, order: seq<string>, usages: map<string, Tally>,
    seen: set<(string, string)>, texts: seq<string>, partial: string)

  function Start(clipped: bool): Reader {
    Reader("", [], [], map[], {}, [], if clipped then CLIPPED else "")
  }

  function Fresh(turn: string): Reader {
    Reader(turn, [], [], map[], {}, [], "")
  }

  function TallyOf(usages: map<string, Tally>, id: string): Tally {
    if id in usages then usages[id] else Tally(0, 0, "")
  }

  function Updated(before: Tally, line: Line): Tally
    requires IsAssistant(line)
  {
    var input := line.usage.input + line.usage.cacheRead + line.usage.cacheCreation;
    Tally(if input == 0 then before.input else input,
          if line.usage.output < before.output then before.output else line.usage.output,
          if line.model == "" then before.model else line.model)
  }

  /** The accounting of an assistant record. */
  function Counted(r: Reader, line: Line): Reader
    requires IsAssistant(line)
  {
    var id := RecordId(line);
    r.(partial := if line.id == "" && line.uuid == "" then NAMELESS else r.partial,
       order := if id in r.usages then r.order else r.order + [id],
       usages := r.usages[id := Updated(TallyOf(r.usages, id), line)])
  }

  /** Its content, unless the same record was seen. */
  function Kept(r: Reader, line: Line): Reader
    requires IsAssistant(line)
  {
    var key := (line.uuid, line.content.raw);
    if line.uuid != "" && key in r.seen then r
    else
      var s := if line.uuid != "" then r.seen + {key} else r.seen;
      if line.content.shape.Absent? then r.(seen := s, partial := EMPTY_CONTENT)
      else
        r.(seen := s,
           messages := r.messages + [Message(RecordId(line), "", line.uuid, line.timestamp, line.model, line.content)],
           texts := r.texts + Texts(line.content.shape),
           partial := if line.content.shape.Unsupported? then UNKNOWN_CONTENT else r.partial)
  }

  function Step(r: Reader, line: Line, target: string): Reader {
    if line.Malformed? then r.(partial := MALFORMED)
    else if IsPrompt(line) then Fresh(PromptId(line))
    else if IsAssistant(line) && (target == "" || r.turn == target) then Kept(Counted(r, line), line)
    else r
  }

  /** A prompt after the wanted turn ends the pass. */
  predicate Ends(r: Reader, line: Line, target: string) {
    IsPrompt(line) && target != "" && r.turn == target
  }

  function Consume(r: Reader, lines: seq<Line>, target: string): Reader
    decreases |lines|
  {
    if lines == [] || Ends(r, lines[0], target) then r
    else Consume(Step(r, lines[0], target), lines[1..], target)
  }

  function Totals(order: seq<string>, usages: map<string, Tally>): Tally {
    if order == [] then Tally(0, 0, "")
    else
      var n := |order| - 1;
      var t, u := Totals(order[..n], usages), TallyOf(usages, order[n]);
      Tally(if u.input > 0 then u.input else t.input, t.output + u.output, if u.model != "" then u.model else t.model)
  }

  function Summary(r: Reader): TurnStats {
    if r.messages == [] then
      TurnStats(r.turn, "", 0, 0, "", [], "unavailable", if r.partial != "" then r.partial else NO_MESSAGES)
    else
      var t := Totals(r.order, r.usages);
      TurnStats(r.turn, Join(r.texts), t.input, t.output, t.model, r.messages,
                if r.partial != "" then "partial" else "complete", r.partial)
  }

  function Read(lines: seq<Line>, clipped: bool, target: string): TurnStats {
    Summary(Consume(Start(clipped), lines, target))
  }

  /** Whether a user record is typed by the user rather than a tool's result. */
  method IsTyped(s: Shape) returns (typed: bool)
    ensures typed <==> RealUserPrompt(s)
  {
    match s
    case Null => typed := true;
    case Plain(_) => typed := true;
    case Blocks(blocks) =>
      typed := false;
      for i := 0 to |blocks|
        invariant forall j :: 0 <= j < i ==> blocks[j].kind != "tool_result"
        invariant typed <==> exists j :: 0 <= j < i && blocks[j].kind != ""
      {
        if blocks[i].kind == "tool_result" {
          return false;
        }
        if blocks[i].kind != "" {
          typed := true;
        }
      }
    case _ => typed := false;
  }

  /** The texts of a content, in order. */
  method CollectTexts(s: Shape) returns (texts: seq<string>)
    ensures texts == Texts(s)
  {
    texts := [];
    match s
    case Plain(text) => texts := [text];
    case Blocks(blocks) =>
      for i := 0 to |blocks|
        invariant texts == TextBlocks(blocks[..i])
      {
        assert blocks[..i + 1][..i] == blocks[..i];
        if blocks[i].kind == "text" {
          texts := texts + [blocks[i].text];
        }
      }
      assert blocks[..|blocks|] == blocks;
    case _ =>
  }

  /** The pass as it runs. */
  method ReadTurn(lines: seq<Line>, clipped: bool, target: string) returns (stats: TurnStats, ok: bool)
    ensures stats == Read(lines, clipped, target)
    ensures ok <==> stats.messages != []
  {
    hide Summary, Updated, TextBlocks;
    var turn, partial := "", if clipped then CLIPPED else "";
    var messages: seq<Message>, order: seq<string>, texts: seq<string> := [], [], [];
    var usages: map<string, Tally>, seen: set<(string, string)> := map[], {};
    var i := 0;
    assert lines[0..] == lines;
    while i < |lines|
      invariant 0 <= i <= |lines|
      invariant Consume(Reader(turn, messages, order, usages, seen, texts, partial), lines[i..], target)
             == Consume(Start(clipped), lines, target)
      decreases |lines| - i
    {
      ghost var r := Reader(turn, messages, order, usages, seen, texts, partial);
      var line := lines[i];
      ConsumeOne(r, lines, i, target);
      if line.Malformed? {
        partial := MALFORMED;
      } else {
        var prompt := line.kind == "user" && !line.isMeta;
        if prompt {
          prompt := IsTyped(line.content.shape);
        }
        if prompt {
          if target != "" && turn == target {
            break;
          }
          turn := line.uuid;
          if turn == "" {
            turn := "prompt-" + line.digest;
          }
          messages, order, usages, seen, texts, partial := [], [], map[], {}, [], "";
        }
        if line.kind == "assistant" && (target == "" || turn == target) {
          var id := line.id;
          if id == "" {
            id := line.uuid;
          }
          if id == "" {
            partial := NAMELESS;
            id := "record-" + line.digest;
          }
          if id !in usages {
            order := order + [id];
          }
          usages := usages[id := Updated(TallyOf(usages, id), line)];
          assert Reader(turn, messages, order, usages, seen, texts, partial) == Counted(r, line);
          var key := (line.uuid, line.content.raw);
          if !(line.uuid != "" && key in seen) {
            if line.uuid != "" {
              seen := seen + {key};
            }
            if line.content.shape.Absent? {
              partial := EMPTY_CONTENT;
            } else {
              messages := messages + [Message(id, "", line.uuid, line.timestamp, line.model, line.content)];
              var more := CollectTexts(line.content.shape);
              texts := texts + more;
              if line.content.shape.Unsupported? {
                partial := UNKNOWN_CONTENT;
              }
            }
          }
        }
      }
      assert Reader(turn, messages, order, usages, seen, texts, partial) == Step(r, line, target);
      i := i + 1;
    }
    if i == |lines| {
      assert lines[i..] == [];
    }
    ghost var r := Reader(turn, messages, order, usages, seen, texts, partial);
    assert r == Consume(Start(clipped), lines, target);
    stats, ok := Summarise(r, turn, messages, order, usages, texts, partial);
  }

  method Summarise(ghost r: Reader, turn: string, messages: seq<Message>, order: seq<string>,
                   usages: map<string, Tally>, texts: seq<string>, partial: string)
    returns (stats: TurnStats, ok: bool)
    requires r.turn == turn && r.messages == messages && r.order == order
    requires r.usages == usages && r.texts == texts && r.partial == partial
    ensures stats == Summary(r) && (ok <==> stats.messages != [])
  {
    if |messages| == 0 {
      return TurnStats(turn, "", 0, 0, "", [], "unavailable", if partial != "" then partial else NO_MESSAGES), false;
    }
    var input, output, model := 0, 0, "";
    for i := 0 to |order|
      invariant Tally(input, output, model) == Totals(order[..i], usages)
    {
      assert order[..i + 1][..i] == order[..i];
      var u := TallyOf(usages, order[i]);
      output := output + u.output;
      if u.input > 0 {
        input := u.input;
      }
      if u.model != "" {
        model := u.model;
      }
    }
    assert order[..|order|] == order;
    stats := TurnStats(turn, Join(texts), input, output, model, messages,
                       if partial != "" then "partial" else "complete", partial);
    ok := true;
  }

  lemma ConsumeOne(r: Reader, lines: seq<Line>, i: nat, target: string)
    requires i < |lines|
    ensures Consume(r, lines[i..], target) ==
            if Ends(r, lines[i], target) then r else Consume(Step(r, lines[i], target), lines[i + 1..], target)
  {
    assert lines[i..][0] == lines[i] && lines[i..][1..] == lines[i + 1..];
  }
}
