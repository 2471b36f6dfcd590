/** What a reading says, in terms of the lines of its turn: which records become messages,
    what text, model and input tokens it reports, and when it calls itself complete. */
module TranscriptMeaning {
  import opened Transcript
  import opened TranscriptTurns

  // ---- The lines of a turn ----

  /** The same record, content and all, was there earlier in the turn. */
  predicate Repeats(lines: seq<Line>, i: nat)
    requires i < |lines|
  {
    IsAssistant(lines[i]) && lines[i].uuid != "" &&
    exists j :: 0 <= j < i && IsAssistant(lines[j]) && lines[j].uuid == lines[i].uuid && lines[j].content.raw == lines[i].content.raw
  }

  predicate BecomesMessage(lines: seq<Line>, i: nat)
    requires i < |lines|
  {
    IsAssistant(lines[i]) && !Repeats(lines, i) && !lines[i].content.shape.Absent?
  }

  /** What is wrong with a line, if anything is. */
  function Fault(line: Line, repeats: bool): string {
    if line.Malformed? then "transcript contains malformed or incomplete JSON records"
    else if line.kind != "assistant" then ""
    else if !repeats && line.content.shape.Absent? then "assistant record has no supported content"
    else if !repeats && line.content.shape.Unsupported? then "assistant content format unavailable"
    else if line.id == "" && line.uuid == "" then "assistant record lacks message identity"
    else ""
  }

  function Complaint(lines: seq<Line>, i: nat): string
    requires i < |lines|
  {
    Fault(lines[i], Repeats(lines, i))
  }

  predicate Faultless(lines: seq<Line>) {
    forall i :: 0 <= i < |lines| ==> Complaint(lines, i) == ""
  }

  /** The complaint of the last line that has one. */
  predicate LastComplaint(lines: seq<Line>, complaint: string) {
    exists i :: 0 <= i < |lines| && Complaint(lines, i) == complaint != "" && forall j :: i < j < |lines| ==> Complaint(lines, j) == ""
  }

  predicate Increasing(at: seq<nat>) {
    forall i, j :: 0 <= i < j < |at| ==> at[i] < at[j]
  }

  /** `at` lists the lines that become messages. */
  ghost predicate Lists(lines: seq<Line>, at: seq<nat>) {
    Increasing(at) && forall i: nat :: i in at <==> i < |lines| && BecomesMessage(lines, i)
  }

  function MessageOf(line: Line): Message
    requires IsAssistant(line)
  {
    Message(if line.id != "" then line.id else if line.uuid != "" then line.uuid else "record-" + line.digest,
            "", line.uuid, line.timestamp, line.model, line.content)
  }

  /** The texts of the listed lines, one after the other. */
  function Pieces(lines: seq<Line>, at: seq<nat>): seq<string>
    requires forall j :: 0 <= j < |at| ==> at[j] < |lines| && lines[at[j]].Line?
  {
    if at == [] then [] else Pieces(lines, at[..|at| - 1]) + Texts(lines[at[|at| - 1]].content.shape)
  }

  /** The listed lines' messages. */
  ghost predicate Carries(messages: seq<Message>, lines: seq<Line>, at: seq<nat>) {
    |messages| == |at| &&
    forall j :: 0 <= j < |at| ==> at[j] < |lines| && IsAssistant(lines[at[j]]) && messages[j] == MessageOf(lines[at[j]])
  }

  /** The reason standing against a turn: the last complaint, or the one it started with. */
  predicate Stands(reason: string, start: string, lines: seq<Line>) {
    if Faultless(lines) then reason == start else LastComplaint(lines, reason)
  }

  ghost predicate Remembers(seen: set<(string, string)>, lines: seq<Line>) {
    forall u, raw :: (u, raw) in seen <==>
      u != "" && exists i :: 0 <= i < |lines| && IsAssistant(lines[i]) && lines[i].uuid == u && lines[i].content.raw == raw
  }

  /** What a reader that began a turn with nothing holds after its lines. */
  ghost predicate Holds(r: Reader, start: string, lines: seq<Line>, at: seq<nat>) {
    && Lists(lines, at) && Carries(r.messages, lines, at) && r.texts == Pieces(lines, at)
    && Stands(r.partial, start, lines) && Remembers(r.seen, lines)
  }

  predicate Blank(r: Reader) {
    r.messages == [] && r.order == [] && r.usages == map[] && r.seen == {} && r.texts == []
  }

  // ---- One more line ----

  lemma EarlierLines(lines: seq<Line>, i: nat)
    requires i < |lines| - 1
    ensures Repeats(lines, i) == Repeats(lines[..|lines| - 1], i)
    ensures BecomesMessage(lines, i) == BecomesMessage(lines[..|lines| - 1], i)
    ensures Complaint(lines, i) == Complaint(lines[..|lines| - 1], i)
  {
    assert forall j :: 0 <= j < |lines| - 1 ==> lines[..|lines| - 1][j] == lines[j];
  }

  lemma ListsNext(lines: seq<Line>, at: seq<nat>)
    requires lines != [] && Lists(lines[..|lines| - 1], at)
    ensures Lists(lines, at + if BecomesMessage(lines, |lines| - 1) then [|lines| - 1] else [])
    ensures forall j :: 0 <= j < |at| ==> at[j] < |lines| - 1 && lines[..|lines| - 1][at[j]] == lines[at[j]]
  {
    var n := |lines| - 1;
    forall j | 0 <= j < |at| ensures at[j] < n {
      assert at[j] in at;
    }
    forall i: nat | i < n ensures BecomesMessage(lines, i) == BecomesMessage(lines[..n], i) {
      EarlierLines(lines, i);
    }
    hide BecomesMessage;
  }

  lemma {:induction false} PiecesOfFront(lines: seq<Line>, at: seq<nat>)
    requires lines != [] && forall j :: 0 <= j < |at| ==> at[j] < |lines| - 1 && lines[at[j]].Line?
    ensures Pieces(lines[..|lines| - 1], at) == Pieces(lines, at)
    decreases at
  {
    if at != [] {
      PiecesOfFront(lines, at[..|at| - 1]);
    }
  }

  /** What one line does, apart from being remembered. */
  lemma StepEffect(r: Reader, line: Line, repeats: bool)
    requires !IsPrompt(line)
    requires IsAssistant(line) ==> (repeats <==> line.uuid != "" && (line.uuid, line.content.raw) in r.seen)
    ensures var next, adds := Step(r, line, ""), IsAssistant(line) && !repeats && !line.content.shape.Absent?;
            && next.partial == (if Fault(line, repeats) != "" then Fault(line, repeats) else r.partial)
            && next.messages == r.messages + (if adds then [MessageOf(line)] else [])
            && next.texts == r.texts + (if adds then Texts(line.content.shape) else [])
  {
    hide Texts, Updated, TallyOf, RealUserPrompt;
  }

  lemma FaultlessFront(lines: seq<Line>)
    requires lines != [] && Complaint(lines, |lines| - 1) == ""
    ensures Faultless(lines) <==> Faultless(lines[..|lines| - 1])
  {
    var front := lines[..|lines| - 1];
    forall i | 0 <= i < |front| ensures Complaint(lines, i) == Complaint(front, i) {
      EarlierLines(lines, i);
    }
    hide Complaint;
  }

  lemma ComplaintOfFront(lines: seq<Line>, c: string)
    requires lines != [] && Complaint(lines, |lines| - 1) == "" && LastComplaint(lines[..|lines| - 1], c)
    ensures LastComplaint(lines, c)
  {
    hide Complaint;
    var n := |lines| - 1;
    var front := lines[..n];
    var i :| 0 <= i < n && Complaint(front, i) == c != "" && forall j :: i < j < n ==> Complaint(front, j) == "";
    EarlierLines(lines, i);
    forall j | i < j < |lines| ensures Complaint(lines, j) == "" {
      if j < n {
        EarlierLines(lines, j);
      }
    }
  }

  lemma StandsNext(before: string, after: string, start: string, lines: seq<Line>)
    requires lines != [] && Stands(before, start, lines[..|lines| - 1])
    requires after == if Complaint(lines, |lines| - 1) != "" then Complaint(lines, |lines| - 1) else before
    ensures Stands(after, start, lines)
  {
    hide Complaint;
    if Complaint(lines, |lines| - 1) == "" {
      FaultlessFront(lines);
      hide Faultless, LastComplaint;
      if !Faultless(lines) {
        ComplaintOfFront(lines, before);
      }
    }
  }

  lemma RemembersNext(r: Reader, lines: seq<Line>)
    requires lines != [] && NoPrompt(lines) && Remembers(r.seen, lines[..|lines| - 1])
    ensures Remembers(Step(r, lines[|lines| - 1], "").seen, lines)
    ensures var line := lines[|lines| - 1];
            IsAssistant(line) ==> (Repeats(lines, |lines| - 1) <==> line.uuid != "" && (line.uuid, line.content.raw) in r.seen)
  {
    SeenStep(r, lines[|lines| - 1]);
    RemembersAdd(r.seen, lines);
  }

  lemma SeenStep(r: Reader, line: Line)
    requires !IsPrompt(line)
    ensures Step(r, line, "").seen == r.seen + if IsAssistant(line) && line.uuid != "" then {(line.uuid, line.content.raw)} else {}
  {
    hide Texts, Updated, TallyOf, RealUserPrompt;
  }

  lemma RemembersAdd(seen: set<(string, string)>, lines: seq<Line>)
    requires lines != [] && Remembers(seen, lines[..|lines| - 1])
    ensures var line := lines[|lines| - 1];
            && Remembers(seen + (if IsAssistant(line) && line.uuid != "" then {(line.uuid, line.content.raw)} else {}), lines)
            && (IsAssistant(line) ==> (Repeats(lines, |lines| - 1) <==> line.uuid != "" && (line.uuid, line.content.raw) in seen))
  {
    var front := lines[..|lines| - 1];
    assert forall i :: 0 <= i < |front| ==> front[i] == lines[i];
  }

  lemma CarriesNext(messages: seq<Message>, lines: seq<Line>, at: seq<nat>, adds: bool)
    requires lines != [] && Carries(messages, lines[..|lines| - 1], at)
    requires adds ==> IsAssistant(lines[|lines| - 1])
    ensures Carries(messages + (if adds then [MessageOf(lines[|lines| - 1])] else []), lines, at + if adds then [|lines| - 1] else [])
    ensures forall j :: 0 <= j < |at| ==> at[j] < |lines| - 1 && lines[at[j]].Line?
  {
    var front := lines[..|lines| - 1];
    forall j | 0 <= j < |at| ensures at[j] < |front| && front[at[j]] == lines[at[j]] {
    }
  }

  lemma PiecesNext(lines: seq<Line>, at: seq<nat>, adds: bool)
    requires lines != [] && forall j :: 0 <= j < |at| ==> at[j] < |lines| - 1 && lines[at[j]].Line?
    requires adds ==> IsAssistant(lines[|lines| - 1])
    ensures Pieces(lines, at + if adds then [|lines| - 1] else []) ==
            Pieces(lines[..|lines| - 1], at) + if adds then Texts(lines[|lines| - 1].content.shape) else []
  {
    hide Texts, Pieces;
    PiecesOfFront(lines, at);
    if adds {
      PiecesAdd(lines, at, |lines| - 1);
    } else {
      assert at + [] == at;
    }
  }

  lemma PiecesAdd(lines: seq<Line>, at: seq<nat>, i: nat)
    requires i < |lines| && lines[i].Line? && forall j :: 0 <= j < |at| ==> at[j] < |lines| && lines[at[j]].Line?
    ensures Pieces(lines, at + [i]) == Pieces(lines, at) + Texts(lines[i].content.shape)
  {
    hide Texts;
    assert (at + [i])[..|at|] == at && (at + [i])[|at|] == i;
  }

  lemma HoldsNext(r: Reader, start: string, lines: seq<Line>, at: seq<nat>)
    requires lines != [] && NoPrompt(lines) && Holds(r, start, lines[..|lines| - 1], at)
    ensures Holds(Step(r, lines[|lines| - 1], ""), start, lines, at + if BecomesMessage(lines, |lines| - 1) then [|lines| - 1] else [])
  {
    hide Step, Lists, Repeats, Texts, Fault, Stands, Remembers, Carries, Pieces;
    var n := |lines| - 1;
    ListsNext(lines, at);
    RemembersNext(r, lines);
    StepEffect(r, lines[n], Repeats(lines, n));
    StandsNext(r.partial, Step(r, lines[n], "").partial, start, lines);
    CarriesNext(r.messages, lines, at, BecomesMessage(lines, n));
    PiecesNext(lines, at, BecomesMessage(lines, n));
  }

  /** Reading a turn's lines from nothing. */
  lemma {:induction false} TurnHolds(start: Reader, lines: seq<Line>) returns (at: seq<nat>)
    requires Blank(start) && NoPrompt(lines)
    ensures Holds(Consume(start, lines, ""), start.partial, lines, at)
    decreases |lines|
  {
    if lines == [] {
      at := [];
    } else {
      var n := |lines| - 1;
      var front, line := lines[..n], lines[n];
      assert lines == front + [line];
      at := TurnHolds(start, front);
      ConsumeAll(start, front, [line], "");
      var r := Consume(start, front, "");
      assert [line][1..] == [];
      assert Consume(r, [line], "") == Step(r, line, "");
      HoldsNext(r, start.partial, lines, at);
      at := at + if BecomesMessage(lines, n) then [n] else [];
    }
  }

  // ---- Input tokens and model ----

  /** What a record reports as input: fresh, read from the cache and written to it. */
  function InputOf(line: Line): int
    requires IsAssistant(line)
  {
    line.usage.input + line.usage.cacheRead + line.usage.cacheCreation
  }

  /** The last input other than zero reported for a message. */
  function LatestInput(lines: seq<Line>, id: string): int {
    if lines == [] then 0
    else
      var n := |lines| - 1;
      if IsAssistant(lines[n]) && RecordId(lines[n]) == id && InputOf(lines[n]) != 0 then InputOf(lines[n])
      else LatestInput(lines[..n], id)
  }

  /** The last model named for a message. */
  function LatestModel(lines: seq<Line>, id: string): string {
    if lines == [] then ""
    else
      var n := |lines| - 1;
      if IsAssistant(lines[n]) && RecordId(lines[n]) == id && lines[n].model != "" then lines[n].model
      else LatestModel(lines[..n], id)
  }

  lemma {:induction false} TurnTallied(start: Reader, lines: seq<Line>)
    requires NoPrompt(lines) && start.usages == map[]
    ensures var u := Consume(start, lines, "").usages;
            forall id :: TallyOf(u, id).input == LatestInput(lines, id) && TallyOf(u, id).model == LatestModel(lines, id)
    decreases |lines|
  {
    hide Kept, RecordId, TallyOf, LatestInput, LatestModel, Updated;
    if lines == [] {
      NothingTallied();
    } else {
      var n := |lines| - 1;
      var front, line := lines[..n], lines[n];
      assert lines == front + [line];
      TurnTallied(start, front);
      ConsumeAll(start, front, [line], "");
      var r := Consume(start, front, "");
      assert [line][1..] == [];
      assert Consume(r, [line], "") == Step(r, line, "");
      TalliedNext(r.usages, lines);
      if IsAssistant(line) {
        KeptTallies(Counted(r, line), line);
      }
    }
  }

  lemma NothingTallied()
    ensures forall id :: TallyOf(map[], id).input == LatestInput([], id) && TallyOf(map[], id).model == LatestModel([], id)
  {
  }

  lemma TalliedNext(u: map<string, Tally>, lines: seq<Line>)
    requires lines != []
    requires forall id :: TallyOf(u, id).input == LatestInput(lines[..|lines| - 1], id)
                          && TallyOf(u, id).model == LatestModel(lines[..|lines| - 1], id)
    ensures var line := lines[|lines| - 1];
            var after := if IsAssistant(line) then u[RecordId(line) := Updated(TallyOf(u, RecordId(line)), line)] else u;
            forall id :: TallyOf(after, id).input == LatestInput(lines, id) && TallyOf(after, id).model == LatestModel(lines, id)
  {
    hide RecordId, Updated, LatestInput, LatestModel;
    var line := lines[|lines| - 1];
    forall id
      ensures LatestInput(lines, id) == if IsAssistant(line) && RecordId(line) == id then Updated(TallyOf(u, id), line).input else TallyOf(u, id).input
      ensures LatestModel(lines, id) == if IsAssistant(line) && RecordId(line) == id then Updated(TallyOf(u, id), line).model else TallyOf(u, id).model
    {
      TallyNext(TallyOf(u, id), lines, id);
    }
  }

  lemma TallyNext(before: Tally, lines: seq<Line>, id: string)
    requires lines != [] && before.input == LatestInput(lines[..|lines| - 1], id) && before.model == LatestModel(lines[..|lines| - 1], id)
    ensures var line := lines[|lines| - 1];
            var after := if IsAssistant(line) && RecordId(line) == id then Updated(before, line) else before;
            LatestInput(lines, id) == after.input && LatestModel(lines, id) == after.model
  {
    hide RecordId;
  }

  /** Message `k` is the last with any input. */
  predicate InputAt(lines: seq<Line>, ids: seq<string>, k: nat, x: int)
    requires k < |ids|
  {
    LatestInput(lines, ids[k]) == x && x > 0 && forall j :: k < j < |ids| ==> LatestInput(lines, ids[j]) <= 0
  }

  /** The input of the last message that has any. */
  predicate LastInput(lines: seq<Line>, ids: seq<string>, x: int) {
    || (x == 0 && forall k :: 0 <= k < |ids| ==> LatestInput(lines, ids[k]) <= 0)
    || exists k: nat :: k < |ids| && InputAt(lines, ids, k, x)
  }

  predicate ModelAt(lines: seq<Line>, ids: seq<string>, k: nat, model: string)
    requires k < |ids|
  {
    LatestModel(lines, ids[k]) == model && model != "" && forall j :: k < j < |ids| ==> LatestModel(lines, ids[j]) == ""
  }

  predicate LastModel(lines: seq<Line>, ids: seq<string>, model: string) {
    || (model == "" && forall k :: 0 <= k < |ids| ==> LatestModel(lines, ids[k]) == "")
    || exists k: nat :: k < |ids| && ModelAt(lines, ids, k, model)
  }

  lemma {:induction false} TotalsAreLast(lines: seq<Line>, order: seq<string>, usages: map<string, Tally>)
    requires forall id :: TallyOf(usages, id).input == LatestInput(lines, id) && TallyOf(usages, id).model == LatestModel(lines, id)
    ensures LastInput(lines, order, Totals(order, usages).input)
    ensures LastModel(lines, order, Totals(order, usages).model)
    decreases |order|
  {
    hide LastInput, LastModel;
    if order == [] {
      LastOfNone(lines);
    } else {
      var front := order[..|order| - 1];
      TotalsAreLast(lines, front, usages);
      LastInputNext(lines, order, Totals(front, usages).input);
      LastModelNext(lines, order, Totals(front, usages).model);
    }
  }

  lemma LastOfNone(lines: seq<Line>)
    ensures LastInput(lines, [], 0) && LastModel(lines, [], "")
  {
  }

  lemma LastInputNext(lines: seq<Line>, ids: seq<string>, x: int)
    requires ids != [] && LastInput(lines, ids[..|ids| - 1], x)
    ensures var last := LatestInput(lines, ids[|ids| - 1]); LastInput(lines, ids, if last > 0 then last else x)
  {
    hide LatestInput;
    var n, front := |ids| - 1, ids[..|ids| - 1];
    if LatestInput(lines, ids[n]) > 0 {
      assert InputAt(lines, ids, n, LatestInput(lines, ids[n]));
    } else if k: nat :| k < n && InputAt(lines, front, k, x) {
      forall j | k < j < |ids| ensures LatestInput(lines, ids[j]) <= 0 {
        assert j < n ==> front[j] == ids[j];
      }
      assert InputAt(lines, ids, k, x);
    } else {
      forall j | 0 <= j < |ids| ensures LatestInput(lines, ids[j]) <= 0 {
        assert j < n ==> front[j] == ids[j];
      }
    }
  }

  lemma LastModelNext(lines: seq<Line>, ids: seq<string>, x: string)
    requires ids != [] && LastModel(lines, ids[..|ids| - 1], x)
    ensures var last := LatestModel(lines, ids[|ids| - 1]); LastModel(lines, ids, if last != "" then last else x)
  {
    hide LatestModel;
    var n, front := |ids| - 1, ids[..|ids| - 1];
    if LatestModel(lines, ids[n]) != "" {
      assert ModelAt(lines, ids, n, LatestModel(lines, ids[n]));
    } else if k: nat :| k < n && ModelAt(lines, front, k, x) {
      forall j | k < j < |ids| ensures LatestModel(lines, ids[j]) == "" {
        assert j < n ==> front[j] == ids[j];
      }
      assert ModelAt(lines, ids, k, x);
    } else {
      forall j | 0 <= j < |ids| ensures LatestModel(lines, ids[j]) == "" {
        assert j < n ==> front[j] == ids[j];
      }
    }
  }

  // ---- What is reported ----

  /** The stats of a turn whose lines, after its prompt, are `lines`. */
  ghost predicate Says(stats: TurnStats, start: string, lines: seq<Line>, at: seq<nat>) {
    && Lists(lines, at) && Carries(stats.messages, lines, at)
    && (at == [] ==> stats.status == "unavailable" && stats.text == stats.model == "" && stats.input == 0)
    && (at != [] ==>
          && stats.status == (if Faultless(lines) && start == "" then "complete" else "partial")
          && stats.text == Join(Pieces(lines, at))
          && LastInput(lines, Ids(lines), stats.input) && LastModel(lines, Ids(lines), stats.model))
    && (if Faultless(lines) then stats.reason == if at == [] && start == "" then NO_MESSAGES else start
        else LastComplaint(lines, stats.reason))
  }

  lemma TurnSays(start: Reader, lines: seq<Line>) returns (at: seq<nat>)
    requires Blank(start) && NoPrompt(lines)
    ensures Says(Summary(Consume(start, lines, "")), start.partial, lines, at)
  {
    hide Consume, Totals, Carries, Lists, LastInput, LastModel, Pieces, Join, Faultless;
    at := TurnHolds(start, lines);
    TurnTallied(start, lines);
    TurnTallies(start, lines);
    var r := Consume(start, lines, "");
    TotalsAreLast(lines, r.order, r.usages);
    CarriesAll(r.messages, lines, at);
    ComplaintsAreSomething(lines, r.partial);
  }

  lemma CarriesAll(messages: seq<Message>, lines: seq<Line>, at: seq<nat>)
    requires Carries(messages, lines, at)
    ensures messages == [] <==> at == []
  {
  }

  lemma ComplaintsAreSomething(lines: seq<Line>, c: string)
    ensures LastComplaint(lines, c) ==> c != "" && !Faultless(lines)
  {
  }

  /** What is read of the latest turn, from its lines alone: which become messages, the text,
      input and model, and complete exactly when none of them is faulty. */
  lemma LatestTurnSays(before: seq<Line>, p: Line, rest: seq<Line>, clipped: bool) returns (at: seq<nat>)
    requires IsPrompt(p) && NoPrompt(rest)
    ensures var stats := Read(before + ([p] + rest), clipped, "");
            && Says(stats, "", rest, at)
            && stats.turn == if p.uuid != "" then p.uuid else "prompt-" + p.digest
  {
    hide Says, Totals, Kept, Counted;
    LatestTurnIsSuffix(before, [p] + rest, clipped, clipped);
    assert ([p] + rest)[1..] == rest && Step(Start(clipped), p, "") == Fresh(PromptId(p));
    at := TurnSays(Fresh(PromptId(p)), rest);
    KeepsTurn(Fresh(PromptId(p)), rest);
  }

  /** Lines without any prompt are read as a turn, with what the read window lost held against it. */
  lemma PromptlessSays(lines: seq<Line>, clipped: bool) returns (at: seq<nat>)
    requires NoPrompt(lines)
    ensures var stats := Read(lines, clipped, "");
            Says(stats, if clipped then "transcript exceeds 256 MiB read window; earlier content unavailable" else "", lines, at)
            && stats.turn == ""
  {
    hide Says, Totals, Kept, Counted;
    at := TurnSays(Start(clipped), lines);
    KeepsTurn(Start(clipped), lines);
  }

  /** The same of a turn asked for by its id. */
  lemma TargetedTurnSays(lines: seq<Line>, clipped: bool, turn: string) returns (at: seq<nat>)
    requires turn != "" && Cut(lines, turn) != []
    ensures var stats := Read(lines, clipped, turn); Says(stats, "", Cut(lines, turn)[1..], at) && stats.turn == turn
  {
    hide Says, Read;
    CutStarts(lines, turn);
    TargetReadsItsTurn(lines, clipped, false, turn);
    var cut := Cut(lines, turn);
    assert [] + ([cut[0]] + cut[1..]) == cut;
    at := LatestTurnSays([], cut[0], cut[1..], false);
  }

  lemma {:induction false} KeepsTurn(r: Reader, lines: seq<Line>)
    requires NoPrompt(lines)
    ensures Summary(Consume(r, lines, "")).turn == r.turn
    decreases |lines|
  {
    hide Totals, Step;
    if lines != [] {
      StepKeepsTurn(r, lines[0], "");
      KeepsTurn(Step(r, lines[0], ""), lines[1..]);
    }
  }

  /** The text of a list of blocks: that of its text blocks, in order. */
  lemma {:induction false} TextBlocksAre(blocks: seq<Block>) returns (at: seq<nat>)
    ensures Increasing(at) && forall i: nat :: i in at <==> i < |blocks| && blocks[i].kind == "text"
    ensures |TextBlocks(blocks)| == |at| && forall j :: 0 <= j < |at| ==> at[j] < |blocks| && TextBlocks(blocks)[j] == blocks[at[j]].text
    decreases blocks
  {
    at := [];
    if blocks != [] {
      var n := |blocks| - 1;
      var front := TextBlocksAre(blocks[..n]);
      at := front + if blocks[n].kind == "text" then [n] else [];
      forall j | 0 <= j < |front| ensures front[j] < n {
      }
    }
  }

  // ---- When a reading is complete ----

  /** The lines after the latest prompt; all of them, if there is none. */
  function LatestBody(lines: seq<Line>): seq<Line>
    decreases |lines|
  {
    if NoPrompt(lines) then lines else if NoPrompt(lines[1..]) then lines[1..] else LatestBody(lines[1..])
  }

  /** Nothing is wrong with the lines of the turn, and they are all there. */
  predicate Clean(lines: seq<Line>, clipped: bool, target: string) {
    if target != "" then Cut(lines, target) != [] && Faultless(Cut(lines, target)[1..])
    else Faultless(LatestBody(lines)) && !(clipped && NoPrompt(lines))
  }

  lemma {:induction false} LatestBodySplits(lines: seq<Line>) returns (before: seq<Line>, p: Line)
    requires !NoPrompt(lines)
    ensures IsPrompt(p) && NoPrompt(LatestBody(lines)) && lines == before + ([p] + LatestBody(lines))
    decreases |lines|
  {
    if NoPrompt(lines[1..]) {
      before, p := [], lines[0];
      assert lines == [p] + lines[1..];
    } else {
      before, p := LatestBodySplits(lines[1..]);
      assert lines == [lines[0]] + lines[1..];
      before := [lines[0]] + before;
    }
  }

  /** A reading with messages is complete exactly when the lines of its turn are faultless and,
      if no prompt begins it, nothing before them was cut off; otherwise it is partial. */
  lemma StatusIff(lines: seq<Line>, clipped: bool, target: string)
    ensures var stats := Read(lines, clipped, target);
            stats.status == if stats.messages == [] then "unavailable" else if Clean(lines, clipped, target) then "complete" else "partial"
  {
    hide Read, Faultless, LastComplaint, Pieces, LastInput, LastModel, Lists, Join, LatestBody, Cut;
    if target != "" {
      if Cut(lines, target) == [] {
        TargetReadsItsTurn(lines, clipped, false, target);
      } else {
        var at := TargetedTurnSays(lines, clipped, target);
      }
    } else if NoPrompt(lines) {
      var at := PromptlessSays(lines, clipped);
      WholeBody(lines);
    } else {
      var before, p := LatestBodySplits(lines);
      var at := LatestTurnSays(before, p, LatestBody(lines), clipped);
    }
  }

  lemma WholeBody(lines: seq<Line>)
    requires NoPrompt(lines)
    ensures LatestBody(lines) == lines
  {
  }
}
