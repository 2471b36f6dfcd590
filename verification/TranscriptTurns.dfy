/** What reading a turn means: it is the turn cut out, however the transcript grows;
    its tokens are the largest of each message; repeated records change nothing. */
module TranscriptTurns {
  import opened Transcript

  // ---- Cutting a turn out ----

  function UpToPrompt(lines: seq<Line>): seq<Line> {
    if lines == [] || IsPrompt(lines[0]) then [] else [lines[0]] + UpToPrompt(lines[1..])
  }

  /** The first turn with this id: its prompt, and the lines up to the next prompt. */
  function Cut(lines: seq<Line>, turn: string): seq<Line> {
    if lines == [] then []
    else if IsPrompt(lines[0]) && PromptId(lines[0]) == turn then [lines[0]] + UpToPrompt(lines[1..])
    else Cut(lines[1..], turn)
  }

  predicate NoPrompt(lines: seq<Line>) {
    forall i :: 0 <= i < |lines| ==> !IsPrompt(lines[i])
  }

  lemma {:induction false} ConsumeAll(r: Reader, a: seq<Line>, b: seq<Line>, target: string)
    requires target == "" || NoPrompt(a)
    ensures Consume(r, a + b, target) == Consume(Consume(r, a, target), b, target)
    decreases |a|
  {
    if a == [] {
      assert a + b == b;
    } else {
      assert (a + b)[0] == a[0] && (a + b)[1..] == a[1..] + b;
      ConsumeAll(Step(r, a[0], target), a[1..], b, target);
    }
  }

  /** Reading the latest turn depends only on what follows its prompt, whatever came before. */
  lemma LatestTurnIsSuffix(before: seq<Line>, turn: seq<Line>, clipped: bool, other: bool)
    requires turn != [] && IsPrompt(turn[0])
    ensures Read(before + turn, clipped, "") == Read(turn, other, "")
  {
    ConsumeAll(Start(clipped), before, turn, "");
  }

  /** While the wanted turn is current, reading for it is reading up to the next prompt. */
  lemma {:induction false} WithinTurn(r: Reader, lines: seq<Line>, target: string)
    requires target != "" && r.turn == target
    ensures Consume(r, lines, target) == Consume(r, UpToPrompt(lines), "")
    decreases |lines|
  {
    hide Kept, Counted;
    if lines != [] && !IsPrompt(lines[0]) {
      var up := UpToPrompt(lines);
      assert up[0] == lines[0] && up[1..] == UpToPrompt(lines[1..]);
      var next := Step(r, lines[0], target);
      StepKeepsTurn(r, lines[0], target);
      assert next == Step(r, lines[0], "");
      WithinTurn(next, lines[1..], target);
    }
  }

  lemma StepKeepsTurn(r: Reader, line: Line, target: string)
    requires !IsPrompt(line)
    ensures Step(r, line, target).turn == r.turn
  {
  }

  lemma {:induction false} UntilTurn(r: Reader, lines: seq<Line>, target: string)
    requires target != "" && r.turn != target
    ensures Cut(lines, target) != [] ==>
              Consume(r, lines, target) == Consume(Fresh(target), Cut(lines, target)[1..], "")
    ensures Cut(lines, target) == [] ==> Consume(r, lines, target).messages == [] || Consume(r, lines, target).messages == r.messages
    decreases |lines|
  {
    hide Kept, Counted;
    if lines != [] {
      var next := Step(r, lines[0], target);
      if IsPrompt(lines[0]) && PromptId(lines[0]) == target {
        WithinTurn(next, lines[1..], target);
        assert Cut(lines, target)[1..] == UpToPrompt(lines[1..]);
      } else {
        UntilTurn(next, lines[1..], target);
      }
    }
  }

  /** Reading for a turn is reading the turn cut out; without it there is nothing to read. */
  lemma TargetReadsItsTurn(lines: seq<Line>, clipped: bool, other: bool, turn: string)
    requires turn != ""
    ensures Cut(lines, turn) != [] ==> Read(lines, clipped, turn) == Read(Cut(lines, turn), other, "")
    ensures Cut(lines, turn) == [] ==>
              Read(lines, clipped, turn).messages == [] && Read(lines, clipped, turn).status == "unavailable"
  {
    hide Kept, Counted, Totals;
    UntilTurn(Start(clipped), lines, turn);
    var cut := Cut(lines, turn);
    if cut != [] {
      CutStarts(lines, turn);
      assert Step(Start(other), cut[0], "") == Fresh(turn);
    }
  }

  lemma {:induction false} CutStarts(lines: seq<Line>, turn: string)
    requires Cut(lines, turn) != []
    ensures IsPrompt(Cut(lines, turn)[0]) && PromptId(Cut(lines, turn)[0]) == turn && NoPrompt(Cut(lines, turn)[1..])
    decreases |lines|
  {
    if IsPrompt(lines[0]) && PromptId(lines[0]) == turn {
      UpToPromptHasNone(lines[1..]);
      assert Cut(lines, turn)[1..] == UpToPrompt(lines[1..]);
    } else {
      CutStarts(lines[1..], turn);
    }
  }

  lemma {:induction false} UpToPromptHasNone(lines: seq<Line>)
    ensures NoPrompt(UpToPrompt(lines))
    decreases |lines|
  {
    if lines != [] && !IsPrompt(lines[0]) {
      UpToPromptHasNone(lines[1..]);
      assert UpToPrompt(lines)[1..] == UpToPrompt(lines[1..]);
    }
  }

  lemma {:induction false} UpToPromptGrows(lines: seq<Line>, q: Line, more: seq<Line>)
    requires IsPrompt(q)
    ensures UpToPrompt(lines + [q] + more) == UpToPrompt(lines)
    decreases |lines|
  {
    var all := lines + [q] + more;
    if lines == [] {
      assert all[0] == q;
    } else {
      assert all[0] == lines[0] && all[1..] == lines[1..] + [q] + more;
      if !IsPrompt(lines[0]) {
        UpToPromptGrows(lines[1..], q, more);
      }
    }
  }

  lemma {:induction false} CutGrows(lines: seq<Line>, q: Line, more: seq<Line>, turn: string)
    requires IsPrompt(q) && Cut(lines, turn) != []
    ensures Cut(lines + [q] + more, turn) == Cut(lines, turn)
    decreases |lines|
  {
    var all := lines + [q] + more;
    assert all[0] == lines[0] && all[1..] == lines[1..] + [q] + more;
    if IsPrompt(lines[0]) && PromptId(lines[0]) == turn {
      UpToPromptGrows(lines[1..], q, more);
    } else {
      CutGrows(lines[1..], q, more, turn);
    }
  }

  /** A later prompt, and anything after it, never changes what is read for a turn. */
  lemma StableUnderGrowth(lines: seq<Line>, q: Line, more: seq<Line>, turn: string, clipped: bool, other: bool)
    requires turn != "" && IsPrompt(q) && Cut(lines, turn) != []
    ensures Read(lines + [q] + more, clipped, turn) == Read(lines, other, turn)
  {
    CutGrows(lines, q, more, turn);
    TargetReadsItsTurn(lines, other, false, turn);
    TargetReadsItsTurn(lines + [q] + more, clipped, false, turn);
  }

  lemma {:induction false} CutSkips(before: seq<Line>, lines: seq<Line>, turn: string)
    requires forall i :: 0 <= i < |before| && IsPrompt(before[i]) ==> PromptId(before[i]) != turn
    ensures Cut(before + lines, turn) == Cut(lines, turn)
    decreases |before|
  {
    if before == [] {
      assert before + lines == lines;
    } else {
      assert (before + lines)[0] == before[0] && (before + lines)[1..] == before[1..] + lines;
      CutSkips(before[1..], lines, turn);
    }
  }

  lemma {:induction false} NothingToCut(lines: seq<Line>)
    requires NoPrompt(lines)
    ensures UpToPrompt(lines) == lines
    decreases |lines|
  {
    if lines != [] {
      NothingToCut(lines[1..]);
    }
  }

  /** The turn captured when it was the latest is the one read for it later: `lines`
      ends in a turn with a new id, and the transcript may since have grown by other turns. */
  lemma CapturedTurnStays(before: seq<Line>, p: Line, rest: seq<Line>, q: Line, more: seq<Line>, clipped: bool, later: bool)
    requires IsPrompt(p) && NoPrompt(rest) && IsPrompt(q) && PromptId(p) != ""
    requires forall i :: 0 <= i < |before| && IsPrompt(before[i]) ==> PromptId(before[i]) != PromptId(p)
    ensures var lines := before + ([p] + rest);
            && Read(lines, later, PromptId(p)) == Read(lines, clipped, "")
            && Read(lines + [q] + more, later, PromptId(p)) == Read(lines, clipped, "")
  {
    var turn, lines := [p] + rest, before + ([p] + rest);
    CutSkips(before, turn, PromptId(p));
    NothingToCut(rest);
    assert turn[0] == p && turn[1..] == rest;
    assert Cut(turn, PromptId(p)) == turn;
    LatestTurnIsSuffix(before, turn, clipped, false);
    TargetReadsItsTurn(lines, later, false, PromptId(p));
    StableUnderGrowth(lines, q, more, PromptId(p), later, later);
  }

  // ---- Accounting ----

  /** The message ids of a turn, each once, in order of appearance. */
  function Ids(lines: seq<Line>): seq<string> {
    if lines == [] then []
    else
      var n := |lines| - 1;
      var front := Ids(lines[..n]);
      front + if IsAssistant(lines[n]) && RecordId(lines[n]) !in front then [RecordId(lines[n])] else []
  }

  /** The largest output reported for a message; none is less than zero. */
  function Largest(lines: seq<Line>, id: string): int {
    if lines == [] then 0
    else
      var n := |lines| - 1;
      var before := Largest(lines[..n], id);
      if IsAssistant(lines[n]) && RecordId(lines[n]) == id && lines[n].usage.output > before then lines[n].usage.output else before
  }

  function SumOfLargest(lines: seq<Line>, ids: seq<string>): int {
    if ids == [] then 0 else SumOfLargest(lines, ids[..|ids| - 1]) + Largest(lines, ids[|ids| - 1])
  }

  lemma {:induction false} LargestIsLargest(lines: seq<Line>, id: string)
    ensures Largest(lines, id) >= 0
    ensures forall i :: 0 <= i < |lines| && IsAssistant(lines[i]) && RecordId(lines[i]) == id ==>
                          lines[i].usage.output <= Largest(lines, id)
    ensures Largest(lines, id) == 0
            || exists i :: 0 <= i < |lines| && IsAssistant(lines[i]) && RecordId(lines[i]) == id
                           && lines[i].usage.output == Largest(lines, id)
    decreases |lines|
  {
    if lines != [] {
      var n := |lines| - 1;
      var front := lines[..n];
      LargestIsLargest(front, id);
      forall i | 0 <= i < n ensures front[i] == lines[i] {
      }
    }
  }

  lemma {:induction false} IdsOnce(lines: seq<Line>)
    ensures var ids := Ids(lines);
            && (forall i, j :: 0 <= i < j < |ids| ==> ids[i] != ids[j])
            && (forall i :: 0 <= i < |lines| && IsAssistant(lines[i]) ==> RecordId(lines[i]) in ids)
    decreases |lines|
  {
    if lines != [] {
      var n := |lines| - 1;
      IdsOnce(lines[..n]);
      var front := Ids(lines[..n]);
      var ids := Ids(lines);
      assert forall id :: id in front ==> id in ids;
      forall i | 0 <= i < |lines| && IsAssistant(lines[i]) ensures RecordId(lines[i]) in ids {
        if i < n {
          assert lines[..n][i] == lines[i];
        }
      }
      forall i, j | 0 <= i < j < |ids| ensures ids[i] != ids[j] {
        assert ids[i] == front[i];
        if j < |front| {
          assert ids[j] == front[j];
        }
      }
    }
  }

  lemma {:induction false} TurnTallies(start: Reader, lines: seq<Line>)
    requires NoPrompt(lines) && start.order == [] && start.usages == map[]
    ensures var r := Consume(start, lines, "");
            && r.order == Ids(lines)
            && (forall id :: id in r.usages <==> id in r.order)
            && (forall id :: TallyOf(r.usages, id).output == Largest(lines, id))
    decreases |lines|
  {
    hide Kept;
    if lines != [] {
      var n := |lines| - 1;
      var front, line := lines[..n], lines[n];
      assert lines == front + [line];
      TurnTallies(start, front);
      ConsumeAll(start, front, [line], "");
      var r := Consume(start, front, "");
      assert [line][1..] == [];
      assert Consume(r, [line], "") == Step(r, line, "");
      if IsAssistant(line) {
        KeptTallies(Counted(r, line), line);
      }
    }
  }

  lemma KeptTallies(r: Reader, line: Line)
    requires IsAssistant(line)
    ensures Kept(r, line).order == r.order && Kept(r, line).usages == r.usages
  {
  }

  lemma {:induction false} TotalsAreSums(lines: seq<Line>, order: seq<string>, usages: map<string, Tally>)
    requires forall id :: TallyOf(usages, id).output == Largest(lines, id)
    ensures Totals(order, usages).output == SumOfLargest(lines, order)
    decreases |order|
  {
    hide Largest;
    if order != [] {
      TotalsAreSums(lines, order[..|order| - 1], usages);
    }
  }

  lemma TallySummary(start: Reader, lines: seq<Line>)
    requires NoPrompt(lines) && start.order == [] && start.usages == map[]
    ensures var stats := Summary(Consume(start, lines, ""));
            stats.output == if stats.messages == [] then 0 else SumOfLargest(lines, Ids(lines))
  {
    hide Consume, Totals;
    TurnTallies(start, lines);
    var r := Consume(start, lines, "");
    TotalsAreSums(lines, r.order, r.usages);
  }

  /** The output read is zero without messages, and otherwise the sum, over the distinct messages
      of the latest turn, of the largest output each reported. Lines without a prompt count as a turn. */
  lemma OutputIsSumOfLargest(before: seq<Line>, p: Line, rest: seq<Line>, clipped: bool)
    requires IsPrompt(p) && NoPrompt(rest)
    ensures var stats := Read(before + ([p] + rest), clipped, "");
            stats.output == if stats.messages == [] then 0 else SumOfLargest(rest, Ids(rest))
    ensures var stats := Read(rest, clipped, "");
            stats.output == if stats.messages == [] then 0 else SumOfLargest(rest, Ids(rest))
  {
    hide Kept, Counted, Totals, SumOfLargest;
    LatestTurnIsSuffix(before, [p] + rest, clipped, clipped);
    assert ([p] + rest)[1..] == rest && Step(Start(clipped), p, "") == Fresh(PromptId(p));
    TallySummary(Fresh(PromptId(p)), rest);
    TallySummary(Start(clipped), rest);
  }

  // ---- Repeated records ----

  /** Equal but for what the latest record of a message says of its input and model. */
  predicate Alike(r: Reader, s: Reader) {
    && r.turn == s.turn && r.messages == s.messages && r.order == s.order
    && r.seen == s.seen && r.texts == s.texts && r.partial == s.partial
    && r.usages.Keys == s.usages.Keys
    && forall id :: id in r.usages ==> r.usages[id].output == s.usages[id].output
  }

  lemma StepAlike(r: Reader, s: Reader, line: Line, target: string)
    requires Alike(r, s)
    ensures Alike(Step(r, line, target), Step(s, line, target))
  {
    if IsAssistant(line) {
      CountedAlike(r, s, line);
      KeptAlike(Counted(r, line), Counted(s, line), line);
    }
  }

  lemma CountedAlike(r: Reader, s: Reader, line: Line)
    requires Alike(r, s) && IsAssistant(line)
    ensures Alike(Counted(r, line), Counted(s, line))
  {
  }

  lemma KeptAlike(r: Reader, s: Reader, line: Line)
    requires Alike(r, s) && IsAssistant(line)
    ensures Alike(Kept(r, line), Kept(s, line))
  {
  }

  lemma {:induction false} ConsumeAlike(r: Reader, s: Reader, lines: seq<Line>, target: string)
    requires Alike(r, s)
    ensures Alike(Consume(r, lines, target), Consume(s, lines, target))
    decreases |lines|
  {
    hide Step;
    if lines != [] && !Ends(r, lines[0], target) {
      StepAlike(r, s, lines[0], target);
      ConsumeAlike(Step(r, lines[0], target), Step(s, lines[0], target), lines[1..], target);
    }
  }

  /** The record was taken up in the current turn. */
  predicate Remembered(r: Reader, x: Line)
    requires IsAssistant(x)
  {
    && (x.uuid, x.content.raw) in r.seen && RecordId(x) in r.usages
    && r.usages[RecordId(x)].output >= x.usage.output
  }

  predicate Active(r: Reader, target: string) {
    target == "" || r.turn == target
  }

  lemma TakenUp(r: Reader, x: Line, target: string)
    requires IsAssistant(x) && x.uuid != "" && Active(r, target)
    ensures Remembered(Step(r, x, target), x)
    ensures Remembered(r, x) ==> Alike(Step(r, x, target), r)
  {
  }

  lemma StillRemembered(r: Reader, x: Line, line: Line, target: string)
    requires IsAssistant(x) && x.uuid != "" && Remembered(r, x) && !IsPrompt(line)
    ensures Remembered(Step(r, line, target), x)
  {
  }

  /** Once taken up, a record repeated before the next prompt changes nothing that follows. */
  lemma {:induction false} RepeatLater(r: Reader, x: Line, b: seq<Line>, c: seq<Line>, target: string)
    requires IsAssistant(x) && x.uuid != "" && NoPrompt(b) && (Active(r, target) ==> Remembered(r, x))
    ensures Alike(Consume(r, b + [x] + c, target), Consume(r, b + c, target))
    decreases |b|
  {
    hide Step, Remembered, Consume, Alike;
    if b == [] {
      assert b + [x] + c == [x] + c && b + c == c;
      ConsumeHead(r, x, c, target);
      if Active(r, target) {
        TakenUp(r, x, target);
      } else {
        Inactive(r, x, target);
      }
      ConsumeAlike(Step(r, x, target), r, c, target);
    } else {
      assert b + [x] + c == [b[0]] + (b[1..] + [x] + c) && b + c == [b[0]] + (b[1..] + c);
      ConsumeHead(r, b[0], b[1..] + [x] + c, target);
      ConsumeHead(r, b[0], b[1..] + c, target);
      var next := Step(r, b[0], target);
      StepKeepsTurn(r, b[0], target);
      if Active(r, target) {
        StillRemembered(r, x, b[0], target);
      }
      RepeatLater(next, x, b[1..], c, target);
    }
  }

  lemma ConsumeHead(r: Reader, line: Line, rest: seq<Line>, target: string)
    ensures Consume(r, [line] + rest, target) == if Ends(r, line, target) then r else Consume(Step(r, line, target), rest, target)
  {
    assert ([line] + rest)[1..] == rest;
  }

  lemma Inactive(r: Reader, x: Line, target: string)
    requires IsAssistant(x) && !Active(r, target)
    ensures Alike(Step(r, x, target), r)
  {
  }

  lemma {:induction false} RepeatAfter(r: Reader, a: seq<Line>, x: Line, b: seq<Line>, c: seq<Line>, target: string)
    requires IsAssistant(x) && x.uuid != "" && NoPrompt(b)
    ensures Alike(Consume(r, a + [x] + b + [x] + c, target), Consume(r, a + [x] + b + c, target))
    decreases |a|
  {
    hide Step, Remembered, Consume, Alike;
    if a == [] {
      assert a + [x] + b + [x] + c == [x] + (b + [x] + c) && a + [x] + b + c == [x] + (b + c);
      ConsumeHead(r, x, b + [x] + c, target);
      ConsumeHead(r, x, b + c, target);
      StepKeepsTurn(r, x, target);
      if Active(r, target) {
        TakenUp(r, x, target);
      }
      RepeatLater(Step(r, x, target), x, b, c, target);
    } else {
      var a' := a[1..];
      assert a + [x] + b + [x] + c == [a[0]] + (a' + [x] + b + [x] + c);
      assert a + [x] + b + c == [a[0]] + (a' + [x] + b + c);
      ConsumeHead(r, a[0], a' + [x] + b + [x] + c, target);
      ConsumeHead(r, a[0], a' + [x] + b + c, target);
      if Ends(r, a[0], target) {
        SelfAlike(r);
      } else {
        RepeatAfter(Step(r, a[0], target), a', x, b, c, target);
      }
    }
  }

  lemma SelfAlike(r: Reader)
    ensures Alike(r, r)
  {
  }

  lemma {:induction false} SameOutputs(order: seq<string>, u: map<string, Tally>, v: map<string, Tally>)
    requires u.Keys == v.Keys && forall id :: id in u ==> u[id].output == v[id].output
    ensures Totals(order, u).output == Totals(order, v).output
    decreases |order|
  {
    if order != [] {
      SameOutputs(order[..|order| - 1], u, v);
    }
  }

  /** Repeating an assistant record that has a UUID, anywhere later in its turn, leaves
      the messages, the text, the output tokens and the status as they were. */
  lemma RepeatChangesNothing(a: seq<Line>, x: Line, b: seq<Line>, c: seq<Line>, clipped: bool, target: string)
    requires IsAssistant(x) && x.uuid != "" && NoPrompt(b)
    ensures var once, twice := Read(a + [x] + b + c, clipped, target), Read(a + [x] + b + [x] + c, clipped, target);
            && twice.turn == once.turn && twice.messages == once.messages && twice.text == once.text
            && twice.output == once.output && twice.status == once.status && twice.reason == once.reason
  {
    hide Consume, Totals;
    RepeatAfter(Start(clipped), a, x, b, c, target);
    var r, s := Consume(Start(clipped), a + [x] + b + [x] + c, target), Consume(Start(clipped), a + [x] + b + c, target);
    SameOutputs(r.order, r.usages, s.usages);
  }
}
