/** The captured turn of a stop hook: the snapshot taken when it is queued, the hook's
    own final text when the transcript lacks it, and later refinement. */
module TranscriptCapture {
  import opened Wrappers
  import opened Transcript
  import opened TranscriptTurns
  import M = TranscriptMeaning

  /** A transcript as one reading finds it. */
  datatype File = Missing | File(lines: seq<Line>, clipped: bool)

  /** `digest` and `encoded` are those of the final text. */
  datatype Hook = Hook(event: string, final: Option<string>, timestamp: string, hasPath: bool, digest: string, encoded: string)

  const NO_SNAPSHOT := TurnStats("", "", 0, 0, "", [], "unavailable", "transcript unavailable")
  const UNREADABLE := TurnStats("", "", 0, 0, "", [], "unavailable", "transcript unreadable")
  const NO_PATH := TurnStats("", "", 0, 0, "", [], "unavailable", "transcript path not supplied")
  const UNCONFIRMED := "hook did not supply final assistant text; transcript completeness cannot be confirmed"
  const FROM_HOOK := "final text captured from hook; final transcript blocks or usage not yet available"

  function LastMessageText(stats: TurnStats): string {
    if stats.messages == [] then ""
    else
      match stats.messages[|stats.messages| - 1].content.shape
      case Plain(text) => text
      case Blocks(blocks) => Join(TextBlocks(blocks))
      case _ => ""
  }

  /** The last message came from the transcript and says what the hook supplied. */
  predicate FinalPresent(h: Hook, captured: Option<TurnStats>) {
    && h.final.Some? && captured.Some? && captured.value.messages != []
    && captured.value.messages[|captured.value.messages| - 1].source == ""
    && LastMessageText(captured.value) == h.final.value
  }

  function Fallback(h: Hook, final: string): Message {
    Message("hook-final-" + h.digest, h.event + "_hook", "", h.timestamp, "",
            Content(h.encoded, Blocks([Block("text", final)])))
  }

  function Reading(file: File, target: string): TurnStats {
    match file
    case Missing => UNREADABLE
    case File(lines, clipped) => Read(lines, clipped, target)
  }

  // ---- What the operations leave ----

  function Finalised(h: Hook, captured: Option<TurnStats>): TurnStats {
    var stats := if captured.Some? then captured.value else NO_SNAPSHOT;
    if h.final.None? then
      if stats.status == "complete" then stats.(status := "partial", reason := UNCONFIRMED) else stats
    else if FinalPresent(h, captured) then stats
    else
      var final := h.final.value;
      var more := stats.messages == [] || stats.messages[|stats.messages| - 1].source == "";
      stats.(messages := if more then stats.messages + [Fallback(h, final)] else stats.messages,
             text := if more then stats.text + (if stats.text != "" && final != "" then "\n" else "") + final else stats.text,
             status := "partial", reason := FROM_HOOK)
  }

  function TargetOf(captured: Option<TurnStats>): string {
    if captured.Some? then captured.value.turn else ""
  }

  predicate SameTurn(captured: Option<TurnStats>, latest: TurnStats) {
    if TargetOf(captured) != "" then latest.turn == TargetOf(captured)
    else captured.None? || captured.value.messages == []
         || exists i :: 0 <= i < |latest.messages| && latest.messages[i].id == captured.value.messages[0].id
  }

  /** The reading confirms the captured turn with its final text. */
  predicate Confirms(h: Hook, captured: Option<TurnStats>, file: File) {
    var latest := Reading(file, TargetOf(captured));
    SameTurn(captured, latest) && FinalPresent(h, Some(latest))
  }

  /** The turn after polling the transcript: the first reading that confirms it, or the fallback. */
  function Refined(h: Hook, captured: Option<TurnStats>, polls: seq<File>): TurnStats {
    if h.final.None? || FinalPresent(h, captured) || !h.hasPath || polls == [] then Finalised(h, captured)
    else if Confirms(h, captured, polls[0]) then Reading(polls[0], TargetOf(captured))
    else Refined(h, captured, polls[1..])
  }

  // ---- The operations as they run ----

  class HookInput {
    const hook: Hook
    var captured: Option<TurnStats>

    constructor (hook: Hook)
      ensures this.hook == hook && captured == None
    {
      this.hook, captured := hook, None;
    }

    method ApplyFinalAssistant()
      modifies this`captured
      ensures captured == Some(Finalised(hook, old(captured)))
    {
      if captured == None {
        captured := Some(NO_SNAPSHOT);
      }
      var stats := captured.value;
      if hook.final == None {
        if stats.status == "complete" {
          captured := Some(stats.(status := "partial", reason := UNCONFIRMED));
        }
        return;
      }
      if FinalPresent(hook, captured) {
        return;
      }
      var final := hook.final.value;
      if |stats.messages| == 0 || stats.messages[|stats.messages| - 1].source == "" {
        var text := stats.text;
        if text != "" && final != "" {
          text := text + "\n";
        }
        assert text + final == stats.text + (if stats.text != "" && final != "" then "\n" else "") + final;
        stats := stats.(messages := stats.messages + [Fallback(hook, final)], text := text + final);
      }
      captured := Some(stats.(status := "partial", reason := FROM_HOOK));
    }

    /** The snapshot taken when the hook is queued. */
    method Capture(file: File)
      modifies this`captured
      ensures captured == Some(Finalised(hook, Some(if hook.hasPath then Reading(file, "") else NO_PATH)))
    {
      var stats := NO_PATH;
      if hook.hasPath {
        stats := ReadFile(file, "");
      }
      captured := Some(stats);
      ApplyFinalAssistant();
    }

    method ReadFile(file: File, target: string) returns (stats: TurnStats)
      ensures stats == Reading(file, target)
    {
      match file
      case Missing => stats := UNREADABLE;
      case File(lines, clipped) =>
        var ok;
        stats, ok := ReadTurn(lines, clipped, target);
    }

    /** Polls the transcript until a reading confirms the captured turn, or time is up. */
    method RefineCapturedTurn(polls: seq<File>)
      modifies this`captured
      ensures captured == Some(Refined(hook, old(captured), polls))
    {
      hide Read, Finalised, LastMessageText;
      if hook.final == None || FinalPresent(hook, captured) || !hook.hasPath {
        ApplyFinalAssistant();
        return;
      }
      var target := TargetOf(captured);
      assert polls[0..] == polls;
      for i := 0 to |polls|
        invariant captured == old(captured)
        invariant Refined(hook, captured, polls[i..]) == Refined(hook, captured, polls)
      {
        assert polls[i..][0] == polls[i] && polls[i..][1..] == polls[i + 1..];
        var latest := ReadFile(polls[i], target);
        var sameTurn := target != "" && latest.turn == target;
        if target == "" {
          sameTurn := captured == None || |captured.value.messages| == 0;
          if !sameTurn {
            sameTurn := AnyWithId(latest.messages, captured.value.messages[0].id);
          }
        }
        if sameTurn && FinalPresent(hook, Some(latest)) {
          captured := Some(latest);
          return;
        }
      }
      assert polls[|polls|..] == [];
      ApplyFinalAssistant();
    }

    method AnyWithId(messages: seq<Message>, id: string) returns (found: bool)
      ensures found <==> exists i :: 0 <= i < |messages| && messages[i].id == id
    {
      for i := 0 to |messages|
        invariant forall j :: 0 <= j < i ==> messages[j].id != id
      {
        if messages[i].id == id {
          return true;
        }
      }
      found := false;
    }
  }

  // ---- Any number of refinements ----

  /** The captured turn after queueing and then any number of preparations, each with its polls. */
  function Outcome(h: Hook, queued: File, preparations: seq<seq<File>>): TurnStats {
    if preparations == [] then Finalised(h, Some(if h.hasPath then Reading(queued, "") else NO_PATH))
    else
      var n := |preparations| - 1;
      Refined(h, Some(Outcome(h, queued, preparations[..n])), preparations[n])
  }

  predicate FromTranscript(messages: seq<Message>) {
    forall i :: 0 <= i < |messages| ==> messages[i].source == ""
  }

  /** Messages of the transcript, and at most one fallback after them. */
  predicate OneFallback(h: Hook, stats: TurnStats) {
    || FromTranscript(stats.messages)
    || (&& h.final.Some? && stats.messages != []
        && stats.messages[|stats.messages| - 1] == Fallback(h, h.final.value)
        && FromTranscript(stats.messages[..|stats.messages| - 1])
        && EndsIn(stats.text, h.final.value) && stats.status == "partial")
  }

  predicate EndsIn(text: string, final: string) {
    |text| >= |final| && text[|text| - |final|..] == final
  }

  /** Complete is claimed only for a transcript that ends in the text the hook supplied. */
  predicate Honest(h: Hook, stats: TurnStats) {
    stats.status == "complete" ==> FinalPresent(h, Some(stats))
  }

  lemma {:induction false} ReadIsFromTranscript(r: Reader, lines: seq<Line>, target: string)
    requires FromTranscript(r.messages)
    ensures FromTranscript(Consume(r, lines, target).messages)
    decreases |lines|
  {
    if lines != [] && !Ends(r, lines[0], target) {
      ReadIsFromTranscript(Step(r, lines[0], target), lines[1..], target);
    }
  }

  lemma ReadingIsFromTranscript(file: File, target: string)
    ensures FromTranscript(Reading(file, target).messages)
  {
    if file.File? {
      ReadIsFromTranscript(Start(file.clipped), file.lines, target);
    }
  }

  lemma FinalisedKeeps(h: Hook, captured: TurnStats)
    requires OneFallback(h, captured)
    ensures var stats := Finalised(h, Some(captured));
            Honest(h, stats) && OneFallback(h, stats) && stats.turn == captured.turn
    ensures captured.messages <= Finalised(h, Some(captured)).messages && captured.text <= Finalised(h, Some(captured)).text
    ensures h.final.Some? && !FinalPresent(h, Some(captured)) ==>
              var stats := Finalised(h, Some(captured));
              && stats.messages != [] && LastMessageText(stats) == h.final.value && EndsIn(stats.text, h.final.value)
              && stats.messages[|stats.messages| - 1].source == h.event + "_hook" && stats.status == "partial"
    ensures h.final.None? || FinalPresent(h, Some(captured)) ==>
              Finalised(h, Some(captured)).messages == captured.messages && Finalised(h, Some(captured)).text == captured.text
    ensures Finalised(h, Some(captured)).status == "complete"
            <==> captured.status == "complete" && FinalPresent(h, Some(captured))
  {
    var stats := Finalised(h, Some(captured));
    if |stats.messages| > |captured.messages| {
      assert stats.messages[..|stats.messages| - 1] == captured.messages;
      AddedEnds(captured.text, h.final.value);
    }
    if h.final.Some? {
      FallbackText(h, h.final.value);
    }
  }

  lemma AddedEnds(text: string, final: string)
    ensures var longer := text + (if text != "" && final != "" then "\n" else "") + final;
            text <= longer && EndsIn(longer, final)
  {
  }

  lemma FallbackText(h: Hook, final: string)
    ensures Fallback(h, final).source != "" && Join(TextBlocks([Block("text", final)])) == final
  {
    assert [Block("text", final)][..0] == [];
  }

  lemma {:induction false} RefinedKeeps(h: Hook, captured: TurnStats, polls: seq<File>)
    requires OneFallback(h, captured)
    ensures var stats := Refined(h, Some(captured), polls);
            && Honest(h, stats) && OneFallback(h, stats)
            && (captured.turn != "" ==> stats.turn == captured.turn)
    decreases |polls|
  {
    hide Finalised, FinalPresent, Reading, OneFallback;
    FinalisedKeeps(h, captured);
    if polls != [] {
      ReadingIsFromTranscript(polls[0], captured.turn);
      TranscriptOnly(h, Reading(polls[0], captured.turn));
      RefinedKeeps(h, captured, polls[1..]);
    }
  }

  lemma TranscriptOnly(h: Hook, stats: TurnStats)
    requires FromTranscript(stats.messages)
    ensures OneFallback(h, stats)
  {
  }

  /** The stats are what one reading of the file says of a turn none of whose lines is faulty. */
  ghost predicate CleanReading(file: File, target: string, stats: TurnStats) {
    file.File? && stats == Reading(file, target) && stats.messages != [] && M.Clean(file.lines, file.clipped, target)
  }

  lemma CompleteIsClean(file: File, target: string)
    requires Reading(file, target).status == "complete"
    ensures CleanReading(file, target, Reading(file, target))
  {
    hide Read, M.Clean;
    if file.File? {
      M.StatusIff(file.lines, file.clipped, target);
    }
  }

  lemma {:induction false} RefinedReads(h: Hook, captured: TurnStats, polls: seq<File>) returns (i: nat)
    requires Refined(h, Some(captured), polls).status == "complete"
    ensures Refined(h, Some(captured), polls) == captured
            || (i < |polls| && CleanReading(polls[i], captured.turn, Refined(h, Some(captured), polls)))
    decreases |polls|
  {
    hide Finalised, FinalPresent, Reading, CleanReading;
    i := 0;
    if !(h.final.None? || FinalPresent(h, Some(captured)) || !h.hasPath || polls == []) {
      if Confirms(h, Some(captured), polls[0]) {
        CompleteIsClean(polls[0], captured.turn);
      } else {
        var j := RefinedReads(h, captured, polls[1..]);
        i := j + 1;
      }
    } else {
      FinalisedComplete(h, captured);
    }
  }

  lemma FinalisedComplete(h: Hook, captured: TurnStats)
    requires Finalised(h, Some(captured)).status == "complete"
    ensures Finalised(h, Some(captured)) == captured
  {
    hide FinalPresent;
  }

  /** A turn called complete is what one reading said, when queued or while preparing, of a turn
      all of whose lines were there and none of them faulty. */
  lemma {:induction false} CompleteMeansClean(h: Hook, queued: File, preparations: seq<seq<File>>)
    returns (file: File, target: string)
    requires Outcome(h, queued, preparations).status == "complete"
    ensures CleanReading(file, target, Outcome(h, queued, preparations))
    ensures (file == queued && target == "")
            || exists k, i :: 0 <= k < |preparations| && 0 <= i < |preparations[k]| && file == preparations[k][i]
    decreases |preparations|
  {
    hide Finalised, Refined, Reading, CleanReading;
    if preparations == [] {
      var stats := if h.hasPath then Reading(queued, "") else NO_PATH;
      FinalisedComplete(h, stats);
      file, target := queued, "";
      CompleteIsClean(queued, "");
    } else {
      var n := |preparations| - 1;
      var front := Outcome(h, queued, preparations[..n]);
      var i := RefinedReads(h, front, preparations[n]);
      if Outcome(h, queued, preparations) == front {
        file, target := CompleteMeansClean(h, queued, preparations[..n]);
        if !(file == queued && target == "") {
          var k, j :| 0 <= k < n && 0 <= j < |preparations[..n][k]| && file == preparations[..n][k][j];
          assert file == preparations[k][j];
        }
      } else {
        file, target := preparations[n][i], front.turn;
      }
    }
  }

  /** After queueing and any number of preparations: complete only if the hook supplied the
      final text and the transcript's last message is it; the fallback is there at most once;
      and the turn is the one captured. */
  lemma {:induction false} CompletenessNeverOverstated(h: Hook, queued: File, preparations: seq<seq<File>>)
    ensures var stats := Outcome(h, queued, preparations);
            && (stats.status == "complete" ==> FinalPresent(h, Some(stats)))
            && OneFallback(h, stats)
            && (stats.status == "complete" ==> exists file, target :: CleanReading(file, target, stats))
    ensures var first := Outcome(h, queued, []).turn;
            first != "" ==> Outcome(h, queued, preparations).turn == first
    decreases |preparations|
  {
    hide Finalised, FinalPresent, Reading, OneFallback, Refined, FromTranscript, CleanReading;
    if Outcome(h, queued, preparations).status == "complete" {
      var file, target := CompleteMeansClean(h, queued, preparations);
    }
    if preparations == [] {
      var stats := if h.hasPath then Reading(queued, "") else NO_PATH;
      ReadingIsFromTranscript(queued, "");
      NothingIsFromTranscript();
      TranscriptOnly(h, stats);
      FinalisedKeeps(h, stats);
    } else {
      var n := |preparations| - 1;
      CompletenessNeverOverstated(h, queued, preparations[..n]);
      RefinedKeeps(h, Outcome(h, queued, preparations[..n]), preparations[n]);
    }
  }

  lemma NothingIsFromTranscript()
    ensures FromTranscript([])
  {
  }

  /** The file now holds the captured turn, ending in the text the hook supplied. */
  predicate Delivers(h: Hook, turn: string, file: File)
    requires h.final.Some?
  {
    var r := Reading(file, turn);
    && r.turn == turn && r.messages != [] && r.messages[|r.messages| - 1].source == ""
    && LastMessageText(r) == h.final.value
  }

  /** Refinement takes the first reading in which the captured turn ends in the hook's text; without
      one it falls back on the hook. */
  lemma {:induction false} RefinedIsFirst(h: Hook, captured: TurnStats, polls: seq<File>, i: nat)
    requires h.final.Some? && h.hasPath && captured.turn != "" && !FinalPresent(h, Some(captured)) && i <= |polls|
    requires (forall j :: 0 <= j < i ==> !Delivers(h, captured.turn, polls[j])) && (i < |polls| ==> Delivers(h, captured.turn, polls[i]))
    ensures Refined(h, Some(captured), polls) ==
            if i < |polls| then Reading(polls[i], captured.turn) else Finalised(h, Some(captured))
    decreases |polls|
  {
    hide Finalised, Reading, LastMessageText;
    if i > 0 {
      RefinedIsFirst(h, captured, polls[1..], i - 1);
    }
  }

  /** What refinement accepts for a captured turn is that turn, cut out of the transcript. */
  lemma RefinementReadsCapturedTurn(h: Hook, captured: TurnStats, lines: seq<Line>, clipped: bool)
    requires captured.turn != "" && Confirms(h, Some(captured), File(lines, clipped))
    ensures Cut(lines, captured.turn) != []
    ensures Reading(File(lines, clipped), captured.turn) == Read(Cut(lines, captured.turn), false, "")
  {
    hide Read, LastMessageText, Cut;
    TargetReadsItsTurn(lines, clipped, false, captured.turn);
  }
}
