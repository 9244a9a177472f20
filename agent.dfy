/**
 * The agent loop of agent.py (`CodeAgent`): each round streams a model
 * response, parses an action from it, runs the tool it names, and records
 * the exchange in the conversation memory, until a final answer, a response
 * without an action, or the iteration budget ends the run.
 *
 * The model call is an oracle: given the round and the outbound messages it
 * yields the stream of text chunks, which either completes or raises after
 * its last chunk. JSON decoding and the tool implementations are parameters
 * too; the progress events sent to the web front end are not modelled.
 */
module Agent {
  import opened Wrappers
  import opened Strings
  import opened Json
  import opened ActionParser
  import opened Tools

  datatype Role = System | User | Assistant

  /** One memory record: `{"role": ..., "content": ...}`. */
  datatype Message = Message(role: Role, content: string)

  /** How a response stream ends once its chunks are delivered. */
  datatype Ending = Completes | Raises

  /** The chunks of a streamed response; an empty chunk is one without content. */
  datatype Stream = Stream(chunks: seq<string>, ending: Ending)

  /** The world the agent talks to: the model, the JSON decoder, and each round's tool implementations. */
  datatype Environment = Environment(
    model: (nat, seq<Message>) -> Stream,
    decode: string -> Option<Value>,
    impls: nat -> Implementations)

  /** What `_get_response_with_action` returns: the response text, the parsed action, the tool's result. */
  datatype TurnResult = TurnResult(response: string, action: Option<Value>, toolResult: Option<string>)

  /** How a run ends. */
  datatype Outcome = Answered(answer: Value) | Completed | Exhausted | Failed(detail: string)

  /** The outcome of a run, the memory it leaves, and the number of tool rounds it completed. */
  datatype RunResult = RunResult(outcome: Outcome, memory: seq<Message>, rounds: nat)

  const OBSERVATION_MARKER := "Observation:"
  const COMPLETED_MESSAGE := "任务已完成"
  const EXHAUSTED_MESSAGE := "达到最大迭代次数，任务可能未完全完成"
  const DEFAULT_ANSWER := "任务完成"

  /** The turn a raised exception leaves: `"", None, None`. */
  const NO_TURN := TurnResult("", None, None)

  function Reminder(task: string): string {
    "提醒：你的原始任务是：" + task + "。请检查是否已完成此任务，如果已完成请使用final_answer结束。"
  }

  function ToolResultMessage(result: string): string {
    "工具执行结果: " + result
  }

  /** The text `run` returns for each outcome. */
  function Reply(outcome: Outcome): Value {
    match outcome
    case Answered(answer) => answer
    case Completed => Str(COMPLETED_MESSAGE)
    case Exhausted => Str(EXHAUSTED_MESSAGE)
    case Failed(detail) => Str("任务执行失败: " + detail)
  }

  // ---------------------------------------------------------------------
  // Collecting the stream

  /** All the chunks, in order. */
  function Concat(chunks: seq<string>): string {
    if |chunks| == 0 then "" else chunks[0] + Concat(chunks[1..])
  }

  /**
   * The chunk loop: non-empty chunks are appended, and the loop stops right
   * after the chunk that makes the text contain the observation marker. The
   * flag says whether it stopped there.
   */
  function Accumulate(chunks: seq<string>, acc: string): (string, bool) {
    if |chunks| == 0 then (acc, false)
    else if chunks[0] == "" then Accumulate(chunks[1..], acc)
    else
      var text := acc + chunks[0];
      if Contains(text, OBSERVATION_MARKER) then (text, true) else Accumulate(chunks[1..], text)
  }

  /**
   * `text` is the text of the first `k` chunks after `acc`, no shorter prefix
   * contains the marker, and the loop stopped exactly when `text` does;
   * when it did not stop, every chunk was taken.
   */
  ghost predicate StopsAt(chunks: seq<string>, acc: string, text: string, stopped: bool, k: nat) {
    && k <= |chunks|
    && text == acc + Concat(chunks[..k])
    && (stopped <==> Contains(text, OBSERVATION_MARKER))
    && (forall j :: 0 <= j < k ==> !Contains(acc + Concat(chunks[..j]), OBSERVATION_MARKER))
    && (!stopped ==> k == |chunks|)
  }

  lemma {:induction false} AccumulateFrom(chunks: seq<string>, acc: string)
    requires !Contains(acc, OBSERVATION_MARKER)
    ensures exists k :: StopsAt(chunks, acc, Accumulate(chunks, acc).0, Accumulate(chunks, acc).1, k)
  {
    var (text, stopped) := Accumulate(chunks, acc);
    if |chunks| == 0 {
      assert StopsAt(chunks, acc, text, stopped, 0);
    } else {
      var rest := chunks[1..];
      assert acc + Concat(chunks[..0]) == acc;
      var a := acc + chunks[0];
      assert a == acc + Concat(chunks[..1]) by {
        assert chunks[..1][1..] == [];
      }
      if chunks[0] == "" || !Contains(a, OBSERVATION_MARKER) {
        var b := if chunks[0] == "" then acc else a;
        assert Accumulate(chunks, acc) == Accumulate(rest, b);
        AccumulateFrom(rest, b);
        var k: nat :| StopsAt(rest, b, text, stopped, k);
        forall j | 0 <= j <= k
          ensures acc + Concat(chunks[..j + 1]) == b + Concat(rest[..j])
        {
          var p := chunks[..j + 1];
          ConcatStep(p, acc);
          assert p[0] == chunks[0] && p[1..] == rest[..j];
          if chunks[0] == "" {
            assert acc + chunks[0] == acc;
          }
        }
        assert text == acc + Concat(chunks[..k + 1]);
        forall j | 0 <= j < k + 1
          ensures !Contains(acc + Concat(chunks[..j]), OBSERVATION_MARKER)
        {
          if j > 0 {
            assert acc + Concat(chunks[..j]) == b + Concat(rest[..j - 1]);
          }
        }
        assert StopsAt(chunks, acc, text, stopped, k + 1);
      } else {
        assert StopsAt(chunks, acc, text, stopped, 1);
      }
    }
  }

  /**
   * The collected response is the text of the first chunks up to the first
   * one after which the text contains `Observation:` (the shortest such
   * prefix), or of all chunks when none does. An `Action:` in the text does
   * not stop the stream.
   */
  lemma CollectedResponse(chunks: seq<string>)
    ensures var (text, stopped) := Accumulate(chunks, "");
      exists k :: 0 <= k <= |chunks|
        && text == Concat(chunks[..k])
        && (stopped <==> Contains(text, OBSERVATION_MARKER))
        && (forall j :: 0 <= j < k ==> !Contains(Concat(chunks[..j]), OBSERVATION_MARKER))
        && (!stopped ==> text == Concat(chunks))
  {
    assert !Contains("", OBSERVATION_MARKER);
    AccumulateFrom(chunks, "");
    var (text, stopped) := Accumulate(chunks, "");
    var k: nat :| StopsAt(chunks, "", text, stopped, k);
    assert chunks[..|chunks|] == chunks;
    assert forall j :: 0 <= j <= |chunks| ==> "" + Concat(chunks[..j]) == Concat(chunks[..j]);
  }

  // ---------------------------------------------------------------------
  // One round (`_get_response_with_action`)

  /**
   * One round: collect the stream, parse the action, and run the tool it
   * names unless it is `final_answer`. Any exception on the way (the stream
   * raising, an action without `name`, arguments that `in` rejects) yields
   * `NO_TURN`.
   */
  function Turn(stream: Stream, decode: string -> Option<Value>, defs: seq<ToolDefinition>, impls: Implementations): (r: TurnResult)
    ensures TurnInvariant(r)
  {
    var (text, stopped) := Accumulate(stream.chunks, "");
    if !stopped && stream.ending == Raises then NO_TURN
    else
      var action := Extract(text, decode);
      if action.None? || !PyTruthy(action.value) then TurnResult(text, action, None)
      else match Subscript(action.value, "name")
        case None => NO_TURN
        case Some(name) =>
          var arguments := GetOr(action.value, "arguments", Obj([]));
          if name == Str("final_answer") then TurnResult(text, action, None)
          else match ExecuteTool(defs, name, arguments, impls)
            case None => NO_TURN
            case Some(result) => TurnResult(text, action, Some(result))
  }

  /**
   * What `run` relies on in a round's result: a true action is a dict with a
   * `name`, and there is a tool result exactly when that name is not
   * `final_answer`.
   */
  predicate TurnInvariant(r: TurnResult) {
    && (r.action.Some? && PyTruthy(r.action.value) ==> HasKey(r.action.value, "name"))
    && (r.action.Some? && PyTruthy(r.action.value) ==>
         (r.toolResult.None? <==> Subscript(r.action.value, "name") == Some(Str("final_answer"))))
    && (r.action.None? || !PyTruthy(r.action.value) ==> r.toolResult.None?)
  }

  /** A tool round reports exactly what `execute_tool` returned for the action's name and arguments. */
  lemma ToolResultIsExecuteTool(stream: Stream, decode: string -> Option<Value>, defs: seq<ToolDefinition>, impls: Implementations)
    requires Turn(stream, decode, defs, impls).toolResult.Some?
    ensures var r := Turn(stream, decode, defs, impls);
      var action := r.action.value;
      && Some(r.toolResult.value) == ExecuteTool(defs, Subscript(action, "name").value, GetOr(action, "arguments", Obj([])), impls)
      && r.action == Extract(r.response, decode)
  {
    var (text, stopped) := Accumulate(stream.chunks, "");
    var action := Extract(text, decode);
    var name := Subscript(action.value, "name").value;
    var arguments := GetOr(action.value, "arguments", Obj([]));
    assert Turn(stream, decode, defs, impls) == TurnResult(text, action, ExecuteTool(defs, name, arguments, impls));
  }

  /**
   * A stream that raises before its text contains `Observation:` ends the
   * round with no response and no action.
   */
  lemma RaisingStreamGivesNoAction(stream: Stream, decode: string -> Option<Value>, defs: seq<ToolDefinition>, impls: Implementations)
    requires stream.ending == Raises && !Contains(Concat(stream.chunks), OBSERVATION_MARKER)
    ensures Turn(stream, decode, defs, impls) == NO_TURN
  {
    AccumulateStopsOnMarker(stream.chunks, "");
    assert "" + Concat(stream.chunks) == Concat(stream.chunks);
  }

  /**
   * The loop stops only when the text of all chunks contains the marker, and
   * when it does not stop it has taken every chunk.
   */
  lemma AccumulateStopsOnMarker(chunks: seq<string>, acc: string)
    ensures Accumulate(chunks, acc).1 ==> Contains(acc + Concat(chunks), OBSERVATION_MARKER)
    ensures !Accumulate(chunks, acc).1 ==> Accumulate(chunks, acc).0 == acc + Concat(chunks)
  {
    StopOnlyOnMarker(chunks, acc);
    RunToEndTakesAll(chunks, acc);
  }

  /** The text after `acc` and the first chunk is `acc` followed by the text of all chunks. */
  lemma ConcatStep(chunks: seq<string>, acc: string)
    requires |chunks| > 0
    ensures acc + Concat(chunks) == (acc + chunks[0]) + Concat(chunks[1..])
  {
    AppendAssoc(acc, chunks[0], Concat(chunks[1..]));
  }

  lemma {:induction false} StopOnlyOnMarker(chunks: seq<string>, acc: string)
    ensures Accumulate(chunks, acc).1 ==> Contains(acc + Concat(chunks), OBSERVATION_MARKER)
  {
    if |chunks| > 0 {
      var rest := chunks[1..];
      var a := acc + chunks[0];
      ConcatStep(chunks, acc);
      if chunks[0] == "" {
        StopOnlyOnMarker(rest, acc);
        assert a == acc;
      } else if Contains(a, OBSERVATION_MARKER) {
        ContainsInMiddle("", a, Concat(rest), OBSERVATION_MARKER);
        assert "" + a + Concat(rest) == a + Concat(rest);
      } else {
        StopOnlyOnMarker(rest, a);
      }
    }
  }

  lemma {:induction false} RunToEndTakesAll(chunks: seq<string>, acc: string)
    ensures !Accumulate(chunks, acc).1 ==> Accumulate(chunks, acc).0 == acc + Concat(chunks)
  {
    if |chunks| > 0 {
      var rest := chunks[1..];
      var a := acc + chunks[0];
      ConcatStep(chunks, acc);
      if chunks[0] == "" {
        RunToEndTakesAll(rest, acc);
        assert a == acc;
      } else if !Contains(a, OBSERVATION_MARKER) {
        RunToEndTakesAll(rest, a);
      }
    }
  }

  /** The text of all chunks is the text of the first `k` followed by the text of the rest. */
  lemma {:induction false} ConcatSplit(chunks: seq<string>, k: nat)
    requires k <= |chunks|
    ensures Concat(chunks) == Concat(chunks[..k]) + Concat(chunks[k..])
  {
    if k > 0 {
      ConcatSplit(chunks[1..], k - 1);
      assert chunks[..k][1..] == chunks[1..][..k - 1];
      assert chunks[1..][k - 1..] == chunks[k..];
    }
  }

  // ---------------------------------------------------------------------
  // The run (`run`)

  /**
   * The loop of `run` from round `i` with the memory so far: the outcome, the
   * final memory and the number of tool rounds completed.
   */
  function RunFrom(turns: (nat, seq<Message>) -> TurnResult, prompt: string, task: string, i: nat, maxIterations: nat, memory: seq<Message>): (r: RunResult)
    requires ValidTurns(turns)
    requires i <= maxIterations
    decreases maxIterations - i
  {
    if i == maxIterations then RunResult(Exhausted, memory, i)
    else
      var t := turns(i, [Message(System, prompt)] + memory);
      assert TurnInvariant(t);
      if t.action.None? || !PyTruthy(t.action.value) then RunResult(Completed, memory, i)
      else
        var name := Subscript(t.action.value, "name").value;
        var arguments := GetOr(t.action.value, "arguments", Obj([]));
        if name == Str("final_answer") then
          if !arguments.Obj? then RunResult(Failed(NoAttributeMessage(arguments, "get")), memory, i)
          else RunResult(Answered(GetOr(arguments, "answer", Str(DEFAULT_ANSWER))), memory + [Message(Assistant, t.response)], i)
        else
          RunFrom(turns, prompt, task, i + 1, maxIterations, AfterToolRound(memory, t, task))
  }

  /** Every round's result satisfies the invariant. */
  ghost predicate ValidTurns(turns: (nat, seq<Message>) -> TurnResult) {
    forall k: nat, messages: seq<Message> {:trigger TurnInvariant(turns(k, messages))} :: TurnInvariant(turns(k, messages))
  }

  /** The rounds the environment produces: the round function applied to the model's stream. */
  function TurnsOf(env: Environment, defs: seq<ToolDefinition>): (nat, seq<Message>) -> TurnResult {
    (k: nat, messages: seq<Message>) => Turn(env.model(k, messages), env.decode, defs, env.impls(k))
  }

  lemma TurnsOfValid(env: Environment, defs: seq<ToolDefinition>)
    ensures ValidTurns(TurnsOf(env, defs))
  {
    forall k: nat, messages: seq<Message>
      ensures TurnInvariant(TurnsOf(env, defs)(k, messages))
    {
      var r := Turn(env.model(k, messages), env.decode, defs, env.impls(k));
      assert TurnsOf(env, defs)(k, messages) == r;
    }
  }

  /** A whole run of `task` with a budget of `maxIterations` rounds. */
  function RunSpec(env: Environment, defs: seq<ToolDefinition>, prompt: string, task: string, maxIterations: nat): RunResult {
    TurnsOfValid(env, defs);
    RunFrom(TurnsOf(env, defs), prompt, task, 0, maxIterations, [Message(User, task)])
  }

  /** The three records a tool round appends to memory. */
  predicate IsToolRound(entries: seq<Message>, task: string) {
    && |entries| == 3
    && entries[0].role == Assistant
    && entries[1].role == Assistant && StartsWith(entries[1].content, "工具执行结果: ")
    && entries[2] == Message(User, Reminder(task))
  }

  /** The memory after a tool round. */
  function AfterToolRound(memory: seq<Message>, t: TurnResult, task: string): seq<Message>
    requires t.toolResult.Some?
  {
    memory + [Message(Assistant, t.response), Message(Assistant, ToolResultMessage(t.toolResult.value)), Message(User, Reminder(task))]
  }

  lemma AfterToolRoundShape(memory: seq<Message>, t: TurnResult, task: string)
    requires t.toolResult.Some?
    ensures var next := AfterToolRound(memory, t, task);
      |next| == |memory| + 3 && next[..|memory|] == memory && IsToolRound(next[|memory|..], task)
  {
    var next := AfterToolRound(memory, t, task);
    assert next[|memory|..][1].content[..|"工具执行结果: "|] == "工具执行结果: ";
  }

  /** The round's action names a tool other than `final_answer`, whose result was recorded. */
  predicate CallsTool(t: TurnResult) {
    t.action.Some? && PyTruthy(t.action.value) && t.toolResult.Some?
  }

  /** A prefix of a prefix is a prefix. */
  lemma PrefixOfPrefix(whole: seq<Message>, mid: seq<Message>, inner: seq<Message>)
    requires |inner| <= |mid| <= |whole| && whole[..|mid|] == mid && mid[..|inner|] == inner
    ensures whole[..|inner|] == inner
  {
    assert whole[..|inner|] == whole[..|mid|][..|inner|];
  }

  /** A tool round records itself and moves on to the next round. */
  lemma RunFromToolStep(turns: (nat, seq<Message>) -> TurnResult, prompt: string, task: string, i: nat, maxIterations: nat, memory: seq<Message>)
    requires ValidTurns(turns) && i < maxIterations
    requires CallsTool(turns(i, [Message(System, prompt)] + memory))
    ensures var t := turns(i, [Message(System, prompt)] + memory);
      RunFrom(turns, prompt, task, i, maxIterations, memory) == RunFrom(turns, prompt, task, i + 1, maxIterations, AfterToolRound(memory, t, task))
  {
    assert TurnInvariant(turns(i, [Message(System, prompt)] + memory));
  }

  /**
   * A round that is not a tool round (or no round, when the budget is
   * spent) ends the run there, storing at most the answering response.
   */
  lemma RunFromEnds(turns: (nat, seq<Message>) -> TurnResult, prompt: string, task: string, i: nat, maxIterations: nat, memory: seq<Message>)
    requires ValidTurns(turns) && i <= maxIterations
    requires i < maxIterations ==> !CallsTool(turns(i, [Message(System, prompt)] + memory))
    ensures var r := RunFrom(turns, prompt, task, i, maxIterations, memory);
      && r.rounds == i
      && (r.outcome.Exhausted? <==> i == maxIterations)
      && (r.outcome.Answered? ==> i < maxIterations && r.memory == memory + [Message(Assistant, turns(i, [Message(System, prompt)] + memory).response)])
      && (!r.outcome.Answered? ==> r.memory == memory)
  {
    if i < maxIterations {
      assert TurnInvariant(turns(i, [Message(System, prompt)] + memory));
    }
  }

  /**
   * The result `r` of a run from round `i` with `memory`: the memory it had
   * is kept, three records are appended per tool round plus one assistant
   * record when it ends with an answer, and it ends by exhaustion exactly
   * when it used every round.
   */
  predicate RunShape(r: RunResult, memory: seq<Message>, i: nat, maxIterations: nat) {
    && i <= r.rounds <= maxIterations
    && |r.memory| == |memory| + 3 * (r.rounds - i) + (if r.outcome.Answered? then 1 else 0)
    && r.memory[..|memory|] == memory
    && (r.outcome.Answered? ==> r.memory[|r.memory| - 1].role == Assistant)
    && (r.outcome.Exhausted? <==> r.rounds == maxIterations)
  }

  /** The shape from the next round, after a tool round's three records, is the shape from this one. */
  lemma RunShapeStep(r: RunResult, memory: seq<Message>, next: seq<Message>, i: nat, maxIterations: nat)
    requires |next| == |memory| + 3 && next[..|memory|] == memory
    requires RunShape(r, next, i + 1, maxIterations)
    ensures RunShape(r, memory, i, maxIterations)
  {
    PrefixOfPrefix(r.memory, next, memory);
  }

  /** From round `i`, the run has the shape `RunShape` describes. */
  lemma {:induction false} RunFromShape(turns: (nat, seq<Message>) -> TurnResult, prompt: string, task: string, i: nat, maxIterations: nat, memory: seq<Message>)
    requires ValidTurns(turns) && i <= maxIterations
    ensures RunShape(RunFrom(turns, prompt, task, i, maxIterations, memory), memory, i, maxIterations)
    decreases maxIterations - i
  {
    var t := turns(i, [Message(System, prompt)] + memory);
    if i < maxIterations && CallsTool(t) {
      var next := AfterToolRound(memory, t, task);
      RunFromToolStep(turns, prompt, task, i, maxIterations, memory);
      AfterToolRoundShape(memory, t, task);
      RunFromShape(turns, prompt, task, i + 1, maxIterations, next);
      RunShapeStep(RunFrom(turns, prompt, task, i + 1, maxIterations, next), memory, next, i, maxIterations);
    } else {
      RunFromEnds(turns, prompt, task, i, maxIterations, memory);
    }
  }

  /** `n` tool rounds are recorded one after another in `mem` from index `base` on. */
  predicate ToolRoundsAt(mem: seq<Message>, base: nat, n: nat, task: string) {
    && base + 3 * n <= |mem|
    && forall k :: 0 <= k < n ==> IsToolRound(mem[base + 3 * k..base + 3 * k + 3], task)
  }

  lemma ToolRoundsCons(mem: seq<Message>, base: nat, n: nat, task: string)
    requires n > 0 && base + 3 <= |mem|
    requires IsToolRound(mem[base..base + 3], task)
    requires ToolRoundsAt(mem, base + 3, n - 1, task)
    ensures ToolRoundsAt(mem, base, n, task)
  {
    forall k | 0 <= k < n
      ensures IsToolRound(mem[base + 3 * k..base + 3 * k + 3], task)
    {
      if k > 0 {
        assert base + 3 * k == base + 3 + 3 * (k - 1);
      }
    }
  }

  /** Rounds recorded after a tool round's three records, preceded by that round, are one more round recorded. */
  lemma ToolRoundsStep(mem: seq<Message>, memory: seq<Message>, next: seq<Message>, n: nat, task: string)
    requires n > 0
    requires |next| == |memory| + 3 && next[..|memory|] == memory && IsToolRound(next[|memory|..], task)
    requires ToolRoundsAt(mem, |next|, n - 1, task) && mem[..|next|] == next
    ensures ToolRoundsAt(mem, |memory|, n, task) && mem[..|memory|] == memory
  {
    assert mem[|memory|..|memory| + 3] == next[|memory|..] by {
      assert mem[..|next|] == next;
    }
    PrefixOfPrefix(mem, next, memory);
    ToolRoundsCons(mem, |memory|, n, task);
  }

  /** Each of the run's tool rounds appended an assistant response, its tool result and the reminder. */
  lemma RunFromToolRounds(turns: (nat, seq<Message>) -> TurnResult, prompt: string, task: string, i: nat, maxIterations: nat, memory: seq<Message>)
    requires ValidTurns(turns) && i <= maxIterations
    ensures var r := RunFrom(turns, prompt, task, i, maxIterations, memory);
      && i <= r.rounds && ToolRoundsAt(r.memory, |memory|, r.rounds - i, task)
      && r.memory[..|memory|] == memory
  {
    RunFromRecorded(turns, prompt, task, i, maxIterations, memory);
  }

  /** `r` extends `memory` with one recorded tool round for each round after the `i`th. */
  predicate RoundsRecorded(r: RunResult, memory: seq<Message>, i: nat, task: string) {
    && i <= r.rounds
    && ToolRoundsAt(r.memory, |memory|, r.rounds - i, task)
    && r.memory[..|memory|] == memory
  }

  lemma {:induction false} RunFromRecorded(turns: (nat, seq<Message>) -> TurnResult, prompt: string, task: string, i: nat, maxIterations: nat, memory: seq<Message>)
    requires ValidTurns(turns) && i <= maxIterations
    ensures RoundsRecorded(RunFrom(turns, prompt, task, i, maxIterations, memory), memory, i, task)
    decreases maxIterations - i
  {
    var t := turns(i, [Message(System, prompt)] + memory);
    if i < maxIterations && CallsTool(t) {
      var next := AfterToolRound(memory, t, task);
      AfterToolRoundShape(memory, t, task);
      RunFromToolStep(turns, prompt, task, i, maxIterations, memory);
      RunFromRecorded(turns, prompt, task, i + 1, maxIterations, next);
      RecordedStep(RunFrom(turns, prompt, task, i + 1, maxIterations, next), memory, next, i, task);
    } else {
      RunFromEnds(turns, prompt, task, i, maxIterations, memory);
      var r := RunFrom(turns, prompt, task, i, maxIterations, memory);
      if r.outcome.Answered? {
        assert r.memory[..|memory|] == memory;
      }
      RecordedEnd(r, memory, i, task);
    }
  }

  lemma RecordedStep(r: RunResult, memory: seq<Message>, next: seq<Message>, i: nat, task: string)
    requires |next| == |memory| + 3 && next[..|memory|] == memory && IsToolRound(next[|memory|..], task)
    requires RoundsRecorded(r, next, i + 1, task)
    ensures RoundsRecorded(r, memory, i, task)
  {
    ToolRoundsStep(r.memory, memory, next, r.rounds - i, task);
  }

  lemma RecordedEnd(r: RunResult, memory: seq<Message>, i: nat, task: string)
    requires r.rounds == i && |memory| <= |r.memory| && r.memory[..|memory|] == memory
    ensures RoundsRecorded(r, memory, i, task)
  {
  }

  /**
   * A run's memory starts with the task as its only seed record and grows
   * by exactly three records per tool round, plus one when it ends with an
   * answer; each tool round ends with the reminder of the original task.
   */
  lemma RunMemoryShape(env: Environment, defs: seq<ToolDefinition>, prompt: string, task: string, maxIterations: nat)
    ensures var r := RunSpec(env, defs, prompt, task, maxIterations);
      && |r.memory| == 1 + 3 * r.rounds + (if r.outcome.Answered? then 1 else 0)
      && r.memory[0] == Message(User, task)
      && (forall k :: 0 <= k < r.rounds ==> IsToolRound(r.memory[1 + 3 * k..4 + 3 * k], task))
  {
    TurnsOfValid(env, defs);
    RunFromShape(TurnsOf(env, defs), prompt, task, 0, maxIterations, [Message(User, task)]);
    RunFromToolRounds(TurnsOf(env, defs), prompt, task, 0, maxIterations, [Message(User, task)]);
    var r := RunSpec(env, defs, prompt, task, maxIterations);
    assert r.memory[..1] == [Message(User, task)];
  }

  /** A run that exhausts its budget has run every round and holds `1 + 3 * maxIterations` records. */
  lemma ExhaustedRunFillsMemory(env: Environment, defs: seq<ToolDefinition>, prompt: string, task: string, maxIterations: nat)
    requires RunSpec(env, defs, prompt, task, maxIterations).outcome.Exhausted?
    ensures RunSpec(env, defs, prompt, task, maxIterations).rounds == maxIterations
    ensures |RunSpec(env, defs, prompt, task, maxIterations).memory| == 1 + 3 * maxIterations
  {
    TurnsOfValid(env, defs);
    RunFromShape(TurnsOf(env, defs), prompt, task, 0, maxIterations, [Message(User, task)]);
  }

  /** No record in `entries` has the system role. */
  predicate NoSystemRecord(entries: seq<Message>) {
    forall k :: 0 <= k < |entries| ==> entries[k].role != System
  }

  /** The system prompt is sent with every request but never stored: memory holds no system record. */
  lemma {:induction false} MemoryHoldsNoSystemRecord(turns: (nat, seq<Message>) -> TurnResult, prompt: string, task: string, i: nat, maxIterations: nat, memory: seq<Message>)
    requires ValidTurns(turns) && i <= maxIterations
    requires NoSystemRecord(memory)
    ensures NoSystemRecord(RunFrom(turns, prompt, task, i, maxIterations, memory).memory)
    decreases maxIterations - i
  {
    var t := turns(i, [Message(System, prompt)] + memory);
    if i < maxIterations && CallsTool(t) {
      var next := AfterToolRound(memory, t, task);
      assert NoSystemRecord(next) by {
        forall k | 0 <= k < |next| ensures next[k].role != System {
          if k >= |memory| {
            assert next[k] in next[|memory|..];
          }
        }
      }
      RunFromToolStep(turns, prompt, task, i, maxIterations, memory);
      MemoryHoldsNoSystemRecord(turns, prompt, task, i + 1, maxIterations, next);
    } else {
      RunFromEnds(turns, prompt, task, i, maxIterations, memory);
      var r := RunFrom(turns, prompt, task, i, maxIterations, memory);
      assert r.memory == memory || r.memory == memory + [Message(Assistant, t.response)];
    }
  }

  /** A whole run leaves no system record in memory. */
  lemma RunKeepsSystemPromptOut(env: Environment, defs: seq<ToolDefinition>, prompt: string, task: string, maxIterations: nat)
    ensures NoSystemRecord(RunSpec(env, defs, prompt, task, maxIterations).memory)
  {
    TurnsOfValid(env, defs);
    MemoryHoldsNoSystemRecord(TurnsOf(env, defs), prompt, task, 0, maxIterations, [Message(User, task)]);
  }

  /**
   * In any round, a response without an action, or with a false one such
   * as `{}`, ends the run at once as completed, and the response is not
   * stored.
   */
  lemma NoActionCompletesRun(turns: (nat, seq<Message>) -> TurnResult, prompt: string, task: string, i: nat, maxIterations: nat, memory: seq<Message>)
    requires ValidTurns(turns) && i < maxIterations
    requires var t := turns(i, [Message(System, prompt)] + memory);
      t.action.None? || !PyTruthy(t.action.value)
    ensures RunFrom(turns, prompt, task, i, maxIterations, memory) == RunResult(Completed, memory, i)
    ensures Reply(RunFrom(turns, prompt, task, i, maxIterations, memory).outcome) == Str(COMPLETED_MESSAGE)
  {
  }

  /**
   * In any round, a model call that fails before `Observation:` arrives is
   * not reported as a failure: the run ends as completed, with the memory
   * it had.
   */
  lemma FailedModelCallCompletesRun(env: Environment, defs: seq<ToolDefinition>, prompt: string, task: string, i: nat, maxIterations: nat, memory: seq<Message>)
    requires i < maxIterations
    requires var s := env.model(i, [Message(System, prompt)] + memory);
      s.ending == Raises && !Contains(Concat(s.chunks), OBSERVATION_MARKER)
    ensures ValidTurns(TurnsOf(env, defs))
      && RunFrom(TurnsOf(env, defs), prompt, task, i, maxIterations, memory) == RunResult(Completed, memory, i)
  {
    var s := env.model(i, [Message(System, prompt)] + memory);
    RaisingStreamGivesNoAction(s, env.decode, defs, env.impls(i));
    assert TurnsOf(env, defs)(i, [Message(System, prompt)] + memory) == NO_TURN;
    TurnsOfValid(env, defs);
    NoActionCompletesRun(TurnsOf(env, defs), prompt, task, i, maxIterations, memory);
  }

  /** A failing first model call completes the whole run. */
  lemma FailedFirstCallCompletesRun(env: Environment, defs: seq<ToolDefinition>, prompt: string, task: string, maxIterations: nat)
    requires maxIterations > 0
    requires var s := env.model(0, [Message(System, prompt), Message(User, task)]);
      s.ending == Raises && !Contains(Concat(s.chunks), OBSERVATION_MARKER)
    ensures RunSpec(env, defs, prompt, task, maxIterations) == RunResult(Completed, [Message(User, task)], 0)
  {
    assert [Message(System, prompt)] + [Message(User, task)] == [Message(System, prompt), Message(User, task)];
    FailedModelCallCompletesRun(env, defs, prompt, task, 0, maxIterations, [Message(User, task)]);
  }

  /**
   * In any round, a response whose action is `final_answer` with dict
   * arguments ends the run with the `answer` argument (default `任务完成`);
   * memory gains only the raw response, and no tool is run for it.
   */
  lemma FinalAnswerEndsRun(turns: (nat, seq<Message>) -> TurnResult, prompt: string, task: string, i: nat, maxIterations: nat, memory: seq<Message>)
    requires ValidTurns(turns) && i < maxIterations
    requires var t := turns(i, [Message(System, prompt)] + memory);
      && t.action.Some? && PyTruthy(t.action.value)
      && Subscript(t.action.value, "name") == Some(Str("final_answer"))
      && GetOr(t.action.value, "arguments", Obj([])).Obj?
    ensures var t := turns(i, [Message(System, prompt)] + memory);
      var arguments := GetOr(t.action.value, "arguments", Obj([]));
      && t.toolResult.None?
      && RunFrom(turns, prompt, task, i, maxIterations, memory)
         == RunResult(Answered(GetOr(arguments, "answer", Str(DEFAULT_ANSWER))), memory + [Message(Assistant, t.response)], i)
  {
    assert TurnInvariant(turns(i, [Message(System, prompt)] + memory));
  }

  /**
   * The only failure a run reports is a `final_answer` whose arguments are
   * not a dict: the `.get` on them raises.
   */
  lemma {:induction false} FailureIsNonDictArguments(turns: (nat, seq<Message>) -> TurnResult, prompt: string, task: string, i: nat, maxIterations: nat, memory: seq<Message>)
    requires ValidTurns(turns) && i <= maxIterations
    requires RunFrom(turns, prompt, task, i, maxIterations, memory).outcome.Failed?
    ensures exists arguments: Value ::
      !arguments.Obj? && RunFrom(turns, prompt, task, i, maxIterations, memory).outcome.detail == NoAttributeMessage(arguments, "get")
    decreases maxIterations - i
  {
    var t := turns(i, [Message(System, prompt)] + memory);
    assert TurnInvariant(t);
    var arguments := GetOr(t.action.value, "arguments", Obj([]));
    if Subscript(t.action.value, "name").value != Str("final_answer") {
      FailureIsNonDictArguments(turns, prompt, task, i + 1, maxIterations, AfterToolRound(memory, t, task));
    } else {
      assert !arguments.Obj?;
    }
  }

  /** A model that always calls a tool other than `final_answer` uses up the whole budget. */
  lemma {:induction false} ToolCallsExhaustBudget(turns: (nat, seq<Message>) -> TurnResult, prompt: string, task: string, i: nat, maxIterations: nat, memory: seq<Message>)
    requires ValidTurns(turns) && i <= maxIterations
    requires forall k: nat, messages: seq<Message> ::
      turns(k, messages).action.Some? && PyTruthy(turns(k, messages).action.value) && turns(k, messages).toolResult.Some?
    ensures RunFrom(turns, prompt, task, i, maxIterations, memory).outcome == Exhausted
    decreases maxIterations - i
  {
    if i < maxIterations {
      var t := turns(i, [Message(System, prompt)] + memory);
      assert TurnInvariant(t);
      ToolCallsExhaustBudget(turns, prompt, task, i + 1, maxIterations, AfterToolRound(memory, t, task));
    }
  }

  // ---------------------------------------------------------------------
  // The agent object

  /**
   * What `__init__` does with the declared tools: the consistency check,
   * which passes (so the `RuntimeError` is never raised), then the capability
   * text.
   */
  method CheckedToolsDescription() returns (defs: seq<ToolDefinition>, toolsDescription: string)
    ensures defs == TOOL_DEFINITIONS
    ensures toolsDescription == Description(defs)
  {
    defs := TOOL_DEFINITIONS;
    var ok, message := ValidateToolsConsistency(defs);
    DefinitionsAreConsistent();
    assert ok;
    toolsDescription := GetToolsDescription(defs);
  }

  class CodeAgent {
    const env: Environment
    const tools: seq<ToolDefinition>
    const systemPrompt: string
    var memory: seq<Message>
    var originalTask: string
    var taskCompleted: bool

    /**
     * `CodeAgent.__init__`: the tool definitions pass the consistency check
     * (so the constructor never raises), and the system prompt is the
     * template filled with the capability text.
     */
    constructor (env: Environment, formatPrompt: string -> string)
      ensures this.env == env && tools == TOOL_DEFINITIONS
      ensures systemPrompt == formatPrompt(Description(tools))
      ensures memory == [] && originalTask == "" && !taskCompleted
    {
      var defs, toolsDescription := CheckedToolsDescription();
      this.env := env;
      tools := defs;
      systemPrompt := formatPrompt(toolsDescription);
      memory := [];
      originalTask := "";
      taskCompleted := false;
    }

    /** The messages sent to the model: the system prompt, then the memory. */
    function Outbound(): seq<Message>
      reads this
    {
      [Message(System, systemPrompt)] + memory
    }

    /** `_get_response_with_action` for round `round`: it reads the state and changes nothing. */
    method GetResponseWithAction(round: nat) returns (response: string, action: Option<Value>, toolResult: Option<string>)
      ensures TurnResult(response, action, toolResult) == TurnsOf(env, tools)(round, Outbound())
    {
      var messages := [Message(System, systemPrompt)] + memory;
      var stream := env.model(round, messages);
      var fullResponse := "";
      var stopped := false;
      var k := 0;
      while k < |stream.chunks|
        invariant 0 <= k <= |stream.chunks|
        invariant !stopped
        invariant Accumulate(stream.chunks, "") == Accumulate(stream.chunks[k..], fullResponse)
      {
        var content := stream.chunks[k];
        if content != "" {
          fullResponse := fullResponse + content;
          if Contains(fullResponse, OBSERVATION_MARKER) {
            stopped := true;
            break;
          }
        }
        k := k + 1;
      }
      assert Accumulate(stream.chunks, "") == (fullResponse, stopped);
      if !stopped && stream.ending == Raises {
        return "", None, None;
      }
      action := ExtractAction(fullResponse, env.decode);
      response := fullResponse;
      toolResult := None;
      if action.Some? && PyTruthy(action.value) {
        var name := Subscript(action.value, "name");
        if name.None? {
          return "", None, None;
        }
        var toolName := name.value;
        var arguments := GetOr(action.value, "arguments", Obj([]));
        if toolName != Str("final_answer") {
          var result := ExecuteTool(tools, toolName, arguments, env.impls(round));
          if result.None? {
            return "", None, None;
          }
          toolResult := result;
        }
      }
    }

    /**
     * `CodeAgent.run`: reset the task state and the memory, then run rounds
     * until one of them reaches an outcome or the budget is spent.
     */
    method Run(task: string, maxIterations: nat) returns (result: Value)
      modifies this
      ensures originalTask == task && !taskCompleted
      ensures result == Reply(RunSpec(env, tools, systemPrompt, task, maxIterations).outcome)
      ensures memory == RunSpec(env, tools, systemPrompt, task, maxIterations).memory
    {
      originalTask := task;
      taskCompleted := false;
      memory := [Message(User, task)];
      TurnsOfValid(env, tools);
      ghost var spec := RunSpec(env, tools, systemPrompt, task, maxIterations);
      for i := 0 to maxIterations
        invariant originalTask == task && !taskCompleted
        invariant spec == RunFrom(TurnsOf(env, tools), systemPrompt, task, i, maxIterations, memory)
      {
        var finished, reply := RunRound(i, maxIterations);
        if finished {
          return reply;
        }
      }
      return Str(EXHAUSTED_MESSAGE);
    }

    /**
     * The body of the loop in `run` for round `i`: get a response, then
     * either finish with the reply `run` returns or record the tool round
     * and go on.
     */
    method RunRound(i: nat, ghost maxIterations: nat) returns (finished: bool, reply: Value)
      requires i < maxIterations && ValidTurns(TurnsOf(env, tools))
      modifies this
      ensures originalTask == old(originalTask) && taskCompleted == old(taskCompleted)
      ensures var r := RunFrom(TurnsOf(env, tools), systemPrompt, originalTask, i, maxIterations, old(memory));
        if finished then reply == Reply(r.outcome) && memory == r.memory
        else r == RunFrom(TurnsOf(env, tools), systemPrompt, originalTask, i + 1, maxIterations, memory)
    {
      var response, action, toolResult := GetResponseWithAction(i);
      assert TurnInvariant(TurnsOf(env, tools)(i, Outbound()));
      if action.None? || !PyTruthy(action.value) {
        return true, Str(COMPLETED_MESSAGE);
      }
      var toolName := Subscript(action.value, "name").value;
      var arguments := GetOr(action.value, "arguments", Obj([]));
      if toolName == Str("final_answer") {
        if !arguments.Obj? {
          return true, Str("任务执行失败: " + NoAttributeMessage(arguments, "get"));
        }
        var finalAnswer := GetOr(arguments, "answer", Str(DEFAULT_ANSWER));
        memory := memory + [Message(Assistant, response)];
        return true, finalAnswer;
      }
      if toolResult.Some? {
        memory := memory + [Message(Assistant, response), Message(Assistant, ToolResultMessage(toolResult.value)), Message(User, Reminder(originalTask))];
      }
      finished := false;
      reply := Str(EXHAUSTED_MESSAGE);
    }
  }
}
