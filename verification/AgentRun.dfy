/**
 * One activation of the agent loop as the source runs it: fields updated in nested loops, every answer of the
 * outside world taken from an arbitrary supply.
 */
module AgentRuntime {
  import opened Options
  import opened AgentLoop

  /** What one await or yield comes back with: an abort may arrive at any of them, and a timeout aborts. */
  datatype Answer = Answer(
    aborts: bool,
    timesOut: bool,
    throws: bool,
    wellFormed: bool,
    response: Assistant,
    result: string)

  // ---- how one more event reads -------------------------------------------------------------------

  lemma Appended(c: Config, past: seq<Event>, e: Event)
    ensures Front(past + [e]) == past && Last(past + [e]) == e
    ensures ProposalRan(c, past + [e]) <==> ProposalRan(c, past) || ReturnedProposal(c, e)
  {
  }

  /** What a trace says of the transcript, the iterations and the tool calls. */
  function Progress(trace: seq<Event>): (seq<Block>, nat, nat) {
    (BlocksOf(trace), Iterations(trace), Dispatches(trace))
  }

  /** Requests, failures and tool events other than a plan or a dispatch change no count but their own. */
  lemma Quiet(c: Config, trace: seq<Event>, e: Event)
    requires !e.Responded? && !e.Dispatched? && !e.Planned? && !e.IterationStarted?
    ensures Front(trace + [e]) == trace && Last(trace + [e]) == e
    ensures Progress(trace + [e]) == Progress(trace) && (ProposalRan(c, trace + [e]) <==> ProposalRan(c, trace))
    ensures forall signature :: Repeats(trace + [e], signature) == Repeats(trace, signature)
    ensures !e.ProviderFailed? ==> NextProvider(trace + [e]) == NextProvider(trace)
  {
    Appended(c, trace, e);
  }

  lemma Answers(c: Config, trace: seq<Event>, p: nat, m: Assistant)
    ensures var more := trace + [Responded(p, m)];
      && Front(more) == trace && Last(more) == Responded(p, m)
      && Iterations(more) == Iterations(trace) && Dispatches(more) == Dispatches(trace)
      && (ProposalRan(c, more) <==> ProposalRan(c, trace))
      && forall signature :: Repeats(more, signature) == Repeats(trace, signature)
  {
    Appended(c, trace, Responded(p, m));
  }

  ghost predicate RepeatsMatch(repeated: map<string, nat>, trace: seq<Event>) {
    forall signature :: (if signature in repeated then repeated[signature] else 0) == Repeats(trace, signature)
  }

  function Counted(repeated: map<string, nat>, signature: string): map<string, nat> {
    repeated[signature := (if signature in repeated then repeated[signature] else 0) + 1]
  }

  lemma RepeatsMove(repeated: map<string, nat>, trace: seq<Event>, e: Event)
    requires RepeatsMatch(repeated, trace)
    ensures e.Planned? ==> RepeatsMatch(Counted(repeated, Signature(e.call)), trace + [e])
    ensures !e.Planned? ==> RepeatsMatch(repeated, trace + [e])
  {
    assert Front(trace + [e]) == trace && Last(trace + [e]) == e;
  }

  // ---- a batch in progress -------------------------------------------------------------------------

  ghost predicate OpenBlock(blocks: seq<Block>, m: Assistant, i: nat) {
    && blocks != [] && AllWhole(blocks[..|blocks| - 1])
    && blocks[|blocks| - 1].message == m && |blocks[|blocks| - 1].results| == i
  }

  /** `i` calls of the batch that `m`, the last answer, asked for have been dispatched. */
  ghost predicate BatchAt(c: Config, trace: seq<Event>, m: Assistant, i: nat) {
    var r := LastResponse(trace);
    && r.Some? && trace[r.value].response == m
    && Dispatches(trace) == Dispatches(trace[..r.value]) + i && i <= |m.toolCalls|
    && BatchError(c, trace[..r.value], m.toolCalls).None?
    && OpenBlock(BlocksOf(trace), m, i)
  }

  lemma BatchOpens(c: Config, past: seq<Event>, p: nat, m: Assistant)
    requires m.toolCalls != [] && AllWhole(BlocksOf(past)) && BatchError(c, past, m.toolCalls).None?
    ensures BatchAt(c, past + [Responded(p, m)], m, 0)
  {
    var trace := past + [Responded(p, m)];
    Appended(c, past, Responded(p, m));
    assert trace[..|past|] == past;
  }

  lemma BatchStays(c: Config, trace: seq<Event>, e: Event, m: Assistant, i: nat)
    requires BatchAt(c, trace, m, i) && !e.Responded? && !e.Dispatched?
    ensures BatchAt(c, trace + [e], m, i)
  {
    Appended(c, trace, e);
    assert (trace + [e])[..LastResponse(trace).value] == trace[..LastResponse(trace).value];
  }

  /** In a batch that may run nothing is refused. */
  lemma BatchTolerates(c: Config, trace: seq<Event>, m: Assistant, i: nat, e: Event)
    requires BatchAt(c, trace, m, i) && trace != [] && !Last(trace).ProviderFailed? && i < |m.toolCalls|
    ensures Tolerated(c, trace, e) && Due(c, trace, m.toolCalls[i])
  {
    if Last(trace).Responded? {
      assert trace[..LastResponse(trace).value] == Front(trace);
    }
  }

  lemma {:induction false} FirstCallErrorStays(c: Config, past: seq<Event>, calls: seq<ToolCall>, n: nat, m: nat)
    requires n <= m <= |calls| && FirstCallError(c, past, calls, n).Some?
    ensures FirstCallError(c, past, calls, m) == FirstCallError(c, past, calls, n)
    decreases m
  {
    if n < m {
      FirstCallErrorStays(c, past, calls, n, m - 1);
    }
  }

  /** An answer repeats no call. */
  lemma SameRepeats(c: Config, trace: seq<Event>, repeated: map<string, nat>)
    requires trace != [] && Last(trace).Responded? && RepeatsMatch(repeated, trace)
    ensures RepeatsMatch(repeated, Front(trace))
  {
    forall signature ensures Repeats(Front(trace), signature) == Repeats(trace, signature) {
    }
  }

  lemma BatchAdvances(c: Config, trace: seq<Event>, call: ToolCall, result: string, m: Assistant, i: nat)
    requires BatchAt(c, trace, m, i) && i < |m.toolCalls|
    ensures BatchAt(c, trace + [Dispatched(call, Some(result))], m, i + 1)
    ensures BlocksOf(trace + [Dispatched(call, Some(result))]) == WithResult(BlocksOf(trace), result)
  {
    var e := Dispatched(call, Some(result));
    Appended(c, trace, e);
    assert (trace + [e])[..LastResponse(trace).value] == trace[..LastResponse(trace).value];
    var blocks := BlocksOf(trace);
    assert WithResult(blocks, result)[..|blocks| - 1] == blocks[..|blocks| - 1];
  }

  lemma BatchCloses(c: Config, trace: seq<Event>, m: Assistant)
    requires BatchAt(c, trace, m, |m.toolCalls|)
    ensures AllWhole(BlocksOf(trace))
  {
    var blocks := BlocksOf(trace);
    forall k | 0 <= k < |blocks| ensures Whole(blocks[k]) {
      if k < |blocks| - 1 {
        assert blocks[k] == blocks[..|blocks| - 1][k];
      }
    }
  }

  lemma RenderOpens(blocks: seq<Block>, m: Assistant)
    ensures Render(blocks + [Block(m, [])]) == Render(blocks) + [FromAssistant(m)]
  {
    assert (blocks + [Block(m, [])])[..|blocks|] == blocks;
    assert RenderBlock(Block(m, [])) == [FromAssistant(m)];
  }

  lemma {:induction false} RepliesStay(b: Block, result: string, n: nat)
    requires AtMostWhole(b) && |b.results| < |b.message.toolCalls| && n <= |b.results|
    ensures Replies(b.(results := b.results + [result]), n) == Replies(b, n)
  {
    if n > 0 {
      RepliesStay(b, result, n - 1);
    }
  }

  lemma RenderExtends(blocks: seq<Block>, m: Assistant, i: nat, result: string)
    requires OpenBlock(blocks, m, i) && i < |m.toolCalls|
    ensures Render(WithResult(blocks, result)) ==
      Render(blocks) + [ToolReply(m.toolCalls[i].id, m.toolCalls[i].name, result)]
  {
    var n := |blocks| - 1;
    var b := blocks[n];
    var more := b.(results := b.results + [result]);
    RepliesStay(b, result, i);
    assert WithResult(blocks, result)[..n] == blocks[..n];
    assert RenderBlock(more) == RenderBlock(b) + [ToolReply(m.toolCalls[i].id, m.toolCalls[i].name, result)];
  }

  /** All that planning a due call changes. */
  lemma Planning(c: Config, input: seq<Message>, trace: seq<Event>, repeated: map<string, nat>, m: Assistant, i: nat)
    requires BatchAt(c, trace, m, i) && trace != [] && !Ended(trace) && i < |m.toolCalls|
    requires Last(trace).Responded? || Last(trace).ToolCompleted?
    requires RepeatsMatch(repeated, trace)
    ensures var e := Planned(m.toolCalls[i]); var more := trace + [e];
      && Allowed(c, input, trace, e) && Last(more) == e
      && Progress(more) == Progress(trace) && (ProposalRan(c, more) <==> ProposalRan(c, trace))
      && NextProvider(more) == NextProvider(trace)
      && RepeatsMatch(Counted(repeated, Signature(m.toolCalls[i])), more) && BatchAt(c, more, m, i)
  {
    var e := Planned(m.toolCalls[i]);
    Appended(c, trace, e);
    RepeatsMove(repeated, trace, e);
    BatchStays(c, trace, e, m, i);
    BatchTolerates(c, trace, m, i, e);
  }

  // ---- the states of a run -------------------------------------------------------------------------

  /** The locals of a run. */
  datatype Snap = Snap(
    trace: seq<Event>,
    messages: seq<Message>,
    toolCount: nat,
    sideEffects: bool,
    activeProvider: nat,
    repeated: map<string, nat>)

  /** The trace is lawful and the run has not ended. */
  ghost predicate SafeAt(c: Config, input: seq<Message>, trace: seq<Event>) {
    ConfigOk(c) && Lawful(c, input, trace) && trace != [] && !Ended(trace)
  }

  /** An error of this code, a timeout and a cancellation may end the run here. */
  ghost predicate MayFailAt(c: Config, input: seq<Message>, trace: seq<Event>, code: Code) {
    && SafeAt(c, input, trace)
    && Tolerated(c, trace, Failed(code)) && Tolerated(c, trace, Failed(Deadline)) && Tolerated(c, trace, Cancelled)
  }

  /** The counters agree with the trace. */
  ghost predicate SyncedAt(c: Config, input: seq<Message>, s: Snap) {
    && SafeAt(c, input, s.trace)
    && s.sideEffects == ProposalRan(c, s.trace) && s.toolCount == Dispatches(s.trace) && RepeatsMatch(s.repeated, s.trace)
  }

  /** Every answer so far has all its tool replies, and the transcript shows them. */
  ghost predicate SettledAt(c: Config, input: seq<Message>, s: Snap) {
    SyncedAt(c, input, s) && AllWhole(BlocksOf(s.trace)) && s.messages == input + Render(BlocksOf(s.trace))
  }

  /** Ready to begin an iteration. */
  ghost predicate ReadyAt(c: Config, input: seq<Message>, s: Snap) {
    && SettledAt(c, input, s)
    && s.activeProvider == NextProvider(s.trace) < c.providers
    && !Last(s.trace).ProviderFailed? && !Last(s.trace).Responded?
  }

  /** Between two providers of one iteration. */
  ghost predicate AskingAt(c: Config, input: seq<Message>, s: Snap, index: nat) {
    && SettledAt(c, input, s)
    && index == NextProvider(s.trace) <= c.providers && (Last(s.trace).IterationStarted? || Last(s.trace).ProviderFailed?)
    && (Last(s.trace).ProviderFailed? ==> !s.sideEffects && Last(s.trace).provider + 1 == index)
  }

  /** A provider has been asked and has not answered yet. */
  ghost predicate AskedAt(c: Config, input: seq<Message>, s: Snap, index: nat) {
    && SettledAt(c, input, s)
    && index == NextProvider(s.trace) < c.providers
    && Last(s.trace) == ModelCalled(index, s.messages)
  }

  /** Where a batch stands: the transcript up to date, the provider that asked still active. */
  ghost predicate Midway(c: Config, input: seq<Message>, trace: seq<Event>, messages: seq<Message>, provider: nat, m: Assistant, i: nat) {
    && BatchAt(c, trace, m, i) && messages == input + Render(BlocksOf(trace))
    && provider == NextProvider(trace) < c.providers
  }

  /** Inside a batch, `i` calls done. */
  ghost predicate InBatchAt(c: Config, input: seq<Message>, s: Snap, m: Assistant, i: nat) {
    && SyncedAt(c, input, s) && Midway(c, input, s.trace, s.messages, s.activeProvider, m, i)
    && !Last(s.trace).ProviderFailed?
  }

  /** A dispatched call whose reply is not in the transcript yet. */
  ghost predicate UnrepliedAt(c: Config, input: seq<Message>, s: Snap, m: Assistant, i: nat, result: string) {
    && i < |m.toolCalls| && SyncedAt(c, input, s)
    && Midway(c, input, s.trace, s.messages + [ToolReply(m.toolCalls[i].id, m.toolCalls[i].name, result)], s.activeProvider,
              m, i + 1)
    && (Last(s.trace) == Dispatched(m.toolCalls[i], Some(result)) || Last(s.trace) == ToolCompleted(m.toolCalls[i], result))
  }

  function Then(s: Snap, e: Event): Snap {
    s.(trace := s.trace + [e])
  }

  lemma PlanStep(c: Config, input: seq<Message>, s: Snap, m: Assistant, i: nat)
    requires InBatchAt(c, input, s, m, i) && i < |m.toolCalls|
    requires Last(s.trace).Responded? || Last(s.trace).ToolCompleted?
    ensures Allowed(c, input, s.trace, Planned(m.toolCalls[i]))
    ensures Iterations(s.trace + [Planned(m.toolCalls[i])]) == Iterations(s.trace)
    ensures InBatchAt(c, input,
      Then(s, Planned(m.toolCalls[i])).(repeated := Counted(s.repeated, Signature(m.toolCalls[i]))), m, i)
  {
    Planning(c, input, s.trace, s.repeated, m, i);
    LawfulAppend(c, input, s.trace, Planned(m.toolCalls[i]));
  }

  lemma StartStep(c: Config, input: seq<Message>, s: Snap, m: Assistant, i: nat)
    requires InBatchAt(c, input, s, m, i) && i < |m.toolCalls| && Last(s.trace) == Planned(m.toolCalls[i])
    ensures Allowed(c, input, s.trace, ToolStarted(m.toolCalls[i]))
    ensures Iterations(s.trace + [ToolStarted(m.toolCalls[i])]) == Iterations(s.trace)
    ensures InBatchAt(c, input, Then(s, ToolStarted(m.toolCalls[i])), m, i)
  {
    var e := ToolStarted(m.toolCalls[i]);
    Quiet(c, s.trace, e);
    BatchStays(c, s.trace, e, m, i);
    BatchTolerates(c, s.trace, m, i, e);
    LawfulAppend(c, input, s.trace, e);
  }

  function Returned(c: Config, s: Snap, call: ToolCall, result: string): Snap {
    Then(s, Dispatched(call, Some(result))).(
      toolCount := s.toolCount + 1,
      sideEffects := s.sideEffects || c.classify(call.name) == Classified(Proposal))
  }

  lemma ReturnSynced(c: Config, input: seq<Message>, s: Snap, call: ToolCall, result: string)
    requires SyncedAt(c, input, s) && Allowed(c, input, s.trace, Dispatched(call, Some(result)))
    ensures SyncedAt(c, input, Returned(c, s, call, result))
  {
    var e := Dispatched(call, Some(result));
    Appended(c, s.trace, e);
    RepeatsMove(s.repeated, s.trace, e);
    LawfulAppend(c, input, s.trace, e);
  }

  lemma ReturnMoves(c: Config, input: seq<Message>, trace: seq<Event>, messages: seq<Message>, provider: nat, m: Assistant, i: nat,
                    result: string)
    requires Midway(c, input, trace, messages, provider, m, i) && i < |m.toolCalls|
    ensures Midway(c, input, trace + [Dispatched(m.toolCalls[i], Some(result))],
      messages + [ToolReply(m.toolCalls[i].id, m.toolCalls[i].name, result)], provider, m, i + 1)
  {
    var call := m.toolCalls[i];
    Appended(c, trace, Dispatched(call, Some(result)));
    BatchAdvances(c, trace, call, result, m, i);
    RenderExtends(BlocksOf(trace), m, i, result);
    var reply := [ToolReply(call.id, call.name, result)];
    assert messages + reply == input + (Render(BlocksOf(trace)) + reply);
  }

  lemma ReturnAllowed(c: Config, input: seq<Message>, trace: seq<Event>, m: Assistant, i: nat, result: Option<string>)
    requires BatchAt(c, trace, m, i) && i < |m.toolCalls| && trace != [] && Last(trace) == ToolStarted(m.toolCalls[i])
    ensures Allowed(c, input, trace, Dispatched(m.toolCalls[i], result))
    ensures Iterations(trace + [Dispatched(m.toolCalls[i], result)]) == Iterations(trace)
  {
    BatchTolerates(c, trace, m, i, Dispatched(m.toolCalls[i], result));
    Appended(c, trace, Dispatched(m.toolCalls[i], result));
  }

  lemma ReturnStep(c: Config, input: seq<Message>, s: Snap, m: Assistant, i: nat, result: string)
    requires InBatchAt(c, input, s, m, i) && i < |m.toolCalls| && Last(s.trace) == ToolStarted(m.toolCalls[i])
    ensures Allowed(c, input, s.trace, Dispatched(m.toolCalls[i], Some(result)))
    ensures Iterations(s.trace + [Dispatched(m.toolCalls[i], Some(result))]) == Iterations(s.trace)
    ensures UnrepliedAt(c, input, Returned(c, s, m.toolCalls[i], result), m, i, result)
  {
    ReturnAllowed(c, input, s.trace, m, i, Some(result));
    ReturnMoves(c, input, s.trace, s.messages, s.activeProvider, m, i, result);
    ReturnSynced(c, input, s, m.toolCalls[i], result);
  }

  lemma FailStep(c: Config, input: seq<Message>, s: Snap, m: Assistant, i: nat)
    requires InBatchAt(c, input, s, m, i) && i < |m.toolCalls| && Last(s.trace) == ToolStarted(m.toolCalls[i])
    ensures Allowed(c, input, s.trace, Dispatched(m.toolCalls[i], None))
    ensures MayFailAt(c, input, s.trace + [Dispatched(m.toolCalls[i], None)], ModelError)
  {
    var e := Dispatched(m.toolCalls[i], None);
    BatchTolerates(c, s.trace, m, i, e);
    LawfulAppend(c, input, s.trace, e);
  }

  lemma ReportStep(c: Config, input: seq<Message>, s: Snap, m: Assistant, i: nat, result: string)
    requires UnrepliedAt(c, input, s, m, i, result) && Last(s.trace) == Dispatched(m.toolCalls[i], Some(result))
    ensures Allowed(c, input, s.trace, ToolCompleted(m.toolCalls[i], result))
    ensures Iterations(s.trace + [ToolCompleted(m.toolCalls[i], result)]) == Iterations(s.trace)
    ensures UnrepliedAt(c, input, Then(s, ToolCompleted(m.toolCalls[i], result)), m, i, result)
  {
    var e := ToolCompleted(m.toolCalls[i], result);
    Quiet(c, s.trace, e);
    BatchStays(c, s.trace, e, m, i + 1);
    LawfulAppend(c, input, s.trace, e);
  }

  lemma ReplyStep(c: Config, input: seq<Message>, s: Snap, m: Assistant, i: nat, result: string)
    requires UnrepliedAt(c, input, s, m, i, result)
    ensures InBatchAt(c, input,
      s.(messages := s.messages + [ToolReply(m.toolCalls[i].id, m.toolCalls[i].name, result)]), m, i + 1)
  {
  }

  lemma BatchStep(c: Config, input: seq<Message>, s: Snap, m: Assistant)
    requires SyncedAt(c, input, s) && m.toolCalls != []
    requires Last(s.trace) == Responded(s.activeProvider, m) && s.activeProvider < c.providers
    requires AllWhole(BlocksOf(Front(s.trace))) && s.messages == input + Render(BlocksOf(Front(s.trace)))
    requires BatchError(c, Front(s.trace), m.toolCalls).None?
    ensures MayFailAt(c, input, s.trace, ModelError)
    ensures InBatchAt(c, input, s.(messages := s.messages + [FromAssistant(m)]), m, 0)
  {
    var past := Front(s.trace);
    assert s.trace == past + [Responded(s.activeProvider, m)];
    BatchOpens(c, past, s.activeProvider, m);
    RenderOpens(BlocksOf(past), m);
    assert s.messages + [FromAssistant(m)] == input + (Render(BlocksOf(past)) + [FromAssistant(m)]);
  }

  lemma BatchDone(c: Config, input: seq<Message>, s: Snap, m: Assistant)
    requires InBatchAt(c, input, s, m, |m.toolCalls|) && !Last(s.trace).Responded?
    ensures ReadyAt(c, input, s)
  {
    BatchCloses(c, s.trace, m);
  }

  lemma InBatchMayFail(c: Config, input: seq<Message>, s: Snap, m: Assistant, i: nat, code: Code)
    requires InBatchAt(c, input, s, m, i) && !Last(s.trace).Responded?
    ensures MayFailAt(c, input, s.trace, code)
  {
  }

  lemma UnrepliedMayFail(c: Config, input: seq<Message>, s: Snap, m: Assistant, i: nat, result: string, code: Code)
    requires UnrepliedAt(c, input, s, m, i, result)
    ensures MayFailAt(c, input, s.trace, code)
  {
  }

  lemma FirstStep(c: Config, input: seq<Message>, s: Snap)
    requires ConfigOk(c) && s == Snap([], input, 0, false, 0, map[])
    ensures Allowed(c, input, s.trace, RunStarted)
    ensures ReadyAt(c, input, Then(s, RunStarted)) && Iterations(s.trace + [RunStarted]) == 0
  {
    Quiet(c, s.trace, RunStarted);
    LawfulAppend(c, input, s.trace, RunStarted);
    assert input == input + Render(BlocksOf(s.trace));
  }

  lemma ReadyMayFail(c: Config, input: seq<Message>, s: Snap, code: Code)
    requires ReadyAt(c, input, s)
    ensures MayFailAt(c, input, s.trace, code)
  {
  }

  lemma IterationStep(c: Config, input: seq<Message>, s: Snap, iteration: nat)
    requires ReadyAt(c, input, s) && iteration == Iterations(s.trace) + 1 <= c.maxIterations
    ensures Allowed(c, input, s.trace, IterationStarted(iteration))
    ensures ReadyAt(c, input, Then(s, IterationStarted(iteration)))
    ensures Iterations(s.trace + [IterationStarted(iteration)]) == iteration
    ensures Last(s.trace + [IterationStarted(iteration)]).IterationStarted?
  {
    var e := IterationStarted(iteration);
    Appended(c, s.trace, e);
    RepeatsMove(s.repeated, s.trace, e);
    LawfulAppend(c, input, s.trace, e);
  }

  lemma AskStep(c: Config, input: seq<Message>, s: Snap, index: nat)
    requires AskingAt(c, input, s, index) && index < c.providers
    ensures Allowed(c, input, s.trace, ModelCalled(index, s.messages))
    ensures AskedAt(c, input, Then(s, ModelCalled(index, s.messages)), index)
    ensures Progress(s.trace + [ModelCalled(index, s.messages)]) == Progress(s.trace)
  {
    Quiet(c, s.trace, ModelCalled(index, s.messages));
    LawfulAppend(c, input, s.trace, ModelCalled(index, s.messages));
  }

  lemma FailoverStep(c: Config, input: seq<Message>, s: Snap, index: nat)
    requires AskedAt(c, input, s, index)
    ensures Allowed(c, input, s.trace, ProviderFailed(index))
    ensures MayFailAt(c, input, s.trace + [ProviderFailed(index)], ModelError)
    ensures Progress(s.trace + [ProviderFailed(index)]) == Progress(s.trace)
    ensures !s.sideEffects ==> AskingAt(c, input, Then(s, ProviderFailed(index)), index + 1)
  {
    Quiet(c, s.trace, ProviderFailed(index));
    LawfulAppend(c, input, s.trace, ProviderFailed(index));
  }

  lemma AnswerStep(c: Config, input: seq<Message>, s: Snap, index: nat, m: Assistant)
    requires AskedAt(c, input, s, index)
    ensures Allowed(c, input, s.trace, Responded(index, m))
    ensures var more := s.trace + [Responded(index, m)];
      && SyncedAt(c, input, Then(s, Responded(index, m))) && Last(more) == Responded(index, m)
      && Progress(Front(more)) == Progress(s.trace) && Iterations(more) == Iterations(s.trace)
  {
    Answers(c, s.trace, index, m);
    LawfulAppend(c, input, s.trace, Responded(index, m));
  }

  class AgentRun {
    const cfg: Config
    const input: seq<Message>
    const world: nat -> Answer
    var tick: nat
    var aborted: bool
    var timedOut: bool
    var trace: seq<Event>
    var messages: seq<Message>
    var toolCount: nat
    var sideEffects: bool
    var activeProvider: nat
    var repeated: map<string, nat>

    constructor (cfg: Config, input: seq<Message>, world: nat -> Answer, aborted: bool)
      requires ConfigOk(cfg)
      ensures this.cfg == cfg && this.input == input && this.world == world && this.aborted == aborted
      ensures trace == [] && messages == input && toolCount == 0 && !sideEffects && activeProvider == 0
      ensures repeated == map[]
    {
      this.cfg, this.input, this.world, this.aborted := cfg, input, world, aborted;
      tick, timedOut, trace, messages, toolCount := 0, false, [], input, 0;
      sideEffects, activeProvider, repeated := false, 0, map[];
    }

    function Now(): Snap
      reads this
    {
      Snap(trace, messages, toolCount, sideEffects, activeProvider, repeated)
    }

    ghost predicate Ready()
      reads this
    {
      ReadyAt(cfg, input, Now())
    }

    ghost predicate MayFail(code: Code)
      reads this
    {
      MayFailAt(cfg, input, trace, code)
    }

    /** An await or a yield: whatever else happens, an abort stays. */
    method Await() returns (a: Answer)
      modifies `tick, `aborted, `timedOut
      ensures old(aborted) ==> aborted
    {
      a := world(tick);
      tick := tick + 1;
      aborted := aborted || a.aborts || a.timesOut;
      timedOut := timedOut || a.timesOut;
    }

    method Record(e: Event)
      requires ConfigOk(cfg) && Lawful(cfg, input, trace) && Allowed(cfg, input, trace, e)
      modifies `trace
      ensures trace == old(trace) + [e] && Lawful(cfg, input, trace)
    {
      LawfulAppend(cfg, input, trace, e);
      trace := trace + [e];
    }

    /** A yield to the consumer. */
    method Yield(e: Event)
      requires ConfigOk(cfg) && Lawful(cfg, input, trace) && Allowed(cfg, input, trace, e)
      modifies `trace, `tick, `aborted, `timedOut
      ensures trace == old(trace) + [e] && Lawful(cfg, input, trace)
    {
      Record(e);
      var a := Await();
    }

    /** The request to one provider and what becomes of its answer. */
    method AskOne(index: nat) returns (response: Option<Assistant>, stop: bool)
      requires AskingAt(cfg, input, Now(), index) && index < cfg.providers
      modifies `trace, `tick, `aborted, `timedOut
      ensures response.Some? ==>
        && SyncedAt(cfg, input, Now()) && Last(trace) == Responded(index, response.value)
        && Progress(Front(trace)) == old(Progress(trace)) && Iterations(trace) == old(Iterations(trace))
      ensures response.None? && stop ==> MayFail(ModelError)
      ensures response.None? && !stop ==>
        index + 1 < cfg.providers && AskingAt(cfg, input, Now(), index + 1) && Progress(trace) == old(Progress(trace))
    {
      AskStep(cfg, input, Now(), index);
      Record(ModelCalled(index, messages));
      var already := aborted;
      var a := Await();
      if !already && !a.throws && a.wellFormed {
        AnswerStep(cfg, input, Now(), index, a.response);
        Yield(Responded(index, a.response));
        return Some(a.response), false;
      }
      if aborted {
        return None, true;
      }
      FailoverStep(cfg, input, Now(), index);
      Yield(ProviderFailed(index));
      return None, sideEffects || index == cfg.providers - 1;
    }

    /** The loop over providers from the active one on. */
    method AskModel() returns (thrown: Option<Code>, response: Assistant)
      requires Ready() && Last(trace).IterationStarted?
      modifies `trace, `tick, `aborted, `timedOut, `activeProvider
      ensures thrown.Some? ==> MayFail(thrown.value)
      ensures thrown.None? ==>
        && SyncedAt(cfg, input, Now()) && Last(trace) == Responded(activeProvider, response) && activeProvider < cfg.providers
        && Progress(Front(trace)) == old(Progress(trace)) && Iterations(trace) == old(Iterations(trace))
    {
      var index := activeProvider;
      while index < cfg.providers
        invariant index <= cfg.providers && AskingAt(cfg, input, Now(), index)
        invariant Progress(trace) == old(Progress(trace))
        decreases cfg.providers - index
      {
        var answer, stop := AskOne(index);
        if answer.Some? {
          activeProvider := index;
          return None, answer.value;
        }
        if stop {
          return Some(ModelError), Assistant("", []);
        }
        index := index + 1;
      }
      return Some(ModelError), Assistant("", []);
    }

    // ---- the batch -------------------------------------------------------------------------------

    /** The loop that validates a whole batch before any of it runs. */
    method Validate(calls: seq<ToolCall>, ghost past: seq<Event>) returns (error: Option<Code>)
      requires RepeatsMatch(repeated, past)
      ensures error == FirstCallError(cfg, past, calls, |calls|)
    {
      var seen: set<string> := {};
      for i := 0 to |calls|
        invariant FirstCallError(cfg, past, calls, i).None?
        invariant seen == set j | 0 <= j < i :: calls[j].id
      {
        var call := calls[i];
        if FirstCallError(cfg, past, calls, i + 1).Some? {
          FirstCallErrorStays(cfg, past, calls, i + 1, |calls|);
        }
        if !call.wellFormed || Blank(call.id) || call.id in seen || Blank(call.name) {
          return Some(ModelError);
        }
        seen := seen + {call.id};
        var before := if Signature(call) in repeated then repeated[Signature(call)] else 0;
        if before + 1 > cfg.maxRepeated {
          return Some(LoopDetected);
        }
        var classified := cfg.classify(call.name);
        if classified.ClassifyThrows? {
          return Some(ModelError);
        }
        if (classified != Classified(Read) && classified != Classified(Proposal)) || Denied(call.name) {
          return Some(UnsafeTool);
        }
      }
      error := None;
    }

    method CheckBatch(calls: seq<ToolCall>, iteration: nat, ghost past: seq<Event>) returns (error: Option<Code>)
      requires RepeatsMatch(repeated, past) && iteration == Iterations(past) <= cfg.maxIterations
      requires toolCount == Dispatches(past)
      ensures error == BatchError(cfg, past, calls)
    {
      if iteration == cfg.maxIterations {
        return Some(IterationBudget);
      }
      if toolCount + |calls| > cfg.maxToolCalls {
        return Some(ToolBudget);
      }
      if !cfg.hasTools {
        return Some(NoDispatcher);
      }
      error := Validate(calls, past);
    }

    /** The call is counted and planned; the plan is recorded. */
    method PlanCall(m: Assistant, i: nat)
      requires InBatchAt(cfg, input, Now(), m, i) && i < |m.toolCalls|
      requires Last(trace).Responded? || Last(trace).ToolCompleted?
      modifies `trace, `repeated
      ensures InBatchAt(cfg, input, Now(), m, i) && Last(trace) == Planned(m.toolCalls[i])
      ensures Iterations(trace) == old(Iterations(trace))
    {
      ghost var before := Now();
      PlanStep(cfg, input, before, m, i);
      ghost var next := Then(before, Planned(m.toolCalls[i])).(repeated := Counted(repeated, Signature(m.toolCalls[i])));
      repeated := Counted(repeated, Signature(m.toolCalls[i]));
      Record(Planned(m.toolCalls[i]));
      assert Now() == next;
    }

    method StartCall(m: Assistant, i: nat)
      requires InBatchAt(cfg, input, Now(), m, i) && i < |m.toolCalls| && Last(trace) == Planned(m.toolCalls[i])
      modifies `trace, `tick, `aborted, `timedOut
      ensures InBatchAt(cfg, input, Now(), m, i) && Last(trace) == ToolStarted(m.toolCalls[i])
      ensures Iterations(trace) == old(Iterations(trace))
    {
      StartStep(cfg, input, Now(), m, i);
      ghost var next := Then(Now(), ToolStarted(m.toolCalls[i]));
      Yield(ToolStarted(m.toolCalls[i]));
      assert Now() == next;
    }

    method DispatchFailed(m: Assistant, i: nat)
      requires InBatchAt(cfg, input, Now(), m, i) && i < |m.toolCalls| && Last(trace) == ToolStarted(m.toolCalls[i])
      modifies `trace, `tick, `aborted, `timedOut
      ensures MayFail(ModelError)
    {
      FailStep(cfg, input, Now(), m, i);
      Record(Dispatched(m.toolCalls[i], None));
      var failure := Await();
    }

    method DispatchReturned(m: Assistant, i: nat, result: string)
      requires InBatchAt(cfg, input, Now(), m, i) && i < |m.toolCalls| && Last(trace) == ToolStarted(m.toolCalls[i])
      modifies `trace, `toolCount, `sideEffects
      ensures UnrepliedAt(cfg, input, Now(), m, i, result)
      ensures Last(trace) == Dispatched(m.toolCalls[i], Some(result)) && Iterations(trace) == old(Iterations(trace))
    {
      ReturnStep(cfg, input, Now(), m, i, result);
      ghost var next := Returned(cfg, Now(), m.toolCalls[i], result);
      Record(Dispatched(m.toolCalls[i], Some(result)));
      toolCount := toolCount + 1;
      sideEffects := sideEffects || cfg.classify(m.toolCalls[i].name) == Classified(Proposal);
      assert Now() == next;
    }

    method ReportCall(m: Assistant, i: nat, result: string)
      requires UnrepliedAt(cfg, input, Now(), m, i, result) && Last(trace) == Dispatched(m.toolCalls[i], Some(result))
      modifies `trace, `tick, `aborted, `timedOut
      ensures UnrepliedAt(cfg, input, Now(), m, i, result)
      ensures Last(trace) == ToolCompleted(m.toolCalls[i], result) && Iterations(trace) == old(Iterations(trace))
    {
      ReportStep(cfg, input, Now(), m, i, result);
      ghost var next := Then(Now(), ToolCompleted(m.toolCalls[i], result));
      Yield(ToolCompleted(m.toolCalls[i], result));
      assert Now() == next;
    }

    method AddReply(m: Assistant, i: nat, result: string)
      requires UnrepliedAt(cfg, input, Now(), m, i, result)
      modifies `messages
      ensures InBatchAt(cfg, input, Now(), m, i + 1)
    {
      ReplyStep(cfg, input, Now(), m, i, result);
      messages := messages + [ToolReply(m.toolCalls[i].id, m.toolCalls[i].name, result)];
    }

    /** One call of the batch, from its plan to its start. */
    method RunCall(m: Assistant, i: nat) returns (thrown: Option<Code>)
      requires InBatchAt(cfg, input, Now(), m, i) && i < |m.toolCalls|
      requires Last(trace).Responded? || Last(trace).ToolCompleted?
      modifies `trace, `tick, `aborted, `timedOut, `repeated, `toolCount, `sideEffects, `messages
      ensures thrown.Some? ==> MayFail(thrown.value)
      ensures thrown.None? ==> InBatchAt(cfg, input, Now(), m, i + 1)
      ensures thrown.None? ==> Last(trace).ToolCompleted? && Iterations(trace) == old(Iterations(trace))
    {
      PlanCall(m, i);
      var planned := Await();
      if planned.throws {
        InBatchMayFail(cfg, input, Now(), m, i, ModelError);
        return Some(ModelError);
      }
      StartCall(m, i);
      var started := Await();
      if started.throws {
        InBatchMayFail(cfg, input, Now(), m, i, ModelError);
        return Some(ModelError);
      }
      thrown := Dispatch(m, i);
    }

    /** The dispatch: after an abort the tool is still called, but its result is not awaited. */
    method Dispatch(m: Assistant, i: nat) returns (thrown: Option<Code>)
      requires InBatchAt(cfg, input, Now(), m, i) && i < |m.toolCalls| && Last(trace) == ToolStarted(m.toolCalls[i])
      modifies `trace, `tick, `aborted, `timedOut, `toolCount, `sideEffects, `messages
      ensures thrown.Some? ==> MayFail(thrown.value)
      ensures thrown.None? ==> InBatchAt(cfg, input, Now(), m, i + 1)
      ensures thrown.None? ==> Last(trace).ToolCompleted? && Iterations(trace) == old(Iterations(trace))
    {
      var already := aborted;
      var a := Await();
      if already || a.throws {
        DispatchFailed(m, i);
        return Some(ModelError);
      }
      DispatchReturned(m, i, a.result);
      var recorded := Await();
      if recorded.throws {
        UnrepliedMayFail(cfg, input, Now(), m, i, a.result, ModelError);
        var failure := Await();
        return Some(ModelError);
      }
      thrown := Reply(m, i, a.result);
    }

    /** The result is reported and put into the transcript. */
    method Reply(m: Assistant, i: nat, result: string) returns (thrown: Option<Code>)
      requires UnrepliedAt(cfg, input, Now(), m, i, result) && Last(trace) == Dispatched(m.toolCalls[i], Some(result))
      modifies `trace, `tick, `aborted, `timedOut, `messages
      ensures thrown.Some? ==> MayFail(thrown.value)
      ensures thrown.None? ==> InBatchAt(cfg, input, Now(), m, i + 1)
      ensures thrown.None? ==> Last(trace).ToolCompleted? && Iterations(trace) == old(Iterations(trace))
    {
      ReportCall(m, i, result);
      var persisted := Await();
      if persisted.throws {
        UnrepliedMayFail(cfg, input, Now(), m, i, result, ModelError);
        UnrepliedMayFail(cfg, input, Now(), m, i, result, Reconcile);
        var reported := Await();
        return Some(if reported.throws then ModelError else Reconcile);
      }
      AddReply(m, i, result);
      thrown := None;
    }

    /** The answer goes into the transcript, and its calls run one after the other. */
    method RunBatch(m: Assistant) returns (thrown: Option<Code>)
      requires SyncedAt(cfg, input, Now()) && m.toolCalls != []
      requires Last(trace) == Responded(activeProvider, m) && activeProvider < cfg.providers
      requires AllWhole(BlocksOf(Front(trace))) && messages == input + Render(BlocksOf(Front(trace)))
      requires BatchError(cfg, Front(trace), m.toolCalls).None?
      modifies `trace, `tick, `aborted, `timedOut, `repeated, `toolCount, `sideEffects, `messages
      ensures thrown.Some? ==> MayFail(thrown.value)
      ensures thrown.None? ==> Ready() && Iterations(trace) == old(Iterations(trace))
    {
      BatchStep(cfg, input, Now(), m);
      var a := Await();
      if a.throws {
        return Some(ModelError);
      }
      messages := messages + [FromAssistant(m)];
      for i := 0 to |m.toolCalls|
        invariant InBatchAt(cfg, input, Now(), m, i) && Iterations(trace) == old(Iterations(trace))
        invariant if i > 0 then Last(trace).ToolCompleted? else Last(trace).Responded?
      {
        thrown := RunCall(m, i);
        if thrown.Some? {
          return;
        }
      }
      BatchDone(cfg, input, Now(), m);
      thrown := None;
    }

    // ---- the run ---------------------------------------------------------------------------------

    /** One iteration; the run is done once a final answer is out. */
    method Iterate(iteration: nat) returns (thrown: Option<Code>)
      requires 1 <= iteration <= cfg.maxIterations && Ready()
      requires Iterations(trace) == iteration - 1
      modifies `trace, `tick, `aborted, `timedOut, `repeated, `toolCount, `sideEffects, `messages, `activeProvider
      ensures thrown.Some? ==> MayFail(thrown.value)
      ensures thrown.None? && !Ended(trace) ==> Ready() && Iterations(trace) == iteration
      ensures Ended(trace) ==> thrown.None? && Lawful(cfg, input, trace)
    {
      ReadyMayFail(cfg, input, Now(), ModelError);
      if aborted {
        return Some(ModelError);
      }
      IterationStep(cfg, input, Now(), iteration);
      Yield(IterationStarted(iteration));
      var response;
      thrown, response := AskModel();
      if thrown.Some? {
        return;
      }
      if response.toolCalls == [] {
        thrown := Finish(response, iteration);
        return;
      }
      SameRepeats(cfg, trace, repeated);
      thrown := CheckBatch(response.toolCalls, iteration, Front(trace));
      if thrown.None? {
        thrown := RunBatch(response);
      }
    }

    /** A final answer is persisted and reported with the counts of the run. */
    method Finish(m: Assistant, iteration: nat) returns (thrown: Option<Code>)
      requires SyncedAt(cfg, input, Now()) && Last(trace) == Responded(activeProvider, m) && m.toolCalls == []
      requires Iterations(trace) == iteration
      modifies `trace, `tick, `aborted, `timedOut
      ensures thrown.Some? ==> MayFail(thrown.value)
      ensures thrown.None? ==> Lawful(cfg, input, trace) && trace == old(trace) + [Completed(m, iteration, toolCount)]
    {
      var a := Await();
      if a.throws {
        return Some(ModelError);
      }
      Yield(Completed(m, iteration, toolCount));
      thrown := None;
    }

    /** The outer handler. */
    method Fail(code: Code)
      requires MayFail(code)
      modifies `trace, `tick, `aborted, `timedOut
      ensures Lawful(cfg, input, trace) && Ended(trace)
      ensures Last(trace) == (if !old(aborted) then Failed(code) else if old(timedOut) then Failed(Deadline) else Cancelled)
    {
      if aborted {
        if timedOut {
          Yield(Failed(Deadline));
        } else {
          Yield(Cancelled);
        }
      } else {
        Yield(Failed(code));
      }
    }

    /** Every run ends, with a lawful trace whose last event is terminal. */
    method Run()
      requires ConfigOk(cfg) && trace == [] && messages == input && toolCount == 0 && !sideEffects
      requires activeProvider == 0 && repeated == map[]
      modifies this
      ensures Lawful(cfg, input, trace) && Ended(trace)
    {
      Begin();
      for iteration := 1 to cfg.maxIterations + 1
        invariant Ready() && Iterations(trace) == iteration - 1
      {
        var thrown := Iterate(iteration);
        if thrown.Some? {
          Fail(thrown.value);
          return;
        }
        if Ended(trace) {
          return;
        }
      }
      ReadyMayFail(cfg, input, Now(), IterationBudget);
      Fail(IterationBudget);
    }

    method Begin()
      requires ConfigOk(cfg) && trace == [] && messages == input && toolCount == 0 && !sideEffects
      requires activeProvider == 0 && repeated == map[]
      modifies `trace, `tick, `aborted, `timedOut
      ensures Ready() && Iterations(trace) == 0
    {
      FirstStep(cfg, input, Now());
      Yield(RunStarted);
    }
  }
}
