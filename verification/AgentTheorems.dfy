/**
 * What every lawful trace of the agent loop keeps: budgets, one terminal event, no unsafe batch, no second
 * provider behind a proposal, and a transcript of whole blocks at every request.
 */
module AgentTheorems {
  import opened Options
  import opened AgentLoop

  lemma EarlierIsNotTerminal(c: Config, input: seq<Message>, trace: seq<Event>, k: nat)
    requires Lawful(c, input, trace) && k + 1 < |trace|
    ensures !Terminal(trace[k])
  {
    LawfulAt(c, input, trace, k + 1);
    assert Last(trace[..k + 1]) == trace[k];
  }

  /** Exactly one terminal event, and it is the last. */
  lemma OneTerminalEvent(c: Config, input: seq<Message>, trace: seq<Event>, k: nat)
    requires Lawful(c, input, trace) && Ended(trace) && k < |trace|
    ensures Terminal(trace[k]) <==> k == |trace| - 1
  {
    if k + 1 < |trace| {
      EarlierIsNotTerminal(c, input, trace, k);
    }
  }

  /** Dispatches stay within the tool budget. */
  lemma {:induction false} DispatchesWithinBudget(c: Config, input: seq<Message>, trace: seq<Event>)
    requires Lawful(c, input, trace)
    ensures Dispatches(trace) <= c.maxToolCalls
  {
    if trace != [] {
      DispatchesWithinBudget(c, input, Front(trace));
    }
  }

  /** The requests since the iteration began. */
  function RequestsNow(trace: seq<Event>): nat {
    if trace == [] || Last(trace).IterationStarted? then 0
    else RequestsNow(Front(trace)) + (if Last(trace).ModelCalled? then 1 else 0)
  }

  /** Within an iteration each provider is asked at most once. */
  lemma {:induction false} OneRequestPerProvider(c: Config, input: seq<Message>, trace: seq<Event>)
    requires Lawful(c, input, trace)
    ensures RequestsNow(trace) <= c.providers
    ensures trace != [] && Last(trace).ModelCalled? ==> RequestsNow(trace) <= Last(trace).provider + 1
    ensures trace != [] && Last(trace).ProviderFailed? ==> RequestsNow(trace) <= Last(trace).provider + 1
  {
    if trace != [] {
      OneRequestPerProvider(c, input, Front(trace));
    }
  }

  lemma {:induction false} RequestsPerIteration(c: Config, input: seq<Message>, trace: seq<Event>)
    requires Lawful(c, input, trace)
    ensures Iterations(trace) <= c.maxIterations
    ensures Iterations(trace) == 0 ==> ModelCalls(trace) == 0
    ensures Iterations(trace) > 0 ==> ModelCalls(trace) <= (Iterations(trace) - 1) * c.providers + RequestsNow(trace)
  {
    if trace != [] {
      var past := Front(trace);
      RequestsPerIteration(c, input, past);
      OneRequestPerProvider(c, input, past);
      if Last(trace).IterationStarted? {
        assert Iterations(past) * c.providers == (Iterations(past) - 1) * c.providers + c.providers;
      }
      if Last(trace).ModelCalled? && Last(past).ProviderFailed? {
        LawfulAt(c, input, past, |past| - 1);
        assert past[..|past| - 1] == Front(past);
      }
    }
  }

  lemma FullIterations(i: nat, most: nat, providers: nat)
    requires 1 <= i <= most
    ensures (i - 1) * providers + providers <= most * providers
  {
    assert (most - i) * providers >= 0;
    assert most * providers == (most - i) * providers + (i - 1) * providers + providers;
  }

  /** Model requests stay within iterations times providers. */
  lemma RequestsWithinBudget(c: Config, input: seq<Message>, trace: seq<Event>)
    requires Lawful(c, input, trace)
    ensures ModelCalls(trace) <= c.maxIterations * c.providers
  {
    RequestsPerIteration(c, input, trace);
    OneRequestPerProvider(c, input, trace);
    if Iterations(trace) > 0 {
      FullIterations(Iterations(trace), c.maxIterations, c.providers);
    }
  }

  lemma NothingAfterTheEnd(c: Config, input: seq<Message>, trace: seq<Event>, k: nat)
    requires Lawful(c, input, trace) && k < |trace| && Terminal(trace[k])
    ensures k == |trace| - 1
  {
    if k + 1 < |trace| {
      EarlierIsNotTerminal(c, input, trace, k);
    }
  }

  /** Once a proposal has run, a failing provider ends the run: nobody else is asked. */
  lemma NoFallThroughAfterProposal(c: Config, input: seq<Message>, trace: seq<Event>, k: nat)
    requires Lawful(c, input, trace) && k < |trace| && trace[k].ProviderFailed? && ProposalRan(c, trace[..k])
    ensures |trace| <= k + 2
    ensures |trace| == k + 2 ==> trace[k + 1].Failed? || trace[k + 1].Cancelled?
  {
    if k + 1 < |trace| {
      LawfulAt(c, input, trace, k + 1);
      assert Last(trace[..k + 1]) == trace[k] && Front(trace[..k + 1]) == trace[..k];
      NothingAfterTheEnd(c, input, trace, k + 1);
    }
  }

  /** A batch with an error is not begun: the run ends at once, with that error unless it was aborted. */
  lemma RefusedBatchRunsNothing(c: Config, input: seq<Message>, trace: seq<Event>, k: nat)
    requires Lawful(c, input, trace) && k < |trace| && trace[k].Responded? && trace[k].response.toolCalls != []
    requires BatchError(c, trace[..k], trace[k].response.toolCalls).Some?
    ensures |trace| <= k + 2
    ensures |trace| == k + 2 ==>
      trace[k + 1] in {Failed(BatchError(c, trace[..k], trace[k].response.toolCalls).value), Failed(Deadline), Cancelled}
  {
    if k + 1 < |trace| {
      LawfulAt(c, input, trace, k + 1);
      assert Last(trace[..k + 1]) == trace[k] && Front(trace[..k + 1]) == trace[..k];
      NothingAfterTheEnd(c, input, trace, k + 1);
    }
  }

  /** What a batch without an error promises of each of its calls. */
  predicate SafeCall(c: Config, past: seq<Event>, calls: seq<ToolCall>, i: nat)
    requires i < |calls|
  {
    var call := calls[i];
    && call.wellFormed && !Blank(call.id) && !Blank(call.name) && (forall j | 0 <= j < i :: calls[j].id != call.id)
    && (c.classify(call.name) == Classified(Read) || c.classify(call.name) == Classified(Proposal)) && !Denied(call.name)
    && Repeats(past, Signature(call)) < c.maxRepeated
  }

  lemma {:induction false} NoErrorMeansSafe(c: Config, past: seq<Event>, calls: seq<ToolCall>, n: nat, i: nat)
    requires i < n <= |calls| && FirstCallError(c, past, calls, n).None?
    ensures SafeCall(c, past, calls, i)
  {
    if i < n - 1 {
      NoErrorMeansSafe(c, past, calls, n - 1, i);
    }
  }

  lemma {:induction false} ErrorMeansUnsafe(c: Config, past: seq<Event>, calls: seq<ToolCall>, n: nat)
    requires n <= |calls| && FirstCallError(c, past, calls, n).Some?
    ensures exists i | 0 <= i < n :: !SafeCall(c, past, calls, i)
  {
    if FirstCallError(c, past, calls, n - 1).Some? {
      ErrorMeansUnsafe(c, past, calls, n - 1);
    } else {
      assert CallError(c, past, calls, n - 1).Some?;
      assert !SafeCall(c, past, calls, n - 1);
    }
  }

  /** A batch is refused exactly for a spent budget, a missing dispatcher, or one call of it that is not safe. */
  lemma BatchRunsIffSafe(c: Config, past: seq<Event>, calls: seq<ToolCall>)
    ensures BatchError(c, past, calls).None? <==>
      Iterations(past) < c.maxIterations && Dispatches(past) + |calls| <= c.maxToolCalls && c.hasTools &&
      forall i | 0 <= i < |calls| :: SafeCall(c, past, calls, i)
  {
    if FirstCallError(c, past, calls, |calls|).None? {
      forall i | 0 <= i < |calls| ensures SafeCall(c, past, calls, i) {
        NoErrorMeansSafe(c, past, calls, |calls|, i);
      }
    } else {
      ErrorMeansUnsafe(c, past, calls, |calls|);
    }
  }

  /**
   * Every dispatched call is the next one of the latest answer's batch, and that whole batch is safe: nothing of a
   * batch with any malformed, over-repeated or unsafe call is ever dispatched.
   */
  lemma DispatchedBatchIsSafe(c: Config, input: seq<Message>, trace: seq<Event>, k: nat) returns (r: nat)
    requires Lawful(c, input, trace) && k < |trace| && trace[k].Dispatched?
    ensures r < k && trace[r].Responded?
    ensures var calls := trace[r].response.toolCalls;
      && (forall i | 0 <= i < |calls| :: SafeCall(c, trace[..r], calls, i))
      && (var n := Dispatches(trace[..k]) - Dispatches(trace[..r]); 0 <= n < |calls| && trace[k].call == calls[n])
  {
    LawfulAt(c, input, trace, k);
    r := LastResponse(trace[..k]).value;
    assert trace[..k][..r] == trace[..r];
    BatchRunsIffSafe(c, trace[..r], trace[r].response.toolCalls);
  }

  /** A call that was dispatched had been planned, then started, just before. */
  lemma DispatchIsPlannedAndStarted(c: Config, input: seq<Message>, trace: seq<Event>, k: nat)
    requires Lawful(c, input, trace) && k < |trace| && trace[k].Dispatched?
    ensures k >= 2 && trace[k - 1] == ToolStarted(trace[k].call) && trace[k - 2] == Planned(trace[k].call)
  {
    LawfulAt(c, input, trace, k);
    assert Last(trace[..k]) == trace[k - 1];
    LawfulAt(c, input, trace, k - 1);
    assert Last(trace[..k - 1]) == trace[k - 2];
  }

  // ---- the transcript ----------------------------------------------------------------------------

  lemma {:induction false} RepliesInOrder(b: Block, n: nat, i: nat)
    requires AtMostWhole(b) && i < n <= |b.results|
    ensures |Replies(b, n)| == n
    ensures Replies(b, n)[i] == ToolReply(b.message.toolCalls[i].id, b.message.toolCalls[i].name, b.results[i])
  {
    RepliesCount(b, n - 1);
    if i < n - 1 {
      RepliesInOrder(b, n - 1, i);
    }
  }

  lemma {:induction false} RepliesCount(b: Block, n: nat)
    requires AtMostWhole(b) && n <= |b.results|
    ensures |Replies(b, n)| == n
  {
    if n > 0 {
      RepliesCount(b, n - 1);
    }
  }

  /** A whole block is the assistant message and one tool reply per call, in the order of the calls. */
  lemma WholeBlockReadsAs(b: Block)
    requires Whole(b)
    ensures var m := RenderBlock(b);
      && |m| == 1 + |b.message.toolCalls| && m[0] == FromAssistant(b.message)
      && forall i | 0 <= i < |b.message.toolCalls| ::
           m[1 + i] == ToolReply(b.message.toolCalls[i].id, b.message.toolCalls[i].name, b.results[i])
  {
    RepliesCount(b, |b.results|);
    forall i | 0 <= i < |b.message.toolCalls|
      ensures RenderBlock(b)[1 + i] == ToolReply(b.message.toolCalls[i].id, b.message.toolCalls[i].name, b.results[i])
    {
      RepliesInOrder(b, |b.results|, i);
    }
  }

  /** At every model request the transcript is the input followed by whole blocks, one per answer that asked for tools. */
  lemma TranscriptIsInputAndBlocks(c: Config, input: seq<Message>, trace: seq<Event>, k: nat)
    requires Lawful(c, input, trace) && k < |trace| && trace[k].ModelCalled?
    ensures trace[k].transcript == input + Render(BlocksOf(trace[..k]))
    ensures forall b | b in BlocksOf(trace[..k]) :: Whole(b)
    ensures Answers(BlocksOf(trace[..k])) == ToolAnswers(trace[..k])
    ensures Results(BlocksOf(trace[..k])) == DispatchResults(trace[..k])
  {
    LawfulAt(c, input, trace, k);
    BlocksHoldAnswersAndResults(c, input, trace[..k]);
  }

  function Answers(blocks: seq<Block>): seq<Assistant> {
    seq(|blocks|, i requires 0 <= i < |blocks| => blocks[i].message)
  }

  function Results(blocks: seq<Block>): seq<string> {
    if blocks == [] then [] else Results(blocks[..|blocks| - 1]) + blocks[|blocks| - 1].results
  }

  /** The model's answers that asked for tools, in order. */
  function ToolAnswers(trace: seq<Event>): seq<Assistant> {
    if trace == [] then []
    else
      ToolAnswers(Front(trace)) +
      (if Last(trace).Responded? && Last(trace).response.toolCalls != [] then [Last(trace).response] else [])
  }

  /** What the dispatched tools returned, in order. */
  function DispatchResults(trace: seq<Event>): seq<string> {
    if trace == [] then []
    else
      DispatchResults(Front(trace)) +
      (if Last(trace).Dispatched? && Last(trace).result.Some? then [Last(trace).result.value] else [])
  }

  lemma ResultsAppend(blocks: seq<Block>, b: Block)
    ensures Results(blocks + [b]) == Results(blocks) + b.results
    ensures Answers(blocks + [b]) == Answers(blocks) + [b.message]
  {
    assert (blocks + [b])[..|blocks|] == blocks;
  }

  lemma ResultAdded(blocks: seq<Block>, result: string)
    requires blocks != []
    ensures Results(WithResult(blocks, result)) == Results(blocks) + [result]
    ensures Answers(WithResult(blocks, result)) == Answers(blocks)
  {
    var n := |blocks| - 1;
    var last := blocks[n];
    ResultsAppend(blocks[..n], last.(results := last.results + [result]));
    assert blocks == blocks[..n] + [last];
    ResultsAppend(blocks[..n], last);
    assert Results(blocks[..n]) + (last.results + [result]) == Results(blocks) + [result];
  }

  lemma {:induction false} RespondedHasBlock(trace: seq<Event>)
    requires ToolAnswers(trace) != []
    ensures BlocksOf(trace) != []
  {
    if !(Last(trace).Responded? && Last(trace).response.toolCalls != []) {
      RespondedHasBlock(Front(trace));
    }
  }

  lemma {:induction false} LastResponseAnswers(trace: seq<Event>)
    requires LastResponse(trace).Some? && trace[LastResponse(trace).value].response.toolCalls != []
    ensures ToolAnswers(trace) != []
  {
    if !Last(trace).Responded? {
      LastResponseAnswers(Front(trace));
    }
  }

  ghost predicate Held(trace: seq<Event>) {
    Answers(BlocksOf(trace)) == ToolAnswers(trace) && Results(BlocksOf(trace)) == DispatchResults(trace)
  }

  lemma AnswerHeld(trace: seq<Event>)
    requires trace != [] && Last(trace).Responded? && Held(Front(trace))
    ensures Held(trace)
  {
    ResultsAppend(BlocksOf(Front(trace)), Block(Last(trace).response, []));
  }

  lemma ResultHeld(trace: seq<Event>)
    requires trace != [] && Last(trace).Dispatched? && Held(Front(trace)) && BlocksOf(Front(trace)) != []
    ensures Held(trace)
  {
    if Last(trace).result.Some? {
      ResultAdded(BlocksOf(Front(trace)), Last(trace).result.value);
    }
  }

  lemma DispatchHasBlock(c: Config, input: seq<Message>, trace: seq<Event>)
    requires trace != [] && Lawful(c, input, trace) && Last(trace).Dispatched?
    ensures BlocksOf(Front(trace)) != []
  {
    LastResponseAnswers(Front(trace));
    RespondedHasBlock(Front(trace));
  }

  /** The blocks are the answers that asked for tools, and together hold exactly what their tools returned. */
  lemma {:induction false} BlocksHoldAnswersAndResults(c: Config, input: seq<Message>, trace: seq<Event>)
    requires Lawful(c, input, trace)
    ensures Held(trace)
  {
    if trace != [] {
      BlocksHoldAnswersAndResults(c, input, Front(trace));
      if Last(trace).Responded? {
        AnswerHeld(trace);
      } else if Last(trace).Dispatched? {
        DispatchHasBlock(c, input, trace);
        ResultHeld(trace);
      }
    }
  }

  // ---- providers ---------------------------------------------------------------------------------

  lemma {:induction false} NextProviderGrows(c: Config, input: seq<Message>, trace: seq<Event>, k: nat)
    requires Lawful(c, input, trace) && k <= |trace|
    ensures NextProvider(trace[..k]) <= NextProvider(trace)
    decreases |trace|
  {
    if k == |trace| {
      assert trace[..k] == trace;
    } else {
      var past := Front(trace);
      assert past[..k] == trace[..k];
      NextProviderGrows(c, input, past, k);
      if Last(trace).Responded? || Last(trace).ProviderFailed? {
        LawfulAt(c, input, past, |past| - 1);
        assert past[..|past| - 1] == Front(past);
      }
    }
  }

  lemma NextAfter(trace: seq<Event>, j: nat)
    requires j < |trace|
    ensures trace[j].ProviderFailed? ==> NextProvider(trace[..j + 1]) == trace[j].provider + 1
  {
    assert Last(trace[..j + 1]) == trace[j];
  }

  lemma AskedIsNext(c: Config, input: seq<Message>, trace: seq<Event>, k: nat)
    requires Lawful(c, input, trace) && k < |trace|
    ensures trace[k].ModelCalled? ==> trace[k].provider == NextProvider(trace[..k])
    ensures Lawful(c, input, trace[..k])
  {
    LawfulAt(c, input, trace, k);
  }

  /** Requests only move forward through the providers, and one that failed is never asked again. */
  lemma ProvidersOnlyAdvance(c: Config, input: seq<Message>, trace: seq<Event>, j: nat, k: nat)
    requires Lawful(c, input, trace) && j < k < |trace| && trace[k].ModelCalled?
    ensures trace[j].ModelCalled? ==> trace[j].provider <= trace[k].provider
    ensures trace[j].ProviderFailed? ==> trace[j].provider < trace[k].provider
  {
    AskedIsNext(c, input, trace, j);
    AskedIsNext(c, input, trace, k);
    NextAfter(trace, j);
    assert trace[..k][..j] == trace[..j] && trace[..k][..j + 1] == trace[..j + 1];
    NextProviderGrows(c, input, trace[..k], j);
    NextProviderGrows(c, input, trace[..k], j + 1);
  }
}
