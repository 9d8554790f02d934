/**
 * Which tools the agent loop can never reach by name, and how often it may repeat a call.
 */
module AgentLimits {
  import opened Options
  import opened Basics
  import opened AgentLoop
  import opened AgentRuntime
  import opened AgentTheorems

  // ---- names -------------------------------------------------------------------------------------

  /** A word of small letters is its own lower case. */
  lemma LowerIsWord(text: string, word: string)
    requires forall i | 0 <= i < |word| :: 'a' <= word[i] <= 'z'
    ensures Lower(text) == word <==> SameLetters(text, word)
  {
    LowerIsSameLetters(text, word);
    assert Lower(word) == word;
  }

  predicate ForbiddenWord(text: string) {
    || SameLetters(text, "sign") || SameLetters(text, "signer") || SameLetters(text, "send")
    || SameLetters(text, "broadcast") || SameLetters(text, "write") || SameLetters(text, "execute")
  }

  lemma DeniedWordMeans(text: string)
    ensures Lower(text) in DENIED_WORDS <==> ForbiddenWord(text)
  {
    LowerIsWord(text, "sign");
    LowerIsWord(text, "signer");
    LowerIsWord(text, "send");
    LowerIsWord(text, "broadcast");
    LowerIsWord(text, "write");
    LowerIsWord(text, "execute");
    assert Lower(text) in DENIED_WORDS <==>
      Lower(text) == "sign" || Lower(text) == "signer" || Lower(text) == "send" || Lower(text) == "broadcast"
      || Lower(text) == "write" || Lower(text) == "execute";
  }

  /** The part before a word: nothing, or something that ends in a dot, an underscore or a dash. */
  predicate EndsSeparated(prefix: string) {
    prefix == "" || prefix[|prefix| - 1] in {'.', '_', '-'}
  }

  predicate StartsSeparated(suffix: string) {
    suffix == "" || suffix[0] in {'.', '_', '-'}
  }

  /** The word stands in the name, on its own between separators. */
  predicate Stands(name: string, prefix: string, word: string, suffix: string) {
    name == prefix + word + suffix && EndsSeparated(prefix) && ForbiddenWord(word) && StartsSeparated(suffix)
  }

  predicate HoldsWallet(name: string, prefix: string, word: string, suffix: string) {
    name == prefix + word + suffix && SameLetters(word, "wallet")
  }

  /** A forbidden word standing on its own between separators, or "wallet" anywhere, in any case of letters. */
  ghost predicate Dangerous(name: string) {
    || (exists prefix, word, suffix :: Stands(name, prefix, word, suffix))
    || (exists prefix, word, suffix :: HoldsWallet(name, prefix, word, suffix))
  }

  lemma StandingDenied(name: string, prefix: string, word: string, suffix: string)
    requires Stands(name, prefix, word, suffix)
    ensures Denied(name)
  {
    var i, j := |prefix|, |prefix| + |word|;
    assert name[i..j] == word;
    DeniedWordMeans(word);
    assert i > 0 ==> name[i - 1] == prefix[i - 1];
    assert j < |name| ==> name[j] == suffix[0];
    assert DeniedBetween(name, i, j);
  }

  lemma WalletDenied(name: string, prefix: string, word: string, suffix: string)
    requires HoldsWallet(name, prefix, word, suffix)
    ensures Denied(name)
  {
    LowerIsWord(word, "wallet");
    assert name[|prefix|..][..6] == word;
    assert NamesWallet(name[|prefix|..]);
  }

  lemma DangerousIsDenied(name: string)
    requires Dangerous(name)
    ensures Denied(name)
  {
    if prefix, word, suffix :| Stands(name, prefix, word, suffix) {
      StandingDenied(name, prefix, word, suffix);
    } else {
      var prefix, word, suffix :| HoldsWallet(name, prefix, word, suffix);
      WalletDenied(name, prefix, word, suffix);
    }
  }

  lemma WordStands(name: string, i: nat, j: nat)
    requires i <= j <= |name| && DeniedBetween(name, i, j)
    ensures Stands(name, name[..i], name[i..j], name[j..])
  {
    DeniedWordMeans(name[i..j]);
    assert name == name[..i] + name[i..j] + name[j..];
  }

  lemma WalletHeld(name: string, i: nat)
    requires i <= |name| && NamesWallet(name[i..])
    ensures HoldsWallet(name, name[..i], name[i..][..6], name[i..][6..])
  {
    LowerIsWord(name[i..][..6], "wallet");
    assert name == name[..i] + name[i..][..6] + name[i..][6..];
  }

  lemma DeniedIsDangerous(name: string)
    requires Denied(name)
    ensures Dangerous(name)
  {
    if i, j :| 0 <= i <= j <= |name| && DeniedBetween(name, i, j) {
      WordStands(name, i, j);
    } else {
      var i :| 0 <= i <= |name| && NamesWallet(name[i..]);
      WalletHeld(name, i);
    }
  }

  /** The names refused are exactly the dangerous ones. */
  lemma DeniedIffDangerous(name: string)
    ensures Denied(name) <==> Dangerous(name)
  {
    if Denied(name) {
      DeniedIsDangerous(name);
    }
    if Dangerous(name) {
      DangerousIsDenied(name);
    }
  }

  lemma SafeCallIsHarmless(c: Config, past: seq<Event>, calls: seq<ToolCall>, i: nat)
    requires i < |calls| && SafeCall(c, past, calls, i)
    ensures !Dangerous(calls[i].name)
    ensures c.classify(calls[i].name) == Classified(Read) || c.classify(calls[i].name) == Classified(Proposal)
  {
    DeniedIffDangerous(calls[i].name);
  }

  /** No dispatch ever reaches a tool of a dangerous name, nor one that is not a read or a proposal. */
  lemma NothingDangerousDispatched(c: Config, input: seq<Message>, trace: seq<Event>, k: nat)
    requires Lawful(c, input, trace) && k < |trace| && trace[k].Dispatched?
    ensures !Dangerous(trace[k].call.name)
    ensures c.classify(trace[k].call.name) == Classified(Read) || c.classify(trace[k].call.name) == Classified(Proposal)
  {
    var r := DispatchedBatchIsSafe(c, input, trace, k);
    SafeCallIsHarmless(c, trace[..r], trace[r].response.toolCalls, Dispatches(trace[..k]) - Dispatches(trace[..r]));
  }

  // ---- repeated calls ----------------------------------------------------------------------------

  /** How often a batch asks for one call. */
  function Occurrences(calls: seq<ToolCall>, signature: string): nat {
    if calls == [] then 0
    else Occurrences(calls[..|calls| - 1], signature) + if Signature(calls[|calls| - 1]) == signature then 1 else 0
  }

  lemma {:induction false} OccurrencesGrow(calls: seq<ToolCall>, n: nat, signature: string)
    requires n <= |calls|
    ensures Occurrences(calls[..n], signature) <= Occurrences(calls, signature)
    decreases |calls|
  {
    if n == |calls| {
      assert calls[..n] == calls;
    } else {
      assert calls[..|calls| - 1][..n] == calls[..n];
      OccurrencesGrow(calls[..|calls| - 1], n, signature);
    }
  }

  lemma {:induction false} OccursInCalls(calls: seq<ToolCall>, signature: string) returns (i: nat)
    requires Occurrences(calls, signature) > 0
    ensures i < |calls| && Signature(calls[i]) == signature
  {
    var n := |calls| - 1;
    if Signature(calls[n]) == signature {
      i := n;
    } else {
      i := OccursInCalls(calls[..n], signature);
    }
  }

  /** The calls planned since the last answer, and those dispatched since. */
  function PlannedSince(past: seq<Event>): nat {
    if past == [] || Last(past).Responded? then 0 else PlannedSince(Front(past)) + if Last(past).Planned? then 1 else 0
  }

  function DispatchedSince(past: seq<Event>): nat {
    if past == [] || Last(past).Responded? then 0 else DispatchedSince(Front(past)) + if Last(past).Dispatched? then 1 else 0
  }

  lemma {:induction false} DispatchedSinceMeans(past: seq<Event>)
    requires LastResponse(past).Some?
    ensures Dispatches(past) - Dispatches(past[..LastResponse(past).value]) == DispatchedSince(past)
  {
    if Last(past).Responded? {
      assert past[..|past| - 1] == Front(past);
    } else {
      DispatchedSinceMeans(Front(past));
      assert Front(past)[..LastResponse(past).value] == past[..LastResponse(past).value];
    }
  }

  /** Calls are planned one by one, each dispatched before the next. */
  lemma {:induction false} PlannedOneByOne(c: Config, input: seq<Message>, trace: seq<Event>)
    requires Lawful(c, input, trace) && trace != []
    ensures Last(trace).Planned? || Last(trace).ToolStarted? ==> PlannedSince(trace) == DispatchedSince(trace) + 1
    ensures Last(trace).Dispatched? || Last(trace).ToolCompleted? || Last(trace).Responded? ==>
      PlannedSince(trace) == DispatchedSince(trace)
  {
    if |trace| > 1 {
      PlannedOneByOne(c, input, Front(trace));
    }
  }

  /** What has been planned since the last answer is the start of the batch it asked for. */
  lemma {:induction false} PlannedIsPrefix(c: Config, input: seq<Message>, trace: seq<Event>, signature: string)
    requires Lawful(c, input, trace) && LastResponse(trace).Some?
    ensures var r := LastResponse(trace).value; var calls := trace[r].response.toolCalls;
      && PlannedSince(trace) <= |calls|
      && Repeats(trace, signature) == Repeats(trace[..r], signature) + Occurrences(calls[..PlannedSince(trace)], signature)
  {
    var r := LastResponse(trace).value;
    var calls := trace[r].response.toolCalls;
    if Last(trace).Responded? {
      assert trace[..r] == Front(trace) && calls[..0] == [];
    } else {
      var past := Front(trace);
      PlannedIsPrefix(c, input, past, signature);
      assert past[..r] == trace[..r] && past[r] == trace[r];
      if Last(trace).Planned? {
        PlannedOneByOne(c, input, past);
        DispatchedSinceMeans(past);
        var n := PlannedSince(past);
        assert calls[..n + 1][..n] == calls[..n];
      }
    }
  }

  /** The batch fits: each of its calls has been planned so rarely that the whole batch stays within the limit. */
  predicate FitsRepeatLimit(c: Config, past: seq<Event>, calls: seq<ToolCall>) {
    forall i | 0 <= i < |calls| ::
      Repeats(past, Signature(calls[i])) + Occurrences(calls, Signature(calls[i])) <= c.maxRepeated
  }

  ghost predicate WithinRepeatLimit(c: Config, past: seq<Event>) {
    forall signature :: Repeats(past, signature) <= c.maxRepeated
  }

  /** However a batch goes on, no call is planned more often than the limit before the next answer. */
  ghost predicate BatchStaysWithin(c: Config, input: seq<Message>, answered: seq<Event>) {
    forall trace | Lawful(c, input, trace) && SameBatch(answered, trace) :: WithinRepeatLimit(c, trace)
  }

  /** `trace` goes on from `answered` without another answer. */
  predicate SameBatch(answered: seq<Event>, trace: seq<Event>) {
    && answered != [] && |answered| <= |trace| && trace[..|answered|] == answered
    && LastResponse(trace) == Some(|answered| - 1)
  }

  lemma FittingBatchStays(c: Config, input: seq<Message>, answered: seq<Event>, trace: seq<Event>)
    requires Lawful(c, input, trace) && SameBatch(answered, trace) && Last(answered).Responded?
    requires WithinRepeatLimit(c, Front(answered)) && FitsRepeatLimit(c, Front(answered), Last(answered).response.toolCalls)
    ensures WithinRepeatLimit(c, trace)
  {
    var past, calls := Front(answered), Last(answered).response.toolCalls;
    var r := |answered| - 1;
    assert trace[r] == answered[r] && trace[..r] == past;
    forall signature ensures Repeats(trace, signature) <= c.maxRepeated {
      PlannedIsPrefix(c, input, trace, signature);
      OccurrencesGrow(calls, PlannedSince(trace), signature);
      if Occurrences(calls, signature) > 0 {
        var i := OccursInCalls(calls, signature);
      }
    }
  }

  /** The trace can go on with one more event of the batch, which is not an answer. */
  lemma OneMoreEvent(c: Config, input: seq<Message>, trace: seq<Event>, e: Event)
    requires Lawful(c, input, trace) && Allowed(c, input, trace, e) && !e.Responded?
    ensures var more := trace + [e];
      && Lawful(c, input, more) && Last(more) == e && Front(more) == trace
      && LastResponse(more) == LastResponse(trace)
      && forall signature :: Repeats(more, signature) ==
           Repeats(trace, signature) + if e.Planned? && Signature(e.call) == signature then 1 else 0
  {
    LawfulAppend(c, input, trace, e);
    assert Front(trace + [e]) == trace && Last(trace + [e]) == e;
  }

  lemma CallStarts(c: Config, input: seq<Message>, trace: seq<Event>, m: Assistant, i: nat)
    requires Lawful(c, input, trace) && trace != [] && (Last(trace).Responded? || Last(trace).ToolCompleted?)
    requires BatchAt(c, trace, m, i) && i < |m.toolCalls|
    ensures var more := trace + [Planned(m.toolCalls[i])] + [ToolStarted(m.toolCalls[i])];
      && Lawful(c, input, more) && Last(more) == ToolStarted(m.toolCalls[i]) && BatchAt(c, more, m, i)
      && LastResponse(more) == LastResponse(trace)
      && forall signature :: Repeats(more, signature) ==
           Repeats(trace, signature) + if Signature(m.toolCalls[i]) == signature then 1 else 0
  {
    var call := m.toolCalls[i];
    BatchTolerates(c, trace, m, i, Planned(call));
    OneMoreEvent(c, input, trace, Planned(call));
    BatchStays(c, trace, Planned(call), m, i);
    var planned := trace + [Planned(call)];
    BatchTolerates(c, planned, m, i, ToolStarted(call));
    OneMoreEvent(c, input, planned, ToolStarted(call));
    BatchStays(c, planned, ToolStarted(call), m, i);
  }

  lemma CallReturns(c: Config, input: seq<Message>, trace: seq<Event>, m: Assistant, i: nat)
    requires Lawful(c, input, trace) && trace != [] && i < |m.toolCalls| && Last(trace) == ToolStarted(m.toolCalls[i])
    requires BatchAt(c, trace, m, i)
    ensures var more := trace + [Dispatched(m.toolCalls[i], Some(""))] + [ToolCompleted(m.toolCalls[i], "")];
      && Lawful(c, input, more) && Last(more).ToolCompleted? && BatchAt(c, more, m, i + 1)
      && LastResponse(more) == LastResponse(trace)
      && forall signature :: Repeats(more, signature) == Repeats(trace, signature)
  {
    var call := m.toolCalls[i];
    BatchTolerates(c, trace, m, i, Dispatched(call, Some("")));
    OneMoreEvent(c, input, trace, Dispatched(call, Some("")));
    BatchAdvances(c, trace, call, "", m, i);
    var dispatched := trace + [Dispatched(call, Some(""))];
    OneMoreEvent(c, input, dispatched, ToolCompleted(call, ""));
    BatchStays(c, dispatched, ToolCompleted(call, ""), m, i + 1);
  }

  /** The next call of a batch can run. */
  lemma CallRuns(c: Config, input: seq<Message>, answered: seq<Event>, trace: seq<Event>, m: Assistant, i: nat)
    returns (more: seq<Event>)
    requires Lawful(c, input, trace) && trace != [] && (Last(trace).Responded? || Last(trace).ToolCompleted?)
    requires BatchAt(c, trace, m, i) && i < |m.toolCalls| && SameBatch(answered, trace)
    ensures Lawful(c, input, more) && more != [] && Last(more).ToolCompleted?
    ensures BatchAt(c, more, m, i + 1) && SameBatch(answered, more)
    ensures forall signature ::
      (Repeats(more, signature) == Repeats(trace, signature) + if Signature(m.toolCalls[i]) == signature then 1 else 0)
  {
    var call := m.toolCalls[i];
    CallStarts(c, input, trace, m, i);
    var started := trace + [Planned(call)] + [ToolStarted(call)];
    CallReturns(c, input, started, m, i);
    more := started + [Dispatched(call, Some(""))] + [ToolCompleted(call, "")];
    assert more[..|answered|] == trace[..|answered|];
  }

  lemma OneMoreOccurs(calls: seq<ToolCall>, n: nat, signature: string)
    requires 0 < n <= |calls|
    ensures Occurrences(calls[..n], signature) ==
      Occurrences(calls[..n - 1], signature) + if Signature(calls[n - 1]) == signature then 1 else 0
  {
    assert calls[..n][..n - 1] == calls[..n - 1];
  }

  /** The first `n` calls of a batch can all run. */
  lemma {:induction false} CallsRun(c: Config, input: seq<Message>, answered: seq<Event>, m: Assistant, n: nat)
    returns (trace: seq<Event>)
    requires Lawful(c, input, answered) && answered != [] && Last(answered).Responded?
    requires BatchAt(c, answered, m, 0) && n <= |m.toolCalls|
    ensures Lawful(c, input, trace) && trace != [] && (Last(trace).Responded? || Last(trace).ToolCompleted?)
    ensures BatchAt(c, trace, m, n) && SameBatch(answered, trace)
    ensures forall signature :: Repeats(trace, signature) == Repeats(answered, signature) + Occurrences(m.toolCalls[..n], signature)
  {
    if n == 0 {
      trace := answered;
      assert m.toolCalls[..0] == [] && answered[..|answered|] == answered;
    } else {
      var before := CallsRun(c, input, answered, m, n - 1);
      trace := CallRuns(c, input, answered, before, m, n - 1);
      forall signature
        ensures Repeats(trace, signature) == Repeats(answered, signature) + Occurrences(m.toolCalls[..n], signature)
      {
        OneMoreOccurs(m.toolCalls, n, signature);
      }
    }
  }

  /**
   * The repeat limit is checked call by call against what was planned before the batch, so a batch that asks for one
   * call several times gets past it. From an answer whose batch is let through, with the limit kept so far, no call
   * is planned beyond the limit before the next answer, however the run goes on, if and only if the batch fits: what
   * was planned of each of its calls and what the batch asks for of it come to at most the limit.
   */
  lemma RepeatLimitKeptIffBatchFits(c: Config, input: seq<Message>, past: seq<Event>, p: nat, m: Assistant)
    requires Lawful(c, input, past + [Responded(p, m)]) && m.toolCalls != []
    requires AllWhole(BlocksOf(past)) && BatchError(c, past, m.toolCalls).None? && WithinRepeatLimit(c, past)
    ensures BatchStaysWithin(c, input, past + [Responded(p, m)]) <==> FitsRepeatLimit(c, past, m.toolCalls)
  {
    var answered := past + [Responded(p, m)];
    assert Front(answered) == past && Last(answered) == Responded(p, m);
    if FitsRepeatLimit(c, past, m.toolCalls) {
      forall trace | Lawful(c, input, trace) && SameBatch(answered, trace) ensures WithinRepeatLimit(c, trace) {
        FittingBatchStays(c, input, answered, trace);
      }
    } else {
      BatchOpens(c, past, p, m);
      var trace := CallsRun(c, input, answered, m, |m.toolCalls|);
      assert m.toolCalls[..|m.toolCalls|] == m.toolCalls;
      var i :| 0 <= i < |m.toolCalls|
        && Repeats(past, Signature(m.toolCalls[i])) + Occurrences(m.toolCalls, Signature(m.toolCalls[i])) > c.maxRepeated;
      assert Repeats(trace, Signature(m.toolCalls[i])) > c.maxRepeated;
      assert !WithinRepeatLimit(c, trace);
    }
  }

  // ---- a batch beyond the limit ------------------------------------------------------------------

  const LIMIT_OF_ONE := Config(1, true, (name: string) => Classified(Read), 2, 8, 1)
  const TWINS := Assistant("", [ToolCall(true, "a", "price", "{}"), ToolCall(true, "b", "price", "{}")])
  const ASKED := [RunStarted, IterationStarted(1), ModelCalled(0, [])]

  /** Nothing but an iteration is behind the trace. */
  ghost predicate Begun(c: Config, trace: seq<Event>, iterations: nat) {
    && Lawful(c, [], trace) && trace != [] && !Ended(trace)
    && Iterations(trace) == iterations && Dispatches(trace) == 0 && BlocksOf(trace) == [] && NextProvider(trace) == 0
    && forall signature :: Repeats(trace, signature) == 0
  }

  lemma StartIsLawful(c: Config)
    ensures Begun(c, [RunStarted], 0) && Last([RunStarted]) == RunStarted
  {
    assert Front([RunStarted]) == [];
    assert Allowed(c, [], [], RunStarted);
  }

  lemma BeginOne(c: Config, trace: seq<Event>, e: Event)
    requires Begun(c, trace, if e.ModelCalled? then 1 else 0) && Allowed(c, [], trace, e)
    requires e == IterationStarted(1) || e == ModelCalled(0, [])
    ensures Begun(c, trace + [e], 1) && Last(trace + [e]) == e
  {
    LawfulAppend(c, [], trace, e);
    assert Front(trace + [e]) == trace && Last(trace + [e]) == e;
  }

  lemma AskedIsLawful()
    ensures Begun(LIMIT_OF_ONE, ASKED, 1) && Last(ASKED) == ModelCalled(0, [])
  {
    var c := LIMIT_OF_ONE;
    StartIsLawful(c);
    BeginOne(c, [RunStarted], IterationStarted(1));
    var started := [RunStarted, IterationStarted(1)];
    assert [RunStarted] + [IterationStarted(1)] == started;
    BeginOne(c, started, ModelCalled(0, []));
    assert started + [ModelCalled(0, [])] == ASKED;
  }

  lemma TwinsAreSafe()
    ensures BatchError(LIMIT_OF_ONE, ASKED, TWINS.toolCalls).None?
  {
    AskedIsLawful();
    var calls := TWINS.toolCalls;
    HarmlessName();
    forall i | 0 <= i < |calls| ensures SafeCall(LIMIT_OF_ONE, ASKED, calls, i) {
      assert calls[i].id == "a" || calls[i].id == "b";
      assert !IsSpace(calls[i].id[0]) && !IsSpace(calls[i].name[0]);
    }
    BatchRunsIffSafe(LIMIT_OF_ONE, ASKED, calls);
  }

  lemma HarmlessName()
    ensures !Denied("price")
  {
    var name := "price";
    forall i, j | 0 <= i <= j <= |name| ensures !DeniedBetween(name, i, j) {
      if 0 < i {
        assert name[i - 1] in {'p', 'r', 'i', 'c', 'e'};
      } else if j < |name| {
        assert name[j] in {'p', 'r', 'i', 'c', 'e'};
      } else {
        assert name[i..j] == name && Lower(name)[0] == 'p';
      }
    }
  }

  /** With a limit of one, two equal calls in one answer are both let through and both run. */
  lemma TwinsExceedTheLimit()
    ensures Lawful(LIMIT_OF_ONE, [], ASKED + [Responded(0, TWINS)])
    ensures BatchError(LIMIT_OF_ONE, ASKED, TWINS.toolCalls).None?
    ensures !BatchStaysWithin(LIMIT_OF_ONE, [], ASKED + [Responded(0, TWINS)])
  {
    AskedIsLawful();
    TwinsAreSafe();
    LawfulAppend(LIMIT_OF_ONE, [], ASKED, Responded(0, TWINS));
    var calls := TWINS.toolCalls;
    assert calls[..1] == [calls[0]] && calls[..0] == [] && Signature(calls[0]) == Signature(calls[1]);
    assert Occurrences([calls[0]], Signature(calls[0])) == 1 by {
      assert [calls[0]][..0] == [];
    }
    assert Occurrences(calls, Signature(calls[0])) == 2;
    assert !FitsRepeatLimit(LIMIT_OF_ONE, ASKED, calls);
    RepeatLimitKeptIffBatchFits(LIMIT_OF_ONE, [], ASKED, 0, TWINS);
  }
}
