/**
 * The bounded agent loop (src/agent/runtime/index.ts): one run as an object whose nested loops drive the model
 * and tool ports, with every port call and event on a trace. Each event is proved lawful after the ones before.
 */
module AgentLoop {
  import opened Options
  import opened Basics

  datatype Effect = Read | Proposal | Write
  datatype Classification = Classified(effect: Effect) | Unclassified | ClassifyThrows

  /** `arguments` is the canonical text of the call's arguments; a call that is not an object is not well formed. */
  datatype ToolCall = ToolCall(wellFormed: bool, id: string, name: string, arguments: string)
  datatype Assistant = Assistant(content: string, toolCalls: seq<ToolCall>)
  datatype Message = Given(role: string, content: string) | FromAssistant(message: Assistant) | ToolReply(callId: string, name: string, content: string)

  datatype Code =
    | IterationBudget | ToolBudget | LoopDetected | Deadline | ModelError | UnsafeTool | NoDispatcher | Reconcile

  datatype Event =
    | RunStarted
    | IterationStarted(iteration: nat)
    | ModelCalled(provider: nat, transcript: seq<Message>)
    | ProviderFailed(provider: nat)
    | Responded(provider: nat, response: Assistant)
    | Planned(call: ToolCall)
    | ToolStarted(call: ToolCall)
    | Dispatched(call: ToolCall, result: Option<string>)
    | ToolCompleted(call: ToolCall, output: string)
    | Completed(answer: Assistant, iterations: nat, toolCalls: nat)
    | Failed(code: Code)
    | Cancelled

  datatype Config = Config(
    providers: nat,
    hasTools: bool,
    classify: string -> Classification,
    maxIterations: nat,
    maxToolCalls: nat,
    maxRepeated: nat)

  predicate ConfigOk(c: Config) {
    c.providers > 0 && c.maxIterations > 0 && c.maxToolCalls > 0 && c.maxRepeated > 0
  }

  /** A budget the caller gives, but not a positive one. */
  predicate BadBudget(given: Option<int>) {
    given.Some? && given.value <= 0
  }

  /**
   * The constructor's defaults and checks; None where it throws. A budget left out is 8 iterations, 16 tool
   * calls or 3 repeats, and is never what makes it throw.
   */
  function Resolve(providers: nat, hasTools: bool, classify: string -> Classification, maxIterations: Option<int>,
                   maxToolCalls: Option<int>, maxRepeated: Option<int>): (c: Option<Config>)
    ensures c.None? <==> providers == 0 || BadBudget(maxIterations) || BadBudget(maxToolCalls) || BadBudget(maxRepeated)
    ensures c.Some? ==> ConfigOk(c.value)
    ensures c.Some? ==> c.value.providers == providers && c.value.hasTools == hasTools && c.value.classify == classify
    ensures c.Some? && maxIterations.None? ==> c.value.maxIterations == 8
    ensures c.Some? && maxToolCalls.None? ==> c.value.maxToolCalls == 16
    ensures c.Some? && maxRepeated.None? ==> c.value.maxRepeated == 3
    ensures c.Some? && maxIterations.Some? ==> c.value.maxIterations == maxIterations.value
    ensures c.Some? && maxToolCalls.Some? ==> c.value.maxToolCalls == maxToolCalls.value
    ensures c.Some? && maxRepeated.Some? ==> c.value.maxRepeated == maxRepeated.value
  {
    var iterations := if maxIterations.Some? then maxIterations.value else 8;
    var calls := if maxToolCalls.Some? then maxToolCalls.value else 16;
    var repeated := if maxRepeated.Some? then maxRepeated.value else 3;
    if providers == 0 || iterations <= 0 || calls <= 0 || repeated <= 0 then None
    else Some(Config(providers, hasTools, classify, iterations, calls, repeated))
  }

  // ---- names -------------------------------------------------------------------------------------

  predicate Separates(c: char) {
    c == '.' || c == '_' || c == '-'
  }

  const DENIED_WORDS := ["sign", "signer", "send", "broadcast", "write", "execute"]

  predicate DeniedBetween(name: string, i: nat, j: nat)
    requires i <= j <= |name|
  {
    && (i == 0 || Separates(name[i - 1])) && (j == |name| || Separates(name[j]))
    && Lower(name[i..j]) in DENIED_WORDS
  }

  /** A name with a denied word between separators, or "wallet" anywhere. */
  predicate Denied(name: string) {
    || (exists i, j | 0 <= i <= j <= |name| :: DeniedBetween(name, i, j))
    || (exists i | 0 <= i <= |name| :: NamesWallet(name[i..]))
  }

  predicate NamesWallet(rest: string) {
    |rest| >= 6 && Lower(rest[..6]) == "wallet"
  }

  /** The ASCII characters `trim` strips: space, and the controls from tab to carriage return. */
  predicate IsSpace(c: char) {
    c == ' ' || '\t' <= c <= '\r'
  }

  predicate Blank(s: string) {
    forall i | 0 <= i < |s| :: IsSpace(s[i])
  }

  function Signature(call: ToolCall): string {
    call.name + ":" + call.arguments
  }

  // ---- reading a trace ---------------------------------------------------------------------------

  predicate Terminal(e: Event) {
    e.Completed? || e.Failed? || e.Cancelled?
  }

  predicate Ended(past: seq<Event>) {
    past != [] && Terminal(past[|past| - 1])
  }

  function Front(past: seq<Event>): seq<Event>
    requires past != []
  {
    past[..|past| - 1]
  }

  function Last(past: seq<Event>): Event
    requires past != []
  {
    past[|past| - 1]
  }

  function Dispatches(past: seq<Event>): nat {
    if past == [] then 0 else Dispatches(Front(past)) + (if Last(past).Dispatched? then 1 else 0)
  }

  function ModelCalls(past: seq<Event>): nat {
    if past == [] then 0 else ModelCalls(Front(past)) + (if Last(past).ModelCalled? then 1 else 0)
  }

  function Iterations(past: seq<Event>): nat {
    if past == [] then 0 else Iterations(Front(past)) + (if Last(past).IterationStarted? then 1 else 0)
  }

  /** How often a call has been planned. */
  function Repeats(past: seq<Event>, signature: string): nat {
    if past == [] then 0
    else Repeats(Front(past), signature) + (if Last(past).Planned? && Signature(Last(past).call) == signature then 1 else 0)
  }

  predicate ReturnedProposal(c: Config, e: Event) {
    e.Dispatched? && e.result.Some? && c.classify(e.call.name) == Classified(Proposal)
  }

  /** A call classified as a proposal has returned. */
  predicate ProposalRan(c: Config, past: seq<Event>) {
    past != [] && (ProposalRan(c, Front(past)) || ReturnedProposal(c, Last(past)))
  }

  /** The provider to ask next: the one that answered last, or the one after the last that failed. */
  function NextProvider(past: seq<Event>): nat {
    if past == [] then 0
    else
      match Last(past)
      case Responded(p, _) => p
      case ProviderFailed(p) => p + 1
      case _ => NextProvider(Front(past))
  }

  /** Where the model last answered. */
  function LastResponse(past: seq<Event>): (r: Option<nat>)
    ensures r.Some? ==> r.value < |past| && past[r.value].Responded?
  {
    if past == [] then None
    else if Last(past).Responded? then Some(|past| - 1)
    else LastResponse(Front(past))
  }

  /** An answer that asked for tools, with the results of its calls so far. */
  datatype Block = Block(message: Assistant, results: seq<string>)

  function BlocksOf(past: seq<Event>): seq<Block> {
    if past == [] then []
    else
      var blocks := BlocksOf(Front(past));
      match Last(past)
      case Responded(_, m) => if m.toolCalls == [] then blocks else blocks + [Block(m, [])]
      case Dispatched(_, Some(result)) => if blocks == [] then blocks else WithResult(blocks, result)
      case _ => blocks
  }

  function WithResult(blocks: seq<Block>, result: string): seq<Block>
    requires blocks != []
  {
    var last := blocks[|blocks| - 1];
    blocks[..|blocks| - 1] + [last.(results := last.results + [result])]
  }

  predicate Whole(b: Block) {
    |b.results| == |b.message.toolCalls|
  }

  predicate AllWhole(blocks: seq<Block>) {
    forall i | 0 <= i < |blocks| :: Whole(blocks[i])
  }

  predicate AtMostWhole(b: Block) {
    |b.results| <= |b.message.toolCalls|
  }

  function Replies(b: Block, n: nat): seq<Message>
    requires n <= |b.results| && AtMostWhole(b)
  {
    if n == 0 then []
    else Replies(b, n - 1) + [ToolReply(b.message.toolCalls[n - 1].id, b.message.toolCalls[n - 1].name, b.results[n - 1])]
  }

  /** One assistant message and one tool reply per call answered, in order. */
  function RenderBlock(b: Block): seq<Message> {
    if AtMostWhole(b) then [FromAssistant(b.message)] + Replies(b, |b.results|) else []
  }

  function Render(blocks: seq<Block>): seq<Message> {
    if blocks == [] then [] else Render(blocks[..|blocks| - 1]) + RenderBlock(blocks[|blocks| - 1])
  }

  // ---- what may run ------------------------------------------------------------------------------

  /** What is wrong with one call of a batch. */
  function CallError(c: Config, past: seq<Event>, calls: seq<ToolCall>, i: nat): Option<Code>
    requires i < |calls|
  {
    var call := calls[i];
    if !call.wellFormed || Blank(call.id) || (exists j | 0 <= j < i :: calls[j].id == call.id) || Blank(call.name)
    then Some(ModelError)
    else if Repeats(past, Signature(call)) + 1 > c.maxRepeated then Some(LoopDetected)
    else
      var classified := c.classify(call.name);
      if classified.ClassifyThrows? then Some(ModelError)
      else if (classified != Classified(Read) && classified != Classified(Proposal)) || Denied(call.name)
      then Some(UnsafeTool)
      else None
  }

  /** The complaint about the earliest of the first `n` calls that draws one. */
  function FirstCallError(c: Config, past: seq<Event>, calls: seq<ToolCall>, n: nat): Option<Code>
    requires n <= |calls|
  {
    if n == 0 then None
    else
      var earlier := FirstCallError(c, past, calls, n - 1);
      if earlier.Some? then earlier else CallError(c, past, calls, n - 1)
  }

  /** Why a batch may not run at all: budgets first, then its calls. */
  function BatchError(c: Config, past: seq<Event>, calls: seq<ToolCall>): Option<Code> {
    if Iterations(past) >= c.maxIterations then Some(IterationBudget)
    else if Dispatches(past) + |calls| > c.maxToolCalls then Some(ToolBudget)
    else if !c.hasTools then Some(NoDispatcher)
    else FirstCallError(c, past, calls, |calls|)
  }

  /** The call that is due: the next of the last answer's batch, which has no error. */
  predicate Due(c: Config, past: seq<Event>, call: ToolCall) {
    var r := LastResponse(past);
    r.Some? &&
    (var calls := past[r.value].response.toolCalls;
     var n := Dispatches(past) - Dispatches(past[..r.value]);
     0 <= n < |calls| && calls[n] == call && BatchError(c, past[..r.value], calls).None?)
  }

  /** Which events may follow a failed provider or a batch that must not run. */
  predicate Tolerated(c: Config, past: seq<Event>, e: Event) {
    past == [] ||
    match Last(past)
    case ProviderFailed(p) => (p + 1 < c.providers && !ProposalRan(c, past)) || e.Failed? || e.Cancelled?
    case Responded(_, m) =>
      if m.toolCalls == [] then e == Completed(m, Iterations(past), Dispatches(past)) || e.Failed? || e.Cancelled?
      else
        var error := BatchError(c, Front(past), m.toolCalls);
        error.None? || e == Failed(error.value) || e == Failed(Deadline) || e == Cancelled
    case _ => true
  }

  /** Which events may come next. */
  predicate Allowed(c: Config, input: seq<Message>, past: seq<Event>, e: Event) {
    && !Ended(past)
    && (past == [] ==> e.RunStarted?)
    && Tolerated(c, past, e)
    && match e
       case RunStarted => past == []
       case IterationStarted(n) => n == Iterations(past) + 1 && n <= c.maxIterations
       case ModelCalled(p, transcript) =>
         && past != [] && (Last(past).IterationStarted? || Last(past).ProviderFailed?)
         && p == NextProvider(past) && p < c.providers
         && AllWhole(BlocksOf(past)) && transcript == input + Render(BlocksOf(past))
       case ProviderFailed(p) => past != [] && Last(past).ModelCalled? && Last(past).provider == p
       case Responded(p, _) => past != [] && Last(past).ModelCalled? && Last(past).provider == p
       case Planned(call) => past != [] && (Last(past).Responded? || Last(past).ToolCompleted?) && Due(c, past, call)
       case ToolStarted(call) => past != [] && Last(past) == Planned(call) && Due(c, past, call)
       case Dispatched(call, _) => past != [] && Last(past) == ToolStarted(call) && Due(c, past, call)
       case ToolCompleted(call, output) => past != [] && Last(past) == Dispatched(call, Some(output))
       case Completed(m, _, _) => past != [] && Last(past).Responded? && Last(past).response == m && m.toolCalls == []
       case Failed(_) => true
       case Cancelled => true
  }

  /** Every event was allowed after the ones before it. */
  predicate Lawful(c: Config, input: seq<Message>, trace: seq<Event>) {
    trace == [] || (Lawful(c, input, Front(trace)) && Allowed(c, input, Front(trace), Last(trace)))
  }

  lemma LawfulAppend(c: Config, input: seq<Message>, trace: seq<Event>, e: Event)
    requires Lawful(c, input, trace) && Allowed(c, input, trace, e)
    ensures Lawful(c, input, trace + [e])
  {
    assert Front(trace + [e]) == trace && Last(trace + [e]) == e;
  }

  lemma {:induction false} LawfulAt(c: Config, input: seq<Message>, trace: seq<Event>, k: nat)
    requires Lawful(c, input, trace) && k < |trace|
    ensures Lawful(c, input, trace[..k]) && Allowed(c, input, trace[..k], trace[k])
    decreases |trace|
  {
    if k < |trace| - 1 {
      LawfulAt(c, input, Front(trace), k);
      assert Front(trace)[..k] == trace[..k];
    }
  }
}
