/**
 * The process that holds the objects of `LiveExecution`: what any sequence of calls and answers does to them is
 * a run of the step system, so every theorem about runs is one about the tables of the store object.
 */
module KernelProcess {
  import opened Options
  import opened Store
  import opened Gateway
  import opened GatewayInvariants
  import opened GatewayTheorems
  import opened LiveExecution

  /** The step taken for a step asked for: only the order in which the store lists sent rows is its own. */
  predicate TakenFor(taken: Step, asked: Step) {
    taken == asked || (taken.StartRecovery? && asked.StartRecovery?)
  }

  lemma Followed(before: Sys, after: Sys, id: TradeId, o: Outcome)
    requires after.db == o.db && after.next == before.next && after.log == before.log + o.events
    requires after.recovering == before.recovering && after.swept == before.swept
    requires forall j | j != id :: j in after.runs <==> j in before.runs
    requires forall j | j != id && j in after.runs :: after.runs[j] == before.runs[j]
    requires o.run == if id in after.runs then Some(after.runs[id]) else None
    ensures after == Follow(before, id, o)
  {
    assert after.runs == Follow(before, id, o).runs;
  }

  class Kernel {
    const store: KernelStore
    const reconciler: Reconciler
    var runs: map<TradeId, LiveRun>
    var next: TradeId
    var pending: seq<JobEntry>
    ghost var log: seq<Event>
    ghost var swept: bool
    ghost var history: seq<Step>

    /** The locals of the suspended executions. */
    ghost function Locals(): map<TradeId, Run>
      reads `runs, runs.Values
    {
      map id | id in runs :: runs[id].Self()
    }

    ghost function State(): Sys
      reads `runs, `next, `pending, `log, `swept, store, runs.Values
    {
      Sys(store.Tables(), Locals(), next, log, pending, swept)
    }

    ghost predicate Linked()
      reads `runs, `next, `pending, `log, `swept, store, runs.Values
    {
      && reconciler.store == store
      && (forall id | id in runs :: runs[id].store == store && runs[id].id == id < next && !runs[id].returned)
    }

    /** The objects are where the steps taken so far lead from an empty store. */
    ghost predicate Valid()
      reads this, store, runs.Values
    {
      Linked() && State() == Exec(INIT, history)
    }

    constructor ()
      ensures Valid() && history == [] && fresh(store) && runs == map[]
    {
      var tables := new KernelStore();
      var recovery := new Reconciler(tables);
      store, reconciler := tables, recovery;
      runs, next, pending := map[], 0, [];
      log, swept, history := [], true, [];
      new;
      assert State() == INIT;
    }

    /** An execution goes on waiting, or is over and forgotten. */
    method Keep(run: LiveRun, calls: seq<Event>)
      requires reconciler.store == store == run.store && run.id < next
      requires forall id | id in runs && id != run.id :: runs[id].store == store && runs[id].id == id < next && !runs[id].returned
      modifies `runs, `log
      ensures Linked() && runs.Values <= old(runs.Values) + {run} && log == old(log) + calls
      ensures run.id in runs <==> !run.returned
      ensures run.id in runs ==> runs[run.id] == run
      ensures forall id | id != run.id :: id in runs <==> id in old(runs)
      ensures forall id | id in runs && id != run.id :: runs[id] == old(runs[id])
    {
      runs := if run.returned then runs - {run.id} else runs[run.id := run];
      log := log + calls;
    }

    /** One `execute` call up to its first await. */
    method Execute(request: Request, now: int)
      requires Linked()
      modifies this, store, runs.Values
      ensures Linked() && fresh(runs.Values - old(runs.Values)) && history == old(history)
      ensures State() == Apply(old(State()), Gateway.Execute(request, now))
    {
      ghost var before := State();
      var run := new LiveRun(store, next, request, now);
      ghost var o := Outcome(store.Tables(), run.Locals(), []);
      next := next + 1;
      Keep(run, []);
      Followed(before, State().(next := before.next), before.next, o);
    }

    /** An await of one execution is answered. */
    method Resume(id: TradeId, answer: Answer)
      requires Linked()
      modifies this, store, runs.Values
      ensures Linked() && fresh(runs.Values - old(runs.Values)) && history == old(history)
      ensures State() == Apply(old(State()), Answered(id, answer))
    {
      if id !in runs {
        return;
      }
      ghost var before := State();
      var run := runs[id];
      var calls := run.Resumed(answer);
      ghost var o := Outcome(store.Tables(), run.Locals(), calls);
      Keep(run, calls);
      Followed(before, State(), id, o);
    }

    /** `recover` reads its work list; its loop is under way until the list is used up. */
    method StartRecovery() returns (ghost order: seq<TradeId>)
      requires Linked()
      modifies this
      ensures Linked() && runs == old(runs) && history == old(history)
      ensures State() == Apply(old(State()), Gateway.StartRecovery(order))
    {
      if pending != [] {
        order := [];
        return;
      }
      var listed := store.PendingSent();
      order := listed;
      pending, swept := Snapshot(store.Tables(), listed), true;
    }

    /** One row of the work list is settled, or the confirmer's rejection ends the pass. */
    method RecoverNext(reply: RecoveryAnswer)
      requires Linked()
      modifies this, store
      ensures Linked() && runs == old(runs) && history == old(history)
      ensures State() == Apply(old(State()), RecoveryAnswered(reply))
    {
      if pending == [] {
        return;
      }
      if Throws(pending[0], reply) {
        pending, swept := [], false;
        return;
      }
      var landed := reconciler.SettleOne(pending[0], if reply.Says? then reply.status else IsFailed);
      pending := pending[1..];
    }

    method Crash()
      requires Linked()
      modifies this
      ensures Linked() && runs == map[] && history == old(history)
      ensures State() == Apply(old(State()), Gateway.Crash)
    {
      runs, pending, swept := map[], [], false;
    }

    method Do(step: Step) returns (ghost taken: Step)
      requires Linked()
      modifies this, store, runs.Values
      ensures Linked() && fresh(runs.Values - old(runs.Values)) && history == old(history)
      ensures TakenFor(taken, step) && State() == Apply(old(State()), taken)
    {
      taken := step;
      match step
      case Execute(request, now) => Execute(request, now);
      case Answered(id, answer) => Resume(id, answer);
      case Crash => Crash();
      case StartRecovery(_) =>
        ghost var order := StartRecovery();
        taken := Gateway.StartRecovery(order);
      case RecoveryAnswered(reply) => RecoverNext(reply);
    }

    method Take(step: Step) returns (ghost taken: Step)
      requires Valid()
      modifies this, store, runs.Values
      ensures Valid() && fresh(runs.Values - old(runs.Values))
      ensures TakenFor(taken, step) && history == old(history) + [taken]
    {
      taken := Do(step);
      ExecAppend(INIT, history, [taken]);
      ExecTwo(Exec(INIT, history), taken, taken);
      history := history + [taken];
    }

    /** Any sequence of calls, answers, recoveries and crashes is a run of the step system. */
    method Drive(steps: seq<Step>) returns (ghost taken: seq<Step>)
      requires Valid()
      modifies this, store, runs.Values
      ensures Valid() && history == old(history) + taken
      ensures |taken| == |steps| && forall i | 0 <= i < |steps| :: TakenFor(taken[i], steps[i])
    {
      taken := [];
      for i := 0 to |steps|
        invariant Valid() && fresh(runs.Values - old(runs.Values)) && history == old(history) + taken
        invariant |taken| == i && forall j | 0 <= j < i :: TakenFor(taken[j], steps[j])
      {
        ghost var step := Take(steps[i]);
        taken := taken + [step];
      }
    }

    /**
     * The promises of the money path, about the objects: as long as `recover` is started at boot only, the
     * store's tables agree with each other and with the suspended executions after any sequence of calls.
     */
    lemma Keeps()
      requires Valid() && BootRecovery(INIT, history)
      ensures Inv(State())
    {
      InitInv();
      RunKeeps(INIT, history);
    }
  }
}
