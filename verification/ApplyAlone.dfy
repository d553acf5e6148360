/** A process that applies an operation while no other process moves, step by step in the machine.
 *
 * Against the cooperating Host it goes from wherever an interrupted application left the files to a finalized
 * execution, a released claim and a completed operation: the runs of ApplyMachine can do what `Apply` of ConnectorApply
 * does.
 */
module ApplyAlone {
  import opened Domain
  import opened Records
  import opened StateActions
  import opened Calls
  import opened Execution
  import opened ApplyMachine
  import opened ApplyProofs
  import opened HostModel
  import opened Recovery
  import opened ConnectorApply

  function Last(run: seq<ApplyWorld>): ApplyWorld
    requires run != []
  {
    run[|run| - 1]
  }

  // ----- building runs -----

  lemma Extends(run: seq<ApplyWorld>, w: ApplyWorld)
    requires ApplyRun(run) && ApplyNext(Last(run), w)
    ensures ApplyRun(run + [w]) && Last(run + [w]) == w
  {
    hide ApplyNext, ApplyInit;
    var run' := run + [w];
    forall a, b | 0 <= a && b == a + 1 < |run'| ensures ApplyNext(run'[a], run'[b]) {
      if b < |run| {
        assert ApplyNext(run[a], run[b]);
      }
    }
  }

  /** Process `p` makes its next step. */
  lemma Takes(run: seq<ApplyWorld>, p: nat, choice: Choice, pc: ApplyPc, act: Act) returns (run': seq<ApplyWorld>)
    requires ApplyRun(run) && run != [] && p in Last(run).apps
    requires Last(run).apps[p].Creating? ==> FreshIds(choice.ids, Last(run).files.execs)
    requires (pc, act) == ApplyStep(Last(run).apps[p], Last(run).files,
                                    Last(run).apps[p].Leasing? && LeaseFree(Last(run), Last(run).apps[p].ctx.inputs.op), choice)
    requires act.Do? ==> Enabled(Last(run).files.store, act.write)
    ensures ApplyRun(run') && run <= run' && run' != []
    ensures Last(run').files == Perform(Last(run).files, act) && Last(run').apps == Last(run).apps[p := pc]
  {
    hide ApplyRun, ApplyStep, Perform, Enabled, FreshIds;
    var w := ApplyWorld(Perform(Last(run).files, act), Last(run).apps[p := pc]);
    assert Acts(Last(run), w, p, choice);
    Extends(run, w);
    run' := run + [w];
  }

  /** A process that is not applying makes a write. */
  lemma Writes(run: seq<ApplyWorld>, write: Write) returns (run': seq<ApplyWorld>)
    requires ApplyRun(run) && run != [] && Enabled(Last(run).files.store, write) && Foreign(Last(run).files.store, write)
    ensures ApplyRun(run') && run <= run' && run' != []
    ensures Last(run').files.store == After(Last(run).files.store, write)
    ensures Last(run').files.execs == Last(run).files.execs && Last(run').apps == Last(run).apps
  {
    hide ApplyRun, Enabled, Foreign, After, HistoryAfter;
    var w := Last(run).(files := Perform(Last(run).files, Do(write)));
    assert Meddles(Last(run), w, write);
    Extends(run, w);
    run' := run + [w];
  }

  lemma Enters(run: seq<ApplyWorld>, p: nat, inputs: Inputs) returns (run': seq<ApplyWorld>)
    requires ApplyRun(run) && run != [] && (p !in Last(run).apps || Last(run).apps[p].Returned?)
    ensures ApplyRun(run') && run <= run' && run' != []
    ensures Last(run').files == Last(run).files && Last(run').apps == Last(run).apps[p := Entering(inputs, false)]
  {
    hide ApplyRun;
    var w := Last(run).(apps := Last(run).apps[p := Entering(inputs, false)]);
    assert Begins(Last(run), w, p, inputs, false);
    Extends(run, w);
    run' := run + [w];
  }

  // ----- the Host -----

  /** The replies in the log are the Host's, which it leaves as `host'`. */
  ghost predicate Heard(host: HostState, log: seq<Sent>, host': HostState)
    decreases |log|
  {
    if log == [] then host' == host
    else log[0].reply == Some(Handles(host, log[0].frame).1) && Heard(Handles(host, log[0].frame).0, log[1..], host')
  }

  lemma HeardJoin(host: HostState, a: seq<Sent>, between: HostState, b: seq<Sent>, host': HostState)
    requires Heard(host, a, between) && Heard(between, b, host')
    ensures Heard(host, a + b, host')
    decreases |a|
  {
    if a == [] {
      assert a + b == b;
    } else {
      HeardJoin(Handles(host, a[0].frame).0, a[1..], between, b, host');
      assert (a + b)[1..] == a[1..] + b;
    }
  }

  /** The run goes on with steps of process `p` only, and the Host answers it. */
  ghost predicate Onwards(run: seq<ApplyWorld>, run': seq<ApplyWorld>, p: nat, host: HostState, host': HostState) {
    && ApplyRun(run') && run != [] && run <= run'
    && p in Last(run).apps && p in Last(run').apps
    && Last(run').apps == Last(run).apps[p := Last(run').apps[p]]
    && Last(run).files.sent <= Last(run').files.sent
    && Heard(host, Last(run').files.sent[|Last(run).files.sent|..], host')
  }

  lemma OnwardsSame(run: seq<ApplyWorld>, p: nat, host: HostState)
    requires ApplyRun(run) && run != [] && p in Last(run).apps
    ensures Onwards(run, run, p, host, host)
  {
    hide ApplyRun;
    assert Last(run).apps[p := Last(run).apps[p]] == Last(run).apps;
  }

  lemma OnwardsJoin(a: seq<ApplyWorld>, b: seq<ApplyWorld>, c: seq<ApplyWorld>, p: nat, host: HostState,
                    between: HostState, host': HostState)
    requires Onwards(a, b, p, host, between) && Onwards(b, c, p, between, host')
    ensures Onwards(a, c, p, host, host')
  {
    hide ApplyRun, Heard, Handles;
    var x, y, z := Last(a).files.sent, Last(b).files.sent, Last(c).files.sent;
    HeardJoin(host, y[|x|..], between, z[|y|..], host');
    assert z[|x|..] == y[|x|..] + z[|y|..];
    assert Last(c).apps == Last(a).apps[p := Last(c).apps[p]];
  }

  /** Process `p` makes its next step, and the Host answers the frame it sends, if any. */
  lemma Moves(run: seq<ApplyWorld>, p: nat, choice: Choice, pc: ApplyPc, act: Act, host: HostState)
    returns (run': seq<ApplyWorld>, host': HostState)
    requires ApplyRun(run) && run != [] && p in Last(run).apps
    requires Last(run).apps[p].Creating? ==> FreshIds(choice.ids, Last(run).files.execs)
    requires (pc, act) == ApplyStep(Last(run).apps[p], Last(run).files,
                                    Last(run).apps[p].Leasing? && LeaseFree(Last(run), Last(run).apps[p].ctx.inputs.op), choice)
    requires act.Do? ==> Enabled(Last(run).files.store, act.write)
    requires act.Send? ==> act.message.reply == Some(Handles(host, act.message.frame).1)
    ensures Onwards(run, run', p, host, host')
    ensures host' == if act.Send? then Handles(host, act.message.frame).0 else host
    ensures Last(run').files == Perform(Last(run).files, act) && Last(run').apps[p] == pc
  {
    hide ApplyRun, ApplyStep, Enabled, FreshIds, Handles, After, HistoryAfter;
    run' := Takes(run, p, choice, pc, act);
    host' := if act.Send? then Handles(host, act.message.frame).0 else host;
    var log := Last(run').files.sent[|Last(run).files.sent|..];
    assert log == if act.Send? then [act.message] else [];
    if act.Send? {
      HeardOne(host, act.message);
    }
    assert Last(run').apps == Last(run).apps[p := Last(run').apps[p]];
  }

  lemma HeardOne(host: HostState, m: Sent)
    requires m.reply == Some(Handles(host, m.frame).1)
    ensures Heard(host, [m], Handles(host, m.frame).0)
  {
    hide Handles;
    assert [m][1..] == [];
  }

  // ----- at work -----

  /** Process `p` has these tasks before it and the durable execution record in its hands. */
  ghost predicate Works(run: seq<ApplyWorld>, p: nat, ctx: Context, r: ExecutionRecord, tasks: seq<Task>) {
    && ApplyRun(run) && run != [] && p in Last(run).apps
    && Last(run).apps[p] == Working(ctx, r, tasks)
    && r.core.op == ctx.inputs.op && ctx.operation.core.op == ctx.inputs.op
    && r.core.op in Last(run).files.execs && Last(run).files.execs[r.core.op] == r
  }

  lemma WorkMoves(run: seq<ApplyWorld>, p: nat, ctx: Context, r: ExecutionRecord, tasks: seq<Task>, choice: Choice,
                  pc: ApplyPc, act: Act,
                  host: HostState)
    returns (run': seq<ApplyWorld>, host': HostState)
    requires Works(run, p, ctx, r, tasks) && tasks != []
    requires WorkStep(ctx, r, tasks, Last(run).files, choice) == (pc, act)
    requires act.Do? ==> Enabled(Last(run).files.store, act.write)
    requires act.Send? ==> act.message.reply == Some(Handles(host, act.message.frame).1)
    ensures Onwards(run, run', p, host, host')
    ensures host' == if act.Send? then Handles(host, act.message.frame).0 else host
    ensures Last(run').files == Perform(Last(run).files, act) && Last(run').apps[p] == pc
  {
    hide ApplyRun, WorkStep, Enabled, FreshIds, Handles, Perform, Onwards;
    run', host' := Moves(run, p, choice, pc, act, host);
  }

  const ANY := Choice(Rejected, HostIds(0, 1, 2), Files(0, 0, 0, 0, 0), false)

  /** The other connectors of the operation are done with. */
  ghost predicate OthersDone(s: Store, core: OperationIdentity, i: Token) {
    forall k :: 0 <= k < |Connectors(core.binding.workload)| && Connectors(core.binding.workload)[k].instance != i ==>
      ConnectorDone(s, core.op, Connectors(core.binding.workload)[k].instance)
  }

  /** The operation is moving forward and holds the connector, which is the last one it has to release. */
  ghost predicate Steady(s: Store, operation: OperationRecord, i: Token, claim: ClaimPhase) {
    Forward(s, operation) && Holds(s, operation.core, i, claim) && OthersDone(s, operation.core, i)
  }

  lemma SteadyCompletes(s: Store, core: OperationIdentity, i: Token)
    requires Holds(s, core, i, Released) && OthersDone(s, core, i)
    ensures CompletionVerified(s, core)
  {
  }

  lemma SteadyAdvances(s: Store, operation: OperationRecord, i: Token, claim: ClaimPhase, target: OperationPhase)
    requires Steady(s, operation, i, claim) && PhaseRank(target).Some? && !Reached(operation.phase, target)
    requires target == Completed ==> claim == Released
    ensures CanAdvance(s, operation, target)
    ensures Steady(AdvancedTo(s, operation.core.op, target), operation.(phase := target, lastProven := target), i, claim)
  {
    hide ValidIdentity;
    if target == Completed {
      SteadyCompletes(s, operation.core, i);
    }
    assert ValidRecord(operation.(phase := target, lastProven := target));
  }

  lemma SteadyClaimed(s: Store, operation: OperationRecord, i: Token, claim: ClaimPhase, phase: ClaimPhase)
    requires Steady(s, operation, i, claim)
    ensures Steady(ClaimSet(s, operation.core.op, i, phase), operation, i, phase)
  {
    hide ValidRecord;
  }

  // ----- one task -----

  function ClaimTaskOf(change: ClaimChange): Task {
    match change
    case Observe => ObserveHandoff
    case Release => ReleaseClaim
    case ExpireClaim => GiveUpClaim
  }

  lemma ClaimsOn(run: seq<ApplyWorld>, p: nat, ctx: Context, r: ExecutionRecord, tasks: seq<Task>, change: ClaimChange,
                 claim: ClaimPhase,
                 host: HostState)
    returns (run': seq<ApplyWorld>)
    requires Works(run, p, ctx, r, tasks) && tasks != [] && tasks[0] == ClaimTaskOf(change)
    requires Holds(Last(run).files.store, ctx.operation.core, r.core.connector, claim) && ClaimChanged(claim, change).Ok?
    ensures Onwards(run, run', p, host, host) && Works(run', p, ctx, r, tasks[1..])
    ensures Last(run').files.store == ClaimSet(Last(run).files.store, r.core.op, r.core.connector, ClaimTarget(change))
    ensures Last(run').files.execs == Last(run).files.execs
  {
    var s := Last(run).files.store;
    ClaimMoves(s, ctx.operation.core, r.core.connector, claim, change);
    hide ApplyRun, Enabled, After, ChangeRecorded, HistoryAfter, Holds, ClaimSet, Onwards;
    var w := UpdateClaim(r.core.connector, change);
    var act := if ChangeRecorded(s, r.core.connector, change) then Skip else Do(w);
    var host';
    run', host' := WorkMoves(run, p, ctx, r, tasks, ANY, Working(ctx, r, tasks[1..]), act, host);
    OnwardsKeepsRun(run, run', p, host, host');
  }

  lemma OnwardsKeepsRun(run: seq<ApplyWorld>, run': seq<ApplyWorld>, p: nat, host: HostState, host': HostState)
    requires Onwards(run, run', p, host, host')
    ensures ApplyRun(run') && run' != [] && run <= run' && p in Last(run').apps
  {
  }

  lemma PersistsOn(run: seq<ApplyWorld>, p: nat, ctx: Context, r: ExecutionRecord, tasks: seq<Task>,
                   next: ExecutionRecord, host: HostState)
    returns (run': seq<ApplyWorld>)
    requires Works(run, p, ctx, r, tasks) && tasks != [] && tasks[0] == Persist(next) && next.core == r.core
    ensures Onwards(run, run', p, host, host) && Works(run', p, ctx, next, tasks[1..])
    ensures Last(run').files.store == Last(run).files.store
    ensures Last(run').files.execs == Last(run).files.execs[r.core.op := next]
  {
    hide ApplyRun, Onwards;
    var host';
    run', host' := WorkMoves(run, p, ctx, r, tasks, ANY, Working(ctx, next, tasks[1..]), PutExecution(next), host);
    OnwardsKeepsRun(run, run', p, host, host');
  }

  lemma ContinuesOn(run: seq<ApplyWorld>, p: nat, ctx: Context, r: ExecutionRecord, tasks: seq<Task>, host: HostState)
    returns (run': seq<ApplyWorld>)
    requires Works(run, p, ctx, r, tasks) && tasks != [] && tasks[0] == Continue
    ensures Onwards(run, run', p, host, host) && Last(run').files == Last(run).files
    ensures Last(run').apps[p] == Continued(ctx, r)
  {
    hide ApplyRun, Onwards, Continued;
    var host';
    run', host' := WorkMoves(run, p, ctx, r, tasks, ANY, Continued(ctx, r), Skip, host);
    OnwardsKeepsRun(run, run', p, host, host');
  }

  /** The process asks the Host, and goes on with the reply. */
  lemma AsksOn(run: seq<ApplyWorld>, p: nat, ctx: Context, r: ExecutionRecord, tasks: seq<Task>, host: HostState)
    returns (run': seq<ApplyWorld>, host': HostState, choice: Choice)
    requires Works(run, p, ctx, r, tasks) && tasks != [] && Asks(tasks[0]) && TaskFrame(r, tasks[0]).Ok?
    ensures Onwards(run, run', p, host, host')
    ensures (host', choice.reply) == Handles(host, TaskFrame(r, tasks[0]).value)
    ensures choice.files == ctx.inputs.files && !choice.deadline
    ensures Last(run').files.store == Last(run).files.store && Last(run').files.execs == Last(run).files.execs
    ensures Last(run').apps[p] == Answered(ctx, r, tasks[0], choice)
  {
    hide ApplyRun, Onwards, Answered, TaskFrame, Handles;
    var frame := TaskFrame(r, tasks[0]).value;
    choice := Choice(Handles(host, frame).1, HostIds(0, 1, 2), ctx.inputs.files, false);
    var act := Send(Sent(r.core.op, frame, Some(choice.reply)));
    AskIsSent(ctx, r, tasks, Last(run).files, choice);
    run', host' := WorkMoves(run, p, ctx, r, tasks, choice, Answered(ctx, r, tasks[0], choice), act, host);
    OnwardsKeepsRun(run, run', p, host, host');
  }

  lemma AskIsSent(ctx: Context, r: ExecutionRecord, tasks: seq<Task>, d: Durable, choice: Choice)
    requires tasks != [] && Asks(tasks[0]) && TaskFrame(r, tasks[0]).Ok?
    ensures WorkStep(ctx, r, tasks, d, choice)
         == (Answered(ctx, r, tasks[0], choice), Send(Sent(r.core.op, TaskFrame(r, tasks[0]).value, Some(choice.reply))))
  {
    hide Answered, TaskFrame;
  }

  /** The operation advances one phase at a time until it is there. */
  lemma {:induction false} AdvancesOn(run: seq<ApplyWorld>, p: nat, ctx: Context, r: ExecutionRecord, tasks: seq<Task>,
                                      target: OperationPhase, host: HostState)
    returns (run': seq<ApplyWorld>, ctx': Context)
    requires Works(run, p, ctx, r, tasks) && tasks != [] && tasks[0] == AdvanceTo(target) && PhaseRank(target).Some?
    requires Reached(ctx.operation.phase, target) || CanAdvance(Last(run).files.store, ctx.operation, target)
    ensures Onwards(run, run', p, host, host) && Works(run', p, ctx', r, tasks[1..])
    ensures Last(run').files.execs == Last(run).files.execs
    ensures if Reached(ctx.operation.phase, target) then ctx' == ctx && Last(run').files.store == Last(run).files.store
            else ctx' == ctx.(operation := ctx.operation.(phase := target, lastProven := target))
                 && ctx.operation.core.op in Last(run).files.store.records
                 && Last(run').files.store == AdvancedTo(Last(run).files.store, ctx.operation.core.op, target)
    decreases Remaining(ctx.operation.phase)
  {
    var s := Last(run).files.store;
    if Reached(ctx.operation.phase, target) {
      ArrivesOn(run, p, ctx, r, tasks, target);
      hide ApplyRun, Onwards, WorkStep;
      var host';
      run', host' := WorkMoves(run, p, ctx, r, tasks, ANY, Working(ctx, r, tasks[1..]), Skip, host);
      OnwardsKeepsRun(run, run', p, host, host');
      ctx' := ctx;
    } else {
      AdvanceStep(s, ctx.operation, target);
      Nearer(ctx.operation.phase);
      var next := PhaseAfter(ctx.operation.phase).value;
      var moved := ctx.(operation := ctx.operation.(phase := next, lastProven := next));
      AdvanceMoves(ctx, r, tasks, Last(run).files, target);
      assert next == target ==> Reached(next, target);
      AdvancedTwice(s, ctx.operation, next, target);
      hide ApplyRun, Onwards, WorkStep, Enabled, After, CanAdvance, AdvancedTo, Reached, Remaining, HistoryAfter;
      var run1, host1 := WorkMoves(run, p, ctx, r, tasks, ANY, Working(moved, r, tasks),
                                   Do(UpdateRecord(ctx.operation.core.op, Change.Advance(next))), host);
      OnwardsKeepsRun(run, run1, p, host, host1);
      run', ctx' := AdvancesOn(run1, p, moved, r, tasks, target, host);
      OnwardsJoin(run, run1, run', p, host, host, host);
    }
  }

  lemma AdvancedTwice(s: Store, operation: OperationRecord, next: OperationPhase, target: OperationPhase)
    requires operation.core.op in s.records
    ensures AdvancedTo(AdvancedTo(s, operation.core.op, next), operation.core.op, target) == AdvancedTo(s, operation.core.op, target)
  {
  }

  lemma ArrivesOn(run: seq<ApplyWorld>, p: nat, ctx: Context, r: ExecutionRecord, tasks: seq<Task>,
                  target: OperationPhase)
    requires run != [] && tasks != [] && tasks[0] == AdvanceTo(target) && Reached(ctx.operation.phase, target)
    ensures WorkStep(ctx, r, tasks, Last(run).files, ANY) == (Working(ctx, r, tasks[1..]), Skip)
  {
  }

  lemma AdvanceMoves(ctx: Context, r: ExecutionRecord, tasks: seq<Task>, d: Durable, target: OperationPhase)
    requires tasks != [] && tasks[0] == AdvanceTo(target) && CanAdvance(d.store, ctx.operation, target)
    requires PhaseAfter(ctx.operation.phase).Some?
    requires var next := PhaseAfter(ctx.operation.phase).value; var w := UpdateRecord(ctx.operation.core.op, Change.Advance(next));
      Enabled(d.store, w) && After(d.store, w) == AdvancedTo(d.store, ctx.operation.core.op, next)
    ensures var next := PhaseAfter(ctx.operation.phase).value;
      WorkStep(ctx, r, tasks, d, ANY)
        == (Working(ctx.(operation := ctx.operation.(phase := next, lastProven := next)), r, tasks),
            Do(UpdateRecord(ctx.operation.core.op, Change.Advance(next))))
  {
    hide Enabled, After, IsCurrent, ValidRecord, CompletionVerified;
  }

  // ----- claim and operation follow -----

  lemma SteadyParts(s: Store, operation: OperationRecord, i: Token, claim: ClaimPhase)
    requires Steady(s, operation, i, claim)
    ensures Forward(s, operation) && Holds(s, operation.core, i, claim)
    ensures operation.core.op in s.records && ClaimKey(i, operation.core.op) in s.claims
    ensures s.claims[ClaimKey(i, operation.core.op)].phase == claim
    ensures PhaseRank(operation.phase).Some?
  {
  }

  /** The store is as it was but for the record of the operation and its claim of the connector. */
  ghost predicate Shifted(s: Store, s': Store, op: Token, i: Token) {
    var key := ClaimKey(i, op);
    && op in s.records && op in s'.records && key in s.claims && key in s'.claims
    && s' == s.(records := s.records[op := s'.records[op]], claims := s.claims[key := s'.claims[key]])
  }

  lemma ShiftedSame(s: Store, op: Token, i: Token)
    requires op in s.records && ClaimKey(i, op) in s.claims
    ensures Shifted(s, s, op, i)
  {
    assert s.records[op := s.records[op]] == s.records;
    assert s.claims[ClaimKey(i, op) := s.claims[ClaimKey(i, op)]] == s.claims;
  }

  lemma ShiftedJoin(a: Store, b: Store, c: Store, op: Token, i: Token)
    requires Shifted(a, b, op, i) && Shifted(b, c, op, i)
    ensures Shifted(a, c, op, i)
  {
  }

  lemma ClaimShifts(s: Store, op: Token, i: Token, phase: ClaimPhase)
    requires op in s.records && ClaimKey(i, op) in s.claims
    ensures Shifted(s, ClaimSet(s, op, i, phase), op, i)
  {
    assert s.records[op := s.records[op]] == s.records;
  }

  lemma AdvanceShifts(s: Store, op: Token, i: Token, phase: OperationPhase)
    requires op in s.records && ClaimKey(i, op) in s.claims
    ensures Shifted(s, AdvancedTo(s, op, phase), op, i)
  {
    assert s.claims[ClaimKey(i, op) := s.claims[ClaimKey(i, op)]] == s.claims;
  }

  /** The process goes on to its remaining tasks, steady as before; nothing but its operation's record and claim moved. */
  ghost predicate TaskDone(run: seq<ApplyWorld>, run': seq<ApplyWorld>, p: nat, ctx: Context, ctx': Context,
                           r: ExecutionRecord,
                           rest: seq<Task>, claim: ClaimPhase, host: HostState) {
    && Onwards(run, run', p, host, host)
    && Works(run', p, ctx', r, rest)
    && ctx' == ctx.(operation := ctx'.operation) && ctx'.operation.core == ctx.operation.core
    && Last(run').files.execs == Last(run).files.execs
    && Steady(Last(run').files.store, ctx'.operation, r.core.connector, claim)
    && Shifted(Last(run).files.store, Last(run').files.store, r.core.op, r.core.connector)
  }

  lemma TasksDone(a: seq<ApplyWorld>, b: seq<ApplyWorld>, c: seq<ApplyWorld>, p: nat, ctx: Context, ctx1: Context,
                  ctx2: Context,
                  r: ExecutionRecord, rest1: seq<Task>, rest2: seq<Task>, claim1: ClaimPhase, claim2: ClaimPhase, host: HostState)
    requires TaskDone(a, b, p, ctx, ctx1, r, rest1, claim1, host) && TaskDone(b, c, p, ctx1, ctx2, r, rest2, claim2, host)
    ensures TaskDone(a, c, p, ctx, ctx2, r, rest2, claim2, host)
  {
    OnwardsJoin(a, b, c, p, host, host, host);
    hide Onwards, Works, Steady, Shifted;
    ShiftedJoin(Last(a).files.store, Last(b).files.store, Last(c).files.store, r.core.op, r.core.connector);
  }

  lemma RaisesOn(run: seq<ApplyWorld>, p: nat, ctx: Context, r: ExecutionRecord, tasks: seq<Task>,
                 target: OperationPhase, claim: ClaimPhase,
                 host: HostState)
    returns (run': seq<ApplyWorld>, ctx': Context)
    requires Works(run, p, ctx, r, tasks) && tasks != [] && tasks[0] == AdvanceTo(target) && PhaseRank(target).Some?
    requires Steady(Last(run).files.store, ctx.operation, r.core.connector, claim)
    requires (target == Completed ==> claim == Released)
    ensures TaskDone(run, run', p, ctx, ctx', r, tasks[1..], claim, host)
    ensures ctx'.operation.phase == if Reached(ctx.operation.phase, target) then ctx.operation.phase else target
  {
    var s, i := Last(run).files.store, r.core.connector;
    SteadyParts(s, ctx.operation, i, claim);
    if !Reached(ctx.operation.phase, target) {
      SteadyAdvances(s, ctx.operation, i, claim, target);
    }
    ShiftedSame(s, r.core.op, i);
    AdvanceShifts(s, r.core.op, i, target);
    hide ApplyRun, Onwards, Steady, Reached, AdvancedTo, CanAdvance, Shifted, Forward, Holds;
    run', ctx' := AdvancesOn(run, p, ctx, r, tasks, target, host);
  }

  lemma SettlesOn(run: seq<ApplyWorld>, p: nat, ctx: Context, r: ExecutionRecord, tasks: seq<Task>,
                  change: ClaimChange, claim: ClaimPhase,
                  host: HostState)
    returns (run': seq<ApplyWorld>)
    requires Works(run, p, ctx, r, tasks) && tasks != [] && tasks[0] == ClaimTaskOf(change)
    requires ClaimChanged(claim, change).Ok?
    requires Steady(Last(run).files.store, ctx.operation, r.core.connector, claim)
    ensures TaskDone(run, run', p, ctx, ctx, r, tasks[1..], ClaimTarget(change), host)
  {
    var s, i := Last(run).files.store, r.core.connector;
    SteadyParts(s, ctx.operation, i, claim);
    SteadyClaimed(s, ctx.operation, i, claim, ClaimTarget(change));
    ClaimShifts(s, r.core.op, i, ClaimTarget(change));
    hide ApplyRun, Onwards, Steady, ClaimSet, Shifted, Forward, Holds;
    run' := ClaimsOn(run, p, ctx, r, tasks, change, claim, host);
  }

  /** The claim is observed and the configurations are written. */
  lemma ObservesOn(run: seq<ApplyWorld>, p: nat, ctx: Context, r: ExecutionRecord, rest: seq<Task>, claim: ClaimPhase,
                   host: HostState)
    returns (run': seq<ApplyWorld>, ctx': Context)
    requires Works(run, p, ctx, r, [ObserveHandoff, AdvanceTo(ConfigsWritten)] + rest)
    requires Steady(Last(run).files.store, ctx.operation, r.core.connector, claim)
    requires (claim == Prepared || claim == HandoffObserved)
    ensures TaskDone(run, run', p, ctx, ctx', r, rest, HandoffObserved, host)
    ensures ctx'.operation.phase == if Reached(ctx.operation.phase, ConfigsWritten) then ctx.operation.phase else ConfigsWritten
  {
    var tasks := [ObserveHandoff, AdvanceTo(ConfigsWritten)] + rest;
    hide TaskDone, Steady, Reached, Works;
    var run1 := SettlesOn(run, p, ctx, r, tasks, Observe, claim, host);
    TaskDoneParts(run, run1, p, ctx, ctx, r, tasks[1..], HandoffObserved, host);
    run', ctx' := RaisesOn(run1, p, ctx, r, tasks[1..], ConfigsWritten, HandoffObserved, host);
    assert tasks[1..][1..] == rest;
    TasksDone(run, run1, run', p, ctx, ctx, ctx', r, tasks[1..], rest, HandoffObserved, HandoffObserved, host);
  }

  lemma TaskDoneParts(run: seq<ApplyWorld>, run': seq<ApplyWorld>, p: nat, ctx: Context, ctx': Context,
                      r: ExecutionRecord,
                      rest: seq<Task>, claim: ClaimPhase, host: HostState)
    requires TaskDone(run, run', p, ctx, ctx', r, rest, claim, host)
    ensures run' != [] && Works(run', p, ctx', r, rest)
    ensures Steady(Last(run').files.store, ctx'.operation, r.core.connector, claim)
  {
    hide Onwards, Steady, Shifted;
  }

  // ----- one block -----

  /** The process is at work in step with the Host, for a plan without agent bundle that has not expired. */
  ghost predicate Situated(run: seq<ApplyWorld>, p: nat, ctx: Context, r: ExecutionRecord, tasks: seq<Task>,
                           host: HostState) {
    Works(run, p, ctx, r, tasks) && Fitting(ctx, r, host)
  }

  ghost predicate Fitting(ctx: Context, r: ExecutionRecord, host: HostState) {
    && ExecutionOk(r) && Coherent(r, host) && r.core.bundle.None? && !ctx.expired
    && FilesMatchPlan(ctx.inputs.files, ctx.inputs.plan) && FilesMatchRecord(ctx.inputs.files, ctx.inputs.plan, r.core)
  }

  /** Claim and operation are where the execution is. */
  ghost predicate Even(s: Store, operation: OperationRecord, r: ExecutionRecord) {
    Steady(s, operation, r.core.connector, ClaimFor(r.phase)) && operation.phase == PhaseFor(r.phase)
  }

  /** What a block of the code leaves: the execution one phase on, the operation and its claim with it. */
  ghost predicate BlockDone(run: seq<ApplyWorld>, run': seq<ApplyWorld>, p: nat, ctx: Context, ctx': Context,
                            r: ExecutionRecord, next: ExecutionRecord, host: HostState, host': HostState) {
    && Onwards(run, run', p, host, host')
    && Situated(run', p, ctx', next, [Continue], host')
    && ctx' == ctx.(operation := ctx'.operation) && ctx'.operation.core == ctx.operation.core && next.core == r.core
    && Even(Last(run').files.store, ctx'.operation, next)
    && Shifted(Last(run).files.store, Last(run').files.store, r.core.op, r.core.connector)
    && Last(run').files.execs == Last(run).files.execs[r.core.op := next]
  }

  /** The Host's answer is persisted, and what is due follows. */
  lemma BlockFollows(run: seq<ApplyWorld>, persisted: seq<ApplyWorld>, run': seq<ApplyWorld>, p: nat, ctx: Context,
                     ctx': Context,
                    r: ExecutionRecord, next: ExecutionRecord, host: HostState, host': HostState)
    requires Onwards(run, persisted, p, host, host')
    requires Last(persisted).files.store == Last(run).files.store
    requires Last(persisted).files.execs == Last(run).files.execs[r.core.op := next]
    requires next.core == r.core && Fitting(ctx, r, host) && ExecutionOk(next) && Coherent(next, host')
    requires TaskDone(persisted, run', p, ctx, ctx', next, [Continue], ClaimFor(next.phase), host')
    requires ctx'.operation.phase == PhaseFor(next.phase)
    ensures BlockDone(run, run', p, ctx, ctx', r, next, host, host')
  {
    hide Works, Steady, Shifted, Coherent, ExecutionOk, FilesMatchPlan, FilesMatchRecord;
    OnwardsJoin(run, persisted, run', p, host, host', host');
    hide Onwards;
  }

  lemma HearsPrepared(run: seq<ApplyWorld>, p: nat, ctx: Context, r: ExecutionRecord, host: HostState)
    returns (run': seq<ApplyWorld>, host': HostState, next: ExecutionRecord)
    requires Situated(run, p, ctx, r, [AskPrepare(false)], host) && r.phase.ExecClaimed?
    ensures Onwards(run, run', p, host, host')
    ensures next.core == r.core && next.phase.ExecPrepared?
    ensures Situated(run', p, ctx, r, [Persist(next), ObserveHandoff, AdvanceTo(ConfigsWritten), Continue], host')
    ensures ExecutionOk(next) && Coherent(next, host')
    ensures Last(run').files.store == Last(run).files.store && Last(run').files.execs == Last(run).files.execs
  {
    hide ApplyRun, Onwards, ExecutionOk, Coherent, TaskFrame, Handles, ValidatedResult, FilesMatchPlan, FilesMatchRecord;
    PrepareExchange(r, host, false);
    var choice;
    run', host', choice := AsksOn(run, p, ctx, r, [AskPrepare(false)], host);
    OnwardsKeepsRun(run, run', p, host, host');
    if choice.reply.MaterialRequired? {
      var run1, host1 := run', host';
      assert Works(run1, p, ctx, r, [AskPrepare(true)]);
      PrepareExchange(r, host1, true);
      run', host', choice := AsksOn(run1, p, ctx, r, [AskPrepare(true)], host1);
      OnwardsKeepsRun(run1, run', p, host1, host');
      OnwardsJoin(run, run1, run', p, host, host1, host');
    }
    next := r.(prepareResult := Some(choice.reply.result), phase := ExecPrepared);
    PreparePersisted(r, choice.reply.result);
  }

  /** The Host prepares; the claim is observed and the configurations are written. */
  lemma PrepareBlock(run: seq<ApplyWorld>, p: nat, ctx: Context, r: ExecutionRecord, host: HostState)
    returns (run': seq<ApplyWorld>, ctx': Context, next: ExecutionRecord, host': HostState)
    requires Situated(run, p, ctx, r, [Continue], host) && r.phase.ExecClaimed?
    requires Even(Last(run).files.store, ctx.operation, r)
    ensures next.phase.ExecPrepared? && BlockDone(run, run', p, ctx, ctx', r, next, host, host')
  {
    hide ApplyRun, Onwards, Fitting, ExecutionOk, Coherent, Steady, TaskDone, BlockDone;
    var run1 := ContinuesOn(run, p, ctx, r, [Continue], host);
    OnwardsKeepsRun(run, run1, p, host, host);
    var run2;
    run2, host', next := HearsPrepared(run1, p, ctx, r, host);
    OnwardsJoin(run, run1, run2, p, host, host, host');
    var rest := [ObserveHandoff, AdvanceTo(ConfigsWritten), Continue];
    var run3 := PersistsOn(run2, p, ctx, r, [Persist(next)] + rest, next, host');
    OnwardsJoin(run, run2, run3, p, host, host', host');
    assert ([Persist(next)] + rest)[1..] == [ObserveHandoff, AdvanceTo(ConfigsWritten)] + [Continue];
    run', ctx' := ObservesOn(run3, p, ctx, next, [Continue], Prepared, host');
    BlockFollows(run, run3, run', p, ctx, ctx', r, next, host, host');
  }

  /** The Host starts the connector; the services have converged. */
  lemma StartBlock(run: seq<ApplyWorld>, p: nat, ctx: Context, r: ExecutionRecord, host: HostState)
    returns (run': seq<ApplyWorld>, ctx': Context, next: ExecutionRecord, host': HostState)
    requires Situated(run, p, ctx, r, [Continue], host) && r.phase.ExecPrepared?
    requires Even(Last(run).files.store, ctx.operation, r)
    ensures next.phase.ExecStarted? && BlockDone(run, run', p, ctx, ctx', r, next, host, host')
  {
    hide ApplyRun, Onwards, Fitting, ExecutionOk, Coherent, Steady, TaskDone, BlockDone;
    var run1 := ContinuesOn(run, p, ctx, r, [Continue], host);
    OnwardsKeepsRun(run, run1, p, host, host);
    var run2;
    run2, host', next := HearsStarted(run1, p, ctx, r, host);
    OnwardsJoin(run, run1, run2, p, host, host, host');
    var rest := [AdvanceTo(ServicesConverged), Continue];
    var run3 := PersistsOn(run2, p, ctx, r, [Persist(next)] + rest, next, host');
    OnwardsJoin(run, run2, run3, p, host, host', host');
    assert ([Persist(next)] + rest)[1..] == rest && rest[1..] == [Continue];
    run', ctx' := RaisesOn(run3, p, ctx, next, rest, ServicesConverged, HandoffObserved, host');
    BlockFollows(run, run3, run', p, ctx, ctx', r, next, host, host');
  }

  lemma HearsStarted(run: seq<ApplyWorld>, p: nat, ctx: Context, r: ExecutionRecord, host: HostState)
    returns (run': seq<ApplyWorld>, host': HostState, next: ExecutionRecord)
    requires Situated(run, p, ctx, r, [AskStart], host) && r.phase.ExecPrepared?
    ensures Onwards(run, run', p, host, host') && next.core == r.core && next.phase.ExecStarted?
    ensures Works(run', p, ctx, r, [Persist(next), AdvanceTo(ServicesConverged), Continue])
    ensures ExecutionOk(next) && Coherent(next, host')
    ensures Last(run').files.store == Last(run).files.store && Last(run').files.execs == Last(run).files.execs
  {
    hide ApplyRun, Onwards, ExecutionOk, Coherent, TaskFrame, Handles, ValidatedStart, FilesMatchPlan, FilesMatchRecord;
    StartExchange(r, host);
    var choice;
    run', host', choice := AsksOn(run, p, ctx, r, [AskStart], host);
    OnwardsKeepsRun(run, run', p, host, host');
    next := r.(startRevision := Some(choice.reply.started.revision), phase := ExecStarted);
    StartedNext(r, choice.reply.started);
  }

  lemma StartedNext(r: ExecutionRecord, started: StartResult)
    requires ExecutionOk(r) && r.phase.ExecPrepared?
    requires ValidatedStart(started, r.core, r.prepareResult.value.revision).Ok?
    ensures r.prepareResult.Some?
    ensures ValidatedStart(started, r.core, r.prepareResult.value.revision) == Ok(started.revision)
    ensures ExecutionOk(r.(startRevision := Some(started.revision), phase := ExecStarted))
  {
    StartPersisted(r, started.revision);
  }

  /** The connector is polled until it runs; the operation is ready. */
  lemma RunBlock(run: seq<ApplyWorld>, p: nat, ctx: Context, r: ExecutionRecord, host: HostState)
    returns (run': seq<ApplyWorld>, ctx': Context, next: ExecutionRecord, host': HostState)
    requires Situated(run, p, ctx, r, [Continue], host) && r.phase.ExecStarted?
    requires Even(Last(run).files.store, ctx.operation, r)
    ensures next.phase.ExecRunning? && BlockDone(run, run', p, ctx, ctx', r, next, host, host')
  {
    hide ApplyRun, Onwards, Fitting, ExecutionOk, Coherent, Steady, TaskDone, BlockDone;
    var run1 := ContinuesOn(run, p, ctx, r, [Continue], host);
    OnwardsKeepsRun(run, run1, p, host, host);
    var run2;
    run2, host', next := HearsRunning(run1, p, ctx, r, host);
    OnwardsJoin(run, run1, run2, p, host, host, host');
    var rest := [AdvanceTo(ReadinessVerified), Continue];
    var run3 := PersistsOn(run2, p, ctx, r, [Persist(next)] + rest, next, host');
    OnwardsJoin(run, run2, run3, p, host, host', host');
    assert ([Persist(next)] + rest)[1..] == rest && rest[1..] == [Continue];
    run', ctx' := RaisesOn(run3, p, ctx, next, rest, ReadinessVerified, HandoffObserved, host');
    BlockFollows(run, run3, run', p, ctx, ctx', r, next, host, host');
  }

  lemma {:induction false} HearsRunning(run: seq<ApplyWorld>, p: nat, ctx: Context, r: ExecutionRecord, host: HostState)
    returns (run': seq<ApplyWorld>, host': HostState, next: ExecutionRecord)
    requires Situated(run, p, ctx, r, [AskObservation], host) && r.phase.ExecStarted?
    ensures Onwards(run, run', p, host, host') && next.core == r.core && next.phase.ExecRunning?
    ensures Works(run', p, ctx, r, [Persist(next)] + [AdvanceTo(ReadinessVerified), Continue])
    ensures ExecutionOk(next) && Coherent(next, host')
    ensures Last(run').files.store == Last(run).files.store && Last(run').files.execs == Last(run).files.execs
    decreases host.warmup
  {
    hide ApplyRun, Onwards, ExecutionOk, Coherent, TaskFrame, Handles, ProjectionMatches, FilesMatchPlan, FilesMatchRecord;
    ObserveExchange(r, host);
    var choice;
    run', host', choice := AsksOn(run, p, ctx, r, [AskObservation], host);
    OnwardsKeepsRun(run, run', p, host, host');
    if host.warmup == 0 {
      next := r.(runningRevision := Some(choice.reply.observed), phase := ExecRunning);
      RunPersisted(r);
      assert [Persist(next)] + [AdvanceTo(ReadinessVerified)] + [Continue] == [Persist(next)] + [AdvanceTo(ReadinessVerified), Continue];
    } else {
      var run1, host1 := run', host';
      run', host', next := HearsRunning(run1, p, ctx, r, host1);
      OnwardsJoin(run, run1, run', p, host, host1, host');
    }
  }

  /** The finalize header is sealed, if it was not. */
  lemma SealsOn(run: seq<ApplyWorld>, p: nat, ctx: Context, r: ExecutionRecord, host: HostState)
    returns (run': seq<ApplyWorld>, sealed: ExecutionRecord)
    requires Situated(run, p, ctx, r, [Continue], host) && r.phase.ExecRunning?
    ensures Onwards(run, run', p, host, host) && Situated(run', p, ctx, sealed, [AskFinalize(false)], host)
    ensures sealed.core == r.core && sealed.phase.ExecRunning? && sealed.finalizeHeader.Some?
    ensures Last(run').files.store == Last(run).files.store
    ensures Last(run').files.execs == Last(run).files.execs[r.core.op := sealed]
  {
    SealHeader(r);
    if r.finalizeHeader.Some? {
      SealedAlready(r);
    }
    var header := HeaderFor(r.core, r.prepareResult, FinalizeMaterial, r.runningRevision.value, NoPayload);
    hide ApplyRun, Onwards, ExecutionOk, Coherent, HeaderFor, FilesMatchPlan, FilesMatchRecord;
    run' := ContinuesOn(run, p, ctx, r, [Continue], host);
    OnwardsKeepsRun(run, run', p, host, host);
    if r.finalizeHeader.Some? {
      sealed := r;
      assert Last(run).files.execs[r.core.op := r] == Last(run).files.execs;
    } else {
      sealed := r.(finalizeHeader := Some(header.value));
      HeaderPersisted(r, header.value);
      SealCoherent(r, header.value, host);
      var run1 := run';
      run' := PersistsOn(run1, p, ctx, r, [Persist(sealed), AskFinalize(false)], sealed, host);
      OnwardsJoin(run, run1, run', p, host, host, host);
      assert [Persist(sealed), AskFinalize(false)][1..] == [AskFinalize(false)];
    }
  }

  lemma SealedAlready(r: ExecutionRecord)
    requires ExecutionOk(r) && r.phase.ExecRunning? && r.finalizeHeader.Some?
    ensures r.runningRevision.Some?
      && HeaderFor(r.core, r.prepareResult, FinalizeMaterial, r.runningRevision.value, NoPayload) == Ok(r.finalizeHeader.value)
  {
  }

  lemma HearsFinalized(run: seq<ApplyWorld>, p: nat, ctx: Context, r: ExecutionRecord, host: HostState)
    returns (run': seq<ApplyWorld>, host': HostState, next: ExecutionRecord)
    requires Situated(run, p, ctx, r, [AskFinalize(false)], host) && r.phase.ExecRunning? && r.finalizeHeader.Some?
    ensures Onwards(run, run', p, host, host') && next.core == r.core && next.phase.ExecFinalized?
    ensures Works(run', p, ctx, r, [Persist(next), ReleaseClaim, AdvanceTo(Completed), Continue])
    ensures ExecutionOk(next) && Coherent(next, host')
    ensures Last(run').files.store == Last(run).files.store && Last(run').files.execs == Last(run).files.execs
  {
    RunningBound(r);
    hide ApplyRun, Onwards, ExecutionOk, Coherent, TaskFrame, Handles, ValidatedResult, FilesMatchPlan, FilesMatchRecord;
    FinalizeExchange(r, host, false);
    var choice;
    run', host', choice := AsksOn(run, p, ctx, r, [AskFinalize(false)], host);
    OnwardsKeepsRun(run, run', p, host, host');
    if choice.reply.MaterialRequired? {
      var run1, host1 := run', host';
      assert Works(run1, p, ctx, r, [AskFinalize(true)]);
      FinalizeExchange(r, host1, true);
      run', host', choice := AsksOn(run1, p, ctx, r, [AskFinalize(true)], host1);
      OnwardsKeepsRun(run1, run', p, host1, host');
      OnwardsJoin(run, run1, run', p, host, host1, host');
    }
    next := r.(finalizeResult := Some(choice.reply.result), phase := ExecFinalized);
    FinalizePersisted(r, choice.reply.result);
  }

  /** The claim is released and the operation completes. */
  lemma ReleasesOn(run: seq<ApplyWorld>, p: nat, ctx: Context, r: ExecutionRecord, rest: seq<Task>, host: HostState)
    returns (run': seq<ApplyWorld>, ctx': Context)
    requires Works(run, p, ctx, r, [ReleaseClaim, AdvanceTo(Completed)] + rest)
    requires Steady(Last(run).files.store, ctx.operation, r.core.connector, HandoffObserved)
    requires PhaseRank(ctx.operation.phase).Some?
    ensures TaskDone(run, run', p, ctx, ctx', r, rest, Released, host)
    ensures ctx'.operation.phase == Completed
  {
    var tasks := [ReleaseClaim, AdvanceTo(Completed)] + rest;
    assert Reached(ctx.operation.phase, Completed) ==> ctx.operation.phase == Completed;
    hide TaskDone, Steady, Reached, Works;
    var run1 := SettlesOn(run, p, ctx, r, tasks, Release, HandoffObserved, host);
    TaskDoneParts(run, run1, p, ctx, ctx, r, tasks[1..], Released, host);
    run', ctx' := RaisesOn(run1, p, ctx, r, tasks[1..], Completed, Released, host);
    assert tasks[1..][1..] == rest;
    TasksDone(run, run1, run', p, ctx, ctx, ctx', r, tasks[1..], rest, Released, Released, host);
  }

  /** The Host finalizes; the claim is released and the operation completes. */
  lemma FinalizeBlock(run: seq<ApplyWorld>, p: nat, ctx: Context, r: ExecutionRecord, host: HostState)
    returns (run': seq<ApplyWorld>, ctx': Context, next: ExecutionRecord, host': HostState)
    requires Situated(run, p, ctx, r, [Continue], host) && r.phase.ExecRunning?
    requires Even(Last(run).files.store, ctx.operation, r)
    ensures next.phase.ExecFinalized? && BlockDone(run, run', p, ctx, ctx', r, next, host, host')
  {
    hide ApplyRun, Onwards, Fitting, ExecutionOk, Coherent, Steady, TaskDone, BlockDone;
    var run1, sealed := SealsOn(run, p, ctx, r, host);
    OnwardsKeepsRun(run, run1, p, host, host);
    var run2;
    run2, host', next := HearsFinalized(run1, p, ctx, sealed, host);
    OnwardsJoin(run, run1, run2, p, host, host, host');
    var rest := [ReleaseClaim, AdvanceTo(Completed), Continue];
    var run3 := PersistsOn(run2, p, ctx, sealed, [Persist(next)] + rest, next, host');
    OnwardsJoin(run, run2, run3, p, host, host', host');
    assert ([Persist(next)] + rest)[1..] == [ReleaseClaim, AdvanceTo(Completed)] + [Continue];
    run', ctx' := ReleasesOn(run3, p, ctx, next, [Continue], host');
    assert Last(run3).files.execs == Last(run).files.execs[r.core.op := next];
    BlockFollows(run, run3, run', p, ctx, ctx', r, next, host, host');
  }

  lemma BlocksJoin(a: seq<ApplyWorld>, b: seq<ApplyWorld>, c: seq<ApplyWorld>, p: nat, ctx: Context, ctx1: Context,
                   ctx2: Context,
                   r: ExecutionRecord, r1: ExecutionRecord, r2: ExecutionRecord, host: HostState, host1: HostState, host2: HostState)
    requires BlockDone(a, b, p, ctx, ctx1, r, r1, host, host1) && BlockDone(b, c, p, ctx1, ctx2, r1, r2, host1, host2)
    ensures BlockDone(a, c, p, ctx, ctx2, r, r2, host, host2)
  {
    hide Situated, Even;
    OnwardsJoin(a, b, c, p, host, host1, host2);
    hide Onwards, Shifted;
    ShiftedJoin(Last(a).files.store, Last(b).files.store, Last(c).files.store, r.core.op, r.core.connector);
  }

  /** Block after block, the execution is finalized, and then the process returns. */
  lemma {:induction false} RunsBlocks(run: seq<ApplyWorld>, p: nat, ctx: Context, r: ExecutionRecord, host: HostState)
    returns (run': seq<ApplyWorld>, ctx': Context, next: ExecutionRecord, host': HostState)
    requires Situated(run, p, ctx, r, [Continue], host) && Even(Last(run).files.store, ctx.operation, r)
    requires !r.phase.ExecExpired? && !r.phase.ExecFinalized?
    ensures next.phase.ExecFinalized? && BlockDone(run, run', p, ctx, ctx', r, next, host, host')
    decreases 4 - ExecutionRank(r.phase)
  {
    hide Situated, Even, BlockDone;
    match r.phase {
      case ExecClaimed => run', ctx', next, host' := PrepareBlock(run, p, ctx, r, host);
      case ExecPrepared => run', ctx', next, host' := StartBlock(run, p, ctx, r, host);
      case ExecStarted => run', ctx', next, host' := RunBlock(run, p, ctx, r, host);
      case ExecRunning => run', ctx', next, host' := FinalizeBlock(run, p, ctx, r, host);
    }
    if !next.phase.ExecFinalized? {
      var run1, ctx1, next1, host1 := run', ctx', next, host';
      BlockParts(run, run1, p, ctx, ctx1, r, next1, host, host1);
      run', ctx', next, host' := RunsBlocks(run1, p, ctx1, next1, host1);
      BlocksJoin(run, run1, run', p, ctx, ctx1, ctx', r, next1, next, host, host1, host');
    }
  }

  lemma BlockParts(run: seq<ApplyWorld>, run': seq<ApplyWorld>, p: nat, ctx: Context, ctx': Context,
                   r: ExecutionRecord, next: ExecutionRecord, host: HostState, host': HostState)
    requires BlockDone(run, run', p, ctx, ctx', r, next, host, host')
    ensures run' != [] && Situated(run', p, ctx', next, [Continue], host')
    ensures Even(Last(run').files.store, ctx'.operation, next)
  {
    hide Onwards, Situated, Even, Shifted;
    OnwardsKeeps(run, run', p, host, host');
  }

  lemma OnwardsKeeps(run: seq<ApplyWorld>, run': seq<ApplyWorld>, p: nat, host: HostState, host': HostState)
    requires Onwards(run, run', p, host, host')
    ensures run' != []
  {
  }

  // ----- before the blocks -----

  /** The files let this operation claim this connector, with this claim. */
  ghost predicate MayClaim(s: Store, inputs: Inputs, claim: ClaimIdentity) {
    && inputs.op in s.records && s.records[inputs.op].core.op == inputs.op
    && OperationMatches(s.records[inputs.op].core, inputs) && FilesMatchPlan(inputs.files, inputs.plan)
    && Prepares(s, s.records[inputs.op].core, inputs.plan.instance, claim)
    && ConnectorAllowed(s, claim, inputs.plan.host) && !ForeignClaim(s, claim)
  }

  function AfterPublish(s: Store, claim: ClaimIdentity): Store {
    if Enabled(s, PublishConnectorOwner(claim)) then After(s, PublishConnectorOwner(claim)) else s
  }

  lemma EnterSteps(d: Durable, inputs: Inputs, claim: ClaimIdentity)
    requires MayClaim(d.store, inputs, claim)
    ensures var operation := d.store.records[inputs.op];
      && ApplyStep(Entering(inputs, false), d, false, ANY) == (Preparing(inputs, false, operation), Skip)
      && ApplyStep(Preparing(inputs, false, operation), d, false, ANY) == (Publishing(inputs, false, operation, claim), Skip)
      && ApplyStep(Publishing(inputs, false, operation, claim), d, false, ANY)
           == (Converging(inputs, false, operation, claim),
               if Enabled(d.store, PublishConnectorOwner(claim)) then Do(PublishConnectorOwner(claim)) else Skip)
  {
    hide OperationMatches, FilesMatchPlan, ConnectorAllowed, ForeignClaim, PreparedClaim, ConnectorPredecessor, Enabled;
  }

  lemma ConvergeStep(s: Store, d: Durable, inputs: Inputs, operation: OperationRecord, claim: ClaimIdentity)
    requires ConnectorAllowed(s, claim, inputs.plan.host) && !ForeignClaim(s, claim) && d.store == AfterPublish(s, claim)
    ensures var held := ClaimKey(claim.instance, claim.op) in s.claims;
      && (!held ==> Enabled(d.store, CreateClaim(claim)))
      && ApplyStep(Converging(inputs, false, operation, claim), d, false, ANY)
           == (Proving(Context(inputs, operation, false, HeldClaim(s, claim).phase)), if held then Skip else Do(CreateClaim(claim)))
      && (if held then d.store else After(d.store, CreateClaim(claim))) == ConnectorAfter(s, claim)
  {
    ConnectorIsWrites(s, claim, inputs.plan.host);
    hide Enabled, ConnectorAllowed;
    assert d.store.claims == s.claims;
  }

  /** The process reads its operation and claims the connector. */
  lemma ClaimsConnector(run: seq<ApplyWorld>, p: nat, inputs: Inputs, claim: ClaimIdentity, host: HostState)
    returns (run': seq<ApplyWorld>)
    requires ApplyRun(run) && run != [] && p in Last(run).apps && Last(run).apps[p] == Entering(inputs, false)
    requires MayClaim(Last(run).files.store, inputs, claim)
    ensures Onwards(run, run', p, host, host)
    ensures Last(run').apps[p] == Proving(Context(inputs, Last(run).files.store.records[inputs.op], false,
                                                  HeldClaim(Last(run).files.store, claim).phase))
    ensures Last(run').files.store == ConnectorAfter(Last(run).files.store, claim)
    ensures Last(run').files.execs == Last(run).files.execs
  {
    var s := Last(run).files.store;
    var operation := s.records[inputs.op];
    EnterSteps(Last(run).files, inputs, claim);
    assert ConnectorAllowed(s, claim, inputs.plan.host) && !ForeignClaim(s, claim);
    hide ApplyRun, ApplyStep, Enabled, After, HistoryAfter, MayClaim, ConnectorAllowed, ForeignClaim, ConnectorAfter;
    hide HeldClaim, Handles, Heard;
    var host1;
    var run1, run2, run3;
    run1, host1 := Moves(run, p, ANY, Preparing(inputs, false, operation), Skip, host);
    run2, host1 := Moves(run1, p, ANY, Publishing(inputs, false, operation, claim), Skip, host);
    OnwardsJoin(run, run1, run2, p, host, host, host);
    var w := PublishConnectorOwner(claim);
    run3, host1 := Moves(run2, p, ANY, Converging(inputs, false, operation, claim), if Enabled(s, w) then Do(w) else Skip, host);
    OnwardsJoin(run, run2, run3, p, host, host, host);
    ConvergeStep(s, Last(run3).files, inputs, operation, claim);
    run', host1 := Moves(run3, p, ANY, Proving(Context(inputs, operation, false, HeldClaim(s, claim).phase)),
                         if ClaimKey(claim.instance, claim.op) in s.claims then Skip else Do(CreateClaim(claim)), host);
    OnwardsJoin(run, run3, run', p, host, host, host);
  }

  lemma ProveStep(d: Durable, ctx: Context, i: Token, claim: ClaimPhase)
    requires Steady(d.store, ctx.operation, i, claim) && !Reached(ctx.operation.phase, ArtifactsVerified)
    ensures PhaseAfter(ctx.operation.phase).Some?
    ensures var next := PhaseAfter(ctx.operation.phase).value; var w := UpdateRecord(ctx.operation.core.op, Change.Advance(next));
      var moved := ctx.(operation := ctx.operation.(phase := next, lastProven := next));
      && Enabled(d.store, w) && After(d.store, w) == AdvancedTo(d.store, ctx.operation.core.op, next)
      && ApplyStep(Proving(ctx), d, false, ANY) == (Proving(moved), Do(w))
      && Steady(After(d.store, w), moved.operation, i, claim) && Remaining(next) < Remaining(ctx.operation.phase)
      && PhaseRank(next).Some? && PhaseRank(next).value <= 3
  {
    SteadyParts(d.store, ctx.operation, i, claim);
    SteadyAdvances(d.store, ctx.operation, i, claim, ArtifactsVerified);
    AdvanceStep(d.store, ctx.operation, ArtifactsVerified);
    Nearer(ctx.operation.phase);
    var next := PhaseAfter(ctx.operation.phase).value;
    SteadyAdvances(d.store, ctx.operation, i, claim, next);
    hide Steady, CanAdvance, Enabled, After;
  }

  /** The operation proves its artifacts. */
  lemma {:induction false} ProvesOn(run: seq<ApplyWorld>, p: nat, ctx: Context, i: Token, claim: ClaimPhase,
                                    host: HostState)
    returns (run': seq<ApplyWorld>, ctx': Context)
    requires ApplyRun(run) && run != [] && p in Last(run).apps && Last(run).apps[p] == Proving(ctx)
    requires Steady(Last(run).files.store, ctx.operation, i, claim)
    ensures Onwards(run, run', p, host, host) && Last(run').apps[p] == Leasing(ctx')
    ensures ctx' == ctx.(operation := ctx'.operation) && ctx'.operation.core == ctx.operation.core
    ensures Steady(Last(run').files.store, ctx'.operation, i, claim)
    ensures ctx'.operation.phase == if Reached(ctx.operation.phase, ArtifactsVerified) then ctx.operation.phase else ArtifactsVerified
    ensures Shifted(Last(run).files.store, Last(run').files.store, ctx.operation.core.op, i)
    ensures Last(run').files.execs == Last(run).files.execs
    decreases Remaining(ctx.operation.phase)
  {
    var s := Last(run).files.store;
    SteadyParts(s, ctx.operation, i, claim);
    ShiftedSame(s, ctx.operation.core.op, i);
    if Reached(ctx.operation.phase, ArtifactsVerified) {
      ProvenStep(Last(run).files, ctx);
      hide ApplyRun, ApplyStep, Heard, Handles;
      var host';
      run', host' := Moves(run, p, ANY, Leasing(ctx), Skip, host);
      ctx' := ctx;
    } else {
      ProveStep(Last(run).files, ctx, i, claim);
      var next := PhaseAfter(ctx.operation.phase).value;
      var w := UpdateRecord(ctx.operation.core.op, Change.Advance(next));
      AdvanceShifts(s, ctx.operation.core.op, i, next);
      assert next == ArtifactsVerified || !Reached(next, ArtifactsVerified);
      hide ApplyRun, ApplyStep, Heard, Handles, Enabled, After, HistoryAfter, AdvancedTo, Steady, Shifted, Reached;
      var moved := ctx.(operation := ctx.operation.(phase := next, lastProven := next));
      var run1, host1 := Moves(run, p, ANY, Proving(moved), Do(w), host);
      run', ctx' := ProvesOn(run1, p, moved, i, claim, host);
      OnwardsJoin(run, run1, run', p, host, host, host);
      ShiftedJoin(s, Last(run1).files.store, Last(run').files.store, ctx.operation.core.op, i);
    }
  }

  lemma ProvenStep(d: Durable, ctx: Context)
    requires Reached(ctx.operation.phase, ArtifactsVerified)
    ensures ApplyStep(Proving(ctx), d, false, ANY) == (Leasing(ctx), Skip)
  {
  }

  lemma LeaseSteps(d: Durable, ctx: Context)
    requires LeaseGranted(d.store, ctx.inputs.op, ctx.inputs.plan.instance)
    ensures ApplyStep(Leasing(ctx), d, true, ANY) == (Reading(ctx), Skip)
    ensures ctx.inputs.op in d.execs && IdentityMatches(d.execs[ctx.inputs.op].core, ctx.inputs) ==>
      ApplyStep(Reading(ctx), d, false, ANY) == (Loaded(ctx, d.execs[ctx.inputs.op]), Skip)
    ensures
      ctx.inputs.op !in d.execs && ctx.claimPhase == Prepared && FilesMatchPlan(ctx.inputs.files, ctx.inputs.plan) ==>
      ApplyStep(Reading(ctx), d, false, ANY) == (Snapshotting(ctx), Skip)
  {
    hide Loaded, IdentityMatches, FilesMatchPlan;
  }

  /** The process takes the lease and reads the execution record. */
  lemma LoadsOn(run: seq<ApplyWorld>, p: nat, ctx: Context, host: HostState) returns (run': seq<ApplyWorld>)
    requires ApplyRun(run) && run != [] && p in Last(run).apps && Last(run).apps[p] == Leasing(ctx)
    requires LeaseFree(Last(run), ctx.inputs.op)
    requires LeaseGranted(Last(run).files.store, ctx.inputs.op, ctx.inputs.plan.instance)
    requires ctx.inputs.op in Last(run).files.execs
    requires IdentityMatches(Last(run).files.execs[ctx.inputs.op].core, ctx.inputs)
    ensures Onwards(run, run', p, host, host) && Last(run').files == Last(run).files
    ensures Last(run').apps[p] == Loaded(ctx, Last(run).files.execs[ctx.inputs.op])
  {
    LeaseSteps(Last(run).files, ctx);
    hide ApplyRun, ApplyStep, Heard, Handles, LeaseFree, LeaseGranted, IdentityMatches, Loaded;
    var host', run1;
    run1, host' := Moves(run, p, ANY, Reading(ctx), Skip, host);
    run', host' := Moves(run1, p, ANY, Loaded(ctx, Last(run).files.execs[ctx.inputs.op]), Skip, host);
    OnwardsJoin(run, run1, run', p, host, host, host);
  }

  /** A choice in which the Host tells its revision, or the new execution gets these identifiers. */
  function Telling(host: HostState, ids: HostIds): Choice {
    Choice(SnapshotReply(host.tenant, host.hostId, host.revision), ids, Files(0, 0, 0, 0, 0), false)
  }

  lemma NewLoads(ctx: Context, r: ExecutionRecord)
    requires r.phase.ExecClaimed? && ctx.claimPhase == Prepared
    ensures Loaded(ctx, r) == Working(ctx, r, [Continue])
  {
    assert Projection(r) == [];
    assert Projection(r) + [Continue] == [Continue];
  }

  function AskSnapshot(ctx: Context): Frame {
    SnapshotFrame(ctx.inputs.plan.host.tenant, ctx.inputs.plan.host.hostId)
  }

  lemma SnapshotStep(d: Durable, ctx: Context, host: HostState, ids: HostIds)
    requires host.tenant == ctx.inputs.plan.host.tenant && host.hostId == ctx.inputs.plan.host.hostId
    requires ValidRevision(host.revision)
    ensures ApplyStep(Snapshotting(ctx), d, false, Telling(host, ids))
         == (Creating(ctx, host.revision), Send(Sent(ctx.inputs.op, AskSnapshot(ctx), Some(Telling(host, ids).reply))))
  {
  }

  lemma CreateStep(d: Durable, ctx: Context, host: HostState, ids: HostIds)
    requires ctx.claimPhase == Prepared
    ensures var r := NewRecord(ctx.inputs, host.revision, ids);
      ApplyStep(Creating(ctx, host.revision), d, false, Telling(host, ids)) == (Working(ctx, r, [Continue]), PutExecution(r))
  {
    NewLoads(ctx, NewRecord(ctx.inputs, host.revision, ids));
    hide HeaderFor, Loaded;
  }

  /** The process takes the lease and finds no execution record. */
  lemma FindsNone(run: seq<ApplyWorld>, p: nat, ctx: Context, host: HostState) returns (run': seq<ApplyWorld>)
    requires ApplyRun(run) && run != [] && p in Last(run).apps && Last(run).apps[p] == Leasing(ctx)
    requires LeaseFree(Last(run), ctx.inputs.op)
    requires LeaseGranted(Last(run).files.store, ctx.inputs.op, ctx.inputs.plan.instance)
    requires ctx.inputs.op !in Last(run).files.execs && ctx.claimPhase == Prepared
    requires FilesMatchPlan(ctx.inputs.files, ctx.inputs.plan)
    ensures Onwards(run, run', p, host, host) && Last(run').apps[p] == Snapshotting(ctx)
    ensures Last(run').files == Last(run).files
  {
    LeaseSteps(Last(run).files, ctx);
    hide ApplyRun, ApplyStep, Heard, Handles, LeaseFree, LeaseGranted, FilesMatchPlan;
    var host1, run1;
    run1, host1 := Moves(run, p, ANY, Reading(ctx), Skip, host);
    run', host1 := Moves(run1, p, ANY, Snapshotting(ctx), Skip, host);
    OnwardsJoin(run, run1, run', p, host, host, host);
  }

  /** The process hears the Host's revision. */
  lemma SnapshotsOn(run: seq<ApplyWorld>, p: nat, ctx: Context, ids: HostIds, host: HostState)
    returns (run': seq<ApplyWorld>)
    requires ApplyRun(run) && run != [] && p in Last(run).apps && Last(run).apps[p] == Snapshotting(ctx)
    requires host.tenant == ctx.inputs.plan.host.tenant && host.hostId == ctx.inputs.plan.host.hostId
    requires ValidRevision(host.revision)
    ensures Onwards(run, run', p, host, host) && Last(run').apps[p] == Creating(ctx, host.revision)
    ensures Last(run').files.store == Last(run).files.store && Last(run').files.execs == Last(run).files.execs
  {
    HostTells(ctx, host, ids);
    SnapshotStep(Last(run).files, ctx, host, ids);
    hide ApplyRun, ApplyStep, Onwards, Heard, Handles, ValidRevision;
    var host1;
    run', host1 := Moves(run, p, Telling(host, ids), Creating(ctx, host.revision),
                         Send(Sent(ctx.inputs.op, AskSnapshot(ctx), Some(Telling(host, ids).reply))), host);
    OnwardsKeepsRun(run, run', p, host, host1);
  }

  lemma HostTells(ctx: Context, host: HostState, ids: HostIds)
    ensures Handles(host, AskSnapshot(ctx)) == (host, Telling(host, ids).reply)
  {
  }

  /** It creates the execution record from that revision. */
  lemma CreatesOn(run: seq<ApplyWorld>, p: nat, ctx: Context, ids: HostIds, host: HostState)
    returns (run': seq<ApplyWorld>, r: ExecutionRecord)
    requires ApplyRun(run) && run != [] && p in Last(run).apps && Last(run).apps[p] == Leasing(ctx)
    requires LeaseFree(Last(run), ctx.inputs.op)
    requires LeaseGranted(Last(run).files.store, ctx.inputs.op, ctx.inputs.plan.instance)
    requires ctx.inputs.op !in Last(run).files.execs && ctx.claimPhase == Prepared && !ctx.expired
    requires ctx.operation.core.op == ctx.inputs.op
    requires FilesMatchPlan(ctx.inputs.files, ctx.inputs.plan) && ctx.inputs.plan.bundle.None?
    requires host.tenant == ctx.inputs.plan.host.tenant && host.hostId == ctx.inputs.plan.host.hostId
    requires ValidRevision(host.revision) && host.revision.desired + 3 <= MAX_REVISION
    requires FreshIds(ids, Last(run).files.execs) && IdsUnknown(ids, host)
    ensures Onwards(run, run', p, host, host) && Situated(run', p, ctx, r, [Continue], host)
    ensures r == NewRecord(ctx.inputs, host.revision, ids) && r.phase.ExecClaimed? && IdentityMatches(r.core, ctx.inputs)
    ensures Last(run').files.store == Last(run).files.store
    ensures Last(run').files.execs == Last(run).files.execs[ctx.inputs.op := r]
  {
    r := NewRecord(ctx.inputs, host.revision, ids);
    NewSituated(ctx.inputs, ids, host, Last(run).files.execs);
    var run0 := FindsNone(run, p, ctx, host);
    OnwardsKeepsRun(run, run0, p, host, host);
    var run1 := SnapshotsOn(run0, p, ctx, ids, host);
    OnwardsJoin(run, run0, run1, p, host, host, host);
    CreateStep(Last(run1).files, ctx, host, ids);
    hide ApplyRun, ApplyStep, Heard, LeaseFree, LeaseGranted, FilesMatchPlan, FilesMatchRecord, IdsUnknown, FreshIds;
    hide NewRecord, Handles, ExecutionOk, Coherent;
    var host1;
    run', host1 := Moves(run1, p, Telling(host, ids), Working(ctx, r, [Continue]), PutExecution(r), host);
    OnwardsJoin(run, run1, run', p, host, host, host);
  }

  lemma NewSituated(inputs: Inputs, ids: HostIds, host: HostState, execs: map<Token, ExecutionRecord>)
    requires FreshIds(ids, execs) && IdsUnknown(ids, host) && FilesMatchPlan(inputs.files, inputs.plan)
    requires inputs.plan.bundle.None?
    requires ValidRevision(host.revision) && host.revision.desired + 3 <= MAX_REVISION
    ensures var r := NewRecord(inputs, host.revision, ids);
      && ExecutionOk(r) && Coherent(r, host) && r.core.bundle.None? && FilesMatchRecord(inputs.files, inputs.plan, r.core)
      && r.phase.ExecClaimed? && IdentityMatches(r.core, inputs)
  {
    OnlySameInputsReplay(inputs, inputs, host.revision, ids);
    CreatedOk(inputs, host.revision, ids, execs);
    NewIsCoherent(inputs, ids, host);
  }

  /** The projection has nothing left to do. */
  lemma NothingLeft(run: seq<ApplyWorld>, p: nat, ctx: Context, r: ExecutionRecord, claim: ClaimPhase, host: HostState)
    requires Works(run, p, ctx, r, [Continue]) && Steady(Last(run).files.store, ctx.operation, r.core.connector, claim)
    ensures TaskDone(run, run, p, ctx, ctx, r, [Continue], claim, host)
  {
    SteadyParts(Last(run).files.store, ctx.operation, r.core.connector, claim);
    ShiftedSame(Last(run).files.store, r.core.op, r.core.connector);
    OnwardsSame(run, p, host);
  }

  /** Claim and operation catch up with the execution. */
  lemma CatchesUp(run: seq<ApplyWorld>, p: nat, ctx: Context, r: ExecutionRecord, claim: ClaimPhase, host: HostState)
    returns (run': seq<ApplyWorld>, ctx': Context)
    requires Works(run, p, ctx, r, Projection(r) + [Continue]) && r.core.bundle.None? && !r.phase.ExecExpired?
    requires Steady(Last(run).files.store, ctx.operation, r.core.connector, claim)
    requires claim == Prepared || (claim == HandoffObserved && ExecutionRank(r.phase) >= 1)
    requires PhaseRank(ctx.operation.phase).Some? && ctx.operation.phase != Completed
    requires 3 <= PhaseRank(ctx.operation.phase).value <= PhaseRank(PhaseFor(r.phase)).value
    ensures TaskDone(run, run', p, ctx, ctx', r, [Continue], ClaimFor(r.phase), host)
    ensures ctx'.operation.phase == PhaseFor(r.phase)
  {
    hide TaskDone, Steady;
    if ExecutionRank(r.phase) == 0 {
      assert Projection(r) + [Continue] == [Continue];
      NothingLeft(run, p, ctx, r, claim, host);
      run', ctx' := run, ctx;
    } else {
      var rest := LaterProjection(r) + [Continue];
      assert Projection(r) + [Continue] == [ObserveHandoff, AdvanceTo(ConfigsWritten)] + rest;
      var run1, ctx1 := ObservesOn(run, p, ctx, r, rest, claim, host);
      TaskDoneParts(run, run1, p, ctx, ctx1, r, rest, HandoffObserved, host);
      run', ctx' := CatchesUpServices(run1, p, ctx1, r, host);
      TasksDone(run, run1, run', p, ctx, ctx1, ctx', r, rest, [Continue], HandoffObserved, ClaimFor(r.phase), host);
    }
  }

  /** What the projection has after the observed handoff. */
  function LaterProjection(r: ExecutionRecord): seq<Task> {
    (if ExecutionRank(r.phase) >= 2 then [AdvanceTo(ServicesConverged)] else [])
    + (if ExecutionRank(r.phase) >= 3 then [AdvanceTo(ReadinessVerified)] else [])
    + (if r.phase.ExecFinalized? then [ReleaseClaim, AdvanceTo(Completed)] else [])
  }

  lemma CatchesUpServices(run: seq<ApplyWorld>, p: nat, ctx: Context, r: ExecutionRecord, host: HostState)
    returns (run': seq<ApplyWorld>, ctx': Context)
    requires Works(run, p, ctx, r, LaterProjection(r) + [Continue]) && ExecutionRank(r.phase) >= 1
    requires Steady(Last(run).files.store, ctx.operation, r.core.connector, HandoffObserved)
    requires PhaseRank(ctx.operation.phase).Some? && ctx.operation.phase != Completed
    requires 5 <= PhaseRank(ctx.operation.phase).value <= PhaseRank(PhaseFor(r.phase)).value
    ensures TaskDone(run, run', p, ctx, ctx', r, [Continue], ClaimFor(r.phase), host)
    ensures ctx'.operation.phase == PhaseFor(r.phase)
  {
    hide TaskDone, Steady;
    var tasks := LaterProjection(r) + [Continue];
    if ExecutionRank(r.phase) == 1 {
      assert tasks == [Continue];
      NothingLeft(run, p, ctx, r, HandoffObserved, host);
      run', ctx' := run, ctx;
    } else {
      assert tasks[1..] == ReadyProjection(r) + [Continue];
      var run1, ctx1 := RaisesOn(run, p, ctx, r, tasks, ServicesConverged, HandoffObserved, host);
      TaskDoneParts(run, run1, p, ctx, ctx1, r, tasks[1..], HandoffObserved, host);
      run', ctx' := CatchesUpReady(run1, p, ctx1, r, host);
      TasksDone(run, run1, run', p, ctx, ctx1, ctx', r, tasks[1..], [Continue], HandoffObserved, ClaimFor(r.phase), host);
    }
  }

  function ReadyProjection(r: ExecutionRecord): seq<Task> {
    (if ExecutionRank(r.phase) >= 3 then [AdvanceTo(ReadinessVerified)] else [])
    + (if r.phase.ExecFinalized? then [ReleaseClaim, AdvanceTo(Completed)] else [])
  }

  lemma CatchesUpReady(run: seq<ApplyWorld>, p: nat, ctx: Context, r: ExecutionRecord, host: HostState)
    returns (run': seq<ApplyWorld>, ctx': Context)
    requires Works(run, p, ctx, r, ReadyProjection(r) + [Continue]) && ExecutionRank(r.phase) >= 2
    requires Steady(Last(run).files.store, ctx.operation, r.core.connector, HandoffObserved)
    requires ctx.operation.phase == ServicesConverged || (ctx.operation.phase == ReadinessVerified && ExecutionRank(r.phase) >= 3)
    ensures TaskDone(run, run', p, ctx, ctx', r, [Continue], ClaimFor(r.phase), host)
    ensures ctx'.operation.phase == PhaseFor(r.phase)
  {
    hide TaskDone, Steady;
    var tasks := ReadyProjection(r) + [Continue];
    if ExecutionRank(r.phase) == 2 {
      assert tasks == [Continue];
      NothingLeft(run, p, ctx, r, HandoffObserved, host);
      run', ctx' := run, ctx;
    } else {
      run', ctx' := RaisesOn(run, p, ctx, r, tasks, ReadinessVerified, HandoffObserved, host);
      if r.phase.ExecFinalized? {
        var run1, ctx1 := run', ctx';
        assert tasks[1..] == [ReleaseClaim, AdvanceTo(Completed)] + [Continue];
        TaskDoneParts(run, run1, p, ctx, ctx1, r, tasks[1..], HandoffObserved, host);
        run', ctx' := ReleasesOn(run1, p, ctx1, r, [Continue], host);
        TasksDone(run, run1, run', p, ctx, ctx1, ctx', r, tasks[1..], [Continue], HandoffObserved, Released, host);
      } else {
        assert tasks[1..] == [Continue];
      }
    }
  }

  /** From the first block that remains to the return. */
  lemma Returns(run: seq<ApplyWorld>, p: nat, ctx: Context, r: ExecutionRecord, host: HostState)
    returns (run': seq<ApplyWorld>, host': HostState)
    requires Situated(run, p, ctx, r, [Continue], host) && Even(Last(run).files.store, ctx.operation, r)
    requires !r.phase.ExecExpired?
    ensures Onwards(run, run', p, host, host') && Last(run').apps[p] == Returned(Ok(()))
    ensures Shifted(Last(run).files.store, Last(run').files.store, r.core.op, r.core.connector)
    ensures r.core.op in Last(run').files.execs && Last(run').files.execs[r.core.op].phase.ExecFinalized?
    ensures Last(run').files.execs[r.core.op].core == r.core
    ensures Last(run').files.execs == Last(run).files.execs[r.core.op := Last(run').files.execs[r.core.op]]
    ensures r.core.op in Last(run').files.store.records && Last(run').files.store.records[r.core.op].phase == Completed
    ensures Holds(Last(run').files.store, ctx.operation.core, r.core.connector, Released)
  {
    SteadyParts(Last(run).files.store, ctx.operation, r.core.connector, ClaimFor(r.phase));
    hide BlockDone, Even;
    var run1, ctx1, next := run, ctx, r;
    host' := host;
    if !r.phase.ExecFinalized? {
      run1, ctx1, next, host' := RunsBlocks(run, p, ctx, r, host);
      BlockEnds(run, run1, p, ctx, ctx1, r, next, host, host');
    } else {
      OnwardsSame(run, p, host);
      ShiftedSame(Last(run).files.store, r.core.op, r.core.connector);
      EvenParts(Last(run).files.store, ctx.operation, r);
      assert Last(run).files.execs[r.core.op := r] == Last(run).files.execs;
    }
    hide Onwards, Shifted, ApplyRun, Holds;
    run' := ContinuesOn(run1, p, ctx1, next, [Continue], host');
    OnwardsJoin(run, run1, run', p, host, host', host');
  }

  lemma EvenParts(s: Store, operation: OperationRecord, r: ExecutionRecord)
    requires Even(s, operation, r) && r.phase.ExecFinalized?
    ensures operation.core.op in s.records && s.records[operation.core.op].phase == Completed
    ensures Holds(s, operation.core, r.core.connector, Released)
  {
  }

  lemma BlockEnds(run: seq<ApplyWorld>, run': seq<ApplyWorld>, p: nat, ctx: Context, ctx': Context,
                  r: ExecutionRecord, next: ExecutionRecord, host: HostState, host': HostState)
    requires BlockDone(run, run', p, ctx, ctx', r, next, host, host') && next.phase.ExecFinalized?
    ensures Onwards(run, run', p, host, host') && run' != [] && Works(run', p, ctx', next, [Continue])
    ensures Shifted(Last(run).files.store, Last(run').files.store, r.core.op, r.core.connector)
    ensures Last(run').files.execs == Last(run).files.execs[r.core.op := next] && next.core == r.core
    ensures r.core.op in Last(run').files.store.records && Last(run').files.store.records[r.core.op].phase == Completed
    ensures Holds(Last(run').files.store, ctx.operation.core, r.core.connector, Released)
  {
    EvenParts(Last(run').files.store, ctx'.operation, next);
    hide Onwards, Shifted, Even, Fitting;
  }

  // ----- convergence -----

  lemma SoleIsLast(s: Store, operation: OperationRecord, i: Token, claim: ClaimPhase)
    requires Level(s, operation, i, claim)
    ensures Steady(s, operation, i, claim) && LeaseGranted(s, operation.core.op, i)
  {
  }

  /** What is known behind the lease. */
  lemma LeftLoads(s: Store, execs: map<Token, ExecutionRecord>, host: HostState, inputs: Inputs,
                  operation: OperationRecord, claim: ClaimPhase)
    requires Left(s, execs, host, inputs, operation, claim) && claim != Released
    ensures Level(s, operation, inputs.plan.instance, claim) && operation.core.op == inputs.op
    ensures FilesMatchPlan(inputs.files, inputs.plan) && inputs.plan.bundle.None?
    ensures host.tenant == inputs.plan.host.tenant && host.hostId == inputs.plan.host.hostId
    ensures inputs.op !in execs ==>
      claim == Prepared && ValidRevision(host.revision) && host.revision.desired + 3 <= MAX_REVISION && PhaseRank(operation.phase).value <= 3
    ensures inputs.op in execs ==>
      var r := execs[inputs.op];
      && IdentityMatches(r.core, inputs) && r.core.op == inputs.op && r.core.connector == inputs.plan.instance && r.core.bundle.None?
      && ExecutionOk(r) && Coherent(r, host) && FilesMatchRecord(inputs.files, inputs.plan, r.core) && !r.phase.ExecExpired?
      && (claim == Prepared || (claim == HandoffObserved && ExecutionRank(r.phase) >= 1)) && operation.phase != Completed
      && 3 <= PhaseRank(operation.phase).value <= PhaseRank(PhaseFor(r.phase)).value
      && !PhasesConflict(claim, r.phase)
  {
    hide ExecutionOk, Coherent, FilesMatchRecord, FilesMatchPlan, Level;
  }

  /** The process takes the lease, reads or creates the execution record, and has claim and operation catch up. */
  lemma LoadsOrCreates(run: seq<ApplyWorld>, p: nat, ctx: Context, ids: HostIds, host: HostState)
    returns (run': seq<ApplyWorld>, ctx': Context, r: ExecutionRecord)
    requires ApplyRun(run) && run != [] && p in Last(run).apps && Last(run).apps[p] == Leasing(ctx)
    requires LeaseFree(Last(run), ctx.inputs.op) && !ctx.expired && ctx.claimPhase != Released
    requires Left(Last(run).files.store, Last(run).files.execs, host, ctx.inputs, ctx.operation, ctx.claimPhase)
    requires PhaseRank(ctx.operation.phase).Some? && PhaseRank(ctx.operation.phase).value >= 3
    requires FreshIds(ids, Last(run).files.execs) && IdsUnknown(ids, host)
    ensures Onwards(run, run', p, host, host) && Situated(run', p, ctx', r, [Continue], host)
    ensures Even(Last(run').files.store, ctx'.operation, r) && !r.phase.ExecExpired?
    ensures IdentityMatches(r.core, ctx.inputs)
    ensures ctx'.operation.core == ctx.operation.core && ctx'.inputs == ctx.inputs
    ensures Shifted(Last(run).files.store, Last(run').files.store, ctx.inputs.op, ctx.inputs.plan.instance)
    ensures Last(run').files.execs == Last(run).files.execs[ctx.inputs.op := r]
  {
    var s, i := Last(run).files.store, ctx.inputs.plan.instance;
    LeftLoads(s, Last(run).files.execs, host, ctx.inputs, ctx.operation, ctx.claimPhase);
    SoleIsLast(s, ctx.operation, i, ctx.claimPhase);
    hide ApplyRun, Onwards, Left, Level, Steady, LeaseFree, LeaseGranted, FreshIds, IdsUnknown, Shifted, Holds;
    hide ExecutionOk, Coherent;
    hide FilesMatchPlan, FilesMatchRecord, IdentityMatches;
    if ctx.inputs.op in Last(run).files.execs {
      r := Last(run).files.execs[ctx.inputs.op];
      run', ctx' := LoadsAndCatchesUp(run, p, ctx, r, host);
      assert Last(run).files.execs[ctx.inputs.op := r] == Last(run).files.execs;
    } else {
      run', r := CreatesEven(run, p, ctx, ids, host);
      ctx' := ctx;
    }
  }

  lemma CreatesEven(run: seq<ApplyWorld>, p: nat, ctx: Context, ids: HostIds, host: HostState)
    returns (run': seq<ApplyWorld>, r: ExecutionRecord)
    requires ApplyRun(run) && run != [] && p in Last(run).apps && Last(run).apps[p] == Leasing(ctx)
    requires LeaseFree(Last(run), ctx.inputs.op) && !ctx.expired && ctx.claimPhase != Released
    requires Left(Last(run).files.store, Last(run).files.execs, host, ctx.inputs, ctx.operation, ctx.claimPhase)
    requires PhaseRank(ctx.operation.phase).Some? && PhaseRank(ctx.operation.phase).value >= 3
    requires FreshIds(ids, Last(run).files.execs) && IdsUnknown(ids, host) && ctx.inputs.op !in Last(run).files.execs
    ensures Onwards(run, run', p, host, host) && Situated(run', p, ctx, r, [Continue], host)
    ensures Even(Last(run').files.store, ctx.operation, r) && !r.phase.ExecExpired?
    ensures IdentityMatches(r.core, ctx.inputs)
    ensures Shifted(Last(run).files.store, Last(run').files.store, ctx.inputs.op, ctx.inputs.plan.instance)
    ensures Last(run').files.execs == Last(run).files.execs[ctx.inputs.op := r]
  {
    var s, i := Last(run).files.store, ctx.inputs.plan.instance;
    LeftLoads(s, Last(run).files.execs, host, ctx.inputs, ctx.operation, ctx.claimPhase);
    SoleIsLast(s, ctx.operation, i, ctx.claimPhase);
    hide ApplyRun, Onwards, Left, Level, Steady, LeaseFree, LeaseGranted, FreshIds, IdsUnknown, Shifted, Holds;
    hide ExecutionOk, Coherent;
    hide FilesMatchPlan, FilesMatchRecord, IdentityMatches;
    run', r := CreatesOn(run, p, ctx, ids, host);
    StaysSteady(s, ctx.operation, i, ctx.claimPhase, ctx.inputs.op);
    IdentityNames(r.core, ctx.inputs);
  }

  /** From behind the lease to the return. */
  lemma WorksOut(run: seq<ApplyWorld>, p: nat, ctx: Context, ids: HostIds, host: HostState)
    returns (run': seq<ApplyWorld>, host': HostState)
    requires ApplyRun(run) && run != [] && p in Last(run).apps && Last(run).apps[p] == Leasing(ctx)
    requires LeaseFree(Last(run), ctx.inputs.op) && !ctx.expired && ctx.claimPhase != Released
    requires Left(Last(run).files.store, Last(run).files.execs, host, ctx.inputs, ctx.operation, ctx.claimPhase)
    requires PhaseRank(ctx.operation.phase).Some? && PhaseRank(ctx.operation.phase).value >= 3
    requires FreshIds(ids, Last(run).files.execs) && IdsUnknown(ids, host)
    ensures Onwards(run, run', p, host, host') && Last(run').apps[p] == Returned(Ok(()))
    ensures Shifted(Last(run).files.store, Last(run').files.store, ctx.inputs.op, ctx.inputs.plan.instance)
    ensures ctx.inputs.op in Last(run').files.execs && Last(run').files.execs[ctx.inputs.op].phase.ExecFinalized?
    ensures IdentityMatches(Last(run').files.execs[ctx.inputs.op].core, ctx.inputs)
    ensures Last(run').files.execs == Last(run).files.execs[ctx.inputs.op := Last(run').files.execs[ctx.inputs.op]]
    ensures ctx.inputs.op in Last(run').files.store.records
    ensures Last(run').files.store.records[ctx.inputs.op].phase == Completed
    ensures Holds(Last(run').files.store, ctx.operation.core, ctx.inputs.plan.instance, Released)
  {
    hide ApplyRun, Onwards, Left, Situated, Even, LeaseFree, FreshIds, IdsUnknown, Shifted, Holds, IdentityMatches;
    var run1, ctx1, r := LoadsOrCreates(run, p, ctx, ids, host);
    IdentityNames(r.core, ctx.inputs);
    OnwardsKeepsRun(run, run1, p, host, host);
    run', host' := Returns(run1, p, ctx1, r, host);
    OnwardsKeepsRun(run1, run', p, host, host');
    OnwardsJoin(run, run1, run', p, host, host, host');
    ShiftedJoin(Last(run).files.store, Last(run1).files.store, Last(run').files.store, ctx.inputs.op, ctx.inputs.plan.instance);
  }

  lemma StaysSteady(s: Store, operation: OperationRecord, i: Token, claim: ClaimPhase, op: Token)
    requires Steady(s, operation, i, claim) && operation.core.op == op
    ensures Shifted(s, s, op, i)
  {
    SteadyParts(s, operation, i, claim);
    ShiftedSame(s, op, i);
  }

  lemma IdentityNames(core: ExecutionCore, inputs: Inputs)
    requires IdentityMatches(core, inputs)
    ensures core.op == inputs.op && core.connector == inputs.plan.instance
  {
  }

  lemma LoadsAndCatchesUp(run: seq<ApplyWorld>, p: nat, ctx: Context, r: ExecutionRecord, host: HostState)
    returns (run': seq<ApplyWorld>, ctx': Context)
    requires ApplyRun(run) && run != [] && p in Last(run).apps && Last(run).apps[p] == Leasing(ctx)
    requires LeaseFree(Last(run), ctx.inputs.op)
    requires LeaseGranted(Last(run).files.store, ctx.inputs.op, ctx.inputs.plan.instance)
    requires ctx.inputs.op in Last(run).files.execs && Last(run).files.execs[ctx.inputs.op] == r
    requires IdentityMatches(r.core, ctx.inputs) && r.core.op == ctx.inputs.op
    requires r.core.connector == ctx.inputs.plan.instance
    requires ctx.operation.core.op == ctx.inputs.op && !r.phase.ExecExpired? && !PhasesConflict(ctx.claimPhase, r.phase)
    requires Steady(Last(run).files.store, ctx.operation, ctx.inputs.plan.instance, ctx.claimPhase)
    requires Fitting(ctx, r, host)
    requires ctx.claimPhase == Prepared || (ctx.claimPhase == HandoffObserved && ExecutionRank(r.phase) >= 1)
    requires PhaseRank(ctx.operation.phase).Some? && ctx.operation.phase != Completed
    requires 3 <= PhaseRank(ctx.operation.phase).value <= PhaseRank(PhaseFor(r.phase)).value
    ensures Onwards(run, run', p, host, host) && Situated(run', p, ctx', r, [Continue], host)
    ensures ctx' == ctx.(operation := ctx'.operation) && ctx'.operation.core == ctx.operation.core
    ensures Even(Last(run').files.store, ctx'.operation, r) && Last(run').files.execs == Last(run).files.execs
    ensures Shifted(Last(run).files.store, Last(run').files.store, ctx.inputs.op, ctx.inputs.plan.instance)
  {
    hide ApplyRun, Onwards, Steady, LeaseFree, LeaseGranted, Shifted, ExecutionOk, Coherent, FilesMatchPlan;
    hide FilesMatchRecord, IdentityMatches;
    var run1 := LoadsOn(run, p, ctx, host);
    OnwardsKeepsRun(run, run1, p, host, host);
    run', ctx' := CatchesUp(run1, p, ctx, r, ctx.claimPhase, host);
    OnwardsJoin(run, run1, run', p, host, host, host);
  }

  /** From whatever an interrupted application left, as long as the claim is not released, a process that applies the
   *  operation alone against the cooperating Host returns without error: the execution is finalized, the claim released
   *  and the operation completed, and nothing else has changed. */
  lemma Converges(run: seq<ApplyWorld>, p: nat, inputs: Inputs, ids: HostIds, host: HostState)
    returns (run': seq<ApplyWorld>, host': HostState)
    requires ApplyRun(run) && run != [] && p !in Last(run).apps && LeaseFree(Last(run), inputs.op)
    requires Resumable(Last(run).files.store, Last(run).files.history, Last(run).files.execs, host, inputs)
    requires ClaimPhaseOf(Last(run).files.store, inputs) != Released
    requires FreshIds(ids, Last(run).files.execs) && IdsUnknown(ids, host)
    ensures ApplyRun(run') && run' != [] && run <= run'
    ensures Last(run').apps == Last(run).apps[p := Returned(Ok(()))]
    ensures Last(run).files.sent <= Last(run').files.sent
    ensures Heard(host, Last(run').files.sent[|Last(run).files.sent|..], host')
    ensures var d := Last(run').files; var before := Last(run).files;
      && inputs.op in d.execs && d.execs[inputs.op].phase.ExecFinalized? && d.execs == before.execs[inputs.op := d.execs[inputs.op]]
      && inputs.op in d.store.records && d.store.records[inputs.op].phase == Completed
      && IdentityMatches(d.execs[inputs.op].core, inputs)
      && inputs.op in before.store.records && Holds(d.store, before.store.records[inputs.op].core, inputs.plan.instance, Released)
      && OnlyThese(before.store, d.store, inputs.op, inputs.plan.instance)
  {
    var d, i := Last(run).files, inputs.plan.instance;
    var claim := Stranded(d.store, d.history, d.execs, host, inputs);
    ClaimHeld(d.store, d.history, claim, inputs);
    ResumableOpens(d, host, inputs, claim);
    var operation := d.store.records[inputs.op];
    Leaves(d.store, d.history, d.execs, host, inputs, ConnectorAfter(d.store, claim), operation, ClaimPhaseOf(d.store, inputs));
    hide ApplyRun, Onwards, Left, Resumable, MayClaim, Holds, OnlyThese, LeaseFree, ConnectorAfter, ClaimPhaseOf;
    hide HeldClaim, IdsUnknown, FreshIds;
    var entered := Enters(run, p, inputs);
    var run1 := ClaimsConnector(entered, p, inputs, claim, host);
    OnwardsKeepsRun(entered, run1, p, host, host);
    EnteredFree(run, entered, run1, p, inputs, host);
    run', host' := ProvesAndWorks(run1, p, Context(inputs, operation, false, ClaimPhaseOf(d.store, inputs)), ids, host);
    OnwardsJoin(entered, run1, run', p, host, host, host');
    OnwardsEnds(run, entered, run', p, host, host');
    OnlyTheseTransitive(d.store, ConnectorAfter(d.store, claim), Last(run').files.store, inputs.op, i);
  }

  lemma EnteredFree(run: seq<ApplyWorld>, entered: seq<ApplyWorld>, run1: seq<ApplyWorld>, p: nat, inputs: Inputs,
                    host: HostState)
    requires run != [] && entered != [] && Last(entered).apps == Last(run).apps[p := Entering(inputs, false)]
    requires Onwards(entered, run1, p, host, host) && LeaseFree(Last(run), inputs.op)
    ensures LeaseFreeBut(Last(run1), inputs.op, p)
  {
  }

  lemma OnwardsEnds(run: seq<ApplyWorld>, entered: seq<ApplyWorld>, run': seq<ApplyWorld>, p: nat, host: HostState,
                    host': HostState)
    requires Onwards(entered, run', p, host, host') && run != [] && run <= entered
    requires Last(entered).files == Last(run).files && p in Last(entered).apps
    requires Last(entered).apps == Last(run).apps[p := Last(entered).apps[p]]
    ensures ApplyRun(run') && run' != [] && run <= run' && p in Last(run').apps
    ensures Last(run').apps == Last(run).apps[p := Last(run').apps[p]]
    ensures Last(run).files.sent <= Last(run').files.sent
    ensures Heard(host, Last(run').files.sent[|Last(run).files.sent|..], host')
  {
    hide ApplyRun, Heard;
  }

  lemma ResumableOpens(d: Durable, host: HostState, inputs: Inputs, claim: ClaimIdentity)
    requires Resumable(d.store, d.history, d.execs, host, inputs)
    requires inputs.op in d.store.records && d.store.records[inputs.op].core.op == inputs.op
    requires Prepares(d.store, d.store.records[inputs.op].core, inputs.plan.instance, claim)
    requires ConnectorAllowed(d.store, claim, inputs.plan.host) && !ForeignClaim(d.store, claim)
    ensures MayClaim(d.store, inputs, claim)
  {
    hide Interrupted, ConnectorAllowed, ForeignClaim, Prepares, OperationMatches, FilesMatchPlan, FilesMatchRecord;
    hide IdentityMatches;
  }

  lemma ShiftedOnly(s: Store, s': Store, op: Token, i: Token)
    requires Shifted(s, s', op, i)
    ensures OnlyThese(s, s', op, i)
  {
  }

  lemma ProvesAndWorks(run: seq<ApplyWorld>, p: nat, ctx: Context, ids: HostIds, host: HostState)
    returns (run': seq<ApplyWorld>, host': HostState)
    requires ApplyRun(run) && run != [] && p in Last(run).apps && Last(run).apps[p] == Proving(ctx)
    requires LeaseFreeBut(Last(run), ctx.inputs.op, p) && !ctx.expired && ctx.claimPhase != Released
    requires Left(Last(run).files.store, Last(run).files.execs, host, ctx.inputs, ctx.operation, ctx.claimPhase)
    requires FreshIds(ids, Last(run).files.execs) && IdsUnknown(ids, host)
    ensures Onwards(run, run', p, host, host') && Last(run').apps[p] == Returned(Ok(()))
    ensures OnlyThese(Last(run).files.store, Last(run').files.store, ctx.inputs.op, ctx.inputs.plan.instance)
    ensures ctx.inputs.op in Last(run').files.execs && Last(run').files.execs[ctx.inputs.op].phase.ExecFinalized?
    ensures IdentityMatches(Last(run').files.execs[ctx.inputs.op].core, ctx.inputs)
    ensures Last(run').files.execs == Last(run).files.execs[ctx.inputs.op := Last(run').files.execs[ctx.inputs.op]]
    ensures ctx.inputs.op in Last(run').files.store.records
    ensures Last(run').files.store.records[ctx.inputs.op].phase == Completed
    ensures Holds(Last(run').files.store, ctx.operation.core, ctx.inputs.plan.instance, Released)
  {
    var s, i := Last(run).files.store, ctx.inputs.plan.instance;
    LeftLoads(s, Last(run).files.execs, host, ctx.inputs, ctx.operation, ctx.claimPhase);
    SoleIsLast(s, ctx.operation, i, ctx.claimPhase);
    hide ApplyRun, Left, Steady, FreshIds, IdsUnknown, Shifted, Holds, OnlyThese, Heard, LeaseOf;
    var run1, ctx1 := ProvesOn(run, p, ctx, i, ctx.claimPhase, host);
    RaisedLevel(s, Last(run1).files.store, ctx.operation, ctx1.operation, i, ctx.claimPhase);
    RaisedLeft(s, Last(run1).files.store, Last(run).files.execs, host, ctx.inputs, ctx.operation, ctx1.operation, ctx.claimPhase);
    StillFree(run, run1, p, ctx.inputs.op, host);
    hide LeaseFree;
    run', host' := WorksOut(run1, p, ctx1, ids, host);
    OnwardsJoin(run, run1, run', p, host, host, host');
    ShiftedJoin(s, Last(run1).files.store, Last(run').files.store, ctx.inputs.op, i);
    ShiftedOnly(s, Last(run').files.store, ctx.inputs.op, i);
  }

  ghost predicate LeaseFreeBut(w: ApplyWorld, op: Token, p: nat) {
    forall q :: q in w.apps && q != p ==> LeaseOf(w.apps[q]) != Some(op)
  }

  lemma StillFree(run: seq<ApplyWorld>, run': seq<ApplyWorld>, p: nat, op: Token, host: HostState)
    requires Onwards(run, run', p, host, host) && LeaseFreeBut(Last(run), op, p) && Last(run').apps[p].Leasing?
    ensures LeaseFree(Last(run'), op)
  {
  }

  lemma RaisedLevel(s: Store, s': Store, operation: OperationRecord, raised: OperationRecord, i: Token, claim: ClaimPhase)
    requires Level(s, operation, i, claim) && Steady(s', raised, i, claim) && raised.core == operation.core
    ensures Level(s', raised, i, claim)
  {
    hide Forward, Holds;
  }
}
