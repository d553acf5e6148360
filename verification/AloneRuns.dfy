/** Runs in which one call follows the other: from a world without processes any call can be run to its end, with the
 *  outcome that SoloRuns gives it.
 */
module AloneRuns {
  import opened Domain
  import opened Records
  import opened StateActions
  import opened StateInvariants
  import opened StepMachine
  import opened Interference
  import opened Runs
  import opened Ownership
  import opened Calls
  import opened SoloRuns

  function Last(run: seq<World>): World
    requires run != []
  {
    run[|run| - 1]
  }

  lemma Extends(run: seq<World>, w: World)
    requires IsRun(run) && Next(Last(run), w)
    ensures IsRun(run + [w]) && Last(run + [w]) == w
  {
    hide Next, Init;
    var run' := run + [w];
    forall k | 0 <= k < |run'| - 1 ensures Next(run'[k], run'[k + 1]) {
      if k < |run| - 1 {
        assert Next(run[k], run[k + 1]);
      }
    }
  }

  lemma {:induction false} Drives(run: seq<World>, pc: Pc, n: nat, outcome: Result<Answer>, after: Store)
    returns (run': seq<World>)
    requires IsRun(run) && Last(run).procs == map[0 := pc] && Returns(pc, Last(run).store, n, outcome, after)
    ensures IsRun(run') && run <= run' && Last(run').store == after && Last(run').procs == map[0 := Done(outcome)]
    decreases n
  {
    assert run != [];
    hide IsRun, Step, Put, PutHistory, Wanted;
    if pc.Done? {
      run' := run;
    } else {
      var w := Last(run);
      var pick :| Returns(Step(pc, w.store, true, pick).0, Put(w.store, Step(pc, w.store, true, pick).1), n - 1, outcome, after);
      var (next, e) := Step(pc, w.store, true, pick);
      var w' := World(Put(w.store, e), PutHistory(w.store, w.history, e), map[0 := next]);
      assert w.procs[0 := next] == map[0 := next];
      assert StepMachine.Runs(w, w', 0, pick);
      Extends(run, w');
      run' := Drives(run + [w'], next, n - 1, outcome, after);
    }
  }

  /** While no other process runs, a call goes from its first step to its last and its process ends. */
  lemma RunsAlone(run: seq<World>, pc: Pc) returns (run': seq<World>, n: nat, outcome: Result<Answer>)
    requires IsRun(run) && Last(run).procs == map[] && Entry(pc)
    ensures IsRun(run') && run <= run' && Last(run').procs == map[]
    ensures Returns(pc, Last(run).store, n, outcome, Last(run').store)
  {
    assert run != [];
    hide IsRun, Returns, Entry;
    SoloReturns(pc, Last(run).store);
    var m, result, after :| Returns(pc, Last(run).store, m, result, after);
    n, outcome := m, result;
    var begun := Last(run).(procs := map[0 := pc]);
    assert Last(run).procs[0 := pc] == map[0 := pc];
    assert Starts(Last(run), begun, 0, pc);
    Extends(run, begun);
    var driven := Drives(run + [begun], pc, n, outcome, after);
    var ended := Last(driven).(procs := map[]);
    assert Last(driven).procs - {0} == map[];
    assert Crashes(Last(driven), ended, 0);
    Extends(driven, ended);
    run' := driven + [ended];
  }

  lemma ClaimsAlone(run: seq<World>, core: OperationIdentity) returns (run': seq<World>)
    requires IsRun(run) && Last(run).procs == map[] && ClaimAllowed(Last(run).store, core)
    ensures IsRun(run') && run <= run' && Last(run').procs == map[]
    ensures Last(run').store == ClaimAfter(Last(run).store, core)
  {
    hide Returns, Next, Init, WorldOk, Consistent, CanOwn, ClaimAfter, ProjectionsAgree;
    RunOk(run);
    WorldCurrent(Last(run));
    var n, outcome;
    run', n, outcome := RunsAlone(run, Claiming(ClaimLockId(core)));
    SoloClaim(core, Last(run).store, Last(run).history, n, outcome, Last(run').store);
  }

  lemma ChangesAlone(run: seq<World>, op: Token, change: Change) returns (run': seq<World>)
    requires IsRun(run) && Last(run).procs == map[] && Enabled(Last(run).store, UpdateRecord(op, change))
    ensures IsRun(run') && run <= run' && Last(run').procs == map[]
    ensures Last(run').store == After(Last(run).store, UpdateRecord(op, change))
  {
    hide Returns, Next, Init, Valid, Enabled, After, ExpiryRecorded;
    LegacyRunIsSound(run);
    SoundRunOk(run);
    SoundParts(Last(run));
    var n, outcome;
    run', n, outcome := RunsAlone(run, Changing(ChangeRead(op, change)));
    SoloChange(op, change, Last(run).store, n, outcome, Last(run').store);
  }
}
