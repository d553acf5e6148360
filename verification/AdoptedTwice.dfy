/** Exactly when an operation can own its target twice.
 *
 * From a store of legacy pointers some run makes an operation own its target twice if and only if a node service can be
 * adopted from a pointer whose predecessor no pointer names, and the pointers are few enough to be listed at all.  The
 * run is one of the processes of StepMachine, each call of it run alone.
 */
module AdoptedTwice {
  import opened Domain
  import opened Records
  import opened StateActions
  import opened StateInvariants
  import opened StepMachine
  import opened LegacyOwners
  import opened Ownership
  import opened Calls
  import opened AloneRuns

  // ----- one operation after the other -----

  function Completion(core: OperationIdentity): OperationRecord {
    OperationRecord(core, Completed, Completed, None)
  }

  lemma NodeAdvances(s: Store, core: OperationIdentity, phase: OperationPhase)
    requires core.op in s.records && s.records[core.op] == OperationRecord(core, phase, phase, None)
    requires ValidIdentity(core) && core.binding.workload.NodeWorkload? && IsCurrent(s, core)
    requires ForwardNonterminal(phase, core.binding.workload)
    ensures NextPhase(phase, core.binding.workload).Some?
    ensures var next := NextPhase(phase, core.binding.workload).value; var w := UpdateRecord(core.op, Change.Advance(next));
      && (next == Completed || ForwardNonterminal(next, core.binding.workload)) && ProvenRank(next) > ProvenRank(phase)
      && Enabled(s, w) && After(s, w) == s.(records := s.records[core.op := OperationRecord(core, next, next, None)])
      && IsCurrent(After(s, w), core)
  {
    hide ValidIdentity;
    var next := NextPhase(phase, core.binding.workload).value;
    assert ValidRecord(OperationRecord(core, next, next, None));
  }

  /** A node service that owns its target advances to completion. */
  lemma {:induction false} CompletesAlone(run: seq<World>, core: OperationIdentity, phase: OperationPhase)
    returns (run': seq<World>)
    requires IsRun(run) && Last(run).procs == map[]
    requires core.op in Last(run).store.records
    requires Last(run).store.records[core.op] == OperationRecord(core, phase, phase, None)
    requires ValidIdentity(core) && core.binding.workload.NodeWorkload? && IsCurrent(Last(run).store, core)
    requires ForwardNonterminal(phase, core.binding.workload)
    ensures IsRun(run') && run <= run' && Last(run').procs == map[]
    ensures Last(run').store == Last(run).store.(records := Last(run).store.records[core.op := Completion(core)])
    decreases 9 - ProvenRank(phase)
  {
    var s := Last(run).store;
    NodeAdvances(s, core, phase);
    hide IsRun, IsCurrent, Enabled, After, ForwardNonterminal, ValidIdentity, NextPhase;
    var next := NextPhase(phase, core.binding.workload).value;
    run' := ChangesAlone(run, core.op, Change.Advance(next));
    if next != Completed {
      run' := CompletesAlone(run', core, next);
    }
    assert Last(run').store.records == s.records[core.op := Completion(core)];
  }

  /** An operation not recorded yet claims its target and completes. */
  lemma OwnsAndCompletes(run: seq<World>, core: OperationIdentity) returns (run': seq<World>)
    requires IsRun(run) && Last(run).procs == map[] && ClaimAllowed(Last(run).store, core)
    requires core.op !in Last(run).store.records && core.binding.workload.NodeWorkload?
    ensures IsRun(run') && run <= run' && Last(run').procs == map[]
    ensures Last(run').store == Last(run).store.(
      records := Last(run).store.records[core.op := Completion(core)],
      owners := Last(run).store.owners[FenceOf(core) := OwnershipOf(core)])
  {
    var s := Last(run).store;
    assert IsCurrent(ClaimAfter(s, core), core);
    hide IsRun, IsCurrent, CanOwn, ValidIdentity, ProjectionsAgree;
    run' := ClaimsAlone(run, core);
    assert Last(run').store.records[core.op] == OperationRecord(core, Planned, Planned, None);
    run' := CompletesAlone(run', core, Planned);
    assert s.records[core.op := Initial(core)][core.op := Completion(core)] == s.records[core.op := Completion(core)];
  }

  // ----- a target's pointer names an operation again -----

  /** The chain lists the same operation in two places. */
  predicate Repeats(chain: seq<Token>, a: nat, b: nat) {
    a < b < |chain| && chain[a] == chain[b]
  }

  ghost predicate OwnsTwice(run: seq<World>, f: Fence) {
    exists a, b :: Repeats(OwnersSeen(run, f), a, b)
  }

  lemma {:induction false} SeenGrows(run: seq<World>, run': seq<World>, f: Fence)
    requires run <= run'
    ensures OwnersSeen(run, f) <= OwnersSeen(run', f)
    decreases |run'|
  {
    if run != run' {
      SeenGrows(run, run'[..|run'| - 1], f);
    }
  }

  lemma SeenLast(run: seq<World>, f: Fence)
    requires run != [] && f in Last(run).store.owners
    ensures var seen := OwnersSeen(run, f); seen != [] && seen[|seen| - 1] == Last(run).store.owners[f].current
  {
  }

  lemma FreshToken(used: set<Token>) returns (y: Token)
    ensures forall x :: x in used ==> x < y
  {
    if used == {} {
      y := 0;
    } else {
      var x :| x in used;
      var rest := FreshToken(used - {x});
      y := if x < rest then rest else x + 1;
      assert forall z :: z in used ==> z == x || z in used - {x};
    }
  }

  /** An operation that no pointer names and that is not one of these. */
  lemma FreshOperation(owners: map<Fence, TargetOwnership>, others: set<Token>) returns (y: Token)
    ensures y !in others && forall g :: g in owners ==> owners[g].current != y
  {
    var names := set g | g in owners :: owners[g].current;
    y := FreshToken(names + others);
    forall g | g in owners ensures owners[g].current != y {
      assert owners[g].current in names;
    }
  }

  /** The target's owner is this completed operation, and the pointers are those of the first store otherwise. */
  ghost predicate Reached(s: Store, initial: Store, f: Fence, core: OperationIdentity) {
    && s.owners == initial.owners[f := OwnershipOf(core)] && FenceOf(core) == f
    && core.op in s.records && s.records[core.op] == Completion(core)
  }

  /** The successor of a completed operation may claim, if no pointer names it. */
  lemma SuccessorAllowed(s: Store, initial: Store, f: Fence, core: OperationIdentity, next: OperationIdentity)
    requires Reached(s, initial, f, core) && f in initial.owners && !Crowded(initial)
    requires ValidIdentity(next) && FenceOf(next) == f && next.predecessor == Some(core.op) && next.op != core.op
    requires if next.op in s.records then s.records[next.op].core == next
             else forall g :: g in s.owners ==> s.owners[g].current != next.op
    ensures ClaimAllowed(s, next)
  {
    assert s.owners.Keys == initial.owners.Keys;
    assert |s.owners| == |s.owners.Keys| && |initial.owners| == |initial.owners.Keys|;
  }

  lemma AdopteeAllowed(s: Store, f: Fence)
    requires Legacy(s) && !Crowded(s) && Dangles(s, f)
    ensures ClaimAllowed(s, s.owners[f].identity)
  {
  }

  /** The first operation is adopted and completes, a new one follows it, the missing predecessor follows that one, and
   *  then the first may follow its predecessor. */
  lemma DanglingOwnsTwice(w: World, f: Fence) returns (run: seq<World>)
    requires Init(w) && !Crowded(w.store) && Dangles(w.store, f)
    ensures IsRun(run) && run[0] == w && OwnsTwice(run, f)
  {
    var s := w.store;
    var one := s.owners[f].identity;
    var missing := one.predecessor.value;
    var y := FreshOperation(s.owners, {one.op, missing});
    var two, three := one.(op := y, predecessor := Some(one.op)), one.(op := missing, predecessor := Some(y));
    assert ValidIdentity(two) && ValidIdentity(three) && FenceOf(one) == f;
    AdopteeAllowed(s, f);
    hide Init, Next, Dangles, Crowded, ClaimAllowed, ValidIdentity, OwnersSeen;
    var run1 := OwnsAndCompletes([w], one);
    SuccessorAllowed(Last(run1).store, s, f, one, two);
    var run2 := OwnsAndCompletes(run1, two);
    assert Last(run2).store.owners == s.owners[f := OwnershipOf(two)];
    SuccessorAllowed(Last(run2).store, s, f, two, three);
    var run3 := OwnsAndCompletes(run2, three);
    assert Last(run3).store.owners == s.owners[f := OwnershipOf(three)];
    SuccessorAllowed(Last(run3).store, s, f, three, one);
    run := ClaimsAlone(run3, one);
    SeenTwice(run1, run2, run, f);
  }

  lemma SeenTwice(early: seq<World>, middle: seq<World>, late: seq<World>, f: Fence)
    requires early != [] && early <= middle <= late
    requires f in Last(early).store.owners && f in Last(middle).store.owners && f in Last(late).store.owners
    requires Last(early).store.owners[f].current == Last(late).store.owners[f].current != Last(middle).store.owners[f].current
    ensures OwnsTwice(late, f)
  {
    SeenGrows(early, middle, f);
    SeenGrows(middle, late, f);
    SeenLast(early, f);
    SeenLast(middle, f);
    SeenLast(late, f);
    hide OwnersSeen;
    assert Repeats(OwnersSeen(late, f), |OwnersSeen(early, f)| - 1, |OwnersSeen(late, f)| - 1);
  }

  /** From these legacy pointers some run makes an operation own its target twice if and only if a node service can be
   *  adopted whose predecessor no pointer names. */
  lemma OwnsTwiceExactly(w: World)
    requires Init(w)
    ensures AdoptsDangling(w.store) <==> exists run, f :: IsRun(run) && run[0] == w && OwnsTwice(run, f)
  {
    hide Init, Next, Dangles, Crowded, OwnersSeen;
    if AdoptsDangling(w.store) {
      var f :| Dangles(w.store, f);
      var run := DanglingOwnsTwice(w, f);
      assert IsRun(run) && run[0] == w && OwnsTwice(run, f);
    } else {
      forall run, f | IsRun(run) && run[0] == w ensures !OwnsTwice(run, f) {
        OwnersFormChain(run, f);
      }
    }
  }
}
