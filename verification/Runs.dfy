/** Every interleaving of every number of processes, with crashes anywhere. */
module Runs {
  import opened Domain
  import opened Records
  import opened StateActions
  import opened StateInvariants
  import opened StateProofs
  import opened StepMachine
  import opened StepProofs
  import opened Interference

  ghost predicate Exclusive(w: World) {
    forall p, q :: p in w.procs && q in w.procs && p != q ==> Held(w.procs[p]) !! Held(w.procs[q])
  }

  ghost predicate AllKnow(w: World) {
    forall p :: p in w.procs ==> PcOk(w.procs[p], w.store)
  }

  /** What refinement needs: nothing about the past, so a run may begin from files an earlier one left. */
  ghost predicate SoundWorld(w: World) {
    Valid(w.store) && Exclusive(w) && AllKnow(w)
  }

  ghost predicate WorldOk(w: World) {
    Consistent(w.store, w.history) && Exclusive(w) && AllKnow(w)
  }

  /** A run from any well-formed files, with records beside legacy pointers if there are any. */
  ghost predicate SoundRun(run: seq<World>) {
    && |run| > 0
    && Valid(run[0].store) && run[0].procs == map[]
    && forall k :: 0 <= k < |run| - 1 ==> Next(run[k], run[k + 1])
  }

  /** The store is as it was, or one enabled write has been made. */
  ghost predicate Evolves(s: Store, h: History, s': Store, h': History) {
    (s' == s && h' == h) || (exists w :: Enabled(s, w) && s' == After(s, w) && h' == HistoryAfter(s, h, w))
  }

  // ----- locks -----

  lemma ClaimHeldGrows(pc: ClaimPc, s: Store, free: bool, pick: Fence)
    requires ClaimStep(pc, s, free, pick).Stay?
    ensures ClaimHeld(ClaimStep(pc, s, free, pick).next) <= ClaimHeld(pc)
      || (free && Wanted(Claiming(pc)).Some?
          && ClaimHeld(ClaimStep(pc, s, free, pick).next) <= ClaimHeld(pc) + {Wanted(Claiming(pc)).value})
  {
    hide ReissueOf, ExpiredClaimOf;
  }

  lemma ChangeHeldGrows(pc: ChangePc, s: Store, free: bool)
    requires ChangeStep(pc, s, free).Stay?
    ensures ChangeHeld(ChangeStep(pc, s, free).next) <= ChangeHeld(pc)
      || (free && Wanted(Changing(pc)).Some?
          && ChangeHeld(ChangeStep(pc, s, free).next) <= ChangeHeld(pc) + {Wanted(Changing(pc)).value})
  {
    hide Changed, ValidRecord;
  }

  lemma ConnectorHeldGrows(pc: ConnectorPc, s: Store, free: bool)
    requires ConnectorStep(pc, s, free).Stay?
    ensures ConnectorHeld(ConnectorStep(pc, s, free).next) <= ConnectorHeld(pc)
      || (free && Wanted(Connecting(pc)).Some?
          && ConnectorHeld(ConnectorStep(pc, s, free).next) <= ConnectorHeld(pc) + {Wanted(Connecting(pc)).value})
  {
    hide MatchesParent, ConnectorPredecessor, PriorAllows;
  }

  lemma HandoffHeldGrows(pc: HandoffPc, s: Store, free: bool)
    requires HandoffStep(pc, s, free).Stay?
    ensures HandoffHeld(HandoffStep(pc, s, free).next) <= HandoffHeld(pc)
      || (free && Wanted(Handing(pc)).Some?
          && HandoffHeld(HandoffStep(pc, s, free).next) <= HandoffHeld(pc) + {Wanted(Handing(pc)).value})
  {
  }

  /** A step takes no lock but the one it wanted and found free. */
  lemma HeldGrows(pc: Pc, s: Store, free: bool, pick: Fence)
    ensures forall l :: l in Held(Step(pc, s, free, pick).0) ==> l in Held(pc) || (free && Wanted(pc) == Some(l))
  {
    hide Wanted, ClaimHeld, ChangeHeld, ConnectorHeld, HandoffHeld, ClaimStep, ChangeStep, ConnectorStep, HandoffStep;
    match pc
    case Done(_) =>
    case Claiming(c) => if ClaimStep(c, s, free, pick).Stay? { ClaimHeldGrows(c, s, free, pick); }
    case Changing(c) => if ChangeStep(c, s, free).Stay? { ChangeHeldGrows(c, s, free); }
    case Connecting(c) => if ConnectorStep(c, s, free).Stay? { ConnectorHeldGrows(c, s, free); }
    case Handing(c) => if HandoffStep(c, s, free).Stay? { HandoffHeldGrows(c, s, free); }
  }

  lemma RunKeepsExclusion(w: World, w': World, p: nat, pick: Fence)
    requires Exclusive(w) && Runs(w, w', p, pick)
    ensures Exclusive(w')
  {
    hide Held, Wanted, Step;
    HeldGrows(w.procs[p], w.store, Free(w, p, Wanted(w.procs[p])), pick);
    forall q | q in w'.procs && q != p ensures Held(w'.procs[p]) !! Held(w'.procs[q]) {
      assert w'.procs[q] == w.procs[q];
      assert Held(w.procs[p]) !! Held(w.procs[q]);
    }
    forall q, r | q in w'.procs && r in w'.procs && q != r ensures Held(w'.procs[q]) !! Held(w'.procs[r]) {
      if q != p && r != p {
        assert Held(w.procs[q]) !! Held(w.procs[r]);
      }
    }
  }

  // ----- one step -----

  lemma ReadingStepOk(pc: Pc, s: Store, free: bool, pick: Fence)
    requires PcOk(pc, s) && RecordsValid(s) && ClaimsValid(s) && WriteOf(pc).None?
    ensures Step(pc, s, free, pick).1.NoEffect? && PcOk(Step(pc, s, free, pick).0, s)
  {
    hide ClaimOk, ChangeOk, ConnectorOk, HandoffOk, ClaimStep, ChangeStep, ConnectorStep, HandoffStep, RecordsValid;
    hide ClaimsValid, WriteOf;
    match pc
    case Done(_) =>
    case Claiming(c) => ClaimStepOk(c, s, free, pick);
    case Changing(c) => ChangeStepOk(c, s, free);
    case Connecting(c) => ConnectorStepOk(c, s, free);
    case Handing(c) => HandoffStepOk(c, s, free);
  }

  /** A step of a process that knows what it should leaves the store alone or makes one enabled write. */
  lemma StepRefines(w: World, w': World, p: nat, pick: Fence)
    requires SoundWorld(w) && Runs(w, w', p, pick)
    ensures Evolves(w.store, w.history, w'.store, w'.history)
  {
    hide Step, PcOk, WriteOf, Enabled, Exclusive, After, HistoryAfter, EffectOf, RecordsValid, ClaimsValid, OwnersValid;
    var pc, free := w.procs[p], Free(w, p, Wanted(w.procs[p]));
    if WriteOf(pc).None? {
      ReadingStepOk(pc, w.store, free, pick);
    } else {
      WriteIsEffect(pc, w.store, free, pick);
      EffectIsWrite(w.store, w.history, WriteOf(pc).value);
    }
  }

  /** The running process still knows what it should, and so does every other. */
  lemma RunKeepsKnowledge(w: World, w': World, p: nat, pick: Fence)
    requires SoundWorld(w) && Runs(w, w', p, pick)
    ensures AllKnow(w')
  {
    hide Step, PcOk, WriteOf, Enabled, After, HistoryAfter, EffectOf, RecordsValid, ClaimsValid, OwnersValid;
    hide Held, Exclusive;
    var pc, free := w.procs[p], Free(w, p, Wanted(w.procs[p]));
    if WriteOf(pc).None? {
      ReadingStepOk(pc, w.store, free, pick);
    } else {
      var write := WriteOf(pc).value;
      WriteIsEffect(pc, w.store, free, pick);
      EffectIsWrite(w.store, w.history, write);
      AfterWriteOk(pc, w.store, free, pick);
      forall q | q in w.procs && q != p ensures PcOk(w.procs[q], After(w.store, write)) {
        OthersKnow(w, p, q);
      }
    }
  }

  lemma OthersKnow(w: World, p: nat, q: nat)
    requires SoundWorld(w) && p in w.procs && q in w.procs && p != q
    requires WriteOf(w.procs[p]).Some? && Enabled(w.store, WriteOf(w.procs[p]).value)
    ensures PcOk(w.procs[q], After(w.store, WriteOf(w.procs[p]).value))
  {
    hide PcOk, WriteOf, Enabled, After, HistoryAfter, RecordsValid, ClaimsValid, OwnersValid, LocksOf;
    hide Held, Guarded;
    var s, write := w.store, WriteOf(w.procs[p]).value;
    WriteKeeps(s, write);
    WritesUnderLocks(w.procs[p], s);
    forall l | l in Held(w.procs[q]) ensures Guarded(s, After(s, write), l) {
      assert Held(w.procs[p]) !! Held(w.procs[q]);
      WriteGuards(s, write, l);
    }
    KnowledgeStable(w.procs[q], s, After(s, write));
  }

  lemma EntryKnows(pc: Pc, s: Store)
    requires Entry(pc)
    ensures PcOk(pc, s) && Held(pc) == {}
  {
  }

  lemma EvolutionConsistent(s: Store, h: History, s': Store, h': History)
    requires Consistent(s, h) && Evolves(s, h, s', h')
    ensures Consistent(s', h')
  {
    if !(s' == s && h' == h) {
      var w :| Enabled(s, w) && s' == After(s, w) && h' == HistoryAfter(s, h, w);
      WriteConsistent(s, h, w);
    }
  }

  lemma EvolutionOrdered(s: Store, h: History, s': Store, h': History)
    requires Ordered(s, h) && Evolves(s, h, s', h')
    ensures Ordered(s', h')
  {
    if !(s' == s && h' == h) {
      var w :| Enabled(s, w) && s' == After(s, w) && h' == HistoryAfter(s, h, w);
      WriteOrdered(s, h, w);
    }
  }

  lemma NextSound(w: World, w': World)
    requires SoundWorld(w) && Next(w, w')
    ensures SoundWorld(w') && Evolves(w.store, w.history, w'.store, w'.history)
  {
    hide Valid, PcOk, Held, Step, Entry;
    if p, pick :| Runs(w, w', p, pick) {
      StepRefines(w, w', p, pick);
      RunKeepsKnowledge(w, w', p, pick);
      RunKeepsExclusion(w, w', p, pick);
    } else if p, pc :| Starts(w, w', p, pc) {
      EntryKnows(pc, w.store);
    } else {
    }
    EvolutionValid(w.store, w.history, w'.store, w'.history);
  }

  lemma EvolutionValid(s: Store, h: History, s': Store, h': History)
    requires Valid(s) && Evolves(s, h, s', h')
    ensures Valid(s')
  {
    hide RecordsValid, OwnersValid, ClaimsValid;
    if s' != s {
      var w :| Enabled(s, w) && s' == After(s, w);
      RecordsValidAfter(s, w);
      OwnersValidAfter(s, w);
      ClaimsValidAfter(s, w);
    }
  }

  lemma NextOk(w: World, w': World)
    requires WorldOk(w) && Next(w, w')
    ensures WorldOk(w') && Evolves(w.store, w.history, w'.store, w'.history)
  {
    hide Next, Exclusive, AllKnow, Evolves, RecordsValid, OwnersValid, HistoryCurrent, Chained, UnownedPlanned, ClaimsValid;
    NextSound(w, w');
    EvolutionConsistent(w.store, w.history, w'.store, w'.history);
  }

  lemma InitOk(w: World)
    requires Init(w)
    ensures WorldOk(w)
  {
  }

  /** Every world of every run is consistent, its locks exclude each other, and every process's checks still hold. */
  lemma {:induction false} RunOk(run: seq<World>)
    requires IsRun(run)
    ensures forall k :: 0 <= k < |run| ==> WorldOk(run[k])
  {
    hide WorldOk, Init, Next;
    var k := 0;
    InitOk(run[0]);
    while k < |run| - 1
      invariant 0 <= k < |run|
      invariant forall j :: 0 <= j <= k ==> WorldOk(run[j])
    {
      NextOk(run[k], run[k + 1]);
      k := k + 1;
    }
  }

  /** The same without the past, from any well-formed files. */
  lemma {:induction false} SoundRunOk(run: seq<World>)
    requires SoundRun(run)
    ensures forall k :: 0 <= k < |run| ==> SoundWorld(run[k])
  {
    assert SoundWorld(run[0]);
    hide SoundWorld, Valid, Next;
    var k := 0;
    while k < |run| - 1
      invariant 0 <= k < |run|
      invariant forall j :: 0 <= j <= k ==> SoundWorld(run[j])
    {
      NextSound(run[k], run[k + 1]);
      k := k + 1;
    }
  }

  lemma LegacyRunIsSound(run: seq<World>)
    requires IsRun(run)
    ensures SoundRun(run)
  {
    hide Next;
  }
}
