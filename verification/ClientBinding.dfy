/** Issuing a client binding through the EC2 host: protected output, pending state, remote cleanup, issued state.
 *
 * The binding lock serialises the calls for one operation, so its files and its remote export are one object's
 * fields.  A remote command or a write may fail, take effect and still be reported as failed, or be the last thing the
 * process does before it dies; `*` stands for what the world decides.
 */
module ClientBinding {
  import opened Domain

  datatype BindingPhase = PendingCleanup | Issued | Expired | Revoked

  /** The durable binding state; the output's digest is the output. */
  datatype BindingRecord = BindingRecord(identity: Token, digest: Token, expires: nat, phase: BindingPhase)

  /** What the remote helpers did: the issuer ran, a cleanup was asked for, or it finished and said so. */
  datatype Event = IssuerRan | CleanupTried | CleanupSucceeded

  /** A cleanup succeeded, and the issuer has not run since. */
  ghost predicate Clean(events: seq<Event>) {
    exists k :: 0 <= k < |events| && events[k] == CleanupSucceeded && forall j :: k < j < |events| ==> events[j] != IssuerRan
  }

  /** A cleanup was asked for, and the issuer has not run since. */
  ghost predicate Tried(events: seq<Event>) {
    exists k :: 0 <= k < |events| && events[k] == CleanupTried && forall j :: k < j < |events| ==> events[j] != IssuerRan
  }

  lemma TryingKeepsClean(events: seq<Event>)
    requires Clean(events)
    ensures Clean(events + [CleanupTried])
  {
    var k :| 0 <= k < |events| && events[k] == CleanupSucceeded && forall j :: k < j < |events| ==> events[j] != IssuerRan;
    assert (events + [CleanupTried])[k] == CleanupSucceeded;
  }

  lemma CleanupCleans(events: seq<Event>)
    ensures Clean(events + [CleanupSucceeded])
  {
    assert (events + [CleanupSucceeded])[|events|] == CleanupSucceeded;
  }

  function Happened(it: bool, event: Event): seq<Event> {
    if it then [event] else []
  }

  function IssuerRuns(events: seq<Event>): nat {
    if events == [] then 0 else IssuerRuns(events[..|events| - 1]) + (if events[|events| - 1].IssuerRan? then 1 else 0)
  }

  /** The state is created pending, and then only its phase moves on. */
  predicate MovesOn(before: Option<BindingRecord>, after: Option<BindingRecord>) {
    match (before, after)
    case (None, _) => true
    case (Some(_), None) => false
    case (Some(b), Some(a)) =>
      && a == b.(phase := a.phase)
      && (a.phase == b.phase
          || (b.phase == PendingCleanup && (a.phase == Issued || a.phase == Expired))
          || (b.phase == Issued && a.phase == Expired))
  }

  /** No output file that is there is ever replaced. */
  predicate Unclobbered(before: map<Token, Token>, after: map<Token, Token>) {
    forall path :: path in before ==> path in after && after[path] == before[path]
  }

  /** What one call, or a part of one that was cut short, may have done to state, outputs and remote events. */
  ghost predicate CallStep(s: Option<BindingRecord>, s': Option<BindingRecord>,
                           o: map<Token, Token>, o': map<Token, Token>, e: seq<Event>, e': seq<Event>) {
    MovesOn(s, s') && Unclobbered(o, o') && e <= e' && (s.Some? ==> IssuerRuns(e') == IssuerRuns(e))
  }

  class BindingStore {
    var outputs: map<Token, Token>
    var state: Option<BindingRecord>
    ghost var events: seq<Event>

    constructor (outputs: map<Token, Token>)
      ensures Valid() && state == None && this.outputs == outputs && events == []
    {
      this.outputs := outputs;
      state := None;
      events := [];
    }

    /** Whenever the state is `Issued` or `Expired`, a remote cleanup succeeded after the issuer last ran. */
    ghost predicate Valid()
      reads this
    {
      state.Some? && (state.value.phase == Issued || state.value.phase == Expired) ==> Clean(events)
    }

    twostate predicate Advanced()
      reads this
    {
      CallStep(old(state), state, old(outputs), outputs, old(events), events)
    }

    /** The binding is this one, issued, unexpired, and its output is there. */
    predicate Deliverable(existing: BindingRecord, identity: Token, output: Token, now: nat)
      reads this
    {
      && existing.identity == identity && existing.phase == Issued && now < existing.expires
      && output in outputs && outputs[output] == existing.digest
    }

    // ----- effects that may fail -----

    /** Runs the issuer, at most once, and pulls what it exported; cleans up if either fails. */
    method IssueRemote() returns (r: Result<Token>)
      requires Valid() && state.None?
      modifies `events
      ensures Valid()
      ensures r.Ok? ==> events == old(events) + [IssuerRan]
      ensures r.Err? ==> exists ran, cleaned ::
        events == old(events) + Happened(ran, IssuerRan) + [CleanupTried] + Happened(cleaned, CleanupSucceeded)
      ensures r.Err? ==> Tried(events)
    {
      var ran: bool := *;
      if ran {
        events := events + [IssuerRan];
      }
      ghost var issued := events;
      assert issued == old(events) + Happened(ran, IssuerRan);
      var pulled: Result<Token> := *;
      if !ran || pulled.Err? {
        var cleaned := CleanupRemote();
        assert events == issued + [CleanupTried] + Happened(events != issued + [CleanupTried], CleanupSucceeded);
        return Err(Contract);
      }
      return pulled;
    }

    method CleanupRemote() returns (ok: bool)
      requires Valid()
      modifies `events
      ensures Valid() && IssuerRuns(events) == IssuerRuns(old(events))
      ensures events == old(events) + [CleanupTried] || events == old(events) + [CleanupTried, CleanupSucceeded]
      ensures ok ==> Clean(events)
      ensures Tried(events)
    {
      if Clean(events) { TryingKeepsClean(events); }
      events := events + [CleanupTried];
      assert events[|old(events)|] == CleanupTried;
      if * {
        return false;
      }
      CleanupCleans(events);
      events := events + [CleanupSucceeded];
      return true;
    }

    /** Writes the protected output, unless exactly it is there; never replaces another. */
    method WriteProtectedOutput(path: Token, content: Token) returns (r: Result<()>)
      modifies `outputs
      ensures Unclobbered(old(outputs), outputs)
      ensures outputs == old(outputs) || outputs == old(outputs)[path := content]
      ensures r.Ok? ==> path in outputs && outputs[path] == content
      ensures path in old(outputs) ==>
        outputs == old(outputs) && r == if old(outputs)[path] == content then Ok(()) else Err(Conflict)
    {
      if path in outputs {
        if outputs[path] != content {
          return Err(Conflict);
        }
        return Ok(());
      }
      if * {
        return Err(Contract);
      }
      outputs := outputs[path := content];
      if * {
        return Err(Contract);
      }
      return Ok(());
    }

    method WriteState(next: BindingRecord) returns (ok: bool)
      requires MovesOn(state, Some(next))
      requires next.phase == Issued || next.phase == Expired ==> Clean(events)
      modifies `state
      ensures state == old(state) || state == Some(next)
      ensures ok ==> state == Some(next)
    {
      if * {
        return false;
      }
      state := Some(next);
      if * {
        return false;
      }
      return true;
    }

    method ValidateExistingOutput(path: Token, digest: Token) returns (r: Result<()>)
      ensures r.Ok? <==> path in outputs && outputs[path] == digest
    {
      if path !in outputs || outputs[path] != digest {
        return Err(Conflict);
      }
      return Ok(());
    }

    // ----- the calls -----

    /** What `issue_ec2` does with an issued binding: output, pending state, cleanup, issued state. */
    method Deliver(identity: Token, output: Token, content: Token) returns (r: Result<BindingRecord>, ghost died: bool)
      requires Valid() && state.None?
      modifies this
      ensures Valid() && Advanced() && IssuerRuns(events) == IssuerRuns(old(events))
      ensures r.Ok? ==> state == Some(r.value) && r.value.phase == Issued
      ensures state.Some? ==>
        && state.value.identity == identity && (state.value.phase == PendingCleanup || state.value.phase == Issued)
        && output in outputs && outputs[output] == state.value.digest
      ensures outputs == old(outputs) || (output in outputs && outputs == old(outputs)[output := outputs[output]])
      ensures !died && r.Err? ==> Tried(events)
    {
      var written := WriteProtectedOutput(output, content);
      if written.Err? {
        var cleaned := CleanupRemote();
        return Err(written.error), false;
      }
      if * {
        return Err(Contract), true;
      }
      var expires: nat := *;
      var pending := BindingRecord(identity, content, expires, PendingCleanup);
      var stored := WriteState(pending);
      if !stored {
        var cleaned := CleanupRemote();
        return Err(Contract), false;
      }
      if * {
        return Err(Contract), true;
      }
      var cleaned := CleanupRemote();
      if !cleaned {
        return Err(Contract), false;
      }
      if * {
        return Err(Contract), true;
      }
      var completed := pending.(phase := Issued);
      stored := WriteState(completed);
      if !stored {
        return Err(Contract), false;
      }
      return Ok(completed), false;
    }

    /** `issue_ec2`: runs the issuer only if no state is durable, and finishes what an earlier call began otherwise.
     *  `died` says that the process ended at a point where the code does not. */
    method IssueEc2(identity: Token, output: Token, now: nat) returns (r: Result<BindingRecord>, ghost died: bool)
      requires Valid()
      modifies this
      ensures Valid() && Advanced()
      ensures r.Ok? ==>
        && state == Some(r.value) && r.value.phase == Issued && r.value.identity == identity
        && output in outputs && outputs[output] == r.value.digest
      ensures old(state).None? && state.Some? ==>
        && state.value.identity == identity && (state.value.phase == PendingCleanup || state.value.phase == Issued)
        && output in outputs && outputs[output] == state.value.digest
      ensures outputs == old(outputs) || (output in outputs && outputs == old(outputs)[output := outputs[output]])
      ensures old(state).Some? ==> outputs == old(outputs) && (r.Ok? ==> r.value == old(state).value.(phase := Issued))
      ensures old(state).Some? && old(state).value.identity != identity ==> r == Err(Conflict) && state == old(state)
      ensures !died && r.Err? && IssuerRuns(events) > IssuerRuns(old(events)) ==> Tried(events)
      ensures old(state).Some? && Deliverable(old(state).value, identity, output, now) ==> r == Ok(old(state).value)
    {
      died := false;
      if state.Some? {
        r := ResumeExisting(identity, output, now);
        return;
      }
      if * {
        return Err(Contract), false;
      }
      var operation := IssueRemote();
      if operation.Err? {
        return Err(operation.error), false;
      }
      if * {
        return Err(Contract), true;
      }
      if * {
        var cleaned := CleanupRemote();
        return Err(Contract), false;
      }
      r, died := Deliver(identity, output, operation.value);
    }

    /** `resume_existing_ec2_binding`. */
    method ResumeExisting(identity: Token, output: Token, now: nat) returns (r: Result<BindingRecord>)
      requires Valid() && state.Some?
      modifies this
      ensures Valid() && Advanced()
      ensures outputs == old(outputs)
      ensures r.Ok? ==>
        && state == Some(r.value) && r.value.phase == Issued && now < r.value.expires && r.value.identity == identity
        && output in outputs && outputs[output] == r.value.digest
      ensures r.Ok? ==> r.value == old(state).value.(phase := Issued)
      ensures old(state).value.phase == Expired || old(state).value.phase == Revoked ==> r.Err? && state == old(state)
      ensures old(state).value.identity != identity ==>
        r == Err(Conflict) && state == old(state) && events == old(events)
      ensures old(state).value.phase == Issued ==> (r.Ok? <==> Deliverable(old(state).value, identity, output, now))
    {
      var existing := state.value;
      if existing.identity != identity {
        return Err(Conflict);
      }
      match existing.phase {
        case PendingCleanup =>
          var outputResult := ValidateExistingOutput(output, existing.digest);
          if * {
            return Err(Conflict);
          }
          var cleaned := CleanupRemote();
          if !cleaned {
            return Err(Contract);
          }
          if * {
            return Err(Contract);
          }
          if existing.expires <= now {
            var stored := WriteState(existing.(phase := Expired));
            return Err(Contract);
          }
          var stored := WriteState(existing.(phase := Issued));
          if !stored {
            return Err(Contract);
          }
          if outputResult.Err? {
            return Err(outputResult.error);
          }
          return Ok(existing.(phase := Issued));
        case Issued =>
          if existing.expires <= now {
            var stored := WriteState(existing.(phase := Expired));
            return Err(Contract);
          }
          var validated := ValidateExistingOutput(output, existing.digest);
          if validated.Err? {
            return Err(validated.error);
          }
          return Ok(existing);
        case Expired => return Err(Contract);
        case Revoked => return Err(Contract);
      }
    }
  }

  // ----- many calls -----

  /** A call that succeeded may be made again: until the binding expires, it returns the same record. */
  method IssueTwice(store: BindingStore, identity: Token, output: Token, now: nat, later: nat)
    returns (first: Result<BindingRecord>, second: Result<BindingRecord>)
    requires store.Valid()
    modifies store
    ensures store.Valid()
    ensures first.Ok? && later < first.value.expires ==> second == first
  {
    ghost var died;
    first, died := store.IssueEc2(identity, output, now);
    second, died := store.IssueEc2(identity, output, later);
  }

  /** The durable values after each of a sequence of calls, however each of them ended. */
  ghost predicate Calls(states: seq<Option<BindingRecord>>, outputs: seq<map<Token, Token>>, logs: seq<seq<Event>>) {
    && |states| == |outputs| == |logs| > 0
    && forall a, b :: 0 <= a && b == a + 1 < |states| ==> CallStep(states[a], states[b], outputs[a], outputs[b], logs[a], logs[b])
  }

  /** Over any number of calls, crashes included: once a state is durable the issuer never runs again, the state keeps
   *  its identity, digest and expiry, and the output it was issued for is never replaced. */
  lemma {:induction false} IssuerNeverRunsAgain(states: seq<Option<BindingRecord>>, outputs: seq<map<Token, Token>>,
                                                logs: seq<seq<Event>>, i: nat, j: nat)
    requires Calls(states, outputs, logs) && i <= j < |states| && states[i].Some?
    ensures states[j].Some? && states[j].value == states[i].value.(phase := states[j].value.phase)
    ensures IssuerRuns(logs[j]) == IssuerRuns(logs[i])
    ensures Unclobbered(outputs[i], outputs[j])
    decreases j
  {
    if i < j {
      IssuerNeverRunsAgain(states, outputs, logs, i, j - 1);
      var a := j - 1;
      assert CallStep(states[a], states[j], outputs[a], outputs[j], logs[a], logs[j]);
    }
  }
}
