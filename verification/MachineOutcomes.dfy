/** What a WaldurMachine's pass stores of the replies it received, what the Ready condition says, and
    when the pass asks to be run again: as long as there is work, it does. */
module MachineOutcomes {
  import opened Prelude
  import opened Waldur
  import opened ApiTypes
  import opened MachineSpec
  import opened MachineProofs
  import opened MachineTheorems
  import opened MachineContract
  import opened MachineGates
  import MD = MachineDeletion
  import Deletion

  // ----- what a refresh learns -----

  /** The calls a refresh makes one after the other, each of them answered: the order while it is
      open, the marketplace resource, the instance. */
  predicate OrderAnswered(s: MachineStatus, o: Replies) {
    s.order.Some? && s.order.value.state.Pending? ==> o.order.Some?
  }

  predicate ResourceAnswered(s: MachineStatus, o: Replies) {
    OrderAnswered(s, o) && o.resource.Some?
  }

  predicate InstanceAnswered(s: MachineStatus, o: Replies) {
    ResourceAnswered(s, o) && o.resource.value.backend && o.instance.Some?
  }

  /** The value reported in an answer, or the old one. */
  function Reported<T>(answered: bool, report: Option<T>, kept: T): T {
    if answered && report.Some? then report.value else kept
  }

  /** Field by field, a refresh takes over what was reported in an answer and keeps what was not,
      however far it gets. */
  lemma RefreshFields(m: Market, s: MachineStatus, o: Replies)
    requires s.order.Some? ==> s.order.value.uuid in m.orders
    ensures var s' := RefreshVM(m, s, o).0;
            && s'.order == (if s.order.Some? && s.order.value.state.Pending? && o.order.Some? then
                              Some(s.order.value.(state := StateOf(m.orders[s.order.value.uuid]),
                                                  backend := if o.order.value.Some? then o.order.value else s.order.value.backend))
                            else s.order)
            && (if ResourceAnswered(s, o) then s'.resourceState == Reported(true, o.resource.value.state, s.resourceState)
                else s'.resourceState == s.resourceState)
            && (if InstanceAnswered(s, o) then
                  && s'.state == Reported(true, o.instance.value.state, s.state)
                  && s'.vmUuid == (if o.instance.value.uuid.Some? then o.instance.value.uuid else s.vmUuid)
                  && s'.provisioned == (if s'.state == CoreOK then Some(true) else s.provisioned)
                else s'.state == s.state && s'.vmUuid == s.vmUuid && s'.provisioned == s.provisioned)
            && s'.resource == s.resource && s'.ready == s.ready
  {}

  /** The Ready condition of a state. */
  function ReadyFor(state: CoreState): Ready {
    match state
    case CoreOK => Ready(true, Provisioned)
    case CoreErred => Ready(false, ProvisioningFailed)
    case CoreUnset => Ready(false, Provisioning)
    case CoreCreating => Ready(false, Provisioning)
    case CoreOther(_) => Ready(false, Provisioning)
  }

  /** A pass over a recorded live machine stores what the refresh learnt, with the Ready condition of
      that state; or, in the one pass that is due to write the ProviderID, only that and the Ready
      condition of the state stored before. */
  lemma RefreshIsStored(cfg: Config, w: World, o: Replies)
    requires Inv(w) && LiveAndRecorded(w) && o.lookup.Found?
    ensures var obj, s := w.stored.value, RefreshVM(w.market, w.stored.value.status, o).0;
            var w' := Pass(cfg, w, o).0;
            w'.stored == Some(
              if obj.providerID.Some? || s.vmUuid.None? || s.state != CoreOK then
                if o.statusWrite.Refused? then obj else obj.(status := s.(ready := Some(ReadyFor(s.state))))
              else if o.specWrite.Refused? then obj
              else if o.specWrite.Unacked? || o.statusWrite.Refused? then obj.(providerID := Some("waldur://" + s.vmUuid.value))
              else obj.(providerID := Some("waldur://" + s.vmUuid.value),
                        status := obj.status.(ready := Some(ReadyFor(obj.status.state)))))
  {}

  // ----- the Ready condition over runs -----

  /** A live recorded machine has a Ready condition, and it says what the state is. */
  predicate ReadyTells(w: World) {
    w.stored.Some? && !w.stored.value.deleting ==>
      var s := w.stored.value.status;
      && (s.ready.Some? ==> s.ready.value == ReadyFor(s.state))
      && (s.order.Some? ==> s.ready.Some?)
  }

  lemma PassReady(cfg: Config, w: World, o: Replies)
    requires Inv(w) && ReadyTells(w)
    ensures ReadyTells(Pass(cfg, w, o).0)
  {
    if LiveAndRecorded(w) && o.lookup.Found? {
      RefreshIsStored(cfg, w, o);
      if w.stored.value.status.order.Some? {
        RefreshFields(w.market, w.stored.value.status, o);
      }
    } else if Unprovisioned(w, o) {
      CreatingPassReady(cfg, w, o);
    }
  }

  lemma CreatingPassReady(cfg: Config, w: World, o: Replies)
    requires Inv(w) && ReadyTells(w) && Unprovisioned(w, o)
    ensures ReadyTells(Pass(cfg, w, o).0)
  {
    if MayCreate(cfg, w, o) && o.create.Created? && o.create.order.id !in w.market.orders {
      CreationIsStored(cfg, w, o);
    } else {
      NoCreationChangesReadyOnly(cfg, w, o);
    }
  }

  lemma {:induction false} ReadyMatchesState(cfg: Config, w: World, steps: seq<Step>)
    requires Init(w) && LegalRun(cfg, w, steps)
    ensures ReadyTells(Run(cfg, w, steps))
  {
    if steps != [] {
      var front, s := steps[..|steps| - 1], steps[|steps| - 1];
      LegalPrefix(cfg, w, steps);
      ReadyMatchesState(cfg, w, front);
      RunInv(cfg, w, front);
      if s.Reconcile? {
        PassReady(cfg, Run(cfg, w, front), s.o);
      }
    }
  }

  // ----- when a pass comes again -----

  /** Reconcile returns without an error and without a requeue exactly when the object is not there or
      has just gone, when the finalizer has just been stored, or when the owner is awaited. */
  lemma IdleExactly(cfg: Config, w: World, o: Replies)
    requires Inv(w)
    ensures Pass(cfg, w, o).1 == Idle <==>
              || w.stored.None?
              || (Pass(cfg, w, o).0.stored.None? && o.finalizerWrite == Applied)
              || (!w.stored.value.deleting && !w.stored.value.finalizer && o.finalizerWrite == Applied)
              || (!w.stored.value.deleting && w.stored.value.finalizer && o.lookup == Waiting)
  {}

  /** There is work left: the object is still there and being deleted, or it is live and its owner was
      found. */
  predicate WorkLeft(w: World, o: Replies, w': World) {
    && w.stored.Some? && w'.stored.Some?
    && (w.stored.value.deleting || (w.stored.value.finalizer && o.lookup.Found?))
  }

  /** Then the pass fails or asks for another one: after 300 seconds exactly when the stored live
      machine is OK, after 10 exactly while the bootstrap data is awaited, after 15 otherwise. */
  lemma WorkIsResumed(cfg: Config, w: World, o: Replies)
    requires Inv(w) && WorkLeft(w, o, Pass(cfg, w, o).0)
    ensures Resumes(cfg, w, o)
  {
    if !w.stored.value.deleting {
      if w.stored.value.status.resource.None? {
        CreatingResumes(cfg, w, o);
      } else {
        RefreshingResumes(cfg, w, o);
      }
    }
  }

  predicate Resumes(cfg: Config, w: World, o: Replies) {
    var (w', outcome) := Pass(cfg, w, o);
    && (outcome.Failure? || (outcome.Requeue? && outcome.seconds in {10, 15, 300}))
    && (outcome.Requeue? ==>
          && (outcome.seconds == 300 <==> w'.stored.Some? && !w'.stored.value.deleting && w'.stored.value.status.state == CoreOK)
          && (outcome.seconds == 10 <==> AwaitsBootstrap(cfg, w, o)))
  }

  lemma CreatingResumes(cfg: Config, w: World, o: Replies)
    requires Inv(w) && Unprovisioned(w, o)
    ensures Resumes(cfg, w, o)
  {}

  lemma RefreshingResumes(cfg: Config, w: World, o: Replies)
    requires Inv(w) && LiveAndRecorded(w) && o.lookup.Found?
    ensures Resumes(cfg, w, o)
  {}

  /** The path taken needs bootstrap data, and the Machine does not name any yet. */
  predicate AwaitsBootstrap(cfg: Config, w: World, o: Replies) {
    Unprovisioned(w, o) && !o.lookup.bootstrapNamed && (!cfg.vault || o.config.Rke2Config?)
  }

  /** A live pass fails only over its own reads and writes of the API server; whatever Waldur and
      Vault answer, it goes on. */
  lemma LiveFailure(cfg: Config, w: World, o: Replies)
    requires Inv(w) && w.stored.Some? && !w.stored.value.deleting && w.stored.value.finalizer
    ensures Pass(cfg, w, o).1 == Failure ==>
              o.lookup == Unreachable || o.statusWrite != Applied || o.specWrite != Applied
    ensures o.lookup == Unreachable ==> Pass(cfg, w, o) == (w, Failure)
    ensures o.lookup.Found? && o.statusWrite != Applied && !AwaitsBootstrap(cfg, w, o) ==> Pass(cfg, w, o).1 == Failure
  {}

  /** A deleting pass: the finalizer goes when nothing was provisioned or the termination is recorded
      as done; one under way is polled, and what the refresh learnt is stored; a request without a usable reply is repeated. */
  lemma DeletingOutcome(cfg: Config, w: World, o: Replies)
    requires w.stored.Some? && w.stored.value.deleting
    ensures var s, (w', outcome) := w.stored.value.status, Pass(cfg, w, o);
            if s.resource.None? || (s.order.Some? && s.order.value.kind == Terminate && s.order.value.state == Done) then
              && w'.stored == (if o.finalizerWrite.Refused? then w.stored else None)
              && outcome == (if o.finalizerWrite == Applied then Idle else Failure)
            else if s.order.Some? && s.order.value.kind == Terminate && s.order.value.state.Pending? then
              && w'.stored == Some(if o.statusWrite.Refused? then w.stored.value
                                   else w.stored.value.(status := RefreshVM(w.market, s, o).0))
              && outcome == (if o.statusWrite == Applied then Requeue(15) else Failure)
            else MayEnd(w, o.runtime) && o.terminate.NoUuid? ==> w'.stored == w.stored && outcome == Requeue(15)
  {
    GatesMean(w.stored.value.status, o.runtime);
  }

  /** Over a run: no pass that leaves work ends without asking for the next. */
  lemma {:induction false} NeverForgotten(cfg: Config, w: World, steps: seq<Step>, i: nat)
    requires Init(w) && LegalRun(cfg, w, steps) && i < |steps| && steps[i].Reconcile?
    requires WorkLeft(Run(cfg, w, steps[..i]), steps[i].o, Run(cfg, w, steps[..i + 1]))
    ensures Pass(cfg, Run(cfg, w, steps[..i]), steps[i].o).1 != Idle
  {
    StateInv(cfg, w, steps, i);
    WorkIsResumed(cfg, Run(cfg, w, steps[..i]), steps[i].o);
  }

  /** So the rounds that `MachineDeletionTerminates` counts on are asked for by the controller itself,
      until the object is gone. */
  lemma {:induction false} DeletionIsDriven(cfg: Config, ws: nat -> World, os: nat -> Replies, settle: Uuid -> nat, bad: set<Uuid>, offAt: nat, i: nat)
    requires MD.Deleting(ws(0))
    requires forall k: nat :: MD.FairRound(cfg, ws, os, settle, bad, offAt, k)
    requires ws(i + 1).stored.Some?
    ensures Pass(cfg, ws(i), os(i)).1.Requeue? || Pass(cfg, ws(i), os(i)).1.Failure?
  {
    MD.StaysDeleting(cfg, ws, os, settle, bad, offAt, i);
    assert MD.FairRound(cfg, ws, os, settle, bad, offAt, i);
    if ws(i).stored.Some? {
      WorkIsResumed(cfg, ws(i), os(i));
    }
  }
}
