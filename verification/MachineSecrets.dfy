/** Conservation of the single-use secret_ids: every one Vault returned is either embedded in one
    accepted order, or handed to revocation, or left behind - and the last only by the two exits of
    createVM that do not revoke. */
module MachineSecrets {
  import opened Prelude
  import opened Waldur
  import opened MachineSpec
  import opened MachineProofs

  ghost predicate Embedded(secret: string, m: Market) {
    exists id :: id in m.orders && m.orders[id].secret == Some(secret)
  }

  ghost predicate SameSecret(a: Uuid, b: Uuid, m: Market) {
    a in m.orders && b in m.orders && m.orders[a].secret.Some? && m.orders[a].secret == m.orders[b].secret
  }

  /** Credentials in accepted orders were issued, were never handed to revocation, and no two orders
      share one. */
  ghost predicate SecretInv(w: World) {
    && w.vault.revoked <= w.vault.issued
    && (forall id :: id in w.market.orders && w.market.orders[id].secret.Some? ==>
          w.market.orders[id].secret.value in w.vault.issued - w.vault.revoked)
    && (forall a, b :: SameSecret(a, b, w.market) ==> a == b)
  }

  /** The ids in no class but "left behind". */
  ghost predicate LeftBehind(secret: string, w: World) {
    secret in w.vault.issued && secret !in w.vault.revoked && !Embedded(secret, w.market)
  }

  // ----- one pass -----

  /** The two exits that keep an issued secret_id without revoking it: buildOrderPayload fails, or
      the order call gets no reply and was not accepted. */
  predicate LeavesSecret(cfg: Config, w: World, o: Replies) {
    && Creates(w, o)
    && UserDataOf(cfg, w, o).1.Prepared? && UserDataOf(cfg, w, o).1.secret.Some?
    && (PayloadFails(cfg, o) || NotAccepted(w, o))
  }

  predicate NotAccepted(w: World, o: Replies) {
    o.create.Dropped? && (o.create.accepted.None? || o.create.accepted.value.id in w.market.orders)
  }

  /** Building user data issues at most one fresh id, and either revokes it or hands it on. */
  lemma BuildIssues(cfg: Config, named: bool, v: VaultState, o: Replies)
    requires v.revoked <= v.issued
    ensures var (v', userData) := BuildUserData(cfg, named, v, o);
            match userData
            case Prepared(Some(secret)) =>
              secret !in v.issued && v'.issued == v.issued + {secret} && v'.revoked == v.revoked
            case _ =>
              || (v'.issued == v.issued && v'.revoked == v.revoked)
              || (o.secret.Some? && o.secret.value !in v.issued
                  && v'.issued == v.issued + {o.secret.value} && v'.revoked == v.revoked + {o.secret.value})
  {}

  lemma TerminationSecrets(m: Market, resource: Uuid, reply: TerminateReply)
    ensures var m' := SubmitTermination(m, MACHINE_SLOT, resource, reply).0;
            && (forall id :: id in m'.orders && m'.orders[id].secret.Some? ==> id in m.orders && m'.orders[id] == m.orders[id])
            && (forall id :: id in m.orders ==> id in m'.orders && m'.orders[id] == m.orders[id])
  {}

  lemma PassOnlyCreatesSecrets(cfg: Config, w: World, o: Replies)
    requires !Creates(w, o)
    ensures var w' := Pass(cfg, w, o).0;
            && w'.vault == w.vault
            && (forall id :: id in w'.market.orders && w'.market.orders[id].secret.Some? ==>
                  id in w.market.orders && w'.market.orders[id] == w.market.orders[id])
            && (forall id :: id in w.market.orders ==> id in w'.market.orders && w'.market.orders[id] == w.market.orders[id])
  {
    if w.stored.Some? && w.stored.value.deleting && w.stored.value.status.resource.Some? {
      TerminationSecrets(w.market, w.stored.value.status.resource.value, o.terminate);
      DeletingMarket(w, o);
    }
  }

  lemma DeletingMarket(w: World, o: Replies)
    requires w.stored.Some? && w.stored.value.deleting && w.stored.value.status.resource.Some?
    ensures DeletePass(w, o).0.vault == w.vault
    ensures || DeletePass(w, o).0.market == w.market
            || DeletePass(w, o).0.market
               == SubmitTermination(w.market, MACHINE_SLOT, w.stored.value.status.resource.value, o.terminate).0
  {}

  /** createVM decides the market and the vault of a creating pass. */
  lemma CreatingPass(cfg: Config, w: World, o: Replies)
    requires Creates(w, o)
    ensures var c := CreateVM(cfg, o.lookup.bootstrapNamed, o.lookup.tenants, w.market, w.vault, w.stored.value.status, o);
            Pass(cfg, w, o).0.market == c.market && Pass(cfg, w, o).0.vault == c.vault
  {}

  /** What one pass can do with the credentials, as one fact. */
  ghost predicate SecretStep(w: World, w': World, issued: Option<string>, leaves: bool) {
    && (forall id :: id in w.market.orders ==> id in w'.market.orders && w'.market.orders[id].secret == w.market.orders[id].secret)
    && match issued
       case None =>
         && !leaves
         && w'.vault.issued == w.vault.issued && w'.vault.revoked == w.vault.revoked
         && (forall id :: id in w'.market.orders && id !in w.market.orders ==> w'.market.orders[id].secret == None)
       case Some(secret) =>
         && secret !in w.vault.issued
         && w'.vault.issued == w.vault.issued + {secret}
         && (forall id :: id in w'.market.orders && id !in w.market.orders && w'.market.orders[id].secret.Some? ==>
               w'.market.orders[id].secret.value == secret)
         && (forall a, b :: a in w'.market.orders && b in w'.market.orders && a !in w.market.orders && b !in w.market.orders ==> a == b)
         && w'.vault.revoked - w.vault.revoked <= {secret} && w.vault.revoked <= w'.vault.revoked
         && (secret in w'.vault.revoked ==> !(exists id :: id in w'.market.orders && id !in w.market.orders))
         && leaves == (secret !in w'.vault.revoked &&
                       !(exists id :: id in w'.market.orders && id !in w.market.orders && w'.market.orders[id].secret == Some(secret)))
  }

  lemma CreateVMSecrets(cfg: Config, w: World, o: Replies)
    requires Inv(w) && SecretInv(w) && Creates(w, o)
    ensures exists issued :: SecretStep(w, Pass(cfg, w, o).0, issued, LeavesSecret(cfg, w, o))
  {
    var named, tenants, status := o.lookup.bootstrapNamed, o.lookup.tenants, w.stored.value.status;
    var w' := Pass(cfg, w, o).0;
    var (v, userData) := BuildUserData(cfg, named, w.vault, o);
    BuildIssues(cfg, named, w.vault, o);
    CreatingPass(cfg, w, o);
    if userData.Prepared? && userData.secret.Some? {
      PreparedSecrets(cfg, w, o, userData.secret.value);
      assert SecretStep(w, w', userData.secret, LeavesSecret(cfg, w, o));
    } else if userData.Prepared? {
      UnkeyedSecrets(cfg, w, o);
    } else {
      assert w'.market == w.market && w'.vault == v;
      var issued := if v.issued == w.vault.issued then None else o.secret;
      assert !LeavesSecret(cfg, w, o);
      assert SecretStep(w, w', issued, LeavesSecret(cfg, w, o));
    }
  }

  /** Without Vault the order carries no credential. */
  lemma UnkeyedSecrets(cfg: Config, w: World, o: Replies)
    requires Inv(w) && Creates(w, o) && UserDataOf(cfg, w, o).1 == Prepared(None)
    ensures SecretStep(w, Pass(cfg, w, o).0, None, LeavesSecret(cfg, w, o))
  {
    CreatingPass(cfg, w, o);
    assert UserDataOf(cfg, w, o).0 == w.vault;
  }

  /** With a credential in hand, the reply to the order decides its class. */
  lemma PreparedSecrets(cfg: Config, w: World, o: Replies, secret: string)
    requires Inv(w) && SecretInv(w) && Creates(w, o)
    requires UserDataOf(cfg, w, o).1 == Prepared(Some(secret))
    ensures SecretStep(w, Pass(cfg, w, o).0, Some(secret), LeavesSecret(cfg, w, o))
  {
    var w' := Pass(cfg, w, o).0;
    BuildIssues(cfg, o.lookup.bootstrapNamed, w.vault, o);
    CreatingPass(cfg, w, o);
    if !PayloadFails(cfg, o) {
      var n := if o.create.Created? then Some(o.create.order) else if o.create.Dropped? then o.create.accepted else None;
      if n.Some? && n.value.id !in w.market.orders {
        assert w'.market == AcceptCreate(w.market, MACHINE_SLOT, n.value, Some(secret));
        assert w'.market.orders[n.value.id].secret == Some(secret);
      } else {
        assert w'.market == w.market;
      }
    }
  }

  /** Each pass issues at most one secret_id. The new id ends in exactly one class, older ids keep
      theirs, and an id is left behind exactly by the two exits that do not revoke. */
  lemma PassSecrets(cfg: Config, w: World, o: Replies)
    requires Inv(w) && SecretInv(w)
    ensures exists issued :: SecretStep(w, Pass(cfg, w, o).0, issued, LeavesSecret(cfg, w, o))
  {
    if Creates(w, o) {
      CreateVMSecrets(cfg, w, o);
    } else {
      PassOnlyCreatesSecrets(cfg, w, o);
      assert SecretStep(w, Pass(cfg, w, o).0, None, LeavesSecret(cfg, w, o));
    }
  }

  lemma SecretStepKeepsInv(w: World, w': World, issued: Option<string>, leaves: bool)
    requires SecretInv(w) && SecretStep(w, w', issued, leaves)
    ensures SecretInv(w')
  {
    forall a, b | SameSecret(a, b, w'.market) ensures a == b {
      if a in w.market.orders && b in w.market.orders {
        assert SameSecret(a, b, w.market);
      }
    }
  }

  // ----- runs -----

  function Leftovers(cfg: Config, w: World, steps: seq<Step>): nat {
    if steps == [] then 0
    else
      var front, s := steps[..|steps| - 1], steps[|steps| - 1];
      Leftovers(cfg, w, front) + (if s.Reconcile? && LeavesSecret(cfg, Run(cfg, w, front), s.o) then 1 else 0)
  }

  ghost function LeftBehindIds(w: World): set<string> {
    set s | s in w.vault.issued && LeftBehind(s, w)
  }

  lemma StepSecrets(cfg: Config, w: World, s: Step)
    requires Inv(w) && SecretInv(w) && Legal(w, s)
    ensures SecretInv(Do(cfg, w, s))
    ensures |LeftBehindIds(Do(cfg, w, s))| ==
            |LeftBehindIds(w)| + (if s.Reconcile? && LeavesSecret(cfg, w, s.o) then 1 else 0)
  {
    var w' := Do(cfg, w, s);
    match s
    case Reconcile(o) =>
      PassSecrets(cfg, w, o);
      var leaves := LeavesSecret(cfg, w, o);
      var issued :| SecretStep(w, w', issued, leaves);
      SecretStepKeepsInv(w, w', issued, leaves);
      SecretStepCounts(w, w', issued, leaves);
    case Others(market, kv) =>
      forall id | id in w.market.orders ensures OrderGrows(w.market.orders[id], market.orders[id]) {}
      assert SecretStep(w, w', None, false);
      SecretStepKeepsInv(w, w', None, false);
      SecretStepCounts(w, w', None, false);
    case DeleteRequest =>
      assert SecretStep(w, w', None, false);
      SecretStepCounts(w, w', None, false);
  }

  lemma SecretStepCounts(w: World, w': World, issued: Option<string>, leaves: bool)
    requires SecretInv(w) && SecretStep(w, w', issued, leaves)
    ensures |LeftBehindIds(w')| == |LeftBehindIds(w)| + (if leaves then 1 else 0)
  {
    var before, now := LeftBehindIds(w), LeftBehindIds(w');
    forall s | s in w.vault.issued ensures s in before <==> s in now {
      EmbeddedStays(w, w', issued, leaves, s);
    }
    if issued.None? {
      assert now == before;
    } else {
      var secret := issued.value;
      assert now - {secret} == before;
      NewEmbedded(w, w', secret, leaves);
      if leaves {
        assert now == before + {secret};
      } else {
        assert secret !in now;
        assert now == before;
      }
    }
  }

  lemma EmbeddedStays(w: World, w': World, issued: Option<string>, leaves: bool, s: string)
    requires SecretInv(w) && SecretStep(w, w', issued, leaves) && s in w.vault.issued
    ensures Embedded(s, w'.market) <==> Embedded(s, w.market)
    ensures s in w'.vault.revoked <==> s in w.vault.revoked
  {
    if Embedded(s, w'.market) {
      var id :| id in w'.market.orders && w'.market.orders[id].secret == Some(s);
      assert id in w.market.orders;
    }
    if Embedded(s, w.market) {
      var id :| id in w.market.orders && w.market.orders[id].secret == Some(s);
      assert w'.market.orders[id].secret == Some(s);
    }
  }

  lemma NewEmbedded(w: World, w': World, secret: string, leaves: bool)
    requires SecretInv(w) && SecretStep(w, w', Some(secret), leaves)
    ensures LeftBehind(secret, w') <==> leaves
  {
    if Embedded(secret, w'.market) {
      var id :| id in w'.market.orders && w'.market.orders[id].secret == Some(secret);
      assert id !in w.market.orders;
    }
  }

  /** Conservation over whole runs. Every issued id is in exactly one class - embedded in one
      accepted order, revocation attempted, or left behind - and the left-behind ones are counted
      exactly by the passes that took one of the two exits without revocation. A credential that is
      embedded in an accepted order, even a lost one, is never revoked. */
  lemma {:induction false} SecretsConserved(cfg: Config, w: World, steps: seq<Step>)
    requires Init(w) && LegalRun(cfg, w, steps)
    ensures var end := Run(cfg, w, steps);
            && SecretInv(end)
            && |LeftBehindIds(end)| == Leftovers(cfg, w, steps)
            && (forall s :: s in end.vault.issued ==>
                  (if s in end.vault.revoked then 1 else 0) + (if Embedded(s, end.market) then 1 else 0)
                  + (if LeftBehind(s, end) then 1 else 0) == 1)
  {
    if steps == [] {
      assert LeftBehindIds(w) == {};
    } else {
      var front := steps[..|steps| - 1];
      LegalPrefix(cfg, w, steps);
      SecretsConserved(cfg, w, front);
      RunInv(cfg, w, front);
      StepSecrets(cfg, Run(cfg, w, front), steps[|steps| - 1]);
    }
  }

  /** The failing side of "no credential is left dangling": a tenant that is not ready makes the
      payload fail after the secret_id was issued, and nothing revokes it. */
  lemma UnreadyTenantLeavesSecret(w: World, o: Replies)
    requires Inv(w) && SecretInv(w) && Creates(w, o)
    requires o.config == RancherConfig && o.secret == Some("s-1") && "s-1" !in w.vault.issued && o.merged
    requires o.lookup.tenants == map[]
    ensures LeavesSecret(Config("dc1", true), w, o)
    ensures LeftBehind("s-1", Pass(Config("dc1", true), w, o).0)
  {
    var cfg := Config("dc1", true);
    assert UserDataOf(cfg, w, o).1 == Prepared(Some("s-1"));
    PreparedSecrets(cfg, w, o, "s-1");
    NewEmbedded(w, Pass(cfg, w, o).0, "s-1", true);
  }
}
