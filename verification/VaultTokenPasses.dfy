/** The passes of the machine controller on the RKE2 path are made of the actions whose interleavings
    VaultToken.dfy is about. */
module VaultTokenPasses {
  import opened Prelude
  import opened MachineSpec
  import opened MachineTheorems
  import VT = VaultToken

  function TokenAt(w: World, path: string): Option<string> {
    if path in w.vault.kv then Some(w.vault.kv[path]) else None
  }

  /** The token the pass strips from the bootstrap data, if it gets there. */
  function Stripped(o: Replies): Option<string>
    requires o.lookup.Found?
  {
    if o.lookup.bootstrapNamed && o.bootstrap.Some? then o.bootstrap.value else None
  }

  /** What the machine learns about its order: accepted and recorded, accepted all the same, or not. */
  function OrderReply(cfg: Config, w: World, o: Replies): WriteReply {
    match Accepted(cfg, w, o)
    case None => Refused
    case Some(a) => if a.stored then Applied else Unacked
  }

  /** The calls of one creating pass, in order. */
  function CallsOf(cfg: Config, w: World, o: Replies, path: string, name: string): seq<VT.Action>
    requires Creates(w, o)
  {
    if Stripped(o).None? then []
    else if !o.existsRead then [VT.Check(name, false)]
    else if path in w.vault.kv then [VT.Check(name, true), LastCall(cfg, w, o, name)]
    else if !o.tokenWrite.Applied? then [VT.Check(name, true), VT.Write(name, o.tokenWrite)]
    else [VT.Check(name, true), VT.Write(name, Applied), LastCall(cfg, w, o, name)]
  }

  function LastCall(cfg: Config, w: World, o: Replies, name: string): VT.Action {
    if OrdersVM(cfg, w, o) then VT.Order(name, OrderReply(cfg, w, o)) else VT.GiveUp(name)
  }

  /** The state behind the calls: the path as the pass leaves it, the machine finished when its order
      was recorded and starting over otherwise, and every other machine as before. */
  ghost predicate Follows(cfg: Config, w: World, o: Replies, path: string, name: string, s: VT.State, s': VT.State)
    requires name in s.workers
  {
    var accepted := Accepted(cfg, w, o);
    && s'.path == TokenAt(Pass(cfg, w, o).0, path)
    && s'.workers == s.workers[name := VT.Worker(
         s.workers[name].token,
         if accepted.Some? && accepted.value.stored then VT.Finished else VT.Start,
         s.workers[name].ordered || accepted.Some?)]
  }

  lemma NoCalls(s: VT.State)
    ensures VT.Acts(s, []) == s
  {}

  lemma OneCall(s: VT.State, a: VT.Action)
    ensures VT.Acts(s, [a]) == VT.Act(s, a)
  {
    assert [a][..0] == [];
  }

  lemma TwoCalls(s: VT.State, a: VT.Action, b: VT.Action)
    ensures VT.Acts(s, [a, b]) == VT.Act(VT.Act(s, a), b)
  {
    assert [a, b][..1] == [a];
    OneCall(s, a);
  }

  lemma ThreeCalls(s: VT.State, a: VT.Action, b: VT.Action, c: VT.Action)
    ensures VT.Acts(s, [a, b, c]) == VT.Act(VT.Act(VT.Act(s, a), b), c)
  {
    assert [a, b, c][..2] == [a, b];
    TwoCalls(s, a, b);
  }

  /** What the pass does to the path, and that an order takes the token to be there. */
  lemma PassPath(cfg: Config, w: World, o: Replies, path: string)
    requires Creates(w, o) && cfg.vault && o.config == Rke2Config(path)
    ensures TokenAt(Pass(cfg, w, o).0, path) ==
              if Stripped(o).None? || !o.existsRead || path in w.vault.kv || o.tokenWrite.Refused? then TokenAt(w, path)
              else Some(Stripped(o).value)
    ensures OrdersVM(cfg, w, o) ==> Stripped(o).Some? && o.existsRead && (path in w.vault.kv || o.tokenWrite.Applied?)
    ensures Accepted(cfg, w, o).Some? ==> OrdersVM(cfg, w, o)
  {}

  /** The end of a pass that has the token in place. */
  lemma LastCallFollows(cfg: Config, w: World, o: Replies, path: string, name: string, s0: VT.State, s: VT.State)
    requires Creates(w, o) && name in s0.workers && s0.workers[name].phase == VT.Start
    requires s.path == TokenAt(Pass(cfg, w, o).0, path)
    requires s.workers == s0.workers[name := s0.workers[name].(phase := VT.TokenThere)]
    ensures Follows(cfg, w, o, path, name, s0, VT.Act(s, LastCall(cfg, w, o, name)))
  {
    var after := VT.Act(s, LastCall(cfg, w, o, name));
    assert after.workers.Keys == s0.workers.Keys;
    assert forall other :: other in s0.workers && other != name ==> after.workers[other] == s0.workers[other];
  }

  /** A pass is a sequence of these actions. */
  lemma PassIsCalls(cfg: Config, w: World, o: Replies, path: string, name: string, s: VT.State)
    requires Creates(w, o) && cfg.vault && o.config == Rke2Config(path)
    requires name in s.workers && s.workers[name].phase == VT.Start && s.path == TokenAt(w, path)
    requires Stripped(o).Some? ==> s.workers[name].token == Stripped(o).value
    ensures Follows(cfg, w, o, path, name, s, VT.Acts(s, CallsOf(cfg, w, o, path, name)))
  {
    PassPath(cfg, w, o, path);
    var check, last := VT.Check(name, true), LastCall(cfg, w, o, name);
    if Stripped(o).None? {
      NoCalls(s);
      assert s.workers == s.workers[name := s.workers[name]];
    } else if !o.existsRead {
      OneCall(s, VT.Check(name, false));
      assert s.workers == s.workers[name := s.workers[name]];
    } else if path in w.vault.kv {
      TwoCalls(s, check, last);
      LastCallFollows(cfg, w, o, path, name, s, VT.Act(s, check));
    } else if !o.tokenWrite.Applied? {
      TwoCalls(s, check, VT.Write(name, o.tokenWrite));
      assert s.workers[name].(phase := VT.PathAbsent).(phase := VT.Start) == s.workers[name];
    } else {
      WritingPass(cfg, w, o, path, name, s);
    }
  }

  lemma WritingPass(cfg: Config, w: World, o: Replies, path: string, name: string, s: VT.State)
    requires Creates(w, o) && cfg.vault && o.config == Rke2Config(path)
    requires name in s.workers && s.workers[name].phase == VT.Start && s.path == TokenAt(w, path)
    requires Stripped(o).Some? && s.workers[name].token == Stripped(o).value
    requires o.existsRead && path !in w.vault.kv && o.tokenWrite.Applied?
    ensures Follows(cfg, w, o, path, name, s, VT.Acts(s, CallsOf(cfg, w, o, path, name)))
  {
    PassPath(cfg, w, o, path);
    var check, write := VT.Check(name, true), VT.Write(name, Applied);
    var written := VT.Act(VT.Act(s, check), write);
    ThreeCalls(s, check, write, LastCall(cfg, w, o, name));
    assert written.workers == s.workers[name := s.workers[name].(phase := VT.TokenThere)];
    LastCallFollows(cfg, w, o, path, name, s, written);
  }
}
