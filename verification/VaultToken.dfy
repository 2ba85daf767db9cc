/** The join token in Vault under interleaving (buildUserDataWithVault and createVM in
    internal/controller/waldurmachine_controller.go). Many machines of one cluster are created
    concurrently; the check whether the path exists and the write that follows are separate calls,
    and the steps of different machines mix freely. */
module VaultToken {
  import opened Prelude

  /** How far one machine's creation has got in the current pass; `Finished` once its order is recorded. */
  datatype Phase = Start | PathAbsent | TokenThere | Finished

  /** `token` is what stripping the machine's bootstrap data returned; `ordered` says that some order
      carrying its fetch script was accepted, known to the machine or not. */
  datatype Worker = Worker(token: string, phase: Phase, ordered: bool)

  /** The Vault path all machines of the cluster use, and the machines. */
  datatype State = State(path: Option<string>, workers: map<string, Worker>)

  /** The calls of a creating pass. An order may be accepted although the machine does not learn or
      record it, and the machine then starts over; so it does when the pass ends in between. */
  datatype Action =
    | Check(name: string, readable: bool)
    | Write(name: string, reply: WriteReply)
    | Order(name: string, reply: WriteReply)
    | GiveUp(name: string)

  function Move(s: State, name: string, phase: Phase): State
    requires name in s.workers
  {
    s.(workers := s.workers[name := s.workers[name].(phase := phase)])
  }

  /** One call of one machine. An action out of turn changes nothing. */
  function Act(s: State, a: Action): State {
    if a.name !in s.workers then s
    else match a
      case Check(name, readable) =>
        if s.workers[name].phase != Start || !readable then s
        else Move(s, name, if s.path.None? then PathAbsent else TokenThere)
      case Write(name, reply) =>
        if s.workers[name].phase != PathAbsent then s
        else
          var s1 := if reply.Refused? then s else s.(path := Some(s.workers[name].token));
          Move(s1, name, if reply.Applied? then TokenThere else Start)
      case Order(name, reply) =>
        if s.workers[name].phase != TokenThere then s
        else
          var s1 := if reply.Refused? then s else s.(workers := s.workers[name := s.workers[name].(ordered := true)]);
          Move(s1, name, if reply.Applied? then Finished else Start)
      case GiveUp(name) =>
        if s.workers[name].phase == Finished then s else Move(s, name, Start)
  }

  function Acts(s: State, actions: seq<Action>): State {
    if actions == [] then s else Act(Acts(s, actions[..|actions| - 1]), actions[|actions| - 1])
  }

  /** Every machine is at the start and the path does not exist. */
  predicate Init(s: State) {
    s.path.None? && forall name :: name in s.workers ==> s.workers[name].phase == Start && !s.workers[name].ordered
  }

  /** The node of an accepted order will fetch a usable token, and it is its own. The fetch script
      gives up on an empty one. */
  predicate FetchesOwnToken(s: State, name: string)
    requires name in s.workers
  {
    s.path == Some(s.workers[name].token) && s.workers[name].token != ""
  }

  predicate Safe(s: State) {
    forall name :: name in s.workers && s.workers[name].ordered ==> FetchesOwnToken(s, name)
  }

  /** All bootstrap data of the cluster carries the same token, and it is not empty. */
  predicate TokensAgree(s: State) {
    && (forall a, b :: a in s.workers && b in s.workers ==> s.workers[a].token == s.workers[b].token)
    && (forall a :: a in s.workers ==> s.workers[a].token != "")
  }

  predicate TokenInv(s: State) {
    && TokensAgree(s)
    && (s.path.Some? ==> forall name :: name in s.workers ==> s.path.value == s.workers[name].token)
    && (forall name :: name in s.workers && (s.workers[name].phase == TokenThere || s.workers[name].ordered) ==> s.path.Some?)
  }

  lemma ActKeeps(s: State, a: Action)
    requires TokenInv(s)
    ensures TokenInv(Act(s, a))
  {}

  /** With agreeing tokens, for every interleaving: the path is absent or holds that token, and no
      order is accepted before it is there. */
  lemma {:induction false} TokenInPlace(s: State, actions: seq<Action>)
    requires Init(s) && TokensAgree(s)
    ensures TokenInv(Acts(s, actions)) && Safe(Acts(s, actions))
  {
    if actions != [] {
      TokenInPlace(s, actions[..|actions| - 1]);
      ActKeeps(Acts(s, actions[..|actions| - 1]), actions[|actions| - 1]);
    }
  }

  /** Two machines with different tokens: the second writes first, the first then finds the path
      there, skips its write, and its node fetches the other token. */
  lemma DifferentTokensFail(s: State, a: string, b: string)
    requires Init(s) && a in s.workers && b in s.workers && s.workers[a].token != s.workers[b].token
    ensures !Safe(Acts(s, [Check(b, true), Write(b, Applied), Check(a, true), Order(a, Applied)]))
  {
    var w := [Check(b, true), Write(b, Applied), Check(a, true), Order(a, Applied)];
    var s1 := Act(s, w[0]);
    var s2 := Act(s1, w[1]);
    var s3 := Act(s2, w[2]);
    var s4 := Act(s3, w[3]);
    FourActs(s, w);
    assert s4.workers[a].ordered && s4.path == Some(s.workers[b].token) && s4.workers[a].token == s.workers[a].token;
    assert !FetchesOwnToken(s4, a);
  }

  lemma FourActs(s: State, w: seq<Action>)
    requires |w| == 4
    ensures Acts(s, w) == Act(Act(Act(Act(s, w[0]), w[1]), w[2]), w[3])
  {
    assert w[..3][..2] == w[..2] && w[..2][..1] == w[..1] && w[..1][..0] == [];
    assert Acts(s, w[..1]) == Act(s, w[0]);
    assert Acts(s, w[..2]) == Act(Act(s, w[0]), w[1]);
    assert Acts(s, w[..3]) == Act(Act(Act(s, w[0]), w[1]), w[2]);
  }

  lemma ThreeActs(s: State, w: seq<Action>)
    requires |w| == 3
    ensures Acts(s, w) == Act(Act(Act(s, w[0]), w[1]), w[2])
  {
    assert w[..2][..1] == w[..1] && w[..1][..0] == [];
    assert Acts(s, w[..1]) == Act(s, w[0]);
    assert Acts(s, w[..2]) == Act(Act(s, w[0]), w[1]);
  }

  /** A machine whose bootstrap data has no token stores the empty one, and its node cannot join. */
  lemma EmptyTokenFails(s: State, a: string)
    requires Init(s) && a in s.workers && s.workers[a].token == ""
    ensures !Safe(Acts(s, [Check(a, true), Write(a, Applied), Order(a, Applied)]))
  {
    var w := [Check(a, true), Write(a, Applied), Order(a, Applied)];
    ThreeActs(s, w);
    assert Acts(s, w).workers[a].ordered && !FetchesOwnToken(Acts(s, w), a);
  }

  /** Safety under every interleaving is exactly agreement of the tokens the machines start with. */
  lemma SafeExactly(s: State)
    requires Init(s)
    ensures (forall actions :: Safe(Acts(s, actions))) <==> TokensAgree(s)
  {
    if TokensAgree(s) {
      forall actions ensures Safe(Acts(s, actions)) {
        TokenInPlace(s, actions);
      }
    } else if a, b :| a in s.workers && b in s.workers && s.workers[a].token != s.workers[b].token {
      DifferentTokensFail(s, a, b);
    } else {
      var a :| a in s.workers && s.workers[a].token == "";
      EmptyTokenFails(s, a);
    }
  }
}
