/** The consensus node: voting, results and the change of epochs. */
module Node {
  import opened Types
  import opened Digest
  import opened PyDict
  import opened Voting
  import opened VotingSystem
  import opened Epoch
  import opened EpochRuns

  const VOTING_SLOTS: nat := 5

  datatype Phase = Idle | Election | Production | WaitingForBootstrap | CatchingUp

  /** What never changes while a node runs. */
  datatype Config = Config(key: Key, peerKeys: seq<Key>, slots: nat, hash: Hash, stv: Stv)

  /** The value of a node. `ready` holds the keys of the `ready_result` dict, whose values are all
      True; `timer` is the epoch whose result is broadcast when the pending timer fires. */
  datatype NodeState = NodeState(
    epoch: EpochState,
    phase: Phase,
    numSlots: nat,
    ready: set<nat>,
    timer: Option<nat>,
    voting: VotingState,
    peers: map<Key, Peer>)
  {
    function NextEpoch(): nat {
      epoch.number + 1
    }
  }

  /** `self.state = p`, except while catching up. */
  function Enter(s: NodeState, p: Phase): (t: NodeState)
    ensures t == s.(phase := t.phase)
  {
    if s.phase == CatchingUp then s else s.(phase := p)
  }

  // ---- voting

  predicate ShouldVote(c: Config, s: NodeState, online: nat) {
    (s.epoch.SlotsRemaining() <= VOTING_SLOTS || s.epoch.IsOver() || s.epoch.number == 0)
    && online > s.numSlots && !HasVoted(s.voting, c.key, s.NextEpoch())
  }

  function Vote(c: Config, s: NodeState, ballot: Ballot): NodeState {
    Enter(s, Election).(voting := AddBallot(s.voting, s.NextEpoch(), c.key, ballot))
  }

  function RecordOwn(c: Config, s: NodeState, e: nat, sent: Option<Result>): NodeState {
    if sent.None? then s else s.(voting := SetPeerResult(s.voting, e, c.key, sent.value))
  }

  predicate AllBallots(c: Config, s: NodeState, e: nat, online: nat) {
    online >= ConsensusAmount(c.slots, online) && |BallotsFor(s.voting, e).keys| >= online
  }

  predicate EnoughBallots(c: Config, s: NodeState, e: nat, online: nat) {
    |BallotsFor(s.voting, e).keys| >= ConsensusAmount(c.slots, online)
  }

  predicate Ignored(s: NodeState, peer: Key, e: nat) {
    e != s.NextEpoch() || HasVoted(s.voting, peer, e)
  }

  /** The ballot is stored and a pending timer is cancelled. */
  function Balloted(s: NodeState, peer: Key, e: nat, votes: Ballot): NodeState {
    s.(voting := AddBallot(s.voting, e, peer, votes), timer := None)
  }

  /** `handle_vote`; `sent` is the result it broadcasts, if it does and the calculation succeeds. */
  function HandleVote(c: Config, s: NodeState, peer: Key, e: nat, votes: Ballot, online: nat,
                      sent: Option<Result>): NodeState {
    if Ignored(s, peer, e) then s
    else
      var t := Balloted(s, peer, e, votes);
      if AllBallots(c, t, e, online) then RecordOwn(c, t, e, sent)
      else if EnoughBallots(c, t, e, online) then t.(timer := Some(e))
      else t
  }

  function TimerFires(c: Config, s: NodeState, sent: Option<Result>): NodeState {
    if s.timer.None? then s else RecordOwn(c, s, s.timer.value, sent).(timer := None)
  }

  /** What `broadcast_result(e)` sends: the election result of the stored ballots, or nothing exactly
      when there are none or the calculation raises. */
  ghost predicate SentFor(c: Config, v: VotingState, e: nat, sent: Option<Result>) {
    && (sent.Some? <==> e in v.ballots && Decidable(c.stv, Values(v.ballots[e]), c.peerKeys))
    && (sent.Some? ==> IsElection(c.stv, c.hash, Values(v.ballots[e]), c.peerKeys, e, sent.value))
  }

  /** `handle_vote` broadcasts exactly when this ballot completes the set. */
  ghost predicate SentOnVote(c: Config, s: NodeState, peer: Key, e: nat, votes: Ballot, online: nat,
                             sent: Option<Result>) {
    var t := Balloted(s, peer, e, votes);
    if !Ignored(s, peer, e) && AllBallots(c, t, e, online) then SentFor(c, t.voting, e, sent) else sent.None?
  }

  ghost predicate SentOnTimer(c: Config, s: NodeState, sent: Option<Result>) {
    if s.timer.Some? then SentFor(c, s.voting, s.timer.value, sent) else sent.None?
  }

  // ---- epochs

  /** `initialize_epoch`; false when it raises: no candidate list to slice, or nothing to delete. */
  function InitializeEpoch(s: NodeState, e: nat): (r: (NodeState, bool))
    ensures r.0.numSlots == s.numSlots && r.0.peers == s.peers && r.0.ready == s.ready
  {
    var t := Enter(s, Production).(epoch := NewEpoch(e, s.numSlots));
    if e !in s.voting.candidates then (t, false)
    else
      var kept := RemoveOld(s.voting);
      (t.(epoch := Seat(t.epoch, s.voting.candidates[e]), voting := kept.0), kept.1)
  }

  function FinalizeEpoch(s: NodeState): NodeState {
    Enter(s, Idle).(ready := if s.epoch.number >= 2 then s.ready - {s.epoch.number - 2} else s.ready)
  }

  /** Is a result reported `count` times decisive? The first epoch needs everybody. */
  predicate Decisive(c: Config, s: NodeState, count: nat, online: nat) {
    if s.epoch.number == 0 then count == online else count >= ConsensusAmount(c.slots, online)
  }

  function Reported(s: NodeState, peer: Key, e: nat, result: Result): NodeState {
    s.(voting := SetPeerResult(s.voting, e, peer, result))
  }

  function Winner(s: NodeState, e: nat): Result
    requires e in s.voting.results && s.voting.results[e].keys != []
  {
    MostCommon(Values(s.voting.results[e]))
  }

  /** The list that the reports for e now decide, if any. */
  function Verdict(c: Config, t: NodeState, e: nat, online: nat): Option<Result>
    requires e in t.voting.results && t.voting.results[e].keys != []
  {
    var w := Winner(t, e);
    if Decisive(c, t, multiset(Values(t.voting.results[e]))[w], online) then Some(w) else None
  }

  lemma ReportedHasKey(s: NodeState, peer: Key, e: nat, result: Result)
    ensures e in Reported(s, peer, e, result).voting.results
    ensures Reported(s, peer, e, result).voting.results[e].keys != []
  {
    assert peer in Reported(s, peer, e, result).voting.results[e].keys;
  }

  /** Does this report make its epoch ready, and with which candidate list? */
  function Decision(c: Config, s: NodeState, peer: Key, e: nat, result: Result, online: nat): Option<Result> {
    if e != s.NextEpoch() then None
    else
      ReportedHasKey(s, peer, e, result);
      Verdict(c, Reported(s, peer, e, result), e, online)
  }

  function Decided(s: NodeState, e: nat, w: Result): NodeState {
    s.(ready := s.ready + {e}, voting := SetCandidates(s.voting, e, w))
  }

  /** If a list is decided for e, e is ready, and begins at once when the slots of this epoch are used up. */
  function Settle(s: NodeState, e: nat, d: Option<Result>): (r: (NodeState, bool, bool))
    ensures r.0.numSlots == s.numSlots && r.0.peers == s.peers
  {
    if d.None? then (s, false, true)
    else
      var u := Decided(s, e, d.value);
      if !u.epoch.IsOver() then (u, false, true)
      else
        var n := InitializeEpoch(u, e);
        (n.0, n.1, n.1)
  }

  /** `handle_vote_result`: the state, whether a new epoch begins, and whether it returned normally. */
  function HandleVoteResult(c: Config, s: NodeState, peer: Key, e: nat, result: Result,
                            online: nat): (r: (NodeState, bool, bool))
    ensures r.0.numSlots == s.numSlots && r.0.peers == s.peers
  {
    if e != s.NextEpoch() then (s, false, true)
    else Settle(Reported(s, peer, e, result), e, Decision(c, s, peer, e, result, online))
  }

  /** `next_slot`; false when it raises. */
  function NextSlot(s: NodeState, hash: Hash, blockId: Id): (r: (NodeState, bool))
    ensures r.0.numSlots == s.numSlots && r.0.peers == s.peers
  {
    var t := s.(epoch := Increment(s.epoch, hash, blockId));
    if t.epoch.witnesses == [] || !t.epoch.IsOver() then (t, true)
    else
      var u := FinalizeEpoch(t);
      if u.NextEpoch() in u.ready then InitializeEpoch(u, u.NextEpoch()) else (u, true)
  }

  /** A node that catches up keeps doing so until it is bootstrapped. */
  lemma CatchingUpStays(s: NodeState, hash: Hash, blockId: Id)
    requires s.phase == CatchingUp
    ensures NextSlot(s, hash, blockId).0.phase == CatchingUp
  {
  }

  lemma SettleStays(s: NodeState, e: nat, d: Option<Result>)
    requires s.phase == CatchingUp
    ensures Settle(s, e, d).0.phase == CatchingUp
  {
  }

  lemma CatchingUpStaysOnResult(c: Config, s: NodeState, peer: Key, e: nat, result: Result, online: nat)
    requires s.phase == CatchingUp
    ensures HandleVoteResult(c, s, peer, e, result, online).0.phase == CatchingUp
  {
    SettleStays(Reported(s, peer, e, result), e, Decision(c, s, peer, e, result, online));
  }

  /** `bootstrap`. */
  function Bootstrap(s: NodeState, p: ConsensusData): NodeState {
    s.(numSlots := p.numSlots, epoch := Restore(p), phase := Production)
  }

  function DowngradeWitness(s: NodeState, k: Key): NodeState {
    s.(epoch := Downgrade(s.epoch, k))
  }

  // ---- reputation

  function Scaled(s: NodeState, k: Key, score: real): NodeState
    requires k in s.peers
  {
    s.(peers := s.peers[k := s.peers[k].(score := score)])
  }

  /** The peers dict has no entry for this key, and it is not one's own. */
  predicate Stranger(c: Config, s: NodeState, k: Key) {
    k != c.key && k !in s.peers
  }

  function Penalize(c: Config, s: NodeState, k: Key): NodeState {
    if k == c.key || k !in s.peers then s
    else
      var x := s.peers[k].score * 0.75;
      Scaled(s, k, if x > 0.0 then x else 0.0)
  }

  function Reward(c: Config, s: NodeState, k: Key): NodeState {
    if k == c.key || k !in s.peers then s
    else
      var x := s.peers[k].score * 1.075;
      Scaled(s, k, if x < 1.0 then x else 1.0)
  }

  function Seen(s: NodeState, k: Key): NodeState {
    if k !in s.peers then s else s.(peers := s.peers[k := s.peers[k].(online := true)])
  }

  function InitialPeers(keys: seq<Key>, me: Key): map<Key, Peer> {
    map k | k in keys :: Peer(1.0, k == me)
  }

  function InitialState(c: Config): NodeState {
    NodeState(NewEpoch(0, c.slots), Idle, c.slots, {}, None, VotingState(map[], map[], map[]),
              InitialPeers(c.peerKeys, c.key))
  }

  class DDPoANode {
    const key: Key
    const peerKeys: seq<Key>
    const hash: Hash
    const voting: VotingSystem
    var epoch: Epoch
    var state: Phase
    var numSlots: nat
    var readyResult: set<nat>
    var broadcastTimer: Option<nat>
    var peers: map<Key, Peer>

    function Cfg(): Config {
      Config(key, peerKeys, voting.numSlots, hash, voting.stv)
    }

    ghost predicate Valid()
      reads this
    {
      && voting.key == key && voting.peerKeys == peerKeys && voting.hash == hash
      && epoch.hash == hash
    }

    function State(): NodeState
      reads this, epoch, voting
    {
      NodeState(epoch.State(), state, numSlots, readyResult, broadcastTimer, voting.State(), peers)
    }

    constructor (key: Key, peerKeys: seq<Key>, slots: nat, hash: Hash, stv: Stv)
      ensures Valid() && fresh(epoch) && fresh(voting)
      ensures Cfg() == Config(key, peerKeys, slots, hash, stv) && State() == InitialState(Cfg())
    {
      this.key, this.peerKeys, this.hash := key, peerKeys, hash;
      var e := new Epoch(hash, 0, slots);
      var v := new VotingSystem(key, peerKeys, slots, hash, stv);
      epoch, voting := e, v;
      state, numSlots, readyResult, broadcastTimer := Idle, slots, {}, None;
      peers := InitialPeers(peerKeys, key);
    }

    /** `vote`; None when no ballot can be drawn. */
    method CastVote() returns (ballot: Option<Ballot>)
      requires Valid() && forall k :: k in peerKeys ==> k in peers
      modifies this, voting
      ensures Valid() && epoch == old(epoch)
      ensures ballot.Some? ==> CanDraw(peerKeys, Weights(peerKeys, old(peers)), ballot.value)
      ensures (forall k :: k in peerKeys ==> DrawWeight(old(peers)[k]) > 0.0) ==> ballot.Some?
      ensures ballot.None? ==> State() == old(State())
      ensures ballot.Some? ==> State() == Vote(Cfg(), old(State()), ballot.value)
    {
      ballot := voting.FillBallot(peers);
      if ballot.None? {
        return;
      }
      CountOwnBallot(ballot.value);
    }

    method CountOwnBallot(ballot: Ballot)
      requires Valid()
      modifies this, voting
      ensures Valid() && epoch == old(epoch)
      ensures State() == Vote(Cfg(), old(State()), ballot)
    {
      voting.AddPeerBallot(epoch.number + 1, key, ballot);
      if state != CatchingUp {
        state := Election;
      }
    }

    /** `broadcast_result`: the message sent, unless the calculation raises. */
    method BroadcastResult(e: nat) returns (sent: Option<Result>)
      requires Valid()
      modifies voting
      ensures State() == RecordOwn(Cfg(), old(State()), e, sent)
      ensures SentFor(Cfg(), old(voting.State()), e, sent)
    {
      var result := voting.CalculateResult(e);
      sent := if result.Returned? then Some(result.value) else None;
    }

    method HandlePeerVote(peer: Key, e: nat, votes: Ballot, online: nat) returns (sent: Option<Result>)
      requires Valid()
      modifies this, voting
      ensures Valid() && epoch == old(epoch)
      ensures State() == HandleVote(Cfg(), old(State()), peer, e, votes, online, sent)
      ensures SentOnVote(Cfg(), old(State()), peer, e, votes, online, sent)
    {
      sent := None;
      if e != epoch.number + 1 || HasVoted(voting.State(), peer, e) {
        return;
      }
      voting.AddPeerBallot(e, peer, votes);
      broadcastTimer := None;
      if AllBallots(Cfg(), State(), e, online) {
        sent := BroadcastResult(e);
      } else if EnoughBallots(Cfg(), State(), e, online) {
        broadcastTimer := Some(e);
      }
    }

    method TimerFired() returns (sent: Option<Result>)
      requires Valid()
      modifies this, voting
      ensures Valid() && epoch == old(epoch)
      ensures State() == TimerFires(Cfg(), old(State()), sent)
      ensures SentOnTimer(Cfg(), old(State()), sent)
    {
      sent := None;
      if broadcastTimer.Some? {
        sent := BroadcastResult(broadcastTimer.value);
        broadcastTimer := None;
      }
    }

    method Initialize(e: nat) returns (ok: bool)
      requires Valid()
      modifies this, voting
      ensures Valid() && fresh(epoch)
      ensures (State(), ok) == InitializeEpoch(old(State()), e)
    {
      epoch := new Epoch(hash, e, numSlots);
      if state != CatchingUp {
        state := Production;
      }
      if e !in voting.candidates {
        return false;
      }
      epoch.SetCandidatesAndWitnesses(voting.candidates[e]);
      ok := voting.RemoveOldEpochData();
    }

    method Finalize()
      modifies this
      ensures State() == FinalizeEpoch(old(State())) && epoch == old(epoch)
    {
      if state != CatchingUp {
        state := Idle;
      }
      if epoch.number >= 2 {
        readyResult := readyResult - {epoch.number - 2};
      }
    }

    method HandlePeerResult(peer: Key, e: nat, result: Result, online: nat) returns (newEpoch: bool, ok: bool)
      requires Valid()
      modifies this, voting
      ensures Valid() && (fresh(epoch) || epoch == old(epoch))
      ensures (State(), newEpoch, ok) == HandleVoteResult(Cfg(), old(State()), peer, e, result, online)
    {
      if e != epoch.number + 1 {
        return false, true;
      }
      voting.StorePeerResult(e, peer, result);
      assert peer in voting.results[e].keys;
      newEpoch, ok := ConcludeEpoch(e, online);
    }

    method ConcludeEpoch(e: nat, online: nat) returns (newEpoch: bool, ok: bool)
      requires Valid() && e in voting.results && voting.results[e].keys != []
      modifies this, voting
      ensures Valid() && (fresh(epoch) || epoch == old(epoch))
      ensures (State(), newEpoch, ok) == Settle(old(State()), e, Verdict(Cfg(), old(State()), e, online))
    {
      var winner, count := voting.GetConsensusResult(e);
      if Decisive(Cfg(), State(), count, online) {
        newEpoch, ok := SettleOn(e, winner);
      } else {
        newEpoch, ok := false, true;
      }
    }

    method SettleOn(e: nat, winner: Result) returns (newEpoch: bool, ok: bool)
      requires Valid()
      modifies this, voting
      ensures Valid() && (fresh(epoch) || epoch == old(epoch))
      ensures (State(), newEpoch, ok) == Settle(old(State()), e, Some(winner))
    {
      MarkReady(e, winner);
      if epoch.State().IsOver() {
        ok := Initialize(e);
        return ok, ok;
      }
      return false, true;
    }

    method MarkReady(e: nat, winner: Result)
      requires Valid()
      modifies this`readyResult, voting
      ensures Valid() && State() == Decided(old(State()), e, winner)
    {
      readyResult := readyResult + {e};
      voting.StoreCandidates(e, winner);
    }

    method AdvanceSlot(blockId: Id) returns (ok: bool)
      requires Valid()
      modifies this, epoch, voting
      ensures Valid() && (fresh(epoch) || epoch == old(epoch))
      ensures (State(), ok) == NextSlot(old(State()), hash, blockId)
    {
      var incremented := epoch.IncrementWitness(blockId);
      if !incremented {
        return true;
      }
      ok := true;
      if epoch.State().IsOver() {
        Finalize();
        if epoch.number + 1 in readyResult {
          ok := Initialize(epoch.number + 1);
        }
      }
    }

    method BootstrapFrom(p: ConsensusData)
      requires Valid()
      modifies this
      ensures Valid() && fresh(epoch)
      ensures State() == Bootstrap(old(State()), p)
    {
      numSlots := p.numSlots;
      epoch := new Epoch(hash, p.epoch, p.numSlots);
      epoch.SetCandidatesAndWitnesses(p.candidates);
      epoch.currentWitnessIdx := p.witnessIdx;
      state := Production;
    }

    /** False when the lookup of the peer raises. */
    method PenalizePeer(k: Key) returns (ok: bool)
      modifies this
      ensures State() == Penalize(Cfg(), old(State()), k) && epoch == old(epoch)
      ensures ok <==> !Stranger(Cfg(), old(State()), k)
    {
      if k == key {
        return true;
      }
      if k !in peers {
        return false;
      }
      var curr := peers[k].score;
      peers := peers[k := peers[k].(score := if curr * 0.75 > 0.0 then curr * 0.75 else 0.0)];
      return true;
    }

    method RewardPeer(k: Key) returns (ok: bool)
      modifies this
      ensures State() == Reward(Cfg(), old(State()), k) && epoch == old(epoch)
      ensures ok <==> !Stranger(Cfg(), old(State()), k)
    {
      if k == key {
        return true;
      }
      if k !in peers {
        return false;
      }
      var curr := peers[k].score;
      peers := peers[k := peers[k].(score := if curr * 1.075 < 1.0 then curr * 1.075 else 1.0)];
      return true;
    }

    /** False when the call never returns. */
    method DowngradePeer(k: Key) returns (returned: bool)
      requires Valid()
      modifies epoch
      ensures State() == DowngradeWitness(old(State()), k)
      ensures returned <==> !Hangs(old(State()).epoch, k)
    {
      returned := epoch.DowngradeWitness(k);
    }

    method SeePeer(k: Key) returns (ok: bool)
      modifies this
      ensures State() == Seen(old(State()), k) && epoch == old(epoch)
      ensures ok <==> k in old(peers)
    {
      if k !in peers {
        return false;
      }
      peers := peers[k := peers[k].(online := true)];
      return true;
    }
  }
}
