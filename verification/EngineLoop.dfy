/** The main loop of the engine object: whatever comes in, the object goes through the steps that runs are
    made of, so what is proved of engine runs holds of it. */
module EngineLoop {
  import opened Types
  import opened Node
  import opened NodeRuns
  import opened Agreement
  import opened BlockCache
  import opened Engine
  import opened EngineRuns
  import opened EngineRefinement
  import opened EngineClass

  /** The event that came in, with what the node drew or sent in answer. */
  ghost predicate Answers(e: EngineEvent, done: EngineEvent) {
    match e
    case OwnVote(_, online) => done.OwnVote? && done.online == online
    case ResultTimer(_) => done.ResultTimer?
    case FromPeer(k, m, online) => exists sent :: done == FromPeer(k, WithSent(m, sent), online)
    case _ => done == e
  }

  /** What it drew or sent is what the code draws or sends. */
  ghost predicate GenuineStep(env: Env, s: EngineState, done: EngineEvent) {
    match done
    case FromPeer(k, m, online) => s.stuck || SentOnMsg(env, s, k, m, online, if m.VoteMsg? then m.sent else None)
    case ResultTimer(sent) => SentOnTimer(env.cfg, s.node, sent)
    case _ => true
  }

  /** Every member is a peer, and every ballot can be drawn. */
  ghost predicate Fit(env: Env, s: EngineState) {
    GoodScores(s.node) && forall k :: k in env.cfg.peerKeys ==> k in s.node.peers
  }

  lemma {:induction false} RunKeepsScores(c: Config, s: NodeState, es: seq<NodeEvent>)
    requires GoodScores(s)
    ensures GoodScores(NodeRun(c, s, es)) && NodeRun(c, s, es).peers.Keys == s.peers.Keys
  {
    if es != [] {
      RunKeepsScores(c, s, es[..|es|-1]);
      ScoreStep(c, NodeRun(c, s, es[..|es|-1]), es[|es|-1]);
    }
  }

  lemma StaysFit(env: Env, s: EngineState, e: EngineEvent)
    requires EngineInv(env, s) && Fit(env, s)
    ensures Fit(env, EngineStep(env, s, e))
  {
    StepRefines(env, s, e);
    RunKeepsScores(env.cfg, s.node, Felt(env, s, e));
  }

  lemma Unanswered(e: EngineEvent)
    ensures Answers(e, e)
  {
    if e.FromPeer? {
      assert e == FromPeer(e.signer, WithSent(e.msg, if e.msg.VoteMsg? then e.msg.sent else None), e.online);
    }
  }

  // ---- one event

  method HandleNotice(engine: DDPoAEngine, e: EngineEvent)
    requires engine.Valid() && !engine.stuck
    requires e.BlockValid? || e.BlockInvalid? || e.BlockCommitted?
    modifies engine, engine.node, engine.node.epoch, engine.node.voting
    ensures engine.node.Valid() && (fresh(engine.node.epoch) || engine.node.epoch == old(engine.node.epoch))
    ensures engine.State() == EngineStep(engine.Environment(), old(engine.State()), e)
  {
    match e
    case BlockValid(id) => engine.HandleValidBlock(id);
    case BlockInvalid(id) => var ok := engine.HandleInvalidBlock(id);
    case BlockCommitted(id) => engine.HandleCommittedBlock(id);
  }

  method HandleBlock(engine: DDPoAEngine, e: EngineEvent)
    requires engine.Valid() && !engine.stuck && e.BlockNew?
    modifies engine, engine.node, engine.blockCache
    ensures engine.node.Valid() && engine.node.epoch == old(engine.node.epoch)
    ensures engine.State() == EngineStep(engine.Environment(), old(engine.State()), e)
  {
    if Acceptable(engine.Environment(), engine.State(), e) {
      engine.HandleNewBlock(e.block, e.early, e.rested);
    }
  }

  method HandleMessage(engine: DDPoAEngine, e: EngineEvent) returns (done: EngineEvent)
    requires engine.Valid() && !engine.stuck && e.FromPeer?
    modifies engine, engine.node, engine.node.epoch, engine.node.voting
    ensures engine.node.Valid() && (fresh(engine.node.epoch) || engine.node.epoch == old(engine.node.epoch))
    ensures Answers(e, done) && GenuineStep(engine.Environment(), old(engine.State()), done)
    ensures engine.State() == EngineStep(engine.Environment(), old(engine.State()), done)
  {
    PartWellFormed(engine.blockCache.cache.vals, engine.store);
    var sent := engine.HandlePeerMessage(e.signer, e.msg, e.online);
    done := FromPeer(e.signer, WithSent(e.msg, sent), e.online);
  }

  lemma FinalizedStep(env: Env, s: EngineState)
    requires EngineInv(env, s) && !s.stuck
    ensures EngineStep(env, s, OwnBlockFinalized) == s.(waitingOwn := true)
  {
  }

  lemma EmptyStep(env: Env, s: EngineState)
    requires EngineInv(env, s) && !s.stuck
    ensures EngineStep(env, s, OwnSlotEmpty) == AdvanceSlot(env, Ask(s, BroadcastEmptySlot)).0
  {
  }

  lemma MissedStep(env: Env, s: EngineState)
    requires EngineInv(env, s) && !s.stuck
    ensures EngineStep(env, s, SlotMissed) == MissedSlot(env, s)
  {
  }

  method HandleOwn(engine: DDPoAEngine, e: EngineEvent)
    requires engine.Valid() && !engine.stuck && (e.OwnBlockFinalized? || e.OwnSlotEmpty? || e.SlotMissed?)
    modifies engine, engine.node, engine.node.epoch, engine.node.voting
    ensures engine.node.Valid() && (fresh(engine.node.epoch) || engine.node.epoch == old(engine.node.epoch))
    ensures engine.State() == EngineStep(engine.Environment(), old(engine.State()), e)
  {
    match e
    case OwnBlockFinalized =>
      FinalizedStep(engine.Environment(), engine.State());
      var payload := engine.FinalizeBlock();
    case OwnSlotEmpty =>
      EmptyStep(engine.Environment(), engine.State());
      engine.PassOwnSlot();
    case SlotMissed =>
      MissedStep(engine.Environment(), engine.State());
      engine.HandleMissedSlot();
  }

  method HandleVoting(engine: DDPoAEngine, e: EngineEvent) returns (done: EngineEvent)
    requires engine.Valid() && Fit(engine.Environment(), engine.State())
    requires e.ResultTimer? || (e.OwnVote? && !engine.stuck)
    modifies engine.node, engine.node.voting
    ensures engine.node.Valid() && engine.node.epoch == old(engine.node.epoch)
    ensures Answers(e, done) && GenuineStep(engine.Environment(), old(engine.State()), done)
    ensures engine.State() == EngineStep(engine.Environment(), old(engine.State()), done)
  {
    done := e;
    if e.ResultTimer? {
      var sent := engine.node.TimerFired();
      done := ResultTimer(sent);
    } else if ShouldVote(engine.node.Cfg(), engine.node.State(), e.online) {
      var ballot := engine.node.CastVote();
      done := OwnVote(ballot.value, e.online);
    }
  }

  /** The object stays valid, and its new value is the step's. */
  method Handle(engine: DDPoAEngine, e: EngineEvent) returns (done: EngineEvent)
    requires engine.Valid() && Fit(engine.Environment(), engine.State())
    modifies engine, engine.node, engine.node.epoch, engine.node.voting, engine.blockCache
    ensures engine.Valid() && Fit(engine.Environment(), engine.State())
    ensures fresh(engine.node.epoch) || engine.node.epoch == old(engine.node.epoch)
    ensures Answers(e, done) && GenuineStep(engine.Environment(), old(engine.State()), done)
    ensures engine.State() == EngineStep(engine.Environment(), old(engine.State()), done)
  {
    ghost var env, s := engine.Environment(), engine.State();
    done := e;
    Unanswered(e);
    if engine.stuck && !e.ResultTimer? {
    } else if e.BlockNew? {
      HandleBlock(engine, e);
    } else if e.BlockValid? || e.BlockInvalid? || e.BlockCommitted? {
      HandleNotice(engine, e);
    } else if e.FromPeer? {
      done := HandleMessage(engine, e);
    } else if e.OwnVote? || e.ResultTimer? {
      done := HandleVoting(engine, e);
    } else {
      HandleOwn(engine, e);
    }
    StaysFit(env, s, done);
  }

  // ---- the loop

  /** The counter of blocks under validation moved by the blocks sent for checking less the verdicts counted. */
  ghost predicate LedgerHolds(env: Env, s: EngineState, t: EngineState, done: seq<EngineEvent>)
    requires EngineInv(env, s)
  {
    Balanced(s, t, Verdicts(env, s, done))
  }

  lemma RunLedger(env: Env, s: EngineState, done: seq<EngineEvent>)
    requires EngineInv(env, s)
    ensures LedgerHolds(env, s, EngineRun(env, s, done), done)
  {
    ValidationLedger(env, s, done);
  }

  ghost predicate AllAnswered(es: seq<EngineEvent>, done: seq<EngineEvent>) {
    |done| == |es| && forall i :: 0 <= i < |es| ==> Answers(es[i], done[i])
  }

  lemma AnsweredNext(es: seq<EngineEvent>, done: seq<EngineEvent>, i: nat, next: EngineEvent)
    requires i < |es| && AllAnswered(es[..i], done) && Answers(es[i], next)
    ensures AllAnswered(es[..i+1], done + [next])
  {
    forall j | 0 <= j <= i ensures Answers(es[..i+1][j], (done + [next])[j]) {
      assert j < i ==> es[..i+1][j] == es[..i][j];
    }
  }

  /** The loop so far: the events it handled, and the run they make. */
  ghost predicate Processed(env: Env, s: EngineState, t: EngineState, es: seq<EngineEvent>, done: seq<EngineEvent>) {
    EngineInv(env, s) && t == EngineRun(env, s, done) && AllAnswered(es, done)
  }

  method ProcessNext(engine: DDPoAEngine, ghost s: EngineState, es: seq<EngineEvent>, i: nat, done: seq<EngineEvent>)
      returns (later: seq<EngineEvent>)
    requires engine.Valid() && Fit(engine.Environment(), engine.State())
    requires i < |es| && Processed(engine.Environment(), s, engine.State(), es[..i], done)
    modifies engine, engine.node, engine.node.epoch, engine.node.voting, engine.blockCache
    ensures engine.Valid() && Fit(engine.Environment(), engine.State())
    ensures fresh(engine.node.epoch) || engine.node.epoch == old(engine.node.epoch)
    ensures Processed(engine.Environment(), s, engine.State(), es[..i+1], later)
  {
    var next := Handle(engine, es[i]);
    RunSnoc(engine.Environment(), s, done, next);
    AnsweredNext(es, done, i, next);
    later := done + [next];
  }

  /** The loop itself. Its events make a run of the engine, so the counter of blocks under validation is right. */
  method ProcessAll(engine: DDPoAEngine, es: seq<EngineEvent>) returns (done: seq<EngineEvent>)
    requires engine.Valid() && Fit(engine.Environment(), engine.State())
    modifies engine, engine.node, engine.node.epoch, engine.node.voting, engine.blockCache
    ensures engine.Valid() && Fit(engine.Environment(), engine.State())
    ensures Processed(engine.Environment(), old(engine.State()), engine.State(), es, done)
    ensures LedgerHolds(engine.Environment(), old(engine.State()), engine.State(), done)
  {
    ghost var env, s := engine.Environment(), engine.State();
    done := [];
    var i := 0;
    while i < |es|
      invariant 0 <= i <= |es|
      invariant engine.Valid() && Fit(env, engine.State())
      invariant fresh(engine.node.epoch) || engine.node.epoch == old(engine.node.epoch)
      invariant Processed(env, s, engine.State(), es[..i], done)
    {
      done := ProcessNext(engine, s, es, i, done);
      i := i + 1;
    }
    assert es[..i] == es;
    RunLedger(env, s, done);
  }
}
