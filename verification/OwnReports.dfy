/** What a node itself reports about an election: when, and how often. */
module OwnReports {
  import opened Types
  import opened PyDict
  import opened VotingSystem
  import opened Node
  import opened NodeRuns
  import opened Agreement

  /** The event makes the node send exactly what its code sends. */
  ghost predicate Genuine(c: Config, s: NodeState, ev: NodeEvent) {
    match ev
    case BallotMsg(p, n, votes, online, sent) => SentOnVote(c, s, p, n, votes, online, sent)
    case TimerFired(sent) => SentOnTimer(c, s, sent)
    case _ => true
  }

  /** A run of the code: whatever arrives, the node's own messages are genuine. */
  ghost predicate GenuineRun(c: Config, es: seq<NodeEvent>) {
    forall i :: 0 <= i < |es| ==> Genuine(c, From(c, es[..i]), es[i])
  }

  /** The result that this event makes the node broadcast, if any. */
  function OwnReport(c: Config, s: NodeState, ev: NodeEvent): Option<Report> {
    if ev.ResultMsg? then None else Recorded(c, s, ev)
  }

  /** The i-th event of the run makes the node report about epoch e. */
  ghost predicate ReportsAbout(c: Config, es: seq<NodeEvent>, i: nat, e: nat) {
    i < |es| && var r := OwnReport(c, From(c, es[..i]), es[i]); r.Some? && r.value.epoch == e
  }

  /** The i-th event of the run makes the node report r about epoch e. */
  ghost predicate ReportedAt(c: Config, es: seq<NodeEvent>, i: nat, e: nat, r: Result) {
    i < |es| && OwnReport(c, From(c, es[..i]), es[i]) == Some(Report(c.key, e, r))
  }

  /** A ballot is stored: the epoch is the next one and the sender's first ballot for it. */
  predicate Accepts(s: NodeState, ev: NodeEvent) {
    ev.BallotMsg? && !Ignored(s, ev.peer, ev.epoch)
  }

  ghost predicate AcceptsAt(c: Config, es: seq<NodeEvent>, m: nat, e: nat) {
    m < |es| && Accepts(From(c, es[..m]), es[m]) && es[m].epoch == e
  }

  // ---- the timer

  /** The event neither stores a ballot nor is the timer firing. */
  ghost predicate QuietAt(c: Config, es: seq<NodeEvent>, m: nat)
    requires m < |es|
  {
    !Accepts(From(c, es[..m]), es[m]) && !es[m].TimerFired?
  }

  ghost predicate Quiet(c: Config, es: seq<NodeEvent>, i: nat, k: nat)
    requires k <= |es|
  {
    forall m :: i <= m < k ==> QuietAt(c, es, m)
  }

  lemma TimerStays(c: Config, s: NodeState, ev: NodeEvent)
    requires !Accepts(s, ev) && !ev.TimerFired?
    ensures NodeStep(c, s, ev).timer == s.timer
  {
  }

  lemma TimerRunsOn(c: Config, es: seq<NodeEvent>, k: nat)
    requires k < |es| && QuietAt(c, es, k)
    ensures From(c, es[..k+1]).timer == From(c, es[..k]).timer
  {
    NextPrefix(c, es, k);
    TimerStays(c, From(c, es[..k]), es[k]);
  }

  lemma {:induction false} TimerKeepsRunning(c: Config, es: seq<NodeEvent>, i: nat, k: nat)
    requires i <= k <= |es| && Quiet(c, es, i, k)
    ensures From(c, es[..k]).timer == From(c, es[..i]).timer
  {
    if i < k {
      var n := k - 1;
      TimerKeepsRunning(c, es, i, n);
      TimerRunsOn(c, es, n);
      assert n + 1 == k;
    }
  }

  /** The ballot is enough to count, but the set is not complete yet. */
  predicate StartsTimer(c: Config, s: NodeState, ev: NodeEvent)
    requires ev.BallotMsg?
  {
    var t := Balloted(s, ev.peer, ev.epoch, ev.votes);
    Accepts(s, ev) && !AllBallots(c, t, ev.epoch, ev.online) && EnoughBallots(c, t, ev.epoch, ev.online)
  }

  ghost predicate StartsAt(c: Config, es: seq<NodeEvent>, m: nat, e: nat) {
    m < |es| && es[m].BallotMsg? && es[m].epoch == e && StartsTimer(c, From(c, es[..m]), es[m])
  }

  lemma TimerCause(c: Config, s: NodeState, ev: NodeEvent, e: nat)
    requires NodeStep(c, s, ev).timer == Some(e) && (Accepts(s, ev) || ev.TimerFired?)
    ensures ev.BallotMsg? && ev.epoch == e && StartsTimer(c, s, ev)
  {
  }

  lemma BallotStartsTimer(c: Config, s: NodeState, ev: NodeEvent)
    requires ev.BallotMsg? && StartsTimer(c, s, ev)
    ensures NodeStep(c, s, ev).timer == Some(ev.epoch)
  {
  }

  lemma QuietNext(c: Config, es: seq<NodeEvent>, i: nat, k: nat)
    requires k < |es| && Quiet(c, es, i, k) && QuietAt(c, es, k)
    ensures Quiet(c, es, i, k + 1)
  {
  }

  /** A running timer was started by an accepted ballot, and nothing has stopped it since. */
  lemma {:induction false} TimerSetBy(c: Config, es: seq<NodeEvent>, j: nat, e: nat) returns (m: nat)
    requires j <= |es| && From(c, es[..j]).timer == Some(e)
    ensures m < j && StartsAt(c, es, m, e) && Quiet(c, es, m + 1, j)
  {
    var n := j - 1;
    assert n + 1 == j;
    if QuietAt(c, es, n) {
      TimerRunsOn(c, es, n);
      m := TimerSetBy(c, es, n, e);
      QuietNext(c, es, m + 1, n);
    } else {
      m := n;
      TimerStartedAt(c, es, n, e);
    }
  }

  lemma TimerStartedAt(c: Config, es: seq<NodeEvent>, n: nat, e: nat)
    requires n < |es| && !QuietAt(c, es, n) && From(c, es[..n+1]).timer == Some(e)
    ensures StartsAt(c, es, n, e)
  {
    NextPrefix(c, es, n);
    TimerCause(c, From(c, es[..n]), es[n], e);
  }

  lemma TimerSince(c: Config, es: seq<NodeEvent>, m: nat, j: nat, e: nat)
    requires m < j <= |es| && StartsAt(c, es, m, e) && Quiet(c, es, m + 1, j)
    ensures From(c, es[..j]).timer == Some(e)
  {
    NextPrefix(c, es, m);
    BallotStartsTimer(c, From(c, es[..m]), es[m]);
    TimerKeepsRunning(c, es, m + 1, j);
  }

  // ---- exactly when a node reports

  /** The ballots that the node holds for e can be counted. */
  ghost predicate Countable(c: Config, s: NodeState, e: nat) {
    e in s.voting.ballots && Decidable(c.stv, Values(s.voting.ballots[e]), c.peerKeys)
  }

  ghost predicate Completes(c: Config, s: NodeState, ev: NodeEvent)
    requires ev.BallotMsg?
  {
    var t := Balloted(s, ev.peer, ev.epoch, ev.votes);
    Accepts(s, ev) && AllBallots(c, t, ev.epoch, ev.online) && Countable(c, t, ev.epoch)
  }

  /** The j-th event is the ballot for e that completes the set, and the set can be counted. */
  ghost predicate CompletesAt(c: Config, es: seq<NodeEvent>, j: nat, e: nat) {
    j < |es| && es[j].BallotMsg? && es[j].epoch == e && Completes(c, From(c, es[..j]), es[j])
  }

  /** The j-th event is the firing of the timer that ballot m started, and the ballots can be counted. */
  ghost predicate FiresAt(c: Config, es: seq<NodeEvent>, m: nat, j: nat, e: nat) {
    && m < j < |es| && StartsAt(c, es, m, e) && Quiet(c, es, m + 1, j)
    && es[j].TimerFired? && Countable(c, From(c, es[..j]), e)
  }

  lemma BallotReports(c: Config, s: NodeState, ev: NodeEvent)
    requires Genuine(c, s, ev) && ev.BallotMsg?
    ensures OwnReport(c, s, ev).Some? <==> Completes(c, s, ev)
    ensures OwnReport(c, s, ev).Some? ==> OwnReport(c, s, ev).value.epoch == ev.epoch
  {
  }

  lemma TimerReports(c: Config, s: NodeState, ev: NodeEvent, e: nat)
    requires Genuine(c, s, ev) && ev.TimerFired?
    ensures OwnReport(c, s, ev).Some? && OwnReport(c, s, ev).value.epoch == e
       <==> s.timer == Some(e) && Countable(c, s, e)
  {
  }

  /** A run of the code reports about e exactly with a ballot that completes the set, or when the timer
      fires that an accepted ballot started and nothing stopped; and then the ballots can be counted. */
  lemma ReportsExactly(c: Config, es: seq<NodeEvent>, j: nat, e: nat)
    requires GenuineRun(c, es) && j < |es|
    ensures ReportsAbout(c, es, j, e) <==> CompletesAt(c, es, j, e) || exists m: nat :: FiresAt(c, es, m, j, e)
  {
    assert Genuine(c, From(c, es[..j]), es[j]);
    if es[j].BallotMsg? {
      BallotReports(c, From(c, es[..j]), es[j]);
    } else if es[j].TimerFired? {
      FiringReports(c, es, j, e);
    }
  }

  lemma FiringReports(c: Config, es: seq<NodeEvent>, j: nat, e: nat)
    requires GenuineRun(c, es) && j < |es| && es[j].TimerFired?
    ensures ReportsAbout(c, es, j, e) <==> exists m: nat :: FiresAt(c, es, m, j, e)
  {
    assert Genuine(c, From(c, es[..j]), es[j]);
    TimerReports(c, From(c, es[..j]), es[j], e);
    if ReportsAbout(c, es, j, e) {
      var m := TimerSetBy(c, es, j, e);
      assert FiresAt(c, es, m, j, e);
    }
    if m: nat :| FiresAt(c, es, m, j, e) {
      TimerSince(c, es, m, j, e);
    }
  }

  /** A report is not a quiet event. */
  lemma ReportIsLoud(c: Config, es: seq<NodeEvent>, i: nat, e: nat)
    requires ReportsAbout(c, es, i, e)
    ensures !QuietAt(c, es, i) && !StartsAt(c, es, i, e)
  {
  }

  /** After a report about e, a node reports about it again exactly when a later ballot for e completes
      the set, or starts a timer that fires. */
  lemma ReportsAgainExactly(c: Config, es: seq<NodeEvent>, i: nat, j: nat, e: nat)
    requires GenuineRun(c, es) && i < j < |es| && ReportsAbout(c, es, i, e)
    ensures ReportsAbout(c, es, j, e) <==>
      CompletesAt(c, es, j, e) || exists m: nat :: i < m && FiresAt(c, es, m, j, e)
  {
    ReportsExactly(c, es, j, e);
    ReportIsLoud(c, es, i, e);
    if m: nat :| FiresAt(c, es, m, j, e) {
      assert i < m;
    }
  }

  /** What it reports is the election of the ballots it then holds. */
  ghost predicate ElectionOf(c: Config, s: NodeState, e: nat, r: Result) {
    e in s.voting.ballots && IsElection(c.stv, c.hash, Values(s.voting.ballots[e]), c.peerKeys, e, r)
  }

  /** The node as it counts: with the ballot that is coming in, or as it is when the timer fires. */
  function Counting(c: Config, es: seq<NodeEvent>, j: nat): NodeState
    requires j < |es|
  {
    var s := From(c, es[..j]);
    if es[j].BallotMsg? then Balloted(s, es[j].peer, es[j].epoch, es[j].votes) else s
  }

  lemma ReportsElection(c: Config, es: seq<NodeEvent>, j: nat, e: nat, r: Result)
    requires GenuineRun(c, es) && ReportedAt(c, es, j, e, r)
    ensures ElectionOf(c, Counting(c, es, j), e, r)
  {
    assert Genuine(c, From(c, es[..j]), es[j]);
  }

  // ---- one report only

  /** After the node's first report about e, no ballot for e is accepted. */
  ghost predicate PollCloses(c: Config, es: seq<NodeEvent>, e: nat) {
    forall i, m :: i < m && ReportsAbout(c, es, i, e) ==> !AcceptsAt(c, es, m, e)
  }

  /** A later report comes after a later ballot, genuine or not. */
  lemma SecondReportNeedsBallot(c: Config, es: seq<NodeEvent>, i: nat, j: nat, e: nat) returns (m: nat)
    requires i < j && ReportsAbout(c, es, i, e) && ReportsAbout(c, es, j, e)
    ensures i < m <= j && AcceptsAt(c, es, m, e)
  {
    if es[j].BallotMsg? {
      m := j;
    } else {
      m := TimerSetBy(c, es, j, e);
      ReportIsLoud(c, es, i, e);
    }
  }

  lemma OneReport(c: Config, es: seq<NodeEvent>, e: nat, i: nat, j: nat)
    requires PollCloses(c, es, e) && ReportsAbout(c, es, i, e) && ReportsAbout(c, es, j, e)
    ensures i == j
  {
    if i < j {
      var m := SecondReportNeedsBallot(c, es, i, j, e);
    } else if j < i {
      var m := SecondReportNeedsBallot(c, es, j, i, e);
    }
  }
}
