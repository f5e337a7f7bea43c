/** Agreement among members that run the code: nothing is assumed of their reports except that they
    are theirs. */
module Network {
  import opened Types
  import opened Node
  import opened NodeRuns
  import opened Agreement
  import opened OwnReports
  import opened ClosedPolls

  /** A member that runs the code, and everything that happens to it. */
  datatype Member = Member(cfg: Config, events: seq<NodeEvent>)

  /** The members that run the code. All others are faulty, and may send anything to anybody. */
  type Net = map<Key, Member>

  ghost predicate Said(m: Member, e: nat, r: Result) {
    exists i: nat :: ReportedAt(m.cfg, m.events, i, e, r)
  }

  /** Reports about e come from members, and a report that names a member running the code was made
      by that member. */
  ghost predicate AuthenticAt(net: Net, members: set<Key>, e: nat, ev: NodeEvent) {
    ev.ResultMsg? && ev.epoch == e ==> ev.peer in members && (ev.peer in net ==> Said(net[ev.peer], e, ev.result))
  }

  ghost predicate Authentic(net: Net, members: set<Key>, e: nat) {
    && net.Keys <= members
    && (forall k :: k in net ==> net[k].cfg.key == k)
    && (forall k, i :: k in net && 0 <= i < |net[k].events| ==> AuthenticAt(net, members, e, net[k].events[i]))
  }

  /** No member running the code accepts a ballot for e after its own first report about it. */
  ghost predicate PollsClose(net: Net, e: nat) {
    forall k :: k in net ==> PollCloses(net[k].cfg, net[k].events, e)
  }

  /** What a member running the code says about e; `other` if it says nothing. */
  ghost function Word(net: Net, e: nat, other: Result, k: Key): (r: Result)
    ensures k in net && (exists x :: Said(net[k], e, x)) ==> Said(net[k], e, r)
    ensures r == other || (k in net && Said(net[k], e, r))
  {
    if k in net && exists x :: Said(net[k], e, x) then
      var x :| Said(net[k], e, x);
      x
    else other
  }

  lemma OneWord(net: Net, e: nat, other: Result, k: Key, r: Result)
    requires PollsClose(net, e) && k in net && Said(net[k], e, r)
    ensures Word(net, e, other, k) == r
  {
    var m := net[k];
    var w := Word(net, e, other, k);
    assert Said(m, e, w);
    var i: nat :| ReportedAt(m.cfg, m.events, i, e, r);
    var j: nat :| ReportedAt(m.cfg, m.events, j, e, w);
    assert ReportsAbout(m.cfg, m.events, i, e) && ReportsAbout(m.cfg, m.events, j, e);
    OneReport(m.cfg, m.events, e, i, j);
  }

  /** What a member running the code records is sound: others' reports are their word, its own too. */
  lemma RecordsWords(net: Net, members: set<Key>, e: nat, other: Result, k: Key)
    requires Authentic(net, members, e) && PollsClose(net, e) && k in net
    ensures Truthful(net[k].cfg, net[k].events, e, members, members - net.Keys, p => Word(net, e, other, p))
  {
    var c, es := net[k].cfg, net[k].events;
    forall i | 0 <= i < |es|
      ensures TruthfulAt(c, From(c, es[..i]), es[i], e, members, members - net.Keys, p => Word(net, e, other, p))
    {
      RecordsWord(net, members, e, other, k, i);
    }
  }

  lemma RecordsWord(net: Net, members: set<Key>, e: nat, other: Result, k: Key, i: nat)
    requires Authentic(net, members, e) && PollsClose(net, e) && k in net && i < |net[k].events|
    ensures var c, es := net[k].cfg, net[k].events;
      TruthfulAt(c, From(c, es[..i]), es[i], e, members, members - net.Keys, p => Word(net, e, other, p))
  {
    var c, es := net[k].cfg, net[k].events;
    var r := Recorded(c, From(c, es[..i]), es[i]);
    if r.Some? && r.value.epoch == e {
      if es[i].ResultMsg? {
        assert AuthenticAt(net, members, e, es[i]);
        if es[i].peer in net {
          OneWord(net, e, other, es[i].peer, es[i].result);
        }
      } else {
        OwnKey(c, From(c, es[..i]), es[i]);
        assert ReportedAt(c, es, i, e, r.value.result);
        OneWord(net, e, other, k, r.value.result);
      }
    }
  }

  lemma OwnKey(c: Config, s: NodeState, ev: NodeEvent)
    requires OwnReport(c, s, ev).Some?
    ensures OwnReport(c, s, ev).value.peer == c.key
  {
  }

  /** Members running the code, fewer than a third of the others, everybody online whenever k1 or k2
      gets a report about e, and nobody accepting a ballot for e after reporting about it. */
  ghost predicate Assured(net: Net, members: set<Key>, e: nat, k1: Key, k2: Key) {
    && Authentic(net, members, e) && PollsClose(net, e) && 3 * |members - net.Keys| < |members|
    && k1 in net && k2 in net
    && AllOnline(net[k1].events, e, |members|) && AllOnline(net[k2].events, e, |members|)
  }

  /** Then whenever k1 and k2, or k1 twice, begin epoch e from their own books, they seat the same
      witnesses and the same queue, whether or not they ever catch up. */
  lemma MemberSeatsAgree(net: Net, members: set<Key>, e: nat, k1: Key, i1: nat, list1: Result,
                         k2: Key, i2: nat, list2: Result)
    requires Assured(net, members, e, k1, k2)
    requires SeatedAt(net[k1].cfg, net[k1].events, i1, e, list1) && SeatedAt(net[k2].cfg, net[k2].events, i2, e, list2)
    ensures list1 == list2
  {
    RecordsWords(net, members, e, [], k1);
    RecordsWords(net, members, e, [], k2);
    SeatsAgree(net[k1].cfg, net[k1].events, i1, list1, net[k2].cfg, net[k2].events, i2, list2,
               e, members, members - net.Keys, p => Word(net, e, [], p));
  }

  /** In no member's run a report timer for e fires, its ballots for e come from members, all online, and it
      never falls back to an earlier epoch. */
  ghost predicate AllPunctual(net: Net, members: set<Key>, e: nat) {
    forall k :: k in net ==> Punctual(net[k].cfg, net[k].events, e, members) && Onward(net[k].cfg, net[k].events)
  }

  lemma PunctualPollsClose(net: Net, members: set<Key>, e: nat)
    requires AllPunctual(net, members, e)
    ensures PollsClose(net, e)
  {
    forall k | k in net ensures PollCloses(net[k].cfg, net[k].events, e) {
      PunctualPollCloses(net[k].cfg, net[k].events, e, members);
    }
  }

  /** What assures agreement can be checked beforehand. */
  lemma PunctualAssured(net: Net, members: set<Key>, e: nat, k1: Key, k2: Key)
    requires Authentic(net, members, e) && AllPunctual(net, members, e) && 3 * |members - net.Keys| < |members|
    requires k1 in net && AllOnline(net[k1].events, e, |members|)
    requires k2 in net && AllOnline(net[k2].events, e, |members|)
    ensures Assured(net, members, e, k1, k2)
  {
    PunctualPollsClose(net, members, e);
  }

  /** Agreement: with fewer than a third of the members faulty, everybody online when reports and ballots
      come in, and no report timer firing, two members that run the code and reach epoch e by themselves
      seated the same list. */
  lemma MembersAgree(net: Net, members: set<Key>, e: nat, k1: Key, k2: Key) returns (i1: nat, i2: nat, list: Result)
    requires Authentic(net, members, e) && AllPunctual(net, members, e) && 3 * |members - net.Keys| < |members|
    requires k1 in net && AllOnline(net[k1].events, e, |members|) && NeverBootstrapped(net[k1].events)
    requires k2 in net && AllOnline(net[k2].events, e, |members|) && NeverBootstrapped(net[k2].events)
    requires 1 <= e <= From(net[k1].cfg, net[k1].events).epoch.number
    requires e <= From(net[k2].cfg, net[k2].events).epoch.number
    ensures SeatedAt(net[k1].cfg, net[k1].events, i1, e, list)
    ensures SeatedAt(net[k2].cfg, net[k2].events, i2, e, list)
  {
    PunctualAssured(net, members, e, k1, k2);
    EveryEpochWasSeated(net[k1].cfg, net[k1].events, e);
    EveryEpochWasSeated(net[k2].cfg, net[k2].events, e);
    i1, list :| SeatedAt(net[k1].cfg, net[k1].events, i1, e, list);
    var list2;
    i2, list2 :| SeatedAt(net[k2].cfg, net[k2].events, i2, e, list2);
    MemberSeatsAgree(net, members, e, k1, i1, list, k2, i2, list2);
  }
}
