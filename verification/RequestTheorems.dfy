/** Requests and their answers in every reachable state. */
module RequestTheorems {
  import opened Bytes
  import opened Packets
  import opened System
  import opened Link
  import opened Invariants

  /** The packet that a client receives next either completes the waiter of the request it answers, with
      the reply type that request's decoder expects, or is a broadcast and completes nothing. */
  lemma RepliesFindTheirWaiters(s: State, c: u64)
    requires Reachable(s) && c in s.conns && s.conns[c].down != []
    ensures var k, p := s.conns[c].client, s.conns[c].down[0];
      var k' := AfterReceiving(k, p);
      match RequestId(p)
      case Some(rid) =>
        && rid in k.waiting && Answers(k.waiting[rid], p)
        && k'.completed == k.completed + [(k.waiting[rid], p)] && k'.waiting == k.waiting - {rid}
      case None => k'.completed == k.completed && k'.waiting == k.waiting
  {
    ReachableBase(s);
    OwnFacts(s, c);
    ReceiveKeepsFlow(s.conns[c]);
  }

  /** Every completed request got its own answer, and none was completed twice, in whatever order commands use
      the ids they have drawn. */
  lemma CompletedOnceAndRightly(s: State, c: u64, i: nat, j: nat)
    requires Reachable(s) && c in s.conns && i < j < |s.conns[c].client.completed|
    ensures var completed := s.conns[c].client.completed;
      && Answers(completed[i].0, completed[i].1) && Answers(completed[j].0, completed[j].1)
      && RequestId(completed[i].0) != RequestId(completed[j].0)
  {
    ReachableBase(s);
    OwnFacts(s, c);
  }

  /** No request is lost: a client waits for exactly the requests that are under way. */
  lemma WaitingMeansUnderWay(s: State, c: u64, rid: u64)
    requires Reachable(s) && c in s.conns
    ensures rid in s.conns[c].client.waiting <==> UnderWay(Flow(s.conns[c]), rid)
  {
    ReachableBase(s);
    OwnFacts(s, c);
    var k := s.conns[c];
    if UnderWay(Flow(k), rid) {
      var i :| 0 <= i < |Flow(k)| && Flow(k)[i].rid == rid;
      assert Link.Matches(k.client.waiting, Flow(k)[i]);
    }
  }

  /** When nothing is under way on a connection, every request has been answered. */
  lemma NobodyIsLeftWaiting(s: State, c: u64)
    requires Reachable(s) && c in s.conns
    requires s.conns[c].up == [] && s.conns[c].down == [] && s.conns[c].handler.todo == []
    ensures s.conns[c].client.waiting == map[]
  {
    forall rid: u64
      ensures rid !in s.conns[c].client.waiting
    {
      WaitingMeansUnderWay(s, c, rid);
      assert Flow(s.conns[c]) == [];
    }
  }

  /** A client learns its own id: every login response on its connection carries it. */
  lemma LoginTellsOwnId(s: State, c: u64, i: nat)
    requires Reachable(s) && c in s.conns && i < |s.conns[c].down| && s.conns[c].down[i].LoginResponse?
    ensures s.conns[c].down[i].id == c
  {
    ReachableBase(s);
    OwnFacts(s, c);
  }
}
