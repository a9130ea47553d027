/** What a client's own login listing has shown it, as long as nothing has been broadcast about a user. */
module Listings {
  import opened Bytes
  import opened Packets
  import opened Replica
  import opened Management
  import opened System
  import opened Registration
  import opened Link
  import opened Progress
  import opened Invariants
  import opened Presence

  /** The packet is a login response that lists user `u`. */
  predicate Shows(p: Packet, u: u64)
  {
    p.LoginResponse? && u in ById(p.participants)
  }

  /** The client's login has been answered by a listing that contains user `u`. */
  ghost predicate ShownIn(k: Client, u: u64)
  {
    exists i :: 0 <= i < |k.completed| && Shows(k.completed[i].1, u)
  }

  /** Apart from login responses, `p` is about no user of whom nothing has been broadcast. */
  ghost predicate OldNews(p: Packet, channel: seq<BroadcastMessage>)
  {
    p.LoginResponse? || forall u :: Silent(u, channel) ==> !Concerns(p, u)
  }

  /** Of the users about whom nothing has been broadcast, a logged-in client knows those that its own listing
      has shown it. */
  ghost predicate KnowsShown(k: Client, channel: seq<BroadcastMessage>)
  {
    forall u :: Silent(u, channel) ==> (u in k.participants <==> ShownIn(k, u))
  }

  ghost predicate ListingOk(k: Client, down: seq<Packet>, channel: seq<BroadcastMessage>)
  {
    && (forall i :: 0 <= i < |down| ==> OldNews(down[i], channel))
    && (forall i :: 0 <= i < |k.completed| && k.completed[i].1.LoginResponse? ==> k.stage.LoggedIn?)
    && (k.stage.LoggedIn? ==> KnowsShown(k, channel))
  }

  ghost predicate ListingInv(s: State)
  {
    forall c {:trigger Here(s, c)} :: Here(s, c) ==> ListingOk(s.conns[c].client, s.conns[c].down, s.channel)
  }

  // No second login

  lemma {:induction false} ItemUnderWay(ps: seq<Packet>, i: nat)
    requires i < |ps| && RequestKind(ps[i]).Some?
    ensures ItemOf(ps[i])[0] in ItemsOf(ps)
  {
    if i > 0 {
      ItemUnderWay(ps[1..], i - 1);
    }
  }

  lemma {:induction false} ItemOwed(todo: seq<Action>, i: nat)
    requires i < |todo| && ItemOfAction(todo[i]) != []
    ensures ItemOfAction(todo[i])[0] in ItemsOfTodo(todo)
  {
    if i > 0 {
      ItemOwed(todo[1..], i - 1);
    }
  }

  lemma LoginUnderWay(k: Conn, item: Item)
    requires FlowInv(k) && StageInv(k.handler, k.client) && item in Flow(k) && item.kind.LoginRequestId?
    ensures k.client.stage.LoginSent?
  {
    assert Link.Matches(k.client.waiting, item);
  }

  /** A logged-in client gets no further login response. */
  lemma NoMoreListings(k: Conn)
    requires FlowInv(k) && StageInv(k.handler, k.client) && k.client.stage.LoggedIn?
    ensures forall i :: 0 <= i < |k.down| ==> !k.down[i].LoginResponse?
    ensures forall i :: 0 <= i < |k.handler.todo| && k.handler.todo[i].Reply? ==>
      !k.handler.todo[i].packet.LoginResponse?
  {
    forall i | 0 <= i < |k.down|
      ensures !k.down[i].LoginResponse?
    {
      if k.down[i].LoginResponse? {
        ItemUnderWay(k.down, i);
        LoginUnderWay(k, ItemOf(k.down[i])[0]);
      }
    }
    forall i | 0 <= i < |k.handler.todo| && k.handler.todo[i].Reply?
      ensures !k.handler.todo[i].packet.LoginResponse?
    {
      if k.handler.todo[i].packet.LoginResponse? {
        ItemOwed(k.handler.todo, i);
        LoginUnderWay(k, ItemOfAction(k.handler.todo[i])[0]);
      }
    }
  }

  // Steps keep this

  lemma MoreBroadcast(k: Client, down: seq<Packet>, channel: seq<BroadcastMessage>, m: BroadcastMessage)
    requires ListingOk(k, down, channel)
    ensures ListingOk(k, down, channel + [m])
  {
    forall u | Silent(u, channel + [m])
      ensures Silent(u, channel)
    {
      assert forall i :: 0 <= i < |channel| ==> (channel + [m])[i] == channel[i];
    }
  }

  lemma OneMoreDown(k: Client, down: seq<Packet>, channel: seq<BroadcastMessage>, p: Packet)
    requires ListingOk(k, down, channel) && OldNews(p, channel)
    ensures ListingOk(k, down + [p], channel)
  {
  }

  lemma SendListing(c: u64, k: Client, down: seq<Packet>, channel: seq<BroadcastMessage>, p: Packet)
    requires ListingOk(k, down, channel) && MaySend(c, k, p)
    ensures ListingOk(AfterSending(k, p), down, channel)
  {
    SameShown(k, AfterSending(k, p));
  }

  lemma SameShown(k: Client, k': Client)
    requires k'.completed == k.completed
    ensures forall u :: ShownIn(k', u) <==> ShownIn(k, u)
  {
  }

  /** One more answer. */
  lemma MoreShown(k: Client, k': Client, x: (Packet, Packet), u: u64)
    requires k'.completed == k.completed + [x]
    ensures ShownIn(k', u) <==> ShownIn(k, u) || Shows(x.1, u)
  {
    if ShownIn(k, u) {
      var i :| 0 <= i < |k.completed| && Shows(k.completed[i].1, u);
      assert k'.completed[i] == k.completed[i];
    } else if Shows(x.1, u) {
      assert k'.completed[|k.completed|] == x;
    }
  }

  /** The login response is the first. */
  lemma FirstListing(k: Client, k': Client, channel: seq<BroadcastMessage>, p: Packet)
    requires (forall i :: 0 <= i < |k.completed| ==> !k.completed[i].1.LoginResponse?) && p.LoginResponse?
    requires k'.participants == ById(p.participants)
    requires |k'.completed| == |k.completed| + 1 && k'.completed[..|k.completed|] == k.completed
    requires k'.completed[|k.completed|].1 == p
    ensures KnowsShown(k', channel)
  {
    forall u | Silent(u, channel)
      ensures u in k'.participants <==> ShownIn(k', u)
    {
      MoreShown(k, k', k'.completed[|k.completed|], u);
    }
  }

  /** Other packets change nothing about users of whom nothing has been broadcast. */
  lemma OtherPacket(k: Client, k': Client, channel: seq<BroadcastMessage>, p: Packet)
    requires KnowsShown(k, channel) && OldNews(p, channel) && !p.LoginResponse?
    requires k'.participants == OnPacket(k.participants, p)
    requires forall u :: ShownIn(k', u) <==> ShownIn(k, u)
    ensures KnowsShown(k', channel)
  {
    forall u | Silent(u, channel)
      ensures u in k'.participants <==> ShownIn(k', u)
    {
      assert Lookup(OnPacket(k.participants, p), u) == Apply(u, Lookup(k.participants, u), p);
    }
  }

  lemma ReceiveListing(k: Conn, channel: seq<BroadcastMessage>)
    requires FlowInv(k) && StageInv(k.handler, k.client) && k.down != []
    requires ListingOk(k.client, k.down, channel)
    ensures ListingOk(Received(k).client, Received(k).down, channel)
  {
    var p, cl, cl' := k.down[0], k.client, Received(k).client;
    ReceiveKeepsFlow(k);
    assert forall i :: 0 <= i < |k.down[1..]| ==> k.down[1..][i] == k.down[i + 1];
    if p.LoginResponse? {
      ItemUnderWay(k.down, 0);
      LoginUnderWay(k, ItemOf(p)[0]);
      FirstListing(cl, cl', channel, p);
      return;
    }
    if RequestId(p).Some? {
      forall u
        ensures ShownIn(cl', u) <==> ShownIn(cl, u)
      {
        MoreShown(cl, cl', (cl.waiting[RequestId(p).value], p), u);
      }
    } else {
      SameShown(cl, cl');
    }
    if cl.stage.LoggedIn? {
      OtherPacket(cl, cl', channel, p);
    }
  }

  /** The step adds to the client's packets or changes what the client knows. */
  predicate Talks(step: Step)
  {
    step.PerformStep? || step.ForwardStep? || step.ReceiveStep? || step.SendStep?
  }

  lemma QuietListing(s: State, s': State, step: Step, d: u64)
    requires NextBy(s, s', step) && OwnerOf(step) == Some(d) && !Talks(step)
    ensures d in s.conns && d in s'.conns && s'.channel == s.channel && s'.conns[d].down == s.conns[d].down
    ensures var k, k' := s.conns[d].client, s'.conns[d].client;
      k'.participants == k.participants && k'.completed == k.completed && k'.stage == k.stage
  {
  }

  lemma SameListing(k: Client, k': Client, down: seq<Packet>, channel: seq<BroadcastMessage>)
    requires ListingOk(k, down, channel)
    requires k'.participants == k.participants && k'.completed == k.completed && k'.stage == k.stage
    ensures ListingOk(k', down, channel)
  {
    SameShown(k, k');
  }

  lemma PerformListing(s: State, s': State, d: u64)
    requires Perform(s, s', d) && TodoInv(d, s.conns[d].handler)
    requires ListingOk(s.conns[d].client, s.conns[d].down, s.channel)
    ensures ListingOk(s'.conns[d].client, s'.conns[d].down, s'.channel)
  {
    var k := s.conns[d];
    assert ActionOk(d, k.handler, k.handler.todo[0]);
    match k.handler.todo[0] {
      case Reply(p) => OneMoreDown(k.client, k.down, s.channel, p);
      case Emit(_) =>
      case Broadcast(m) => MoreBroadcast(k.client, k.down, s.channel, m);
    }
  }

  lemma ForwardListing(s: State, s': State, d: u64)
    requires Forward(s, s', d) && ListingOk(s.conns[d].client, s.conns[d].down, s.channel)
    ensures ListingOk(s'.conns[d].client, s'.conns[d].down, s'.channel)
  {
    var k := s.conns[d];
    OneMoreDown(k.client, k.down, s.channel, s.channel[k.handler.cursor].packet);
  }

  lemma TalkListing(s: State, s': State, step: Step, d: u64)
    requires NextBy(s, s', step) && OwnerOf(step) == Some(d) && Talks(step) && d in s.conns
    requires TodoInv(d, s.conns[d].handler) && FlowInv(s.conns[d]) && StageInv(s.conns[d].handler, s.conns[d].client)
    requires ListingOk(s.conns[d].client, s.conns[d].down, s.channel)
    ensures d in s'.conns && ListingOk(s'.conns[d].client, s'.conns[d].down, s'.channel)
  {
    match step
    case PerformStep(_) => PerformListing(s, s', d);
    case ForwardStep(_) => ForwardListing(s, s', d);
    case ReceiveStep(_) => ReceiveListing(s.conns[d], s.channel);
    case SendStep(_, p) => SendListing(d, s.conns[d].client, s.conns[d].down, s.channel, p);
  }

  lemma OwnListing(s: State, s': State, step: Step, d: u64)
    requires Base(s) && NextBy(s, s', step) && OwnerOf(step) == Some(d) && d in s.conns
    requires ListingOk(s.conns[d].client, s.conns[d].down, s.channel)
    ensures d in s'.conns && ListingOk(s'.conns[d].client, s'.conns[d].down, s'.channel)
  {
    if Talks(step) {
      OwnFacts(s, d);
      TalkListing(s, s', step, d);
    } else {
      QuietListing(s, s', step, d);
      SameListing(s.conns[d].client, s'.conns[d].client, s.conns[d].down, s.channel);
    }
  }

  /** The channel stays as it is or grows by one message. */
  lemma ChannelGrows(s: State, s': State, step: Step)
    requires NextBy(s, s', step)
    ensures s'.channel == s.channel || exists m :: s'.channel == s.channel + [m]
  {
    if s'.channel != s.channel {
      assert step.PerformStep?;
      assert s'.channel == s.channel + [s.conns[step.c].handler.todo[0].message];
    }
  }

  lemma ElsewhereListing(s: State, s': State, step: Step, c: u64)
    requires NextBy(s, s', step) && c in s.conns && c in s'.conns && s'.conns[c] == s.conns[c]
    requires ListingOk(s.conns[c].client, s.conns[c].down, s.channel)
    ensures ListingOk(s'.conns[c].client, s'.conns[c].down, s'.channel)
  {
    ChannelGrows(s, s', step);
    if s'.channel != s.channel {
      var m :| s'.channel == s.channel + [m];
      MoreBroadcast(s.conns[c].client, s.conns[c].down, s.channel, m);
    }
  }

  lemma ListingStep(s: State, s': State, step: Step)
    requires Base(s) && ListingInv(s) && NextBy(s, s', step)
    ensures ListingInv(s')
  {
    if OwnerOf(step).Some? {
      StepIsLocal(s, s', step);
    }
    forall c | Here(s', c)
      ensures ListingOk(s'.conns[c].client, s'.conns[c].down, s'.channel)
    {
      if c in s.conns {
        assert Here(s, c);
        if OwnerOf(step) == Some(c) {
          OwnListing(s, s', step, c);
        } else {
          ElsewhereListing(s, s', step, c);
        }
      }
    }
  }

  // What the client will know

  lemma NoLoginOwed(todo: seq<Action>, u: u64)
    requires forall i :: 0 <= i < |todo| && todo[i].Reply? ==> !Concerns(todo[i].packet, u)
    ensures forall i :: 0 <= i < |OwedReplies(todo)| ==> !Concerns(OwedReplies(todo)[i], u)
  {
    if todo != [] {
      NoLoginOwed(todo[1..], u);
    }
  }

  /** A logged-in client that has received everything written to its connection knows of a user about whom
      nothing has been broadcast if and only if its own listing has shown it the user. */
  lemma ExpectsShown(c: u64, k: Conn, channel: seq<BroadcastMessage>, u: u64)
    requires FlowInv(k) && StageInv(k.handler, k.client) && TodoInv(c, k.handler) && k.client.stage.LoggedIn?
    requires ListingOk(k.client, k.down, channel) && Silent(u, channel)
    ensures Expected(k, u).Some? <==> ShownIn(k.client, u)
  {
    NoMoreListings(k);
    var todo := k.handler.todo;
    forall i | 0 <= i < |todo| && todo[i].Reply?
      ensures !Concerns(todo[i].packet, u)
    {
      assert ActionOk(c, k.handler, todo[i]);
    }
    NoLoginOwed(todo, u);
    assert forall i :: 0 <= i < |k.down| ==> OldNews(k.down[i], channel);
    ReplayIgnores(u, Lookup(k.client.participants, u), k.down + OwedReplies(todo));
  }
}
