/** The voice relay as transition functions: sessions, address index, authentication, recipients. */
module RelayState {
  import opened Bytes
  import opened Packets
  import opened Management

  datatype Session = Session(token: u64, inVoice: bool, udpAddress: Option<Address>)

  datatype Relay = Relay(sessions: map<u64, Session>, index: map<Address, u64>)

  /** `after` is `before` without one address of user `id`, if it has any. */
  ghost predicate RemovesOne(before: map<Address, u64>, id: u64, after: map<Address, u64>)
  {
    || ((forall a :: a in before ==> before[a] != id) && after == before)
    || exists a :: a in before && before[a] == id && after == before - {a}
  }

  /** The relay handles event `e`, going from `r` to `r'`. */
  ghost predicate Handles(r: Relay, e: Event, r': Relay)
  {
    match e
    case UserConnected(id, token) => r' == r.(sessions := r.sessions[id := Session(token, false, None)])
    case VoiceJoined(id) => r' == SetVoice(r, id, true)
    case VoiceLeft(id) => r' == SetVoice(r, id, false)
    case UserDisconnected(id) => r'.sessions == r.sessions - {id} && RemovesOne(r.index, id, r'.index)
  }

  function SetVoice(r: Relay, id: u64, inVoice: bool): Relay
  {
    if id in r.sessions then r.(sessions := r.sessions[id := r.sessions[id].(inVoice := inVoice)]) else r
  }

  function Authenticate(r: Relay, src: Address, id: u64): Relay
    requires id in r.sessions
  {
    Relay(r.sessions[id := r.sessions[id].(udpAddress := Some(src))], r.index[src := id])
  }

  /** The users that receive the voice data of user `sender`. */
  function Recipients(r: Relay, sender: u64): set<u64>
  {
    set id | id in r.sessions && r.sessions[id].inVoice && id != sender
  }

  // The address index

  /** The index is exactly the inverse of the sessions' addresses. */
  ghost predicate IndexExact(r: Relay)
  {
    && (forall a :: a in r.index ==> r.index[a] in r.sessions && r.sessions[r.index[a]].udpAddress == Some(a))
    && (forall id :: id in r.sessions && r.sessions[id].udpAddress.Some? ==>
          var a := r.sessions[id].udpAddress.value; a in r.index && r.index[a] == id)
  }

  /** User `id` authenticates from an address that no other user holds, and has no other address. */
  predicate Regular(r: Relay, src: Address, id: u64)
    requires id in r.sessions
  {
    && (src in r.index ==> r.index[src] == id)
    && (r.sessions[id].udpAddress.Some? ==> r.sessions[id].udpAddress == Some(src))
  }

  /** An authentication keeps an exact index exact if and only if it is regular. */
  lemma AuthenticateKeepsIndex(r: Relay, src: Address, id: u64)
    requires IndexExact(r) && id in r.sessions
    ensures IndexExact(Authenticate(r, src, id)) <==> Regular(r, src, id)
  {
    var r' := Authenticate(r, src, id);
    if src in r.index && r.index[src] != id {
      assert r'.sessions[r.index[src]].udpAddress == Some(src) && r'.index[src] == id;
    } else if r.sessions[id].udpAddress.Some? && r.sessions[id].udpAddress != Some(src) {
      assert r'.index[r.sessions[id].udpAddress.value] == id && r'.sessions[id].udpAddress == Some(src);
    }
  }

  /** Events keep an exact index exact, including the search for the address of a user who left. */
  lemma EventKeepsIndex(r: Relay, e: Event, r': Relay)
    requires IndexExact(r) && Handles(r, e, r')
    requires e.UserConnected? ==> e.id !in r.sessions
    ensures IndexExact(r')
  {
    if e.UserDisconnected? {
      assert forall a :: a in r'.index ==> a in r.index && r'.index[a] == r.index[a];
      forall a | a in r'.index
        ensures r'.index[a] in r'.sessions
      {
        assert r.sessions[r.index[a]].udpAddress == Some(a);
      }
    }
  }

  // Users who leave

  /** No more than one address leads to user `id`. */
  predicate AtMostOneAddress(r: Relay, id: u64)
  {
    forall a, b :: a in r.index && b in r.index && r.index[a] == id && r.index[b] == id ==> a == b
  }

  /** A departed user is no longer recognised by any address if and only if at most one address led to the
      user before. */
  lemma DepartureForgetsUser(r: Relay, id: u64, r': Relay)
    requires Handles(r, UserDisconnected(id), r')
    ensures id !in r'.sessions
    ensures (forall a :: a in r'.index ==> r'.index[a] != id) <==> AtMostOneAddress(r, id)
  {
    if a, b :| a in r.index && b in r.index && r.index[a] == id && r.index[b] == id && a != b {
      assert (a in r'.index && r'.index[a] == id) || (b in r'.index && r'.index[b] == id);
    }
  }

  // Addresses of users in voice

  /** Every user in voice has an address to send to. */
  predicate Addressed(r: Relay)
  {
    forall id :: id in r.sessions && r.sessions[id].inVoice ==> r.sessions[id].udpAddress.Some?
  }

  /** The user whose joining `e` reports, if the relay knows it, has an address. */
  predicate FindsAddress(r: Relay, e: Event)
  {
    e.VoiceJoined? && e.id in r.sessions ==> r.sessions[e.id].udpAddress.Some?
  }

  /** An event leaves every user in voice with an address if and only if it is not the joining of a user
      without one. */
  lemma EventKeepsAddressed(r: Relay, e: Event, r': Relay)
    requires Addressed(r) && Handles(r, e, r')
    ensures Addressed(r') <==> FindsAddress(r, e)
  {
    if !FindsAddress(r, e) {
      assert r'.sessions[e.id].inVoice && r'.sessions[e.id].udpAddress.None?;
    }
  }
}
