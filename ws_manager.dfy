/** `ConnectionManager`: the open notification sockets of each organisation. */
module WsManager {
  import opened Wrappers

  /** A socket, identified by the object it is; two sockets are equal only if they are the same. */
  type Socket = nat

  /** `ws.send_text(message)` performed on one socket. */
  datatype Sent = Sent(socket: Socket, message: string)

  /** The message of the `ValueError` that `list.remove` raises. */
  const NotInList := "list.remove(x): x not in list"

  /** The position of the first occurrence. */
  function IndexOf(s: seq<Socket>, x: Socket): (k: nat)
    requires x in s
    ensures k < |s| && s[k] == x && x !in s[..k]
  {
    if s[0] == x then 0
    else
      var k := IndexOf(s[1..], x);
      assert s[..k+1] == [s[0]] + s[1..][..k];
      k + 1
  }

  /** `list.remove`: drops the first occurrence, and raises when there is none. */
  function RemoveFirst(s: seq<Socket>, x: Socket): (r: Result<seq<Socket>, string>)
    ensures r.Failure? <==> x !in s
    ensures r.Failure? ==> r.error == NotInList
    ensures r.Success? ==> multiset(r.value) == multiset(s) - multiset{x} && |r.value| == |s| - 1
    ensures r.Success? ==> r.value == s[..IndexOf(s, x)] + s[IndexOf(s, x) + 1..]
  {
    if x !in s then Failure(NotInList)
    else
      var k := IndexOf(s, x);
      assert s == s[..k] + [x] + s[k+1..];
      Success(s[..k] + s[k+1..])
  }

  /** `connect`: the socket goes to the end of its organisation's list, which is created when
      missing. */
  function ConnectStep(active: map<string, seq<Socket>>, org: string, ws: Socket): (r: map<string, seq<Socket>>)
    ensures r.Keys == active.Keys + {org}
    ensures forall o :: o in active && o != org ==> r[o] == active[o]
    ensures org in active ==> r[org] == active[org] + [ws]
    ensures org !in active ==> r[org] == [ws]
  {
    active[org := (if org in active then active[org] else []) + [ws]]
  }

  /** `disconnect`: for a known organisation, the first occurrence of the socket is removed
      and the entry stays even when its list becomes empty. */
  function DisconnectStep(active: map<string, seq<Socket>>, org: string, ws: Socket)
    : (r: (map<string, seq<Socket>>, Result<(), string>))
    ensures r.0.Keys == active.Keys
    ensures forall o :: o in active && o != org ==> r.0[o] == active[o]
    ensures r.1.Failure? <==> org in active && ws !in active[org]
    ensures r.1.Failure? ==> r.0 == active
    ensures org !in active ==> r == (active, Success(()))
    ensures org in active && ws in active[org] ==>
      multiset(r.0[org]) == multiset(active[org]) - multiset{ws}
    ensures org in active && ws in active[org] ==>
      var k := IndexOf(active[org], ws);
      r.1.Success? && r.0[org] == active[org][..k] + active[org][k + 1..]
  {
    if org !in active then (active, Success(()))
    else match RemoveFirst(active[org], ws)
      case Failure(e) => (active, Failure(e))
      case Success(rest) => (active[org := rest], Success(()))
  }

  /** `send_to_org`: the sends, in registration order; none for an unknown organisation. */
  function Sends(active: map<string, seq<Socket>>, org: string, message: string): (r: seq<Sent>)
    ensures org !in active ==> r == []
    ensures org in active ==>
      (|r| == |active[org]| && forall i :: 0 <= i < |r| ==> r[i] == Sent(active[org][i], message))
  {
    if org !in active then []
    else seq(|active[org]|, i requires 0 <= i < |active[org]| => Sent(active[org][i], message))
  }

  class ConnectionManager {
    var active: map<string, seq<Socket>>

    constructor()
      ensures active == map[]
    {
      active := map[];
    }

    /** `connect`; accepting the socket is I/O and is left out. */
    method Connect(org: string, ws: Socket)
      modifies this
      ensures active == ConnectStep(old(active), org, ws)
    {
      if org !in active {
        active := active[org := []];
      }
      active := active[org := active[org] + [ws]];
    }

    method Disconnect(org: string, ws: Socket) returns (r: Result<(), string>)
      modifies this
      ensures (active, r) == DisconnectStep(old(active), org, ws)
    {
      r := Success(());
      if org in active {
        var rest := RemoveFirst(active[org], ws);
        if rest.Failure? {
          return Failure(rest.error);
        }
        active := active[org := rest.value];
      }
    }

    method SendToOrg(org: string, message: string) returns (sent: seq<Sent>)
      ensures sent == Sends(active, org, message)
    {
      sent := [];
      if org in active {
        var sockets := active[org];
        for i := 0 to |sockets|
          invariant sent == seq(i, j requires 0 <= j < i => Sent(sockets[j], message))
        {
          sent := sent + [Sent(sockets[i], message)];
        }
      }
    }
  }
}

module WsManagerProperties {
  import opened Wrappers
  import opened WsManager

  /** Disconnecting a socket right after connecting it restores the organisation's list, and
      the organisation stays a key even when its list is then empty. */
  lemma {:induction false} ConnectThenDisconnect(active: map<string, seq<Socket>>, org: string, ws: Socket)
    requires org in active ==> ws !in active[org]
    ensures var (after, r) := DisconnectStep(ConnectStep(active, org, ws), org, ws);
      && r.Success?
      && org in after
      && after[org] == (if org in active then active[org] else [])
      && forall o :: o in active && o != org ==> after[o] == active[o]
  {
    var s := ConnectStep(active, org, ws)[org];
    var before := if org in active then active[org] else [];
    assert s == before + [ws];
    assert IndexOf(s, ws) == |before| by {
      assert ws !in before;
      assert s[..|before|] == before;
    }
    assert s[..|before|] == before;
  }

  /** A second disconnect of the same, single-registered socket raises. */
  lemma DisconnectTwiceRaises(active: map<string, seq<Socket>>, org: string, ws: Socket)
    requires org in active && multiset(active[org])[ws] == 1
    ensures DisconnectStep(active, org, ws).1.Success?
    ensures DisconnectStep(DisconnectStep(active, org, ws).0, org, ws).1 == Failure(NotInList)
  {
    var after := DisconnectStep(active, org, ws).0;
    assert multiset(after[org])[ws] == 0;
  }

  /** A connected socket receives the organisation's later messages, after the sockets
      registered before it. */
  lemma SendReachesNewSocket(active: map<string, seq<Socket>>, org: string, ws: Socket, message: string)
    ensures Sends(ConnectStep(active, org, ws), org, message) == Sends(active, org, message) + [Sent(ws, message)]
  {
  }

  /** Nothing is sent to an organisation with no entry. */
  lemma UnknownOrganisationGetsNothing(active: map<string, seq<Socket>>, org: string, message: string)
    requires org !in active
    ensures Sends(active, org, message) == []
  {
  }
}
