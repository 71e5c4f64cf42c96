/** The relay server: the registry from live connections to player records
    (a JavaScript `Map`, so iteration follows insertion order) and the
    broadcast of a snapshot of it to every open client. */
module Server {
  import opened Protocol

  /** A connection object, known only by its identity. */
  type Connection = nat

  datatype ReadyState = Connecting | Open | Closing | Closed

  /** An entry of the socket library's client set, with its state at broadcast time. */
  datatype ClientSocket = ClientSocket(conn: Connection, readyState: ReadyState)

  /** A message handed to the transport for one connection. */
  datatype Delivery = Delivery(to: Connection, msg: ServerMessage)

  const InitialHealth: int := 100

  predicate Distinct(s: seq<Connection>) {
    forall i, j :: 0 <= i < j < |s| ==> s[i] != s[j]
  }

  /** `s` with `c` taken out. */
  function Without(s: seq<Connection>, c: Connection): (r: seq<Connection>)
    ensures forall x :: x in r <==> x in s && x != c
    ensures Distinct(s) ==> Distinct(r)
    ensures Distinct(s) && c in s ==> |r| == |s| - 1
    ensures c !in s ==> r == s
    decreases |s|
  {
    if s == [] then []
    else
      var rest := Without(s[1..], c);
      assert Distinct(s) ==> s[0] !in s[1..];
      if s[0] == c then rest else [s[0]] + rest
  }

  /** Taking a key out of a list without repetitions is splicing it out at its
      index: the others keep their order, as `Map.delete` keeps insertion order. */
  lemma {:induction false} WithoutIsSplice(s: seq<Connection>, c: Connection, i: nat)
    requires Distinct(s) && i < |s| && s[i] == c
    ensures Without(s, c) == s[..i] + s[i + 1..]
    decreases |s|
  {
    assert Distinct(s[1..]) by {
      forall a, b | 0 <= a < b < |s[1..]|
        ensures s[1..][a] != s[1..][b]
      {
        assert s[1..][a] == s[a + 1] && s[1..][b] == s[b + 1];
      }
    }
    if i == 0 {
      assert c !in s[1..] by {
        forall t | 0 <= t < |s[1..]|
          ensures s[1..][t] != c
        {
          assert s[1..][t] == s[t + 1];
        }
      }
      assert Without(s[1..], c) == s[1..];
    } else {
      WithoutIsSplice(s[1..], c, i - 1);
      assert s[..i] == [s[0]] + s[1..][..i - 1];
      assert s[i + 1..] == s[1..][i..];
    }
  }

  /** The connections listed in `s`. */
  function Elements(s: seq<Connection>): set<Connection> {
    set c | c in s
  }

  /** A list without repetitions has as many elements as its set. */
  lemma {:induction false} DistinctCardinality(s: seq<Connection>)
    requires Distinct(s)
    ensures |Elements(s)| == |s|
  {
    if s != [] {
      var tail := s[1..];
      assert Distinct(tail) by {
        forall i, j | 0 <= i < j < |tail| ensures tail[i] != tail[j] {
          assert tail[i] == s[i + 1] && tail[j] == s[j + 1];
        }
      }
      DistinctCardinality(tail);
      assert s[0] !in Elements(tail) by {
        forall i | 0 <= i < |tail| ensures tail[i] != s[0] {
          assert tail[i] == s[i + 1];
        }
      }
      assert Elements(s) == {s[0]} + Elements(tail) by {
        assert s == [s[0]] + tail;
      }
    }
  }

  /** The connections of `clients` whose state is open, in their order. */
  function OpenConnections(clients: seq<ClientSocket>): (r: seq<Connection>)
    ensures |r| <= |clients|
    ensures forall c :: c in r <==> ClientSocket(c, Open) in clients
  {
    if clients == [] then []
    else
      var last := clients[|clients| - 1];
      var init := clients[..|clients| - 1];
      assert clients == init + [last];
      OpenConnections(init) + (if last.readyState == Open then [last.conn] else [])
  }

  class Registry {
    /** The connections in insertion order. */
    var order: seq<Connection>
    var records: map<Connection, PlayerState>

    ghost predicate Valid()
      reads this
    {
      Distinct(order) && forall c :: c in records <==> c in order
    }

    constructor ()
      ensures Valid() && order == [] && records == map[]
    {
      order := [];
      records := map[];
    }

    /** The connection handler: store a fresh record under the new connection
        and send it, and only it, an `init` carrying the same id. */
    method Connect(conn: Connection, id: string) returns (out: seq<Delivery>)
      requires Valid()
      modifies this
      ensures Valid()
      ensures records == old(records)[conn := PlayerState(id, 0.0, 0.0, InitialHealth)]
      ensures order == if conn in old(records) then old(order) else old(order) + [conn]
      ensures conn !in old(records) ==> |records| == |old(records)| + 1
      ensures out == [Delivery(conn, Init(id))]
    {
      if conn !in records {
        order := order + [conn];
      }
      records := records[conn := PlayerState(id, 0.0, 0.0, InitialHealth)];
      out := [Delivery(conn, Init(id))];
    }

    /** The `message` handler: a `playerUpdate` overwrites the position and
        health of the sender's record, if it still has one; the id it carries
        is ignored. Every other message is ignored. */
    method Receive(conn: Connection, msg: ClientMessage)
      requires Valid()
      modifies this
      ensures Valid() && order == old(order)
      ensures records == if msg.PlayerUpdate? && conn in old(records)
                         then old(records)[conn := old(records)[conn].(x := msg.player.x, y := msg.player.y,
                                                                       health := msg.player.health)]
                         else old(records)
      ensures conn in records ==> records[conn].id == old(records)[conn].id
    {
      if msg.PlayerUpdate? {
        if conn in records {
          var state := records[conn];
          state := state.(x := msg.player.x);
          state := state.(y := msg.player.y);
          state := state.(health := msg.player.health);
          records := records[conn := state];
        }
      }
    }

    /** The `close` handler: forget exactly that connection. */
    method Close(conn: Connection)
      requires Valid()
      modifies this
      ensures Valid()
      ensures records == old(records) - {conn}
      ensures order == Without(old(order), conn)
      ensures conn in old(records) ==> |records| == |old(records)| - 1
    {
      if conn in records {
        assert (records - {conn}).Keys == records.Keys - {conn};
      }
      records := records - {conn};
      order := Without(order, conn);
    }

    /** The first half of the broadcast callback: one record per registered
        connection, in insertion order, unfiltered. */
    method Snapshot() returns (players: seq<PlayerState>)
      requires Valid()
      ensures |players| == |records| == |order|
      ensures forall i :: 0 <= i < |order| ==> players[i] == records[order[i]]
      ensures forall c :: c in records ==> records[c] in players
    {
      players := [];
      var i := 0;
      while i < |order|
        invariant i <= |order|
        invariant |players| == i
        invariant forall t :: 0 <= t < i ==> players[t] == records[order[t]]
      {
        players := players + [records[order[i]]];
        i := i + 1;
      }
      DistinctCardinality(order);
      assert records.Keys == Elements(order);
      forall c | c in records
        ensures records[c] in players
      {
        var t :| 0 <= t < |order| && order[t] == c;
        assert players[t] == records[c];
      }
    }

    /** The broadcast interval: the snapshot, sent in one `gameState` to every
        open client and to no other. */
    method Broadcast(clients: seq<ClientSocket>) returns (players: seq<PlayerState>, sent: seq<Delivery>)
      requires Valid()
      ensures |players| == |records| == |order|
      ensures forall i :: 0 <= i < |order| ==> players[i] == records[order[i]]
      ensures forall c :: c in records ==> records[c] in players
      ensures |sent| == |OpenConnections(clients)|
      ensures forall i :: 0 <= i < |sent| ==> sent[i] == Delivery(OpenConnections(clients)[i], GameState(players))
    {
      players := Snapshot();
      sent := [];
      var k := 0;
      while k < |clients|
        invariant k <= |clients|
        invariant sent == Deliveries(OpenConnections(clients[..k]), players)
      {
        assert clients[..k + 1][..k] == clients[..k];
        ghost var before := OpenConnections(clients[..k]);
        if clients[k].readyState == Open {
          assert OpenConnections(clients[..k + 1]) == before + [clients[k].conn];
          assert (before + [clients[k].conn])[..|before|] == before;
          sent := sent + [Delivery(clients[k].conn, GameState(players))];
        } else {
          assert OpenConnections(clients[..k + 1]) == before;
        }
        k := k + 1;
      }
      assert clients[..k] == clients;
    }
  }

  /** The same `gameState` for each connection, in order. */
  function Deliveries(to: seq<Connection>, players: seq<PlayerState>): (r: seq<Delivery>)
    ensures |r| == |to|
    ensures forall i :: 0 <= i < |to| ==> r[i] == Delivery(to[i], GameState(players))
  {
    if to == [] then [] else Deliveries(to[..|to| - 1], players) + [Delivery(to[|to| - 1], GameState(players))]
  }

  /** The two list facts of the scenario below. */
  lemma SecondLeftAlone()
    ensures Without([1, 2], 1) == [2]
    ensures OpenConnections([ClientSocket(1, Closing), ClientSocket(2, Open)]) == [2]
  {
    assert [1, 2][1..] == [2];
    assert Without([2], 1) == [2];
    assert [ClientSocket(1, Closing), ClientSocket(2, Open)][..1] == [ClientSocket(1, Closing)];
  }

  /** Two clients connect and the first one leaves again. */
  method ConnectTwoCloseFirst(idA: string, idB: string) returns (server: Registry)
    ensures server.Valid()
    ensures server.order == [2] && server.records[2] == PlayerState(idB, 0.0, 0.0, InitialHealth)
  {
    SecondLeftAlone();
    server := new Registry();
    var initA := server.Connect(1, idA);
    var initB := server.Connect(2, idB);
    server.Close(1);
  }

  /** Two clients connect and the first leaves: the next broadcast carries only
      the second client's record, and only to the second client. */
  method TwoConnectOneLeaves(idA: string, idB: string) returns (sent: seq<Delivery>)
    ensures sent == [Delivery(2, GameState([PlayerState(idB, 0.0, 0.0, InitialHealth)]))]
  {
    SecondLeftAlone();
    var server := ConnectTwoCloseFirst(idA, idB);
    var players;
    players, sent := server.Broadcast([ClientSocket(1, Closing), ClientSocket(2, Open)]);
    assert players == [PlayerState(idB, 0.0, 0.0, InitialHealth)];
  }
}
