/**
 * The relay: a WebSocket server that keeps one record per connected player
 * and forwards what each client reports to the others. Connections are
 * opaque handles; frames sent are appended to an outbox in send order.
 */
module Relay {
  import opened Options
  import opened Vectors
  import opened Protocol

  /** A connection handle (a `ws` socket object). */
  type Conn = nat

  /** The relay's record of a player: `{id, position}`. */
  datatype Entry = Entry(id: string, position: Vec3)

  /** One frame queued on a connection. */
  datatype Delivery = Delivery(to: Conn, msg: ServerMsg)

  /** Where every player is placed when it connects. */
  const Spawn: Vec3 := Vec3(0.0, 2.0, 0.0)

  /**
   * `clients` is the transport's client set in insertion order and `open`
   * the members whose ready state is OPEN; `ids` is the id each connection
   * handler was created with; `players` and `order` are the `players` map
   * and its key order; `outbox` is every frame sent so far.
   */
  datatype RelayState = RelayState(
    clients: seq<Conn>,
    open: set<Conn>,
    ids: map<Conn, string>,
    players: map<Conn, Entry>,
    order: seq<Conn>,
    outbox: seq<Delivery>)

  const Started: RelayState := RelayState([], {}, map[], map[], [], [])

  predicate Distinct<T(==)>(s: seq<T>) {
    forall i, j :: 0 <= i < j < |s| ==> s[i] != s[j]
  }

  /**
   * Every client of the transport is a registered player, in the same order;
   * only clients are open; a record carries its handler's id.
   */
  ghost predicate Valid(r: RelayState) {
    && Distinct(r.clients)
    && r.order == r.clients
    && (forall c :: c in r.players <==> c in r.clients)
    && (forall c :: c in r.open ==> c in r.clients)
    && (forall c :: c in r.players ==> c in r.ids && r.players[c].id == r.ids[c])
  }

  /** The recipients of a run of frames. */
  function Recipients(ds: seq<Delivery>): (cs: seq<Conn>)
    ensures |cs| == |ds| && forall i :: 0 <= i < |ds| ==> cs[i] == ds[i].to
    decreases |ds|
  {
    if |ds| == 0 then [] else Recipients(ds[..|ds| - 1]) + [ds[|ds| - 1].to]
  }

  /**
   * `msg` to every open client of `cs` other than `except`, in order: the
   * loop of `broadcast`, and with no exception the loop of the chat case.
   */
  function Fanout(cs: seq<Conn>, open: set<Conn>, except: Option<Conn>, msg: ServerMsg): seq<Delivery>
    decreases |cs|
  {
    if |cs| == 0 then []
    else
      var c := cs[|cs| - 1];
      var rest := Fanout(cs[..|cs| - 1], open, except, msg);
      if c in open && Some(c) != except then rest + [Delivery(c, msg)] else rest
  }

  /** Every frame of a fan-out carries its message. */
  lemma {:induction false} FanoutCarries(cs: seq<Conn>, open: set<Conn>, except: Option<Conn>, msg: ServerMsg)
    ensures forall i :: 0 <= i < |Fanout(cs, open, except, msg)| ==> Fanout(cs, open, except, msg)[i].msg == msg
    decreases |cs|
  {
    if |cs| > 0 {
      var c := cs[|cs| - 1];
      FanoutCarries(cs[..|cs| - 1], open, except, msg);
      var rest := Fanout(cs[..|cs| - 1], open, except, msg);
      if c in open && Some(c) != except {
        assert forall i :: 0 <= i < |rest| ==> (rest + [Delivery(c, msg)])[i] == rest[i];
      }
    }
  }

  /** Exactly the open clients other than `except` receive a frame of a fan-out. */
  lemma {:induction false} FanoutRecipients(cs: seq<Conn>, open: set<Conn>, except: Option<Conn>, msg: ServerMsg)
    ensures forall c :: c in Recipients(Fanout(cs, open, except, msg)) <==> c in cs && c in open && Some(c) != except
    decreases |cs|
  {
    if |cs| > 0 {
      var c := cs[|cs| - 1];
      var init := cs[..|cs| - 1];
      var rest := Fanout(init, open, except, msg);
      FanoutRecipients(init, open, except, msg);
      assert cs == init + [c];
      if c in open && Some(c) != except {
        assert (rest + [Delivery(c, msg)])[..|rest|] == rest;
        assert Recipients(rest + [Delivery(c, msg)]) == Recipients(rest) + [c];
      }
    }
  }

  /** A frame reaches each eligible client once: distinct clients give distinct recipients. */
  lemma {:induction false} FanoutOncePerClient(cs: seq<Conn>, open: set<Conn>, except: Option<Conn>, msg: ServerMsg)
    requires Distinct(cs)
    ensures Distinct(Recipients(Fanout(cs, open, except, msg)))
    decreases |cs|
  {
    if |cs| > 0 {
      var c := cs[|cs| - 1];
      var init := cs[..|cs| - 1];
      FanoutOncePerClient(init, open, except, msg);
      FanoutRecipients(init, open, except, msg);
      var rest := Fanout(init, open, except, msg);
      if c in open && Some(c) != except {
        assert c !in init;
        assert c !in Recipients(rest);
        assert Recipients(rest + [Delivery(c, msg)]) == Recipients(rest) + [c];
      }
    }
  }

  /** The three facts about a fan-out together. */
  lemma FanoutFacts(cs: seq<Conn>, open: set<Conn>, except: Option<Conn>, msg: ServerMsg)
    requires Distinct(cs)
    ensures var ds := Fanout(cs, open, except, msg);
      && (forall i :: 0 <= i < |ds| ==> ds[i].msg == msg)
      && (forall c :: c in Recipients(ds) <==> c in cs && c in open && Some(c) != except)
      && Distinct(Recipients(ds))
  {
    FanoutCarries(cs, open, except, msg);
    FanoutRecipients(cs, open, except, msg);
    FanoutOncePerClient(cs, open, except, msg);
  }

  /** One more client in the loop of `broadcast` adds at most its own frame. */
  lemma FanoutStep(cs: seq<Conn>, i: nat, open: set<Conn>, except: Option<Conn>, msg: ServerMsg)
    requires i < |cs|
    ensures Fanout(cs[..i + 1], open, except, msg)
         == Fanout(cs[..i], open, except, msg)
            + (if cs[i] in open && Some(cs[i]) != except then [Delivery(cs[i], msg)] else [])
  {
    assert cs[..i + 1][..i] == cs[..i];
  }

  /** `Array.from(players.values())`: the records in key order. */
  function InitPayload(order: seq<Conn>, players: map<Conn, Entry>): (ps: seq<PlayerInfo>)
    requires forall c :: c in order ==> c in players
    ensures |ps| == |order|
    ensures forall i :: 0 <= i < |order| ==>
      ps[i] == PlayerInfo(players[order[i]].id, players[order[i]].position)
    decreases |order|
  {
    if |order| == 0 then []
    else
      var c := order[|order| - 1];
      InitPayload(order[..|order| - 1], players) + [PlayerInfo(players[c].id, players[c].position)]
  }

  /** `s` without `c`, the rest in order. */
  function Without(s: seq<Conn>, c: Conn): (t: seq<Conn>)
    ensures forall d :: d in t <==> d in s && d != c
    ensures Distinct(s) ==> Distinct(t)
    ensures c !in s ==> t == s
    decreases |s|
  {
    if |s| == 0 then []
    else
      assert Distinct(s) ==> Distinct(s[1..]) && s[0] !in s[1..];
      if s[0] == c then Without(s[1..], c)
      else [s[0]] + Without(s[1..], c)
  }

  /**
   * `Without` keeps the relative order of what it keeps: removing `c` from
   * two runs placed one after the other is removing it from each run.
   */
  lemma {:induction false} WithoutKeepsOrder(s: seq<Conn>, s': seq<Conn>, c: Conn)
    ensures Without(s + s', c) == Without(s, c) + Without(s', c)
    decreases |s|
  {
    if |s| == 0 {
      assert s + s' == s';
    } else {
      assert (s + s')[0] == s[0];
      assert (s + s')[1..] == s[1..] + s';
      WithoutKeepsOrder(s[1..], s', c);
    }
  }

  // --------------------------------------------------------------- events

  /**
   * A new connection `c` with the freshly generated id `id`: the transport
   * adds it to its clients, the handler records the player at the spawn
   * point, sends `init` with every record (its own last) to `c`, and
   * announces it to the other open clients.
   */
  function AfterConnect(r: RelayState, c: Conn, id: string): RelayState
    requires Valid(r) && c !in r.clients
  {
    var clients := r.clients + [c];
    var open := r.open + {c};
    var players := r.players[c := Entry(id, Spawn)];
    var order := r.order + [c];
    var init := Delivery(c, Init(id, InitPayload(order, players)));
    RelayState(clients, open, r.ids[c := id], players, order,
          r.outbox + [init] + Fanout(clients, open, Some(c), PlayerJoined(id, Spawn)))
  }

  /** A message from `c`, decoded. */
  function AfterMessage(r: RelayState, c: Conn, msg: ClientMsg): RelayState
    requires c in r.ids
  {
    match msg
    case PositionUpdate(_, position, velocity, isGrappling, grapplePoint) =>
      if c in r.players then
        r.(players := r.players[c := r.players[c].(position := position)],
           outbox := r.outbox + Fanout(r.clients, r.open, Some(c),
                                       PlayerMoved(r.ids[c], position, velocity, isGrappling, grapplePoint)))
      else r
    case ChatPost(_, message) =>
      r.(outbox := r.outbox + Fanout(r.clients, r.open, None, Chat(r.ids[c], message)))
    case UnknownType(_) => r
    case Malformed => r
  }

  /** The transport starts closing `c`: it stays a client but is no longer open. */
  function AfterClosing(r: RelayState, c: Conn): RelayState {
    r.(open := r.open - {c})
  }

  /**
   * `c` closed: the transport drops it from its clients, then the handler
   * removes a registered player and announces the departure to the others.
   */
  function AfterClose(r: RelayState, c: Conn): RelayState
    requires Valid(r)
  {
    var clients := Without(r.clients, c);
    var open := r.open - {c};
    if c in r.players then
      RelayState(clients, open, r.ids, r.players - {c}, Without(r.order, c),
            r.outbox + Fanout(clients, open, Some(c), PlayerLeft(r.players[c].id)))
    else r.(clients := clients, open := open)
  }

  // --------------------------------------------------------------- lemmas

  /** The frames `after` has sent beyond those of `before`. */
  function NewFrames(before: RelayState, after: RelayState): seq<Delivery> {
    if |before.outbox| <= |after.outbox| then after.outbox[|before.outbox|..] else []
  }

  /** Every event keeps the relay's bookkeeping consistent. */
  lemma ConnectKeepsValid(r: RelayState, c: Conn, id: string)
    requires Valid(r) && c !in r.clients
    ensures Valid(AfterConnect(r, c, id))
  {
    var r1 := AfterConnect(r, c, id);
    assert forall d :: d in r1.clients <==> d in r.clients || d == c;
  }

  lemma MessageKeepsValid(r: RelayState, c: Conn, msg: ClientMsg)
    requires Valid(r) && c in r.ids
    ensures Valid(AfterMessage(r, c, msg))
  {
  }

  lemma ClosingKeepsValid(r: RelayState, c: Conn)
    requires Valid(r)
    ensures Valid(AfterClosing(r, c))
  {
  }

  lemma CloseKeepsValid(r: RelayState, c: Conn)
    requires Valid(r)
    ensures Valid(AfterClose(r, c)) && c !in AfterClose(r, c).players
  {
  }

  /**
   * A connection adds `c` to the clients, the open set and the key order,
   * stores the handler's id and a record at the spawn point, and changes
   * nothing else besides sending.
   */
  lemma ConnectStores(r: RelayState, c: Conn, id: string)
    requires Valid(r) && c !in r.clients
    ensures AfterConnect(r, c, id).players[c] == Entry(id, Spawn)
    ensures AfterConnect(r, c, id)
         == r.(clients := r.clients + [c], open := r.open + {c}, ids := r.ids[c := id],
               players := r.players[c := Entry(id, Spawn)], order := r.order + [c],
               outbox := AfterConnect(r, c, id).outbox)
  {
  }

  /** The frames a connection sends: `init` to the newcomer, then the announcement. */
  lemma ConnectFrames(r: RelayState, c: Conn, id: string)
    requires Valid(r) && c !in r.clients
    ensures NewFrames(r, AfterConnect(r, c, id))
         == [Delivery(c, Init(id, InitPayload(r.order, r.players) + [PlayerInfo(id, Spawn)]))]
            + Fanout(r.clients + [c], r.open + {c}, Some(c), PlayerJoined(id, Spawn))
  {
    var players := r.players[c := Entry(id, Spawn)];
    var joined := Fanout(r.clients + [c], r.open + {c}, Some(c), PlayerJoined(id, Spawn));
    var init := Delivery(c, Init(id, InitPayload(r.order + [c], players)));
    assert AfterConnect(r, c, id).outbox == r.outbox + ([init] + joined);
    assert InitPayload(r.order + [c], players) == InitPayload(r.order, r.players) + [PlayerInfo(id, Spawn)] by {
      InitPayloadFrame(r.order, r.players, players);
      assert (r.order + [c])[..|r.order|] == r.order;
    }
  }

  /**
   * One frame and then a fan-out that excludes the newest client `c`: every
   * other open client receives the announcement, once.
   */
  lemma HeadThenAnnounce(sent: seq<Delivery>, head: Delivery, cs: seq<Conn>, c: Conn, open: set<Conn>, msg: ServerMsg)
    requires sent == [head] + Fanout(cs + [c], open + {c}, Some(c), msg)
    requires Distinct(cs) && c !in cs
    ensures |sent| >= 1 && sent[0] == head
    ensures forall i :: 1 <= i < |sent| ==> sent[i].msg == msg
    ensures forall d :: d in Recipients(sent[1..]) <==> d in cs && d in open
    ensures Distinct(Recipients(sent[1..]))
  {
    var clients := cs + [c];
    assert Distinct(clients) by {
      assert forall i :: 0 <= i < |cs| ==> clients[i] == cs[i];
    }
    FanoutFacts(clients, open + {c}, Some(c), msg);
    assert sent[1..] == Fanout(clients, open + {c}, Some(c), msg);
    assert forall i :: 1 <= i < |sent| ==> sent[i] == sent[1..][i - 1];
    assert forall d :: d in clients <==> d in cs || d == c;
  }

  /**
   * The new player is told its id and every record, the existing players
   * in connection order followed by its own at the spawn point; then each
   * other open client receives exactly one `playerJoined`, and nobody else.
   */
  lemma ConnectAnnounces(r: RelayState, c: Conn, id: string)
    requires Valid(r) && c !in r.clients
    ensures |NewFrames(r, AfterConnect(r, c, id))| >= 1
    ensures NewFrames(r, AfterConnect(r, c, id))[0]
         == Delivery(c, Init(id, InitPayload(r.order, r.players) + [PlayerInfo(id, Spawn)]))
    ensures forall i :: 1 <= i < |NewFrames(r, AfterConnect(r, c, id))| ==>
      NewFrames(r, AfterConnect(r, c, id))[i].msg == PlayerJoined(id, Spawn)
    ensures forall d :: d in Recipients(NewFrames(r, AfterConnect(r, c, id))[1..]) <==> d in r.clients && d in r.open
    ensures Distinct(Recipients(NewFrames(r, AfterConnect(r, c, id))[1..]))
  {
    ConnectFrames(r, c, id);
    HeadThenAnnounce(NewFrames(r, AfterConnect(r, c, id)),
                     Delivery(c, Init(id, InitPayload(r.order, r.players) + [PlayerInfo(id, Spawn)])),
                     r.clients, c, r.open, PlayerJoined(id, Spawn));
  }

  /** The payload depends only on the records of the listed connections. */
  lemma {:induction false} InitPayloadFrame(order: seq<Conn>, p: map<Conn, Entry>, q: map<Conn, Entry>)
    requires forall c :: c in order ==> c in p && c in q && p[c] == q[c]
    ensures InitPayload(order, p) == InitPayload(order, q)
    decreases |order|
  {
    if |order| > 0 {
      InitPayloadFrame(order[..|order| - 1], p, q);
    }
  }

  /**
   * A position report updates the sender's record and goes to every other
   * open client, once each, under the id the relay gave the sender,
   * whatever id the report itself carries. An unregistered sender is ignored.
   */
  lemma MovesReachOthers(r: RelayState, c: Conn, claimed: string, position: Vec3, velocity: Vec3,
                         isGrappling: bool, grapplePoint: Option<Vec3>)
    requires Valid(r) && c in r.ids
    ensures var r1 := AfterMessage(r, c, PositionUpdate(claimed, position, velocity, isGrappling, grapplePoint));
      var sent := r1.outbox[|r.outbox|..];
      if c in r.players then
        && r1 == r.(players := r.players[c := Entry(r.ids[c], position)], outbox := r1.outbox)
        && (forall i :: 0 <= i < |sent| ==>
              sent[i].msg == PlayerMoved(r.ids[c], position, velocity, isGrappling, grapplePoint))
        && (forall d :: d in Recipients(sent) <==> d in r.open && d != c)
        && Distinct(Recipients(sent))
      else r1 == r
  {
    if c in r.players {
      var r1 := AfterMessage(r, c, PositionUpdate(claimed, position, velocity, isGrappling, grapplePoint));
      var moved := PlayerMoved(r.ids[c], position, velocity, isGrappling, grapplePoint);
      assert r1.outbox[|r.outbox|..] == Fanout(r.clients, r.open, Some(c), moved);
      FanoutFacts(r.clients, r.open, Some(c), moved);
    }
  }

  /** A chat line goes to every open client, the sender included, once each, under the sender's id. */
  lemma ChatReachesEveryone(r: RelayState, c: Conn, claimed: string, message: string)
    requires Valid(r) && c in r.ids
    ensures var r1 := AfterMessage(r, c, ChatPost(claimed, message));
      var sent := r1.outbox[|r.outbox|..];
      && r1 == r.(outbox := r1.outbox)
      && (forall i :: 0 <= i < |sent| ==> sent[i].msg == Chat(r.ids[c], message))
      && (forall d :: d in Recipients(sent) <==> d in r.open)
      && Distinct(Recipients(sent))
      && (c in r.open ==> c in Recipients(sent))
  {
    var r1 := AfterMessage(r, c, ChatPost(claimed, message));
    assert r1.outbox[|r.outbox|..] == Fanout(r.clients, r.open, None, Chat(r.ids[c], message));
    FanoutFacts(r.clients, r.open, None, Chat(r.ids[c], message));
  }

  /** Unknown message types and frames that fail to parse change nothing and send nothing. */
  lemma BadMessagesIgnored(r: RelayState, c: Conn, msg: ClientMsg)
    requires c in r.ids && (msg.UnknownType? || msg.Malformed?)
    ensures AfterMessage(r, c, msg) == r
  {
  }

  /**
   * A registered player's close removes its record and tells every other
   * open client, once each, that it left; closing an unregistered
   * connection sends nothing.
   */
  lemma CloseAnnounces(r: RelayState, c: Conn)
    requires Valid(r)
    ensures var r1 := AfterClose(r, c);
      var sent := r1.outbox[|r.outbox|..];
      && c !in r1.players && c !in r1.clients && c !in r1.open
      && (forall d :: d != c ==> (d in r1.players <==> d in r.players))
      && (forall d :: d != c && d in r.players ==> r1.players[d] == r.players[d])
      && (c !in r.players ==> r1 == r)
      && (c in r.players ==>
            r1 == r.(clients := Without(r.clients, c), open := r.open - {c}, players := r.players - {c},
                     order := Without(r.order, c), outbox := r1.outbox))
      && (c in r.players ==>
            && (forall i :: 0 <= i < |sent| ==> sent[i].msg == PlayerLeft(r.ids[c]))
            && (forall d :: d in Recipients(sent) <==> d in r.open && d != c)
            && Distinct(Recipients(sent)))
      && (c !in r.players ==> sent == [])
  {
    var r1 := AfterClose(r, c);
    var clients := Without(r.clients, c);
    if c in r.players {
      assert r1.outbox[|r.outbox|..] == Fanout(clients, r.open - {c}, Some(c), PlayerLeft(r.ids[c]));
      FanoutFacts(clients, r.open - {c}, Some(c), PlayerLeft(r.ids[c]));
    }
  }

  /** Nothing ever leaves the outbox: every event only appends frames. */
  lemma EventsOnlyAppend(r: RelayState, c: Conn, id: string, msg: ClientMsg)
    requires Valid(r)
    ensures c !in r.clients ==> AfterConnect(r, c, id).outbox[..|r.outbox|] == r.outbox
    ensures c in r.ids ==> AfterMessage(r, c, msg).outbox[..|r.outbox|] == r.outbox
    ensures AfterClose(r, c).outbox[..|r.outbox|] == r.outbox
  {
  }

  // ------------------------------------------------------------ the object

  /** The server's state: the transport's client set and the `players` map. */
  class Server {
    var clients: seq<Conn>
    var open: set<Conn>
    var ids: map<Conn, string>
    var players: map<Conn, Entry>
    var order: seq<Conn>
    var outbox: seq<Delivery>

    function State(): RelayState
      reads this
    {
      RelayState(clients, open, ids, players, order, outbox)
    }

    constructor ()
      ensures State() == Started && Valid(State())
    {
      clients := [];
      open := {};
      ids := map[];
      players := map[];
      order := [];
      outbox := [];
    }

    /** Sends `msg` to each open client other than `except`, in client order. */
    method SendToOpenClients(except: Option<Conn>, msg: ServerMsg)
      modifies this
      ensures clients == old(clients) && open == old(open) && ids == old(ids)
      ensures players == old(players) && order == old(order)
      ensures outbox == old(outbox) + Fanout(clients, open, except, msg)
    {
      var i := 0;
      while i < |clients|
        invariant 0 <= i <= |clients|
        invariant clients == old(clients) && open == old(open) && ids == old(ids)
        invariant players == old(players) && order == old(order)
        invariant outbox == old(outbox) + Fanout(clients[..i], open, except, msg)
      {
        var client := clients[i];
        FanoutStep(clients, i, open, except, msg);
        if Some(client) != except && client in open {
          outbox := outbox + [Delivery(client, msg)];
        }
        i := i + 1;
      }
      assert clients[..i] == clients;
    }

    /** `broadcast`: to every open client except the sender `ws`. */
    method Broadcast(ws: Conn, msg: ServerMsg)
      modifies this
      ensures State() == old(State()).(outbox := old(outbox) + Fanout(clients, open, Some(ws), msg))
    {
      SendToOpenClients(Some(ws), msg);
    }

    /** The `connection` handler, preceded by the transport registering `ws`. */
    method OnConnection(ws: Conn, playerId: string)
      requires Valid(State()) && ws !in clients
      modifies this
      ensures State() == AfterConnect(old(State()), ws, playerId)
      ensures Valid(State())
    {
      ConnectKeepsValid(State(), ws, playerId);
      clients := clients + [ws];
      open := open + {ws};
      ids := ids[ws := playerId];
      players := players[ws := Entry(playerId, Spawn)];
      order := order + [ws];
      outbox := outbox + [Delivery(ws, Init(playerId, InitPayload(order, players)))];
      Broadcast(ws, PlayerJoined(playerId, Spawn));
    }

    /** The `message` handler of `ws`. */
    method OnMessage(ws: Conn, msg: ClientMsg)
      requires Valid(State()) && ws in ids
      modifies this
      ensures State() == AfterMessage(old(State()), ws, msg)
      ensures Valid(State())
    {
      MessageKeepsValid(State(), ws, msg);
      var playerId := ids[ws];
      match msg
      case PositionUpdate(_, position, velocity, isGrappling, grapplePoint) =>
        if ws in players {
          players := players[ws := players[ws].(position := position)];
          Broadcast(ws, PlayerMoved(playerId, position, velocity, isGrappling, grapplePoint));
        }
      case ChatPost(_, message) =>
        SendToOpenClients(None, Chat(playerId, message));
      case UnknownType(_) =>
      case Malformed =>
    }

    /** The transport begins closing `ws`. */
    method OnClosing(ws: Conn)
      requires Valid(State())
      modifies this
      ensures State() == AfterClosing(old(State()), ws)
      ensures Valid(State())
    {
      ClosingKeepsValid(State(), ws);
      open := open - {ws};
    }

    /** The transport drops `ws` from its clients, then the `close` handler runs. */
    method OnClose(ws: Conn)
      requires Valid(State())
      modifies this
      ensures State() == AfterClose(old(State()), ws)
      ensures Valid(State())
    {
      CloseKeepsValid(State(), ws);
      clients := Without(clients, ws);
      open := open - {ws};
      if ws in players {
        var id := players[ws].id;
        players := players - {ws};
        order := Without(order, ws);
        Broadcast(ws, PlayerLeft(id));
      }
    }
  }
}
