/**
 * The client's picture of the other players: the `otherPlayers` table kept
 * by the WebSocket `onmessage` handler. Each entry is a puppet standing
 * where the relay last reported that player, with the anchor of its rope
 * when the rope is shown.
 */
module Puppets {
  import opened Options
  import opened Vectors
  import opened Protocol

  /** One remote player: mesh position, last reported velocity and the anchor of its visible rope. */
  datatype Puppet = Puppet(position: Vec3, velocity: Vec3, rope: Option<Vec3>)

  /** `playerId` (absent until `init` arrives) and `otherPlayers`. */
  datatype View = View(playerId: Option<string>, others: map<string, Puppet>)

  /** The state before any message. */
  const Disconnected: View := View(None, map[])

  /** A puppet created by `addOtherPlayer`: at `position`, at rest, rope hidden. */
  function NewPuppet(position: Vec3): Puppet {
    Puppet(position, Zero, None)
  }

  /** Index `i` holds the last occurrence of its id in `ps`. */
  predicate LastOccurrence(ps: seq<PlayerInfo>, i: int)
    requires 0 <= i < |ps|
  {
    forall j :: i < j < |ps| ==> ps[j].id != ps[i].id
  }

  /** The ids listed in `ps`. */
  function Ids(ps: seq<PlayerInfo>): set<string> {
    set i | 0 <= i < |ps| :: ps[i].id
  }

  /** `addOtherPlayer` for every entry of `ps`, in order: the table gains exactly the listed ids. */
  function AddAll(others: map<string, Puppet>, ps: seq<PlayerInfo>): (r: map<string, Puppet>)
    ensures r.Keys == others.Keys + Ids(ps)
    decreases |ps|
  {
    if |ps| == 0 then others
    else
      var init := ps[..|ps| - 1];
      assert Ids(ps) == Ids(init) + {ps[|ps| - 1].id} by {
        assert forall i :: 0 <= i < |init| ==> init[i] == ps[i];
      }
      AddAll(others, init)[ps[|ps| - 1].id := NewPuppet(ps[|ps| - 1].position)]
  }

  /** A listed id holds a fresh puppet at the position of its last occurrence in the list. */
  lemma {:induction false} AddAllLastWins(others: map<string, Puppet>, ps: seq<PlayerInfo>, i: int)
    requires 0 <= i < |ps| && LastOccurrence(ps, i)
    ensures ps[i].id in AddAll(others, ps) && AddAll(others, ps)[ps[i].id] == NewPuppet(ps[i].position)
    decreases |ps|
  {
    if i < |ps| - 1 {
      var init := ps[..|ps| - 1];
      assert LastOccurrence(init, i) by {
        assert forall j :: 0 <= j < |init| ==> init[j] == ps[j];
      }
      AddAllLastWins(others, init, i);
      assert ps[|ps| - 1].id != ps[i].id;
    }
  }

  /** Entries the list does not name are untouched. */
  lemma {:induction false} AddAllKeepsOthers(others: map<string, Puppet>, ps: seq<PlayerInfo>, k: string)
    requires k in others && k !in Ids(ps)
    ensures AddAll(others, ps)[k] == others[k]
    decreases |ps|
  {
    if |ps| > 0 {
      var init := ps[..|ps| - 1];
      assert Ids(ps) == Ids(init) + {ps[|ps| - 1].id} by {
        assert forall i :: 0 <= i < |init| ==> init[i] == ps[i];
      }
      AddAllKeepsOthers(others, init, k);
    }
  }

  /** The rope shown for a `playerMoved` report: only while grappling with an anchor. */
  function ShownRope(isGrappling: bool, grapplePoint: Option<Vec3>): Option<Vec3> {
    if isGrappling && grapplePoint.Some? then grapplePoint else None
  }

  /** `onmessage` on one decoded message. */
  function Receive(v: View, msg: ServerMsg): View {
    match msg
    case Init(id, players) => View(Some(id), AddAll(v.others, players))
    case PlayerJoined(id, position) =>
      if Some(id) != v.playerId then v.(others := v.others[id := NewPuppet(position)]) else v
    case PlayerMoved(id, position, velocity, isGrappling, grapplePoint) =>
      if Some(id) != v.playerId && id in v.others then
        v.(others := v.others[id := Puppet(position, velocity, ShownRope(isGrappling, grapplePoint))])
      else v
    case PlayerLeft(id) =>
      if id in v.others then v.(others := v.others - {id}) else v
    case Chat(_, _) => v
  }

  /** The messages of one connection, handled in order. */
  function ReceiveAll(v: View, msgs: seq<ServerMsg>): View
    decreases |msgs|
  {
    if |msgs| == 0 then v else ReceiveAll(Receive(v, msgs[0]), msgs[1..])
  }

  /** The id a message is about. */
  function Subject(msg: ServerMsg): string {
    match msg
    case Init(id, _) => id
    case PlayerJoined(id, _) => id
    case PlayerMoved(id, _, _, _, _) => id
    case PlayerLeft(id) => id
    case Chat(id, _) => id
  }

  // ---------------------------------------------------------------- lemmas

  /**
   * Every message other than `init` touches at most the entry of the player
   * it names and leaves the own id alone; chat is ignored altogether.
   */
  lemma ReceiveIsLocal(v: View, msg: ServerMsg)
    requires !msg.Init?
    ensures var r := Receive(v, msg);
      && r.playerId == v.playerId
      && (forall k :: k != Subject(msg) ==> (k in r.others <==> k in v.others))
      && (forall k :: k != Subject(msg) && k in v.others ==> r.others[k] == v.others[k])
      && (msg.Chat? ==> r == v)
  {
  }

  /** Join, move and leave each have their announced effect, and only under their guards. */
  lemma ReceiveEffects(v: View, msg: ServerMsg)
    ensures var r := Receive(v, msg);
      && (msg.PlayerJoined? ==>
            if Some(msg.id) == v.playerId then r == v
            else msg.id in r.others && r.others[msg.id] == NewPuppet(msg.position))
      && (msg.PlayerMoved? ==>
            if Some(msg.id) != v.playerId && msg.id in v.others then
              && r.others.Keys == v.others.Keys
              && r.others[msg.id].position == msg.position
              && r.others[msg.id].velocity == msg.velocity
              && (r.others[msg.id].rope.Some? <==> msg.isGrappling && msg.grapplePoint.Some?)
            else r == v)
      && (msg.PlayerLeft? ==> r.others.Keys == v.others.Keys - {msg.id} && (msg.id !in v.others ==> r == v))
  {
  }

  /**
   * `init` sets the own id and shows one puppet per listed player; when
   * the list names the client itself (as the relay's list does), the client
   * shows a puppet of itself too.
   */
  lemma InitShowsListedPlayers(v: View, id: string, players: seq<PlayerInfo>)
    ensures var r := Receive(v, Init(id, players));
      && r.playerId == Some(id)
      && r.others.Keys == v.others.Keys + Ids(players)
      && (id in Ids(players) ==> id in r.others)
  {
  }

  /** An `init` list that ends with the client itself: it gets its own puppet, at the listed position. */
  lemma InitListingSelfLast(v: View, id: string, position: Vec3, earlier: seq<PlayerInfo>)
    ensures Receive(v, Init(id, earlier + [PlayerInfo(id, position)])).playerId == Some(id)
    ensures id in Receive(v, Init(id, earlier + [PlayerInfo(id, position)])).others
    ensures Receive(v, Init(id, earlier + [PlayerInfo(id, position)])).others[id] == NewPuppet(position)
    ensures forall i :: 0 <= i < |earlier| ==> earlier[i].id in Receive(v, Init(id, earlier + [PlayerInfo(id, position)])).others
  {
    var ps := earlier + [PlayerInfo(id, position)];
    AddAllLastWins(v.others, ps, |ps| - 1);
    assert forall i :: 0 <= i < |earlier| ==> ps[i] == earlier[i];
  }

  /** After the own id is known, reports about it never create or move a puppet for it. */
  lemma OwnReportsIgnored(v: View, msg: ServerMsg)
    requires v.playerId == Some(Subject(msg)) && (msg.PlayerJoined? || msg.PlayerMoved?)
    ensures Receive(v, msg) == v
  {
  }

  /** Only the last of a run of reports about one known player decides where its puppet stands. */
  lemma {:induction false} MovesLastWins(v: View, id: string, msgs: seq<ServerMsg>)
    requires |msgs| > 0 && id in v.others && v.playerId != Some(id)
    requires forall i :: 0 <= i < |msgs| ==> msgs[i].PlayerMoved? && msgs[i].id == id
    ensures var r := ReceiveAll(v, msgs);
      && r.playerId == v.playerId
      && r.others.Keys == v.others.Keys
      && r.others[id] == Puppet(msgs[|msgs| - 1].position, msgs[|msgs| - 1].velocity,
                                ShownRope(msgs[|msgs| - 1].isGrappling, msgs[|msgs| - 1].grapplePoint))
    decreases |msgs|
  {
    var v1 := Receive(v, msgs[0]);
    ReceiveEffects(v, msgs[0]);
    if |msgs| > 1 {
      MovesLastWins(v1, id, msgs[1..]);
      assert msgs[1..][|msgs[1..]| - 1] == msgs[|msgs| - 1];
    }
  }

  /** An id missing from the table stays missing until an `init` lists it or a `playerJoined` names it; everything else about it is ignored. */
  lemma {:induction false} LeftStaysGone(v: View, id: string, msgs: seq<ServerMsg>)
    requires id !in v.others
    requires forall i :: 0 <= i < |msgs| ==>
      && !(msgs[i].Init? && id in Ids(msgs[i].players))
      && !(msgs[i].PlayerJoined? && msgs[i].id == id)
    ensures id !in ReceiveAll(v, msgs).others
    decreases |msgs|
  {
    if |msgs| > 0 {
      var msg := msgs[0];
      if msg.Init? {
        InitShowsListedPlayers(v, msg.id, msg.players);
      } else {
        ReceiveEffects(v, msg);
        ReceiveIsLocal(v, msg);
      }
      LeftStaysGone(Receive(v, msg), id, msgs[1..]);
    }
  }

  // ------------------------------------------------------------ the object

  /** The client's module-level `playerId` and `otherPlayers`. */
  class Client {
    var playerId: Option<string>
    var otherPlayers: map<string, Puppet>

    function State(): View
      reads this
    {
      View(playerId, otherPlayers)
    }

    constructor ()
      ensures State() == Disconnected
    {
      playerId := None;
      otherPlayers := map[];
    }

    /** `addOtherPlayer`: a new puppet replaces any entry under this id. */
    method AddOtherPlayer(id: string, position: Vec3)
      modifies this
      ensures otherPlayers == old(otherPlayers)[id := NewPuppet(position)]
      ensures playerId == old(playerId)
    {
      otherPlayers := otherPlayers[id := Puppet(position, Zero, None)];
    }

    /** `onmessage` */
    method OnMessage(msg: ServerMsg)
      modifies this
      ensures State() == Receive(old(State()), msg)
    {
      match msg
      case Init(id, players) =>
        playerId := Some(id);
        var i := 0;
        while i < |players|
          invariant 0 <= i <= |players|
          invariant playerId == Some(id)
          invariant otherPlayers == AddAll(old(otherPlayers), players[..i])
        {
          AddOtherPlayer(players[i].id, players[i].position);
          assert players[..i + 1][..i] == players[..i];
          i := i + 1;
        }
        assert players[..i] == players;
      case PlayerJoined(id, position) =>
        if Some(id) != playerId {
          AddOtherPlayer(id, position);
        }
      case PlayerMoved(id, position, velocity, isGrappling, grapplePoint) =>
        if Some(id) != playerId && id in otherPlayers {
          var rope := None;
          if isGrappling && grapplePoint.Some? {
            rope := grapplePoint;
          }
          otherPlayers := otherPlayers[id := Puppet(position, velocity, rope)];
        }
      case PlayerLeft(id) =>
        if id in otherPlayers {
          otherPlayers := otherPlayers - {id};
        }
      case Chat(_, _) =>
    }
  }
}
