/**
 * The relay and a client together: what a newly connected client makes of
 * the `init` frame the relay sends it.
 */
module Session {
  import opened Options
  import opened Vectors
  import opened Protocol
  import Motion
  import Puppets
  import Relay

  /** The relay's spawn point is where the local simulation starts the player. */
  lemma SpawnIsStart()
    ensures Relay.Spawn == Motion.Initial.position
  {
  }

  /** What a client makes of an `init` frame listing the relay's records and then itself. */
  lemma InitFrameShows(v: Puppets.View, f: Relay.Delivery, c: Relay.Conn, id: string,
                       order: seq<Relay.Conn>, players: map<Relay.Conn, Relay.Entry>)
    requires forall d :: d in order ==> d in players
    requires f == Relay.Delivery(c, Init(id, Relay.InitPayload(order, players) + [PlayerInfo(id, Relay.Spawn)]))
    ensures f.to == c
    ensures Puppets.Receive(v, f.msg).playerId == Some(id)
    ensures id in Puppets.Receive(v, f.msg).others
    ensures Puppets.Receive(v, f.msg).others[id] == Puppets.NewPuppet(Relay.Spawn)
    ensures forall d :: d in order ==> players[d].id in Puppets.Receive(v, f.msg).others
  {
    var earlier := Relay.InitPayload(order, players);
    Puppets.InitListingSelfLast(v, id, Relay.Spawn, earlier);
    forall d | d in order
      ensures exists i :: 0 <= i < |earlier| && earlier[i].id == players[d].id
    {
      var i :| 0 <= i < |order| && order[i] == d;
      assert earlier[i].id == players[d].id;
    }
  }

  /**
   * The `init` frame tells the new client its id and lists the client
   * itself last, so the client ends up showing a puppet of itself, standing
   * at the spawn point, next to one puppet per earlier player.
   */
  lemma NewClientShowsItself(r: Relay.RelayState, c: Relay.Conn, id: string, v: Puppets.View)
    requires Relay.Valid(r) && c !in r.clients
    ensures |Relay.NewFrames(r, Relay.AfterConnect(r, c, id))| >= 1
    ensures Relay.NewFrames(r, Relay.AfterConnect(r, c, id))[0].to == c
    ensures Puppets.Receive(v, Relay.NewFrames(r, Relay.AfterConnect(r, c, id))[0].msg).playerId == Some(id)
    ensures id in Puppets.Receive(v, Relay.NewFrames(r, Relay.AfterConnect(r, c, id))[0].msg).others
    ensures Puppets.Receive(v, Relay.NewFrames(r, Relay.AfterConnect(r, c, id))[0].msg).others[id]
         == Puppets.NewPuppet(Relay.Spawn)
    ensures forall d :: d in r.players ==>
      r.players[d].id in Puppets.Receive(v, Relay.NewFrames(r, Relay.AfterConnect(r, c, id))[0].msg).others
  {
    Relay.ConnectFrames(r, c, id);
    InitFrameShows(v, Relay.NewFrames(r, Relay.AfterConnect(r, c, id))[0], c, id, r.order, r.players);
  }
}
