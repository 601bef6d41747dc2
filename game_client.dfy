/** The bookkeeping of the browser-side game client
    (apps/client/src/network/GameClient.ts).

    The client mirrors the room's players and orbs, keeps one smoothed
    `InterpolatedPlayer` per remote player, numbers the inputs it sends, and hands
    each player a display colour the first time one is asked for. The network is
    reduced to what the bookkeeping sees: whether a room is joined, the session id
    the join returns, the callbacks the room's replicated state fires, and the log
    of intents handed to `room.send`. */
module Client {
  import opened Wrappers
  import opened Sequences
  import opened Geometry
  import opened Input
  import opened Interpolation

  /** `OrbState`: the client's copy of one orb. */
  datatype OrbState = OrbState(id: string, x: real, y: real, value: int)

  /** The fields of a player in the room's replicated state that the client reads;
      a field the server left null or undefined is `None`. */
  datatype RemotePlayer = RemotePlayer(
    name: Option<string>,
    x: real,
    y: real,
    vx: real,
    vy: real,
    score: int,
    taggedBy: Option<string>,
    tagSlowMs: Option<real>,
    lastProcessedInput: Option<int>)

  /** The `AuthoritativePlayerState` the client builds from a remote player. */
  function Reported(id: string, p: RemotePlayer): AuthoritativeState {
    AuthoritativeState(id, p.x, p.y, p.vx, p.vy, p.score, p.taggedBy,
                       if p.tagSlowMs.Some? then p.tagSlowMs.value else 0.0)
  }

  /** The smoothed player a client creates when it first sees `p`: set to the
      reported state and snapped onto it. */
  function FirstSeen(id: string, p: RemotePlayer): (v: View)
    ensures v.id == id && v.AtTarget()
    ensures v.interpolatedX == p.x && v.interpolatedY == p.y
    ensures v.name == (if p.name.Some? then p.name.value else "Player")
  {
    FirstSightSnaps(id, if p.name.Some? then p.name.value else "Player", Reported(id, p));
    Snapped(WithAuthoritative(Fresh(id, if p.name.Some? then p.name.value else "Player"), Reported(id, p)))
  }

  /** `reconcileInputs(serverSequence)`: `Math.max(inputSequence, serverSequence)`. */
  function Reconciled(current: int, server: int): (r: int)
    ensures current <= r && server <= r
    ensures r == current || r == server
  {
    if current < server then server else current
  }

  /** The six display colours, handed out in turn. */
  const Palette: seq<string> := ["#38bdf8", "#f97316", "#22c55e", "#a855f7", "#f472b6", "#facc15"]

  /** The colour `getPlayerColor` returns and the colour table it leaves. */
  datatype Picked = Picked(color: string, colors: map<string, string>)

  /** `getPlayerColor(id)`. A recorded colour is kept unless it is the empty string,
      which JavaScript treats as missing; otherwise the next palette colour is chosen
      by the size of the table and recorded. */
  function PickColor(colors: map<string, string>, id: string): (r: Picked)
    ensures id in r.colors && r.colors[id] == r.color && r.color != ""
  {
    var recorded := if id in colors then colors[id] else "";
    if recorded != "" then
      Picked(recorded, colors)
    else
      var color := Palette[|colors| % |Palette|];
      Picked(color, colors[id := color])
  }

  /** The colour table after `getPlayerColor` was called for each of `ids` in turn. */
  function ColorsAssigned(colors: map<string, string>, ids: seq<string>): (r: map<string, string>)
    ensures forall id :: id in ids ==> id in r
    decreases |ids|
  {
    if ids == [] then colors
    else
      var before := ColorsAssigned(colors, ids[..|ids| - 1]);
      assert forall id :: id in ids ==> id in ids[..|ids| - 1] || id == ids[|ids| - 1];
      PickColor(before, ids[|ids| - 1]).colors
  }

  /** Every tracked player after `update(deltaSeconds)`, with `f` the smoothing
      fraction for that delta. */
  function AdvancedAll(players: map<string, View>, f: real): map<string, View> {
    map id | id in players :: Advanced(players[id], f)
  }

  /** A colour once given out is kept, repeated calls give the same answer, and a new
      id gets the palette colour at the table's size, modulo six. */
  lemma PickColorMemo(colors: map<string, string>, id: string)
    ensures id in colors && colors[id] != "" ==> PickColor(colors, id) == Picked(colors[id], colors)
    ensures id !in colors ==>
      PickColor(colors, id).color == Palette[|colors| % 6] &&
      PickColor(colors, id).colors == colors[id := Palette[|colors| % 6]]
    ensures var p := PickColor(colors, id); PickColor(p.colors, id) == p
    ensures forall k :: k in colors && k != id ==> k in PickColor(colors, id).colors && PickColor(colors, id).colors[k] == colors[k]
  {
  }

  /** Colouring a list of players gives each of them a colour, never changes a
      colour already given out, and adds no other entry. */
  lemma {:induction false} ColorsAssignedKeeps(colors: map<string, string>, ids: seq<string>)
    ensures var r := ColorsAssigned(colors, ids);
      (forall id :: id in ids ==> r[id] != "") &&
      (forall k :: k in colors && colors[k] != "" ==> k in r && r[k] == colors[k]) &&
      (forall k :: k in r ==> k in colors || k in ids)
    decreases |ids|
  {
    if ids != [] {
      var init := ids[..|ids| - 1];
      ColorsAssignedKeeps(colors, init);
      var before := ColorsAssigned(colors, init);
      var last := ids[|ids| - 1];
      PickColorMemo(before, last);
      forall id | id in ids
        ensures ColorsAssigned(colors, ids)[id] != ""
      {
        if id != last {
          assert id in init;
        }
      }
    }
  }

  /** Colouring players that all have a colour already changes nothing. */
  lemma {:induction false} ColorsAssignedSettled(colors: map<string, string>, ids: seq<string>)
    requires forall id :: id in ids ==> id in colors && colors[id] != ""
    ensures ColorsAssigned(colors, ids) == colors
    decreases |ids|
  {
    if ids != [] {
      ColorsAssignedSettled(colors, ids[..|ids| - 1]);
      assert ids[|ids| - 1] in ids;
    }
  }

  /** `update` moves every tracked player towards its own target by the same fraction,
      and no player ends further from its target than before. */
  lemma AdvancedAllApproaches(sqrt: real -> real, players: map<string, View>, f: real)
    requires IsSqrt(sqrt) && 0.0 <= f < 1.0
    ensures AdvancedAll(players, f).Keys == players.Keys
    ensures forall id :: id in players ==>
      Gap(sqrt, AdvancedAll(players, f)[id]) == (1.0 - f) * Gap(sqrt, players[id]) &&
      Gap(sqrt, AdvancedAll(players, f)[id]) <= Gap(sqrt, players[id])
  {
    assert AdvancedAll(players, f).Keys == players.Keys;
    forall id | id in players
      ensures Gap(sqrt, AdvancedAll(players, f)[id]) == (1.0 - f) * Gap(sqrt, players[id])
      ensures Gap(sqrt, AdvancedAll(players, f)[id]) <= Gap(sqrt, players[id])
    {
      assert AdvancedAll(players, f)[id] == Advanced(players[id], f);
      AdvanceShrinksGap(sqrt, players[id], f);
    }
  }

  /** One round of the `update` loop: the player at position `i` of `order` is
      advanced, and the players before it already were. */
  lemma AdvanceOneMore(start: map<string, View>, cur: map<string, View>, order: seq<string>, i: nat, f: real)
    requires NoDuplicates(order) && i < |order| && order[i] in cur && cur.Keys == start.Keys
    requires forall id :: id in cur ==>
      cur[id] == if id in order[..i] then Advanced(start[id], f) else start[id]
    ensures var next := cur[order[i] := Advanced(cur[order[i]], f)];
      next.Keys == start.Keys &&
      forall id :: id in next ==> next[id] == if id in order[..i + 1] then Advanced(start[id], f) else start[id]
  {
    assert forall k :: k in order[..i + 1] <==> k in order[..i] || k == order[i];
    assert order[i] !in order[..i];
  }

  /** The value of every field of a `GameClient` that the model keeps. */
  datatype ClientState = ClientState(
    roomPresent: bool,
    players: map<string, View>,
    playerOrder: seq<string>,
    orbs: map<string, OrbState>,
    playerColors: map<string, string>,
    inputSequence: int,
    localPlayerId: Option<string>,
    connected: bool,
    sent: seq<InputIntent>)

  class GameClient {
    /** `room` is set. */
    var roomPresent: bool
    var players: map<string, View>
    /** The iteration order of `players` (insertion order). */
    var playerOrder: seq<string>
    var orbs: map<string, OrbState>
    var playerColors: map<string, string>
    var inputSequence: int
    var localPlayerId: Option<string>
    var connected: bool
    /** Every intent passed to `room.send("input", …)`, oldest first. */
    var sent: seq<InputIntent>

    function Snapshot(): ClientState
      reads this
    {
      ClientState(roomPresent, players, playerOrder, orbs, playerColors, inputSequence,
                  localPlayerId, connected, sent)
    }

    /** `playerOrder` lists the tracked players, once each. */
    ghost predicate Valid()
      reads this
    {
      NoDuplicates(playerOrder) && (forall id :: id in players <==> id in playerOrder)
    }

    constructor ()
      ensures Valid()
      ensures Snapshot() == ClientState(false, map[], [], map[], map[], 0, None, false, [])
    {
      roomPresent, players, playerOrder, orbs, playerColors := false, map[], [], map[], map[];
      inputSequence, localPlayerId, connected, sent := 0, None, false, [];
    }

    /** The colour side effect of `notifyStateChanged`: building the snapshot asks
        `getPlayerColor` for every tracked player, in order. */
    method ColorAll()
      modifies this
      ensures Snapshot() == old(Snapshot()).(playerColors := ColorsAssigned(old(playerColors), playerOrder))
    {
      var order := playerOrder;
      var i := 0;
      while i < |order|
        invariant 0 <= i <= |order|
        invariant Snapshot() == old(Snapshot()).(playerColors := ColorsAssigned(old(playerColors), order[..i]))
      {
        ColorNext(old(playerColors), order, i);
        i := i + 1;
      }
      assert order[..i] == order;
    }

    /** One round of the colouring loop: the player at position `i` of `order` gets
        its colour after those before it. */
    method ColorNext(ghost start: map<string, string>, order: seq<string>, i: nat)
      requires i < |order| && playerColors == ColorsAssigned(start, order[..i])
      modifies this
      ensures Snapshot() == old(Snapshot()).(playerColors := ColorsAssigned(start, order[..i + 1]))
    {
      var _ := GetPlayerColor(order[i]);
      assert order[..i + 1][..i] == order[..i];
    }

    /** `getPlayerColor(id)`. */
    method GetPlayerColor(id: string) returns (color: string)
      modifies this
      ensures Picked(color, playerColors) == PickColor(old(playerColors), id)
      ensures Snapshot() == old(Snapshot()).(playerColors := playerColors)
    {
      color := if id in playerColors then playerColors[id] else "";
      if color == "" {
        var index := |playerColors| % |Palette|;
        color := Palette[index];
        playerColors := playerColors[id := color];
      }
    }

    /** `connect(name)`, given what the join returned: the session id, or `None`
        when joining failed (the error is then rethrown, which is not modelled). */
    method Connect(joined: Option<string>)
      requires Valid()
      modifies this
      ensures Valid()
      ensures old(roomPresent) ==> Snapshot() == old(Snapshot())
      ensures !old(roomPresent) && joined.Some? ==>
        Snapshot() == old(Snapshot()).(roomPresent := true, localPlayerId := joined, connected := true,
                                       playerColors := ColorsAssigned(old(playerColors), playerOrder))
      ensures !old(roomPresent) && joined.None? ==>
        Snapshot() == old(Snapshot()).(roomPresent := false, players := map[], playerOrder := [], orbs := map[],
                                       playerColors := map[], localPlayerId := None, connected := false)
    {
      if roomPresent {
        return;
      }
      if joined.Some? {
        roomPresent := true;
        localPlayerId := joined;
        connected := true;
        ColorAll();
      } else {
        HandleDisconnect();
      }
    }

    /** `sendInput(moveX, moveY, dash, tagTargetId)`. */
    method SendInput(moveX: real, moveY: real, dash: bool, tagTargetId: Option<string>)
      modifies this
      ensures !old(roomPresent) ==> Snapshot() == old(Snapshot())
      ensures old(roomPresent) ==>
        inputSequence == old(inputSequence) + 1 &&
        Snapshot() == old(Snapshot()).(inputSequence := inputSequence,
                                       sent := old(sent) + [InputIntent(inputSequence, moveX, moveY, dash, tagTargetId)])
    {
      if !roomPresent {
        return;
      }
      inputSequence := inputSequence + 1;
      var intent := InputIntent(inputSequence, moveX, moveY, dash, tagTargetId);
      sent := sent + [intent];
    }

    /** `update(deltaSeconds)`, given the smoothing fraction `f` for that delta. */
    method Update(f: real)
      requires Valid()
      modifies this
      ensures Valid()
      ensures Snapshot() == old(Snapshot()).(players := AdvancedAll(old(players), f))
    {
      // The smoothed players are held by value: each is advanced in a copy of the
      // map that replaces `players` once every player was visited.
      var order, advanced := playerOrder, players;
      var i := 0;
      while i < |order|
        invariant 0 <= i <= |order| && Snapshot() == old(Snapshot())
        invariant advanced.Keys == players.Keys
        invariant forall id :: id in advanced ==>
          advanced[id] == if id in order[..i] then Advanced(players[id], f) else players[id]
      {
        AdvanceOneMore(players, advanced, order, i, f);
        var id := order[i];
        advanced := advanced[id := Advanced(advanced[id], f)];
        i := i + 1;
      }
      assert order[..i] == order;
      players := advanced;
    }

    /** `players.onAdd(playerState, sessionId)`: a new smoothed player, snapped onto
        its first reported position, then a state notification. */
    method OnPlayerAdd(sessionId: string, p: RemotePlayer)
      requires Valid()
      modifies this
      ensures Valid()
      ensures playerOrder == if sessionId in old(players) then old(playerOrder) else old(playerOrder) + [sessionId]
      ensures Snapshot() == old(Snapshot()).(players := old(players)[sessionId := FirstSeen(sessionId, p)],
                                             playerOrder := playerOrder,
                                             playerColors := ColorsAssigned(old(playerColors), playerOrder))
    {
      var player := FirstSeen(sessionId, p);
      if sessionId !in players {
        playerOrder := playerOrder + [sessionId];
      }
      players := players[sessionId := player];
      ColorAll();
    }

    /** `playerState.onChange` for the player added under `sessionId`: the name is
        kept when the new one is missing, the target is replaced, and an update of
        the local player that carries a numeric `lastProcessedInput` reconciles the
        input counter. */
    method OnPlayerChange(sessionId: string, p: RemotePlayer)
      requires Valid()
      modifies this
      ensures Valid()
      ensures inputSequence ==
        if Some(sessionId) == old(localPlayerId) && p.lastProcessedInput.Some?
        then Reconciled(old(inputSequence), p.lastProcessedInput.value) else old(inputSequence)
      ensures Snapshot() == old(Snapshot()).(
        players := if sessionId in old(players) then
                     var v := old(players)[sessionId];
                     old(players)[sessionId := WithAuthoritative(v.(name := if p.name.Some? then p.name.value else v.name),
                                                                 Reported(sessionId, p))]
                   else old(players),
        inputSequence := inputSequence,
        playerColors := ColorsAssigned(old(playerColors), playerOrder))
    {
      if sessionId in players {
        var v := players[sessionId];
        var named := v.(name := if p.name.Some? then p.name.value else v.name);
        players := players[sessionId := WithAuthoritative(named, Reported(sessionId, p))];
      }
      if Some(sessionId) == localPlayerId && p.lastProcessedInput.Some? {
        ReconcileInputs(p.lastProcessedInput.value);
      }
      ColorAll();
    }

    /** `players.onRemove(_, sessionId)`: the player and its colour are forgotten. */
    method OnPlayerRemove(sessionId: string)
      requires Valid()
      modifies this
      ensures Valid()
      ensures sessionId !in players && sessionId !in playerColors
      ensures Snapshot() == old(Snapshot()).(players := old(players) - {sessionId},
                                             playerOrder := Without(old(playerOrder), sessionId),
                                             playerColors := ColorsAssigned(old(playerColors) - {sessionId}, playerOrder))
    {
      players := players - {sessionId};
      playerOrder := Without(playerOrder, sessionId);
      playerColors := playerColors - {sessionId};
      ColorsAssignedKeeps(playerColors, playerOrder);
      ColorAll();
    }

    /** `orbs.onAdd(orbState)`. */
    method OnOrbAdd(orb: OrbState)
      modifies this
      ensures Snapshot() == old(Snapshot()).(orbs := old(orbs)[orb.id := orb],
                                             playerColors := ColorsAssigned(old(playerColors), playerOrder))
    {
      orbs := orbs[orb.id := orb];
      ColorAll();
    }

    /** `orbState.onChange` for the orb with id `id`: an orb still tracked takes the new
        position and value. */
    method OnOrbChange(id: string, x: real, y: real, value: int)
      modifies this
      ensures Snapshot() == old(Snapshot()).(
        orbs := if id in old(orbs) then old(orbs)[id := old(orbs)[id].(x := x, y := y, value := value)] else old(orbs),
        playerColors := ColorsAssigned(old(playerColors), playerOrder))
    {
      if id in orbs {
        orbs := orbs[id := orbs[id].(x := x, y := y, value := value)];
      }
      ColorAll();
    }

    /** `orbs.onRemove(orbState)`. */
    method OnOrbRemove(id: string)
      modifies this
      ensures Snapshot() == old(Snapshot()).(orbs := old(orbs) - {id},
                                             playerColors := ColorsAssigned(old(playerColors), playerOrder))
    {
      orbs := orbs - {id};
      ColorAll();
    }

    /** `reconcileInputs(serverSequence)`. */
    method ReconcileInputs(serverSequence: int)
      modifies this
      ensures Snapshot() == old(Snapshot()).(inputSequence := Reconciled(old(inputSequence), serverSequence))
    {
      inputSequence := if inputSequence < serverSequence then serverSequence else inputSequence;
    }

    /** `handleDisconnect()`: everything mirrored from the room is dropped; the input
        counter and the send log are kept. */
    method HandleDisconnect()
      modifies this
      ensures Valid()
      ensures Snapshot() == old(Snapshot()).(roomPresent := false, players := map[], playerOrder := [], orbs := map[],
                                             playerColors := map[], localPlayerId := None, connected := false)
    {
      roomPresent := false;
      players := map[];
      playerOrder := [];
      orbs := map[];
      playerColors := map[];
      localPlayerId := None;
      connected := false;
      ColorAll();
    }
  }
}
