/**
  src/d_loop.c: the lockstep loop. Tics are built from the player's input, completed by the
  server with the other players' commands, kept in a ring, and run in order. The player's
  input and the stream of the server are given as functions of the tic; what the network and
  the clock do at each update is an input.
 */
module TicLoop {
  import opened Arithmetic
  import opened TicNet

  const NET_MAXPLAYERS := 8
  const MAX_NETGAME_STALL_TICS := 5
  const BT_SPECIAL: bv8 := 128

  // ------------------------------------------------------------------
  // Commands
  // ------------------------------------------------------------------

  /** ticcmd_t; the fields that duplication leaves alone are one value. */
  datatype Cmd = Cmd(move: int, chatchar: nat, buttons: bv8)

  /** ticcmd_set_t. */
  datatype TicSet = TicSet(cmds: seq<Cmd>, ingame: seq<bool>)

  predicate Shaped(tics: TicSet) {
    |tics.cmds| == NET_MAXPLAYERS && |tics.ingame| == NET_MAXPLAYERS
  }

  /** What a duplicated tic must not repeat. */
  function SquashCmd(cmd: Cmd): Cmd {
    cmd.(chatchar := 0, buttons := if cmd.buttons & BT_SPECIAL != 0 then 0 else cmd.buttons)
  }

  function Squash(tics: TicSet): TicSet
    requires Shaped(tics)
  {
    tics.(cmds := seq(NET_MAXPLAYERS, i requires 0 <= i < NET_MAXPLAYERS => SquashCmd(tics.cmds[i])))
  }

  /** Squashing a third copy of a tic changes nothing more. */
  lemma SquashIdempotent(tics: TicSet)
    requires Shaped(tics)
    ensures Squash(Squash(tics)) == Squash(tics)
  {
    forall i | 0 <= i < NET_MAXPLAYERS ensures SquashCmd(SquashCmd(tics.cmds[i])) == SquashCmd(tics.cmds[i]) {}
  }

  /** Copy j of a tic: the first one in full. */
  function Copy(tics: TicSet, j: nat): TicSet
    requires Shaped(tics)
  {
    if j == 0 then tics else Squash(tics)
  }

  // ------------------------------------------------------------------
  // What a client is to run
  // ------------------------------------------------------------------

  /** What the game, the player and the server give a client. */
  datatype Client = Client(input: nat -> Cmd, served: nat -> TicSet, localplayer: nat, drone: bool, ticdup: nat)

  ghost predicate ValidClient(c: Client) {
    c.ticdup > 0 && c.localplayer < NET_MAXPLAYERS && forall t: nat :: Shaped(c.served(t))
  }

  /** A drone takes every command from the server; a player keeps his own. */
  predicate FromServer(c: Client, i: nat) { c.drone || i != c.localplayer }

  /** Tic t as a connected client runs it. */
  function Full(c: Client, t: nat): TicSet
    requires ValidClient(c)
  {
    var served := c.served(t);
    if c.drone then served
    else served.(cmds := served.cmds[c.localplayer := c.input(t)], ingame := served.ingame[c.localplayer := true])
  }

  /** Copy j of tic t: what the server and the player said of it, or, without a server, the player alone. */
  ghost predicate RunOk(c: Client, online: bool, t: nat, j: nat, run: TicSet)
    requires ValidClient(c)
  {
    if online then run == Copy(Full(c, t), j)
    else
      && Shaped(run)
      && (forall i | 0 <= i < NET_MAXPLAYERS :: run.ingame[i] <==> i == c.localplayer)
      && run.cmds[c.localplayer] == if j == 0 then c.input(t) else SquashCmd(c.input(t))
  }

  /** The tic of call k of RunTic, and the number of the copy. */
  function TicOf(k: nat, d: nat): nat
    requires d > 0
  {
    k / d
  }

  function CopyOf(k: nat, d: nat): nat
    requires d > 0
  {
    k % d
  }

  /** Every tic ran in order, ticdup times, first in full and then squashed. */
  ghost predicate RanRight(c: Client, netTics: nat, ran: seq<TicSet>)
    requires ValidClient(c)
  {
    forall k | 0 <= k < |ran| :: RunOk(c, TicOf(k, c.ticdup) < netTics, TicOf(k, c.ticdup), CopyOf(k, c.ticdup), ran[k])
  }

  lemma RanMore(c: Client, netTics: nat, ran: seq<TicSet>, t: nat, online: bool, copies: seq<TicSet>)
    requires ValidClient(c) && RanRight(c, netTics, ran) && |ran| == t * c.ticdup && |copies| == c.ticdup
    requires forall j | 0 <= j < c.ticdup :: RunOk(c, online, t, j, copies[j])
    requires netTics <= t && (online ==> netTics == t)
    ensures RanRight(c, if online then t + 1 else netTics, ran + copies)
  {
    hide RunOk, TicOf, CopyOf;
    forall k | 0 <= k < |ran + copies|
      ensures RunOk(c, TicOf(k, c.ticdup) < (if online then t + 1 else netTics), TicOf(k, c.ticdup),
        CopyOf(k, c.ticdup), (ran + copies)[k])
    {
      if k < |ran| {
        BelowTic(k, c.ticdup, t);
        assert RunOk(c, TicOf(k, c.ticdup) < netTics, TicOf(k, c.ticdup), CopyOf(k, c.ticdup), ran[k]);
      } else {
        InTic(k, c.ticdup, t);
      }
    }
  }

  /** The same, when the copies are the end of the run. */
  lemma CopiesRan(c: Client, netTics: nat, before: seq<TicSet>, after: seq<TicSet>, t: nat, online: bool, tics: TicSet)
    requires ValidClient(c) && RanRight(c, netTics, before) && |before| == t * c.ticdup && Shaped(tics)
    requires |after| == |before| + c.ticdup && after[..|before|] == before
    requires forall j | 0 <= j < c.ticdup :: after[|before| + j] == Copy(tics, j)
    requires forall j: nat :: RunOk(c, online, t, j, Copy(tics, j))
    requires netTics <= t && (online ==> netTics == t)
    ensures RanRight(c, if online then t + 1 else netTics, after)
  {
    hide RunOk, Copy, RanRight;
    var copies := after[|before|..];
    assert after == before + copies;
    forall j | 0 <= j < c.ticdup ensures RunOk(c, online, t, j, copies[j]) {
      assert copies[j] == Copy(tics, j);
    }
    RanMore(c, netTics, before, t, online, copies);
  }

  lemma InTic(k: nat, d: nat, t: nat)
    requires d > 0 && t * d <= k < t * d + d
    ensures TicOf(k, d) == t && CopyOf(k, d) == k - t * d
  {
    DivModUnique(k, d, t, k - t * d);
  }

  lemma BelowTic(k: nat, d: nat, t: nat)
    requires d > 0 && k < t * d
    ensures TicOf(k, d) < t
  {
    if k / d >= t {
      MulMonotone(t, k / d, d);
    }
  }

  // ------------------------------------------------------------------
  // The ring
  // ------------------------------------------------------------------

  ghost predicate Local(c: Client, slot: TicSet, t: nat)
    requires c.localplayer < NET_MAXPLAYERS
  {
    Shaped(slot) && slot.cmds[c.localplayer] == c.input(t) && slot.ingame[c.localplayer]
  }

  ghost predicate Others(c: Client, slot: TicSet, t: nat)
    requires ValidClient(c)
  {
    && Shaped(slot)
    && forall i | 0 <= i < NET_MAXPLAYERS && FromServer(c, i) ::
         slot.cmds[i] == c.served(t).cmds[i] && slot.ingame[i] == c.served(t).ingame[i]
  }

  /** The tics from done on that were built or received are all in the ring: none was overwritten before it ran. */
  ghost predicate RingOk(c: Client, ring: seq<TicSet>, done: nat, maketic: nat, recvtic: nat)
    requires ValidClient(c)
  {
    && |ring| == BACKUPTICS
    && (forall x | 0 <= x < BACKUPTICS :: Shaped(ring[x]))
    && (!c.drone ==> forall t | done <= t < maketic :: Local(c, ring[t % BACKUPTICS], t))
    && (forall t | done <= t < recvtic :: Others(c, ring[t % BACKUPTICS], t))
  }

  lemma SlotsDiffer(t: nat, u: nat)
    requires t < u < t + BACKUPTICS
    ensures t % BACKUPTICS != u % BACKUPTICS
  {}

  function WithLocal(c: Client, slot: TicSet, cmd: Cmd): TicSet
    requires Shaped(slot) && c.localplayer < NET_MAXPLAYERS
  {
    TicSet(slot.cmds[c.localplayer := cmd], slot.ingame[c.localplayer := true])
  }

  lemma RingBuilt(c: Client, ring: seq<TicSet>, done: nat, maketic: nat, recvtic: nat)
    requires ValidClient(c) && RingOk(c, ring, done, maketic, recvtic)
    requires !c.drone && done <= maketic < done + BACKUPTICS
    ensures var x := maketic % BACKUPTICS;
      RingOk(c, ring[x := WithLocal(c, ring[x], c.input(maketic))], done, maketic + 1, recvtic)
  {
    var x := maketic % BACKUPTICS;
    var next := ring[x := WithLocal(c, ring[x], c.input(maketic))];
    forall t | done <= t < maketic + 1 ensures Local(c, next[t % BACKUPTICS], t) {
      if t < maketic { SlotsDiffer(t, maketic); }
    }
    forall t | done <= t < recvtic ensures Others(c, next[t % BACKUPTICS], t) {
      assert Others(c, ring[t % BACKUPTICS], t);
    }
  }

  /** The first n players' parts of a slot after a set came from the server. */
  function WithServed(c: Client, slot: TicSet, tics: TicSet, n: nat): TicSet
    requires Shaped(slot) && Shaped(tics)
  {
    TicSet(seq(NET_MAXPLAYERS, i requires 0 <= i < NET_MAXPLAYERS => if i < n && FromServer(c, i) then tics.cmds[i]
      else slot.cmds[i]),
           seq(NET_MAXPLAYERS, i requires 0 <= i < NET_MAXPLAYERS => if i < n && FromServer(c, i) then tics.ingame[i]
             else slot.ingame[i]))
  }

  lemma RingReceived(c: Client, ring: seq<TicSet>, done: nat, maketic: nat, recvtic: nat)
    requires ValidClient(c) && RingOk(c, ring, done, maketic, recvtic)
    requires done <= recvtic < done + BACKUPTICS
    ensures var x := recvtic % BACKUPTICS;
      RingOk(c, ring[x := WithServed(c, ring[x], c.served(recvtic), NET_MAXPLAYERS)], done, maketic, recvtic + 1)
  {
    var x := recvtic % BACKUPTICS;
    var next := ring[x := WithServed(c, ring[x], c.served(recvtic), NET_MAXPLAYERS)];
    forall t | done <= t < recvtic + 1 ensures Others(c, next[t % BACKUPTICS], t) {
      if t < recvtic {
        SlotsDiffer(t, recvtic);
        assert Others(c, ring[t % BACKUPTICS], t);
      }
    }
    if !c.drone {
      forall t | done <= t < maketic ensures Local(c, next[t % BACKUPTICS], t) {
        assert Local(c, ring[t % BACKUPTICS], t);
      }
    }
  }

  /** The bound is needed: a tic from further ahead takes the place of one that has not run. */
  lemma OverrunOverwrites(c: Client, ring: seq<TicSet>, done: nat, maketic: nat, recvtic: nat, i: nat)
    requires ValidClient(c) && RingOk(c, ring, done, maketic, recvtic) && recvtic == done + BACKUPTICS
    requires i < NET_MAXPLAYERS && FromServer(c, i) && c.served(recvtic).cmds[i] != c.served(done).cmds[i]
    ensures var x := recvtic % BACKUPTICS;
      !RingOk(c, ring[x := WithServed(c, ring[x], c.served(recvtic), NET_MAXPLAYERS)], done, maketic, recvtic + 1)
  {
    var x := recvtic % BACKUPTICS;
    var next := ring[x := WithServed(c, ring[x], c.served(recvtic), NET_MAXPLAYERS)];
    assert !Others(c, next[done % BACKUPTICS], done);
  }

  /** A tic with its number in every command. */
  function Numbered(t: nat): TicSet {
    TicSet(seq(NET_MAXPLAYERS, _ => Cmd(t, 0, 0)), seq(NET_MAXPLAYERS, _ => true))
  }

  /**
    A drone whose server numbers its tics and is a whole ring ahead: the next tic destroys tic 0, which has not run.
   */
  lemma OverrunExample()
    ensures var c := Client(_ => Cmd(0, 0, 0), Numbered, 0, true, 1);
      var ring := seq(BACKUPTICS, t requires 0 <= t < BACKUPTICS => Numbered(t));
      && ValidClient(c) && RingOk(c, ring, 0, 0, BACKUPTICS)
      && !RingOk(c, ring[0 := WithServed(c, ring[0], Numbered(BACKUPTICS), NET_MAXPLAYERS)], 0, 0, BACKUPTICS + 1)
  {
    var c := Client(_ => Cmd(0, 0, 0), Numbered, 0, true, 1);
    var ring := seq(BACKUPTICS, t requires 0 <= t < BACKUPTICS => Numbered(t));
    forall t | 0 <= t < BACKUPTICS ensures Others(c, ring[t % BACKUPTICS], t) {}
    OverrunOverwrites(c, ring, 0, 0, BACKUPTICS, 0);
  }

  /** When the oldest tic has run, its slot may hold anything. */
  lemma RingRun(c: Client, ring: seq<TicSet>, done: nat, maketic: nat, recvtic: nat, left: TicSet)
    requires ValidClient(c) && RingOk(c, ring, done, maketic, recvtic) && Shaped(left)
    requires maketic <= done + BACKUPTICS && recvtic <= done + BACKUPTICS
    ensures RingOk(c, ring[done % BACKUPTICS := left], done + 1, maketic, recvtic)
  {
    var next := ring[done % BACKUPTICS := left];
    forall t | done + 1 <= t < done + BACKUPTICS ensures next[t % BACKUPTICS] == ring[t % BACKUPTICS] {
      SlotsDiffer(done, t);
    }
  }

  /** A tic that was both built and received is in the ring as it is to run. */
  lemma SlotIsFull(c: Client, slot: TicSet, t: nat)
    requires ValidClient(c) && (!c.drone ==> Local(c, slot, t)) && Others(c, slot, t)
    ensures slot == Full(c, t)
  {
    var full := Full(c, t);
    assert Shaped(c.served(t));
    assert forall i | 0 <= i < NET_MAXPLAYERS :: slot.cmds[i] == full.cmds[i] && slot.ingame[i] == full.ingame[i];
  }

  // ------------------------------------------------------------------
  // Two clients
  // ------------------------------------------------------------------

  /**
    The server sends a client what all players entered, except the client's own command, and the client entered that.
   */
  ghost predicate Relayed(c: Client, game: nat -> TicSet)
    requires ValidClient(c)
  {
    forall t: nat :: Shaped(game(t)) &&
      (forall i | 0 <= i < NET_MAXPLAYERS && FromServer(c, i) ::
         c.served(t).cmds[i] == game(t).cmds[i] && c.served(t).ingame[i] == game(t).ingame[i]) &&
      (!c.drone ==> c.input(t) == game(t).cmds[c.localplayer] && game(t).ingame[c.localplayer])
  }

  lemma FullIsGame(c: Client, game: nat -> TicSet, t: nat)
    requires ValidClient(c) && Relayed(c, game)
    ensures Full(c, t) == game(t)
  {
    var full := Full(c, t);
    assert Shaped(game(t)) && Shaped(c.served(t));
    assert forall i | 0 <= i < NET_MAXPLAYERS :: full.cmds[i] == game(t).cmds[i] && full.ingame[i] == game(t).ingame[i];
  }

  /** Two clients of one game run the same command sets for as long as both are connected. */
  lemma ClientsAgree(a: Client, b: Client, game: nat -> TicSet, netA: nat, netB: nat, ranA: seq<TicSet>,
    ranB: seq<TicSet>)
    requires ValidClient(a) && ValidClient(b) && a.ticdup == b.ticdup && Relayed(a, game) && Relayed(b, game)
    requires RanRight(a, netA, ranA) && RanRight(b, netB, ranB)
    ensures forall k | 0 <= k < |ranA| && k < |ranB| && TicOf(k, a.ticdup) < netA && TicOf(k, a.ticdup) < netB ::
      ranA[k] == ranB[k]
  {
    forall k | 0 <= k < |ranA| && k < |ranB| && TicOf(k, a.ticdup) < netA && TicOf(k, a.ticdup) < netB
      ensures ranA[k] == ranB[k] {
      FullIsGame(a, game, TicOf(k, a.ticdup));
      FullIsGame(b, game, TicOf(k, a.ticdup));
      assert RunOk(a, true, TicOf(k, a.ticdup), CopyOf(k, a.ticdup), ranA[k]);
      assert RunOk(b, true, TicOf(k, a.ticdup), CopyOf(k, a.ticdup), ranB[k]);
    }
  }

  // ------------------------------------------------------------------
  // The loop
  // ------------------------------------------------------------------

  class Loop {
    const client: Client
    const newSync: bool
    const singletics: bool
    const ticdata: array<TicSet>
    var maketic: nat
    var recvtic: nat
    var gametic: nat
    var connected: bool
    var skiptics: int
    var lasttime: int
    var frameon: nat
    var frameskip: seq<bool>
    var oldnettics: int
    var oldentertics: int
    var playeringame: seq<bool>
    /** The calls of RunTic so far. */
    var ran: seq<TicSet>
    ghost var done: nat
    ghost var netTics: nat

    /** How far the player may build ahead of the game, at most. */
    function Lead(): nat { if newSync then 9 else 5 }

    function Conditions(): Rules { Rules(client.drone, newSync, singletics) }

    function Now(): Net
      reads this`maketic, this`recvtic, this`connected, this`skiptics, this`lasttime
    {
      Net(maketic, recvtic, connected, skiptics, lasttime)
    }

    ghost predicate Counters()
      reads this`maketic, this`recvtic, this`gametic, this`connected, this`done, this`netTics
    {
      && gametic == done * client.ticdup
      && (if client.drone then maketic == 0 && connected else done <= maketic <= done + Lead())
      && (if connected then netTics == done <= recvtic <= done + BACKUPTICS else netTics <= done)
    }

    ghost predicate Valid()
      reads this, ticdata
    {
      && ValidClient(client) && ticdata.Length == BACKUPTICS && |playeringame| == NET_MAXPLAYERS && |frameskip| == 4
      && Counters()
      && RingOk(client, ticdata[..], done, maketic, if connected then recvtic else 0)
      && |ran| == gametic && RanRight(client, netTics, ran)
    }

    /** D_StartNetGame and D_StartGameLoop. */
    constructor (client: Client, numPlayers: nat, newSync: bool, singletics: bool, connected: bool, lasttime: int)
      requires ValidClient(client) && numPlayers <= NET_MAXPLAYERS && (client.drone ==> connected)
      ensures Valid() && fresh(ticdata)
      ensures this.client == client && this.newSync == newSync && this.connected == connected && ran == []
    {
      this.client, this.newSync, this.singletics, this.connected, this.lasttime := client, newSync, singletics,
        connected, lasttime;
      ticdata := new TicSet[BACKUPTICS](_ => TicSet(seq(NET_MAXPLAYERS, _ => Cmd(0, 0, 0)),
        seq(NET_MAXPLAYERS, _ => false)));
      maketic, recvtic, gametic, skiptics, frameon, oldnettics, oldentertics := 0, 0, 0, 0, 0, 0, 0;
      frameskip := [false, false, false, false];
      playeringame := seq(NET_MAXPLAYERS, i => i < numPlayers);
      ran, done, netTics := [], 0, 0;
    }

    /** The tic that is to run next. */
    lemma GameTicDiv()
      requires ValidClient(client) && Counters()
      ensures client.ticdup > 0 && gametic / client.ticdup == done
    {
      DivModUnique(gametic, client.ticdup, done, 0);
    }

    /** BuildNewTic: a tic is built unless the player is too far ahead of the game. */
    method BuildNewTic() returns (built: bool)
      requires Valid()
      modifies this`maketic, ticdata
      ensures Valid()
      ensures built == (!client.drone && old(maketic) - done < Limit(newSync, connected))
      ensures maketic == if built then old(maketic) + 1 else old(maketic)
      ensures !built ==> ticdata[..] == old(ticdata[..])
    {
      hide RanRight, RingOk;
      GameTicDiv();
      var gameticdiv := gametic / client.ticdup;
      if client.drone {
        return false;
      }
      if newSync {
        if !connected && maketic - gameticdiv > 2 {
          return false;
        }
        if maketic - gameticdiv > 8 {
          return false;
        }
      } else if maketic - gameticdiv >= 5 {
        return false;
      }
      var x := maketic % BACKUPTICS;
      RingShaped(client, ticdata[..], done, maketic, if connected then recvtic else 0);
      RingBuilt(client, ticdata[..], done, maketic, if connected then recvtic else 0);
      ghost var next := ticdata[..][x := WithLocal(client, ticdata[x], client.input(maketic))];
      ticdata[x] := WithLocal(client, ticdata[x], client.input(maketic));
      assert ticdata[..] == next;
      maketic := maketic + 1;
      return true;
    }

    /** D_ReceiveTic: the server is less than a whole ring ahead of the game. */
    method ReceiveTic(tics: TicSet)
      requires Valid() && connected && recvtic < done + BACKUPTICS && tics == client.served(recvtic)
      modifies this`recvtic, ticdata
      ensures Valid() && recvtic == old(recvtic) + 1
    {
      hide RanRight, RingOk;
      var x := recvtic % BACKUPTICS;
      RingShaped(client, ticdata[..], done, maketic, recvtic);
      RingReceived(client, ticdata[..], done, maketic, recvtic);
      StoreServed(x, tics);
      recvtic := recvtic + 1;
    }

    /** The loop of D_ReceiveTic. */
    method StoreServed(x: nat, tics: TicSet)
      requires x < ticdata.Length && Shaped(tics) && Shaped(ticdata[x])
      modifies ticdata
      ensures ticdata[..] == old(ticdata[..])[x := WithServed(client, old(ticdata[x]), tics, NET_MAXPLAYERS)]
    {
      ghost var slot := ticdata[x];
      assert WithServed(client, slot, tics, 0) == slot;
      var i := 0;
      while i < NET_MAXPLAYERS
        invariant 0 <= i <= NET_MAXPLAYERS
        invariant ticdata[..] == old(ticdata[..])[x := WithServed(client, slot, tics, i)]
      {
        if FromServer(client, i) {
          ticdata[x] := TicSet(ticdata[x].cmds[i := tics.cmds[i]], ticdata[x].ingame[i := tics.ingame[i]]);
        }
        assert ticdata[x] == WithServed(client, slot, tics, i + 1);
        i := i + 1;
      }
    }

    /** NetUpdate; false if the program ends because a drone lost the server. */
    method NetUpdate(update: Update) returns (alive: bool)
      requires Valid()
      modifies this`maketic, this`recvtic, this`connected, this`skiptics, this`lasttime, ticdata
      ensures Valid() && old(maketic) <= maketic && old(recvtic) <= recvtic && (connected ==> old(connected))
      ensures (Now(), alive) == Updated(Conditions(), done, old(Now()), update)
    {
      if singletics {
        return true;
      }
      if connected {
        Deliver(update.arrivals);
        if update.lost {
          if client.drone {
            return false;
          }
          Disconnect();
        }
      }
      BuildTics(update.nowtime);
      return true;
    }

    /** The network layer hands over what the server offers; the server is never a whole ring ahead. */
    method Deliver(arrivals: nat)
      requires Valid() && connected
      modifies this`recvtic, ticdata
      ensures Valid() && old(recvtic) <= recvtic
      ensures recvtic ==
        if old(recvtic) + arrivals <= done + BACKUPTICS then old(recvtic) + arrivals else done + BACKUPTICS
    {
      hide RanRight, RingOk;
      var n := 0;
      while n < arrivals && recvtic - gametic / client.ticdup < BACKUPTICS
        invariant 0 <= n <= arrivals && Valid()
        invariant recvtic == old(recvtic) + n <= done + BACKUPTICS
      {
        GameTicDiv();
        ReceiveTic(client.served(recvtic));
        n := n + 1;
      }
      GameTicDiv();
    }

    /** The server is gone: a player goes on alone. */
    method Disconnect()
      requires Valid() && !client.drone
      modifies this`connected
      ensures Valid() && !connected
    {
      hide RanRight;
      connected := false;
    }

    /** The rest of NetUpdate. */
    method BuildTics(nowtime: int)
      requires Valid()
      modifies this`maketic, this`skiptics, this`lasttime, ticdata
      ensures Valid() && lasttime == nowtime && skiptics == Positive(old(skiptics) - (nowtime - old(lasttime)))
      ensures maketic == Made(Conditions(), done, old(Now()), nowtime - old(lasttime) - old(skiptics))
    {
      hide RanRight, RingOk;
      var newtics := nowtime - lasttime;
      lasttime := nowtime;
      if skiptics <= newtics {
        newtics := newtics - skiptics;
        skiptics := 0;
      } else {
        skiptics := skiptics - newtics;
        newtics := 0;
      }
      ghost var skip := skiptics;
      var i := 0;
      ghost var room := Positive(done + Limit(newSync, connected) - maketic);
      while i < newtics
        invariant 0 <= i <= Positive(newtics) && Valid() && lasttime == nowtime && skiptics == skip
        invariant maketic == old(maketic) + if client.drone then 0 else i
        invariant client.drone ==> i == 0
        invariant !client.drone ==> i <= room
      {
        var built := BuildNewTic();
        if !built {
          break;
        }
        i := i + 1;
      }
    }

    /** GetLowTic: the tics below it can all be run. */
    method GetLowTic() returns (lowtic: nat)
      requires Valid()
      ensures Runnable(lowtic) && done <= lowtic
      ensures lowtic == Lowest(Conditions(), Now())
    {
      lowtic := maketic;
      if connected {
        if client.drone || recvtic < lowtic {
          lowtic := recvtic;
        }
      }
    }

    ghost predicate Runnable(lowtic: nat)
      reads this`maketic, this`recvtic, this`connected
    {
      (!client.drone ==> lowtic <= maketic) && (connected ==> lowtic <= recvtic)
    }

    /** The first player in the game adapts to nobody. */
    predicate Adapts()
      reads this`playeringame
    {
      var key := FirstIn(playeringame);
      key < |playeringame| && key != client.localplayer
    }

    /** Whether the server has lagged behind four times in a row, this time included. */
    predicate Lagging(net: Net)
      requires |frameskip| == 4
      reads this`frameskip, this`frameon, this`oldnettics
    {
      frameskip[(frameon + 1) % 4 := oldnettics > net.recvtic] == [true, true, true, true]
    }

    /** OldNetSync on the counters. */
    function Synced(net: Net): Net
      requires |frameskip| == 4
      reads this`playeringame, this`frameskip, this`frameon, this`oldnettics
    {
      if !Adapts() then net
      else net.(lasttime := if net.maketic <= net.recvtic then net.lasttime - 1 else net.lasttime,
                skiptics := if Lagging(net) then 1 else net.skiptics)
    }

    /** The counters as the wait begins; look is what the first look leaves. */
    function BeforeWait(look: Net): Net
      requires |frameskip| == 4
      reads this`playeringame, this`frameskip, this`frameon, this`oldnettics
    {
      if newSync || !look.connected then look else Synced(look)
    }

    predicate PlayersInGame()
      reads this`connected, this`playeringame
    {
      (connected && true in playeringame) || !client.drone
    }

    /** OldNetSync. */
    method OldNetSync()
      requires Valid()
      modifies this`frameon, this`lasttime, this`frameskip, this`oldnettics, this`skiptics
      ensures Valid() && Now() == old(Synced(Now())) && frameon == old(frameon) + 1
      ensures Adapts() ==>
        oldnettics == maketic && frameskip == old(frameskip)[frameon % 4 := old(oldnettics) > recvtic]
      ensures !Adapts() ==> oldnettics == old(oldnettics) && frameskip == old(frameskip)
    {
      hide RanRight, RingOk, ValidClient, Loop.Counters, FirstIn;
      frameon := frameon + 1;
      var keyplayer := KeyPlayer();
      if keyplayer == NET_MAXPLAYERS || client.localplayer == keyplayer {
        return;
      }
      if maketic <= recvtic {
        lasttime := lasttime - 1;
      }
      frameskip := frameskip[frameon % 4 := oldnettics > recvtic];
      oldnettics := maketic;
      if frameskip == [true, true, true, true] {
        skiptics := 1;
      }
    }

    /** The loop of OldNetSync. */
    method KeyPlayer() returns (keyplayer: nat)
      requires |playeringame| == NET_MAXPLAYERS
      ensures keyplayer == FirstIn(playeringame) <= NET_MAXPLAYERS
    {
      keyplayer := 0;
      while keyplayer < NET_MAXPLAYERS && !playeringame[keyplayer]
        invariant keyplayer <= NET_MAXPLAYERS && true !in playeringame[..keyplayer]
      {
        keyplayer := keyplayer + 1;
      }
      FirstInIs(playeringame, keyplayer);
    }

    /** SinglePlayerClear on the slot of the tic that is to run. */
    method SinglePlayerClear(x: nat)
      requires x < ticdata.Length && Shaped(ticdata[x])
      modifies ticdata
      ensures ticdata[..] == old(ticdata[..])[x := Alone(client, old(ticdata[x]), NET_MAXPLAYERS)]
    {
      ghost var slot := ticdata[x];
      assert Alone(client, slot, 0) == slot;
      var i := 0;
      while i < NET_MAXPLAYERS
        invariant 0 <= i <= NET_MAXPLAYERS
        invariant ticdata[..] == old(ticdata[..])[x := Alone(client, slot, i)]
      {
        if i != client.localplayer {
          ticdata[x] := ticdata[x].(ingame := ticdata[x].ingame[i := false]);
        }
        assert ticdata[x] == Alone(client, slot, i + 1);
        i := i + 1;
      }
    }

    /** TicdupSquash. */
    method TicdupSquash(x: nat)
      requires x < ticdata.Length && Shaped(ticdata[x])
      modifies ticdata
      ensures ticdata[..] == old(ticdata[..])[x := Squash(old(ticdata[x]))]
    {
      ghost var slot := ticdata[x];
      assert SquashedTo(slot, 0) == slot;
      var i := 0;
      while i < NET_MAXPLAYERS
        invariant 0 <= i <= NET_MAXPLAYERS
        invariant ticdata[..] == old(ticdata[..])[x := SquashedTo(slot, i)]
      {
        var cmd := ticdata[x].cmds[i];
        cmd := cmd.(chatchar := 0);
        if cmd.buttons & BT_SPECIAL != 0 {
          cmd := cmd.(buttons := 0);
        }
        ticdata[x] := ticdata[x].(cmds := ticdata[x].cmds[i := cmd]);
        assert ticdata[x] == SquashedTo(slot, i + 1);
        i := i + 1;
      }
      assert SquashedTo(slot, NET_MAXPLAYERS) == Squash(slot);
    }

    /** The inner loop of TryRunTics: the tic in slot x runs ticdup times, squashed after the first. */
    method RunCopies(x: nat, lowtic: nat)
      requires ValidClient(client) && ticdata.Length == BACKUPTICS && x < BACKUPTICS && Shaped(ticdata[x])
      requires gametic == done * client.ticdup && done < lowtic
      modifies this`gametic, this`playeringame, this`ran, ticdata
      ensures gametic == old(gametic) + client.ticdup == (done + 1) * client.ticdup && |playeringame| == NET_MAXPLAYERS
      ensures Shaped(ticdata[x]) && ticdata[..] == old(ticdata[..])[x := ticdata[x]]
      ensures |ran| == |old(ran)| + client.ticdup && ran[..|old(ran)|] == old(ran)
      ensures playeringame == ran[|ran| - 1].ingame
      ensures forall j | 0 <= j < client.ticdup :: ran[|old(ran)| + j] == Copy(old(ticdata[x]), j)
    {
      hide Squash;
      ghost var slot := ticdata[x];
      SquashShaped(slot);
      var i := 0;
      while i < client.ticdup
        invariant 0 <= i <= client.ticdup && gametic == done * client.ticdup + i
        invariant i > 0 ==> |playeringame| == NET_MAXPLAYERS && ran != [] && playeringame == ran[|ran| - 1].ingame
        invariant
          && ticdata[x] == (if i == 0 then slot else Squash(slot))
          && ticdata[..] == old(ticdata[..])[x := ticdata[x]]
        invariant |ran| == |old(ran)| + i && ran[..|old(ran)|] == old(ran)
        invariant forall j | 0 <= j < i :: ran[|old(ran)| + j] == Copy(slot, j)
      {
        DivModUnique(gametic, client.ticdup, done, i);
        if gametic / client.ticdup > lowtic {
          assert false; // "gametic>lowtic" cannot happen
        }
        playeringame := ticdata[x].ingame;
        ran := ran + [ticdata[x]];
        gametic := gametic + 1;
        TicdupSquash(x);
        i := i + 1;
      }
    }

    /** One round of the loop of TryRunTics that runs the tics. */
    method RunTic(lowtic: nat)
      requires Valid() && Runnable(lowtic) && done < lowtic
      modifies this`gametic, this`playeringame, this`ran, this`done, this`netTics, ticdata
      ensures Valid() && Runnable(lowtic) && done == old(done) + 1
      ensures old(ran) <= ran && |ran| == |old(ran)| + client.ticdup
      ensures ran != [] && playeringame == ran[|ran| - 1].ingame
    {
      hide RanRight, RingOk, RunOk, Copy, Shaped, ValidClient;
      GameTicDiv();
      var x := gametic / client.ticdup % BACKUPTICS;
      ghost var known := if connected then recvtic else 0;
      ghost var ring := ticdata[..];
      ReadySlot(x, lowtic);
      ghost var tics := ticdata[x];
      RunCopies(x, lowtic);
      RingRun(client, ring, done, maketic, known, ticdata[x]);
      assert ticdata[..] == ring[x := ticdata[x]];
      CopiesRan(client, netTics, old(ran), ran, done, connected, tics);
      done := done + 1;
      if connected {
        netTics := done;
      }
    }

    /** Before a tic runs: alone, the player is the only one in the game. The slot then holds what is to run. */
    method ReadySlot(x: nat, lowtic: nat)
      requires Valid() && Runnable(lowtic) && done < lowtic && x == done % BACKUPTICS
      modifies ticdata
      ensures ticdata[..] == old(ticdata[..])[x := ticdata[x]] && Shaped(ticdata[x])
      ensures forall j: nat :: RunOk(client, connected, done, j, Copy(ticdata[x], j))
    {
      hide RanRight, RingOk, RunOk, Copy, Alone;
      ghost var known := if connected then recvtic else 0;
      ghost var ring := ticdata[..];
      RingShaped(client, ring, done, maketic, known);
      if !connected {
        SinglePlayerClear(x);
      }
      TicIsRight(client, ring, done, maketic, known, lowtic, connected, ticdata[x]);
      assert ticdata[..] == ring[x := ticdata[x]];
    }

    /** The loop of TryRunTics that runs the tics; after each of them the network is looked after. */
    method RunTics(counts: nat, lowtic: nat, after: seq<Update>) returns (alive: bool)
      requires Valid() && Runnable(lowtic) && done + counts <= lowtic
      modifies this, ticdata
      ensures Valid() && old(ran) <= ran && oldentertics == old(oldentertics)
      ensures done <= old(done) + counts && (counts > 0 && old(PlayersInGame()) ==> done > old(done))
      ensures !client.drone ==> alive && done == old(done) + counts
      ensures alive && done < old(done) + counts ==> !PlayersInGame()
      ensures counts > 0 && !old(PlayersInGame()) ==> done == old(done)
      ensures done > old(done) ==> ran != [] && playeringame == ran[|ran| - 1].ingame
      ensures client.drone && !singletics ==> NoneLost(after, done - old(done) - if alive then 0 else 1)
      ensures !alive ==> old(done) < done <= old(done) + |after| && after[done - old(done) - 1].lost
      ensures !client.drone ==> Now() == AfterRun(Conditions(), old(done), old(Now()), counts, after)
    {
      hide RanRight, RingOk, Updated;
      var left := counts;
      while left > 0
        invariant
          && Valid()
          && Runnable(lowtic)
          && done == old(done) + (counts - left)
          && 0 <= left <= counts
          && old(ran) <= ran
        invariant oldentertics == old(oldentertics) && (left == counts ==> PlayersInGame() == old(PlayersInGame()))
        invariant left < counts ==> old(PlayersInGame()) && ran != [] && playeringame == ran[|ran| - 1].ingame
        invariant client.drone && !singletics ==> NoneLost(after, counts - left)
        invariant !client.drone ==> Now() == AfterRun(Conditions(), old(done), old(Now()), counts - left, after)
      {
        if !PlayersInGame() {
          return true;
        }
        RunTic(lowtic);
        var k := counts - left;
        OnlyDronesEnd(Conditions(), done, Now(), UpdateAfter(Now(), after, k));
        alive := NetUpdate(UpdateAfter(Now(), after, k));
        if !alive {
          return;
        }
        left := left - 1;
      }
      return true;
    }

    /**
      The loop of TryRunTics that waits for counts tics; it gives up when it stalls, and here also when the inputs
      end. For a player it ends well just when some of the updates make the tics available in time.
     */
    method WaitForTics(counts: nat, first: nat, waits: seq<Wait>)
      returns (lowtic: nat, ready: bool, alive: bool, ghost used: nat)
      requires Valid() && first == Lowest(Conditions(), Now()) && Runnable(first)
      modifies this`maketic, this`recvtic, this`connected, this`skiptics, this`lasttime, ticdata
      ensures Valid() && Runnable(lowtic)
      ensures ready ==> alive && done + counts <= lowtic && PlayersInGame()
      ensures !alive ==> client.drone
      ensures done + counts <= first && old(PlayersInGame()) ==> ready && used == 0
      ensures alive && !ready ==> !(PlayersInGame() && done + counts <= lowtic == Lowest(Conditions(), Now()))
      ensures used <= |waits| && (alive && !ready && used < |waits| ==> used > 0 && waits[used - 1].stalled)
      ensures !alive ==> used < |waits| && waits[used].update.lost
      ensures client.drone && !singletics ==> forall k | 0 <= k < used :: !waits[k].update.lost
      ensures used <= |waits| && (alive ==> Now() == AfterAll(Conditions(), done, old(Now()), waits[..used]))
      ensures !client.drone ==> (ready <==> EndsWell(Conditions(), done, old(Now()), done + counts, waits))
    {
      hide Loop.Valid, Updated, AfterAll, EndsWell, StillWaiting, Lowest;
      NothingYet(Conditions(), done, Now(), done + counts, waits);
      lowtic := first;
      ghost var k, start := Conditions(), Now();
      used := 0;
      var n := 0;
      while true
        invariant 0 <= n == used <= |waits| && Valid() && Runnable(lowtic) && lowtic == Lowest(k, Now())
        invariant Now() == AfterAll(k, done, start, waits[..n])
        invariant n == 0 ==> PlayersInGame() == old(PlayersInGame())
        invariant client.drone && !singletics ==> forall i | 0 <= i < n :: !waits[i].update.lost
        invariant n > 0 ==> !(done + counts <= first && old(PlayersInGame()))
        invariant !client.drone ==> StillWaiting(k, done, start, done + counts, waits, n)
        decreases |waits| - n
      {
        ValidSizes();
        if !client.drone {
          WaitEnds(k, done, start, done + counts, waits, n);
        }
        if PlayersInGame() && gametic / client.ticdup + counts <= lowtic {
          return lowtic, true, true, n;
        }
        if n == |waits| {
          return lowtic, false, true, n;
        }
        OnlyDronesEnd(k, done, Now(), waits[n].update);
        AfterOneMore(k, done, start, waits, n);
        alive := NetUpdate(waits[n].update);
        if !alive {
          return lowtic, false, false, n;
        }
        lowtic := GetLowTic();
        if lowtic < gametic / client.ticdup {
          assert false; // "TryRunTics: lowtic < gametic" cannot happen
        }
        if lowtic < gametic / client.ticdup + counts && waits[n].stalled {
          return lowtic, false, true, n + 1;
        }
        if !client.drone {
          OneMoreWait(k, done, start, done + counts, waits, n);
        }
        n, used := n + 1, used + 1;
      }
    }

    /**
      TryRunTics; entertic is the time of the call in tics, and the result is the number of tics asked for. It is
      a function of the time and of what the first look at the network makes available. A player runs all
      of them just when they become available during the wait, and otherwise none.
     */
    method TryRunTics(entertic: int, uncapped: bool, first: Update, waits: seq<Wait>, after: seq<Update>)
      returns (alive: bool, counts: nat, ghost used: nat)
      requires Valid()
      modifies this, ticdata
      ensures Valid() && old(ran) <= ran && oldentertics == entertic && |ran| == done * client.ticdup
      ensures !alive ==> client.drone
      ensures old(done) < done < old(done) + counts && alive ==> !PlayersInGame()
      ensures |old(frameskip)| == 4
      ensures var (look, on) := Looked(Conditions(), old(done), old(Now()), first);
        && (old(done) + counts <= Lowest(Conditions(), look) && counts > 0 && true in old(playeringame) ==>
              done > old(done))
        && (!on ==> !alive)
        && counts == (if !on then 0 else
             Wanted(newSync, entertic - old(oldentertics), Lowest(Conditions(), look) - old(done), uncapped,
                    old(done) > 0))
        && (!client.drone && old(done) + counts <= Lowest(Conditions(), look) ==> done == old(done) + counts)
        && (!client.drone && counts > 0 ==>
             (done == old(done) + counts <==>
                EndsWell(Conditions(), old(done), old(BeforeWait(look)), old(done) + counts, waits)))
      ensures done <= old(done) + counts
      ensures !client.drone ==> done in {old(done), old(done) + counts}
      ensures used <= |waits|
      ensures var (look, _) := Looked(Conditions(), old(done), old(Now()), first);
        var waited := AfterAll(Conditions(), old(done), old(BeforeWait(look)), waits[..used]);
        !client.drone && counts > 0 ==>
          Now() == if done == old(done) then waited else AfterRun(Conditions(), old(done), waited, counts, after)
    {
      hide Loop.Valid, EndsWell, AfterAll, AfterRun, Looked, Wanted, Loop.BeforeWait, Lowest;
      var lowtic;
      used := 0;
      ValidSizes();
      alive, counts, lowtic := ChooseCounts(entertic, uncapped, first);
      ValidSizes();
      if !alive || counts == 0 {
        return;
      }
      alive, used := WaitAndRun(counts, lowtic, waits, after);
      ValidSizes();
    }

    /** The second half of TryRunTics. */
    method WaitAndRun(counts: nat, first: nat, waits: seq<Wait>, after: seq<Update>)
      returns (alive: bool, ghost used: nat)
      requires Valid() && first == Lowest(Conditions(), Now()) && Runnable(first) && counts > 0
      modifies this, ticdata
      ensures Valid() && old(ran) <= ran && oldentertics == old(oldentertics)
      ensures done <= old(done) + counts && (!alive ==> client.drone)
      ensures alive && old(done) < done < old(done) + counts ==> !PlayersInGame()
      ensures old(done) + counts <= first && true in old(playeringame) ==> done > old(done)
      ensures !client.drone ==> done in {old(done), old(done) + counts}
      ensures !client.drone ==>
        (done == old(done) + counts <==> EndsWell(Conditions(), old(done), old(Now()), old(done) + counts, waits))
      ensures !client.drone && old(done) + counts <= first ==> done == old(done) + counts
      ensures used <= |waits|
      ensures var waited := AfterAll(Conditions(), old(done), old(Now()), waits[..used]);
        !client.drone ==>
          Now() == if done == old(done) then waited else AfterRun(Conditions(), old(done), waited, counts, after)
    {
      hide Loop.Valid, EndsWell, AfterAll, AfterRun, Lowest;
      var lowtic, ready;
      ValidSizes();
      lowtic, ready, alive, used := WaitForTics(counts, first, waits);
      if ready {
        alive := RunTics(counts, lowtic, after);
      }
    }

    /** The first half of TryRunTics: how many tics to run; zero if it is to return at once. */
    method ChooseCounts(entertic: int, uncapped: bool, first: Update) returns (alive: bool, counts: nat, lowtic: nat)
      requires Valid()
      modifies this, ticdata
      ensures Valid() && ran == old(ran) && done == old(done) && oldentertics == entertic && |old(frameskip)| == 4
      ensures playeringame == old(playeringame) && (!alive ==> client.drone)
      ensures lowtic == Lowest(Conditions(), Now()) || !alive
      ensures Runnable(lowtic) || !alive
      ensures var (look, on) := Looked(Conditions(), done, old(Now()), first);
        && alive == on
        && (on ==> lowtic == Lowest(Conditions(), look))
        && counts == (if !on then 0 else
             Wanted(newSync, entertic - old(oldentertics), Lowest(Conditions(), look) - done, uncapped, done > 0))
        && (counts > 0 ==> Now() == old(BeforeWait(look)))
    {
      hide Loop.Valid, Looked;
      ValidSizes();
      counts, lowtic := 0, 0;
      var realtics;
      realtics, alive := LookAround(entertic, first);
      if !alive {
        return;
      }
      lowtic := GetLowTic();
      ValidSizes();
      var availabletics := lowtic - gametic / client.ticdup;
      var n := CountTics(newSync, realtics, availabletics);
      if !newSync {
        if n == 0 && uncapped && gametic > 0 {
          return;
        }
        if connected {
          OldNetSync();
        }
      }
      counts := if n < 1 then 1 else n;
    }

    lemma MadeEnough()
      requires Valid()
      ensures !client.drone ==> done <= maketic
    {}

    lemma ValidSizes()
      requires Valid()
      ensures client.ticdup > 0 && gametic / client.ticdup == done && |ran| == gametic == done * client.ticdup
      ensures (gametic > 0 <==> done > 0) && |frameskip| == 4 && (client.drone ==> connected)
    {
      hide RanRight, RingOk;
      GameTicDiv();
    }

    /** The beginning of TryRunTics: the time since the last call, and the first look at the network. */
    method LookAround(entertic: int, first: Update) returns (realtics: int, alive: bool)
      requires Valid()
      modifies this`oldentertics, this`maketic, this`recvtic, this`connected, this`skiptics, this`lasttime, ticdata
      ensures Valid() && realtics == entertic - old(oldentertics) && oldentertics == entertic
      ensures (Now(), alive) == Looked(Conditions(), done, old(Now()), first)
      ensures client.drone || alive
    {
      hide RanRight, RingOk;
      realtics := entertic - oldentertics;
      oldentertics := entertic;
      alive := true;
      if singletics {
        var _ := BuildNewTic();
      } else {
        alive := NetUpdate(first);
      }
    }
  }

  /** The first player in the game, or the number of players. */
  function FirstIn(playing: seq<bool>): nat {
    if playing == [] || playing[0] then 0 else 1 + FirstIn(playing[1..])
  }

  lemma {:induction false} FirstInIs(playing: seq<bool>, n: nat)
    requires n <= |playing| && true !in playing[..n] && (n < |playing| ==> playing[n])
    ensures FirstIn(playing) == n
  {
    if n > 0 {
      assert playing[..n][0] == playing[0] && playing[1..][..n - 1] == playing[..n][1..];
      FirstInIs(playing[1..], n - 1);
    }
  }

  /** The first n players' ingame flags are cleared, except the local player's. */
  function Alone(c: Client, slot: TicSet, n: nat): TicSet
    requires Shaped(slot)
  {
    slot.(ingame := seq(NET_MAXPLAYERS, i requires 0 <= i < NET_MAXPLAYERS => (i >= n || i == c.localplayer)
      && slot.ingame[i]))
  }

  /** The first n players' commands are squashed. */
  function SquashedTo(slot: TicSet, n: nat): TicSet
    requires Shaped(slot)
  {
    slot.(cmds := seq(NET_MAXPLAYERS, i requires 0 <= i < NET_MAXPLAYERS => if i < n then SquashCmd(slot.cmds[i])
      else slot.cmds[i]))
  }

  lemma SquashShaped(slot: TicSet)
    requires Shaped(slot)
    ensures Shaped(Squash(slot)) && Squash(Squash(slot)) == Squash(slot)
  {
    SquashIdempotent(slot);
  }

  /** The slot of the tic that is to run holds what is to run. */
  lemma TicIsRight(c: Client, ring: seq<TicSet>, done: nat, maketic: nat, recvtic: nat, lowtic: nat, online: bool,
    tics: TicSet)
    requires ValidClient(c) && RingOk(c, ring, done, maketic, recvtic) && done < lowtic
    requires (!c.drone ==> lowtic <= maketic) && (online ==> lowtic <= recvtic) && (c.drone ==> online)
    requires Shaped(ring[done % BACKUPTICS])
    requires tics == if online then ring[done % BACKUPTICS] else Alone(c, ring[done % BACKUPTICS], NET_MAXPLAYERS)
    ensures Shaped(tics) && forall j: nat :: RunOk(c, online, done, j, Copy(tics, j))
  {
    var slot := ring[done % BACKUPTICS];
    if online {
      assert Others(c, slot, done);
      SlotIsFull(c, slot, done);
    } else {
      assert Local(c, slot, done);
    }
  }

  lemma RingShaped(c: Client, ring: seq<TicSet>, done: nat, maketic: nat, recvtic: nat)
    requires ValidClient(c) && RingOk(c, ring, done, maketic, recvtic)
    ensures |ring| == BACKUPTICS && forall x | 0 <= x < BACKUPTICS :: Shaped(ring[x])
  {}

  /**
    A player alone whose clock moves on between the calls runs at least one tic in each of them; with one tic of time
    for each call, he runs in step with the clock.
   */
  method RunAlone(loop: Loop, steps: seq<nat>, uncapped: bool)
    requires loop.Valid() && !loop.client.drone && !loop.connected && !loop.singletics && loop.skiptics == 0
    requires forall i | 0 <= i < |steps| :: steps[i] > 0
    modifies loop, loop.ticdata
    ensures loop.Valid() && loop.done >= old(loop.done) + |steps| && |loop.ran| == loop.done * loop.client.ticdup
    ensures old(loop.ran) <= loop.ran
    ensures old(loop.maketic == loop.done) && (forall i | 0 <= i < |steps| :: steps[i] == 1) ==>
      loop.done == old(loop.done) + |steps| && loop.lasttime == old(loop.lasttime) + |steps|
  {
    hide Loop.Valid, Looked, Wanted, AfterRun, Lowest;
    var i := 0;
    loop.ValidSizes();
    while i < |steps|
      invariant 0 <= i <= |steps| && loop.Valid() && !loop.connected && loop.skiptics == 0
      invariant loop.done >= old(loop.done) + i && old(loop.ran) <= loop.ran
      invariant |loop.ran| == loop.done * loop.client.ticdup
      invariant old(loop.maketic == loop.done) && (forall j | 0 <= j < i :: steps[j] == 1) ==>
        loop.done == old(loop.done) + i && loop.lasttime == old(loop.lasttime) + i && loop.maketic == loop.done
    {
      ghost var net, done := loop.Now(), loop.done;
      loop.MadeEnough();
      AloneCall(loop.Conditions(), done, net, loop.lasttime + steps[i], steps[i], uncapped);
      var first := Update(0, false, loop.lasttime + steps[i]);
      var _, counts, _ := loop.TryRunTics(loop.oldentertics + steps[i], uncapped, first, [], []);
      i := i + 1;
    }
  }

  /** The same of two loops: what both have run while connected is the same. */
  lemma LoopsAgree(a: Loop, b: Loop, game: nat -> TicSet)
    requires a.Valid() && b.Valid() && a.client.ticdup == b.client.ticdup
    requires Relayed(a.client, game) && Relayed(b.client, game)
    ensures a.connected && b.connected ==> a.ran <= b.ran || b.ran <= a.ran
  {
    hide RingOk, Relayed;
    if a.connected && b.connected {
      ClientsAgree(a.client, b.client, game, a.netTics, b.netTics, a.ran, b.ran);
      ConnectedRun(a.gametic, a.done, a.client.ticdup);
      ConnectedRun(b.gametic, b.done, b.client.ticdup);
    }
  }

  /** Every call so far belongs to a tic that is done. */
  lemma ConnectedRun(gametic: nat, done: nat, d: nat)
    requires d > 0 && gametic == done * d
    ensures forall k: nat | k < gametic :: TicOf(k, d) < done
  {
    forall k: nat | k < gametic ensures TicOf(k, d) < done {
      BelowTic(k, d, done);
    }
  }
}
