/**
  src/d_loop.c: when tics are built, received and run. The counters of the loop are values here;
  the clock and the network are inputs of each update.
 */
module TicNet {

  const BACKUPTICS := 128

  /** What does not change: a drone only watches; the new synchronisation; one tic for each call, to time a demo. */
  datatype Rules = Rules(drone: bool, newSync: bool, singletics: bool)

  /** The counters that NetUpdate moves. */
  datatype Net = Net(maketic: nat, recvtic: nat, connected: bool, skiptics: int, lasttime: int)

  /** One call of NetUpdate: how many tics the server offers, whether the connection is lost, and the time in tics. */
  datatype Update = Update(arrivals: nat, lost: bool, nowtime: int)

  /** A step of the wait in TryRunTics: an update, and whether the wait has become too long. */
  datatype Wait = Wait(update: Update, stalled: bool)

  /** How many tics a player may have built that have not run. */
  function Limit(newSync: bool, connected: bool): nat {
    if !newSync then 5 else if connected then 9 else 3
  }

  function Positive(x: int): nat { if x < 0 then 0 else x }

  function Least(x: int, y: int): int { if x < y then x else y }

  /** The number of tics after some time: as many more as the time and the limit allow. */
  function Made(k: Rules, done: nat, net: Net, newtics: int): nat {
    if k.drone then net.maketic
    else net.maketic + Least(Positive(newtics), Positive(done + Limit(k.newSync, net.connected) - net.maketic))
  }

  /** NetUpdate, when done tics have run; false if the program ends because a drone lost the server. */
  function Updated(k: Rules, done: nat, net: Net, u: Update): (Net, bool) {
    if k.singletics then (net, true)
    else
      var recvtic :=
        if net.connected then Positive(Least(net.recvtic + u.arrivals, done + BACKUPTICS)) else net.recvtic;
      if net.connected && u.lost && k.drone then (net.(recvtic := recvtic), false)
      else
        var now := net.(recvtic := recvtic, connected := net.connected && !u.lost);
        var newtics := u.nowtime - net.lasttime;
        (now.(maketic := Made(k, done, now, newtics - net.skiptics),
              skiptics := Positive(net.skiptics - newtics), lasttime := u.nowtime), true)
  }

  lemma OnlyDronesEnd(k: Rules, done: nat, net: Net, u: Update)
    ensures Updated(k, done, net, u).1 <==> !(k.drone && !k.singletics && net.connected && u.lost)
  {}

  /** The beginning of TryRunTics: a tic of its own for each call, or an update. */
  function Looked(k: Rules, done: nat, net: Net, u: Update): (Net, bool) {
    if k.singletics then (net.(maketic := Made(k, done, net, 1)), true) else Updated(k, done, net, u)
  }

  /** The tics below this one can be run. */
  predicate CanRun(k: Rules, net: Net, lowtic: nat) {
    (!k.drone ==> lowtic <= net.maketic) && (net.connected ==> lowtic <= net.recvtic)
  }

  /** GetLowTic. */
  function Lowest(k: Rules, net: Net): nat {
    if net.connected && (k.drone || net.recvtic < net.maketic) then net.recvtic else net.maketic
  }

  /** It is the greatest such tic. */
  lemma LowestIsGreatest(k: Rules, net: Net, t: nat)
    requires k.drone ==> net.connected
    ensures t <= Lowest(k, net) <==> CanRun(k, net, t)
  {}

  // ------------------------------------------------------------------
  // How many tics to run
  // ------------------------------------------------------------------

  /** How many tics TryRunTics would like to run. */
  function CountTics(newSync: bool, realtics: int, availabletics: int): int {
    if newSync then availabletics
    else if realtics < availabletics - 1 then realtics + 1
    else if realtics < availabletics then realtics
    else availabletics
  }

  /** ... and how many it tries: none when it need not wait, otherwise one at least. */
  function Wanted(newSync: bool, realtics: int, availabletics: int, uncapped: bool, begun: bool): nat {
    var n := CountTics(newSync, realtics, availabletics);
    if !newSync && n == 0 && uncapped && begun then 0 else if n < 1 then 1 else n
  }

  /** What is left waiting: nothing with the new synchronisation; else a backlog is worked off tic by tic. */
  lemma Backlog(newSync: bool, realtics: nat, availabletics: nat)
    ensures var left := availabletics - CountTics(newSync, realtics, availabletics);
      && 0 <= left <= availabletics
      && (left == 0 <==> newSync || availabletics <= realtics)
      && (left > 0 ==> left == if availabletics == realtics + 1 then 1 else availabletics - realtics - 1)
  {}

  /** No more than is available is tried, but one; and none at all in one case only. */
  lemma WantedFits(newSync: bool, realtics: nat, availabletics: nat, uncapped: bool, begun: bool)
    ensures var n := Wanted(newSync, realtics, availabletics, uncapped, begun);
      && (availabletics > 0 ==> n <= availabletics)
      && (availabletics == 0 ==> n <= 1)
      && (n == 0 <==>
            !newSync && uncapped && begun && (availabletics == 0 || (availabletics == 1 && realtics == 0)))
      && (newSync && availabletics > 0 ==> n == availabletics)
  {}

  // ------------------------------------------------------------------
  // Waiting
  // ------------------------------------------------------------------

  /** The counters after all these updates. */
  function AfterAll(k: Rules, done: nat, net: Net, waits: seq<Wait>): Net
    decreases |waits|
  {
    if waits == [] then net
    else Updated(k, done, AfterAll(k, done, net, waits[..|waits| - 1]), waits[|waits| - 1].update).0
  }

  /**
    The wait of a player for a tic ends well just when some number of updates makes the tic available
    and none before was the last one allowed.
   */
  ghost predicate EndsWell(k: Rules, done: nat, net: Net, tic: nat, waits: seq<Wait>) {
    exists n ::
      && 0 <= n <= |waits| && tic <= Lowest(k, AfterAll(k, done, net, waits[..n]))
      && forall j | 0 < j < n :: waits[j - 1].stalled ==> tic <= Lowest(k, AfterAll(k, done, net, waits[..j]))
  }

  lemma AfterOneMore(k: Rules, done: nat, net: Net, waits: seq<Wait>, n: nat)
    requires n < |waits|
    ensures AfterAll(k, done, net, waits[..n + 1]) ==
      Updated(k, done, AfterAll(k, done, net, waits[..n]), waits[n].update).0
  {
    assert waits[..n + 1][..n] == waits[..n];
  }

  /** The tic is not available after any of the first n updates, and none of them was the last one allowed. */
  ghost predicate StillWaiting(k: Rules, done: nat, net: Net, tic: nat, waits: seq<Wait>, n: nat) {
    && n <= |waits|
    && (forall j | 0 <= j < n :: Lowest(k, AfterAll(k, done, net, waits[..j])) < tic)
    && (forall j | 0 < j <= n && waits[j - 1].stalled :: tic <= Lowest(k, AfterAll(k, done, net, waits[..j])))
  }

  lemma NothingYet(k: Rules, done: nat, net: Net, tic: nat, waits: seq<Wait>)
    ensures StillWaiting(k, done, net, tic, waits, 0) && AfterAll(k, done, net, waits[..0]) == net
  {}

  lemma OneMoreWait(k: Rules, done: nat, net: Net, tic: nat, waits: seq<Wait>, n: nat)
    requires StillWaiting(k, done, net, tic, waits, n) && n < |waits|
    requires Lowest(k, AfterAll(k, done, net, waits[..n])) < tic
    requires waits[n].stalled ==> tic <= Lowest(k, AfterAll(k, done, net, waits[..n + 1]))
    ensures StillWaiting(k, done, net, tic, waits, n + 1)
  {
    hide AfterAll, Lowest;
  }

  lemma WaitEnds(k: Rules, done: nat, net: Net, tic: nat, waits: seq<Wait>, n: nat)
    requires StillWaiting(k, done, net, tic, waits, n)
    ensures tic <= Lowest(k, AfterAll(k, done, net, waits[..n])) ==> EndsWell(k, done, net, tic, waits)
    ensures n == |waits| && Lowest(k, AfterAll(k, done, net, waits[..n])) < tic ==> !EndsWell(k, done, net, tic, waits)
    ensures n < |waits| && waits[n].stalled && Lowest(k, AfterAll(k, done, net, waits[..n])) < tic ==>
      EndsWell(k, done, net, tic, waits) ==> tic <= Lowest(k, AfterAll(k, done, net, waits[..n + 1]))
  {
    hide AfterAll, Lowest;
  }

  // ------------------------------------------------------------------
  // Running
  // ------------------------------------------------------------------

  /** The update after the tic that is number i of the call; without one the clock stands still. */
  function UpdateAfter(net: Net, after: seq<Update>, i: nat): Update {
    if i < |after| then after[i] else Update(0, false, net.lasttime)
  }

  /** The server goes on through the first n updates. */
  predicate NoneLost(after: seq<Update>, n: int) {
    forall i | 0 <= i < n && i < |after| :: !after[i].lost
  }

  /** The counters of a player after n tics have run, each with an update. */
  function AfterRun(k: Rules, done: nat, net: Net, n: nat, after: seq<Update>): Net {
    if n == 0 then net
    else
      var before := AfterRun(k, done, net, n - 1, after);
      Updated(k, done + n, before, UpdateAfter(before, after, n - 1)).0
  }

  // ------------------------------------------------------------------
  // A player alone
  // ------------------------------------------------------------------

  /** A player alone has a tic to run just when one was left, or the clock has moved on. */
  lemma AloneReady(k: Rules, done: nat, net: Net, u: Update)
    requires !k.drone && !k.singletics && !net.connected && done <= net.maketic
    ensures var (look, alive) := Updated(k, done, net, u);
      && alive && !look.connected
      && (done < Lowest(k, look) <==> done < net.maketic || u.nowtime - net.lasttime > net.skiptics)
      && (net.skiptics <= 0 && u.nowtime >= net.lasttime ==> look.skiptics <= 0)
  {}

  /** A call of TryRunTics by a player alone, some time after the last one. */
  lemma AloneCall(k: Rules, done: nat, net: Net, nowtime: int, realtics: nat, uncapped: bool)
    requires !k.drone && !k.singletics && !net.connected && done <= net.maketic && net.skiptics == 0
    requires realtics > 0 && nowtime == net.lasttime + realtics
    ensures var look := Looked(k, done, net, Update(0, false, nowtime)).0;
      var n := Wanted(k.newSync, realtics, Lowest(k, look) - done, uncapped, done > 0);
      && Looked(k, done, net, Update(0, false, nowtime)).1
      && 0 < n <= Lowest(k, look) - done
      && !look.connected && look.skiptics == 0 && look.lasttime == nowtime
      && AfterAll(k, done, look, []) == look && AfterRun(k, done, look, n, []) == look
      && (realtics == 1 && net.maketic == done ==> n == 1 && look.maketic == done + 1)
  {
    var (look, _) := Looked(k, done, net, Update(0, false, nowtime));
    AloneReady(k, done, net, Update(0, false, nowtime));
    WantedFits(k.newSync, realtics, Lowest(k, look) - done, uncapped, done > 0);
    StandsStill(k, done, look, Wanted(k.newSync, realtics, Lowest(k, look) - done, uncapped, done > 0));
  }

  /** Without the clock moving on, nothing is built. */
  lemma {:induction false} StandsStill(k: Rules, done: nat, net: Net, n: nat)
    requires !k.drone && !net.connected && net.skiptics == 0
    ensures AfterRun(k, done, net, n, []) == net
  {
    if n > 0 {
      StandsStill(k, done, net, n - 1);
    }
  }

  /** When the time moves on by one tic for each update, then so does the player, up to the limit. */
  lemma OneByOne(k: Rules, done: nat, net: Net, u: Update)
    requires !k.drone && !k.singletics && !net.connected && done <= net.maketic && net.skiptics == 0
    requires u.nowtime == net.lasttime + 1
    ensures var look := Updated(k, done, net, u).0;
      look == net.(lasttime := u.nowtime,
                   maketic := net.maketic + if net.maketic - done < Limit(k.newSync, false) then 1 else 0)
  {}
}
