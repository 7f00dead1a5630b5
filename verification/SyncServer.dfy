// The launcher's end of the sync protocol as the object it is: the methods of
// Server, each run without interruption. Every method is a run of the atomic
// steps of module Sync, so the safety theorems hold across its calls.
module SyncServer {
  import opened GoStrings
  import opened IntLists
  import opened Sync

  // What a Trigger call leaves of the connections: one attempted write to each
  // client, which lands where the far end takes it.
  function AfterTrigger(conns: seq<Conn>, clients: set<nat>, lands: set<nat>): seq<Conn> {
    seq(|conns|, c requires 0 <= c < |conns| =>
      if c !in clients then conns[c]
      else Attempt(conns[c].(snapshots := conns[c].snapshots + 1), Lands(conns, lands, c)))
  }

  // What Close leaves of them: every client has its BYE, if it can take it,
  // and is closed.
  function AfterClose(conns: seq<Conn>, clients: set<nat>, lands: set<nat>): seq<Conn> {
    seq(|conns|, c requires 0 <= c < |conns| =>
      if c in clients then SaidBye(conns[c], Lands(conns, lands, c)) else conns[c])
  }

  function SaidBye(k: Conn, ok: bool): Conn {
    k.(sent := if ok then k.sent + [Bye] else k.sent, phase := Dropped)
  }

  predicate Lands(conns: seq<Conn>, lands: set<nat>, c: nat) {
    c < |conns| && c in lands && Open(conns[c])
  }

  function Reached(conns: seq<Conn>, clients: set<nat>, lands: set<nat>): set<nat> {
    set c | c in clients && Lands(conns, lands, c)
  }

  // ---------- Runs ----------

  ghost predicate Leads(s: System, s': System) {
    exists actions: seq<Action> :: Runs(s, actions, s')
  }

  lemma LeadsNowhere(s: System)
    ensures Leads(s, s)
  {
    assert Runs(s, [], s);
  }

  lemma {:induction false} RunsThen(s: System, actions: seq<Action>, s': System, a: Action)
    requires Runs(s, actions, s') && Enabled(s', a)
    ensures Runs(s, actions + [a], Step(s', a))
    decreases |actions|
  {
    hide Enabled, Step;
    if actions == [] {
      assert [a][1..] == [];
      assert Runs(Step(s, a), [], Step(s, a));
      assert [] + [a] == [a];
    } else {
      assert (actions + [a])[1..] == actions[1..] + [a];
      RunsThen(Step(s, actions[0]), actions[1..], s', a);
    }
  }

  lemma LeadsThen(s: System, s': System, a: Action)
    requires Leads(s, s') && Enabled(s', a)
    ensures Leads(s, Step(s', a))
  {
    hide Runs, Enabled, Step;
    var actions :| Runs(s, actions, s');
    RunsThen(s, actions, s', a);
  }

  // The invariant of the protocol is kept along every run.
  lemma LeadsKeeps(s: System, s': System)
    requires Inv(s) && Leads(s, s')
    ensures Inv(s')
  {
    hide Inv, Runs;
    var actions :| Runs(s, actions, s');
    InvRuns(s, actions, s');
  }

  // ---------- One turn of the two loops ----------

  // Between two writes of a Trigger call: rest is still to be written to.
  ghost predicate Triggering(before: seq<Conn>, clients: set<nat>, lands: set<nat>, rest: set<nat>, now: seq<Conn>) {
    && |now| == |before|
    && forall c | 0 <= c < |now| ::
         now[c] == if c in rest then before[c].(snapshots := before[c].snapshots + 1)
                   else AfterTrigger(before, clients, lands)[c]
  }

  ghost predicate Closing(before: seq<Conn>, clients: set<nat>, lands: set<nat>, rest: set<nat>, now: seq<Conn>) {
    && |now| == |before|
    && forall c | 0 <= c < |now| :: now[c] == if c in rest then before[c] else AfterClose(before, clients, lands)[c]
  }

  lemma TriggeringDone(before: seq<Conn>, clients: set<nat>, lands: set<nat>, now: seq<Conn>)
    requires Triggering(before, clients, lands, {}, now)
    ensures now == AfterTrigger(before, clients, lands)
  {
  }

  lemma ClosingDone(before: seq<Conn>, clients: set<nat>, lands: set<nat>, now: seq<Conn>)
    requires Closing(before, clients, lands, {}, now)
    ensures now == AfterClose(before, clients, lands)
  {
  }

  lemma LandsIff(conns: seq<Conn>, lands: set<nat>)
    ensures forall c | 0 <= c < |conns| ::
              Lands(conns, lands, c) <==> c in lands && conns[c].phase == Registered && !conns[c].hungUp
  {
  }

  lemma TriggerSends(before: seq<Conn>, clients: set<nat>, lands: set<nat>)
    ensures var now := AfterTrigger(before, clients, lands);
            && |now| == |before|
            && forall c | 0 <= c < |now| ::
                 now[c].sent == before[c].sent + if c in clients && Lands(before, lands, c) then [Reconcile] else []
  {
    hide Lands;
    var now := AfterTrigger(before, clients, lands);
    forall c | 0 <= c < |now|
      ensures now[c].sent == before[c].sent + if c in clients && Lands(before, lands, c) then [Reconcile] else []
    {
      assert before[c].sent + [] == before[c].sent;
    }
  }

  lemma CloseSends(before: seq<Conn>, clients: set<nat>, lands: set<nat>)
    ensures var now := AfterClose(before, clients, lands);
            && |now| == |before|
            && (forall c | 0 <= c < |now| && c in clients ::
                  now[c].phase == Dropped
                  && now[c].sent == before[c].sent + if Lands(before, lands, c) then [Bye] else [])
            && (forall c | 0 <= c < |now| && c !in clients :: now[c] == before[c])
  {
    hide Lands;
    var now := AfterClose(before, clients, lands);
    forall c | 0 <= c < |now| && c in clients
      ensures now[c].phase == Dropped
      ensures now[c].sent == before[c].sent + if Lands(before, lands, c) then [Bye] else []
    {
      assert before[c].sent + [] == before[c].sent;
    }
  }

  lemma ReachedGrows(before: seq<Conn>, clients: set<nat>, lands: set<nat>, rest: set<nat>, c: nat)
    requires c in rest && forall d <- rest :: d in clients
    ensures |Reached(before, clients - (rest - {c}), lands)|
            == |Reached(before, clients - rest, lands)| + if Lands(before, lands, c) then 1 else 0
  {
    hide Lands;
    var old', new' := Reached(before, clients - rest, lands), Reached(before, clients - (rest - {c}), lands);
    if Lands(before, lands, c) {
      assert new' == old' + {c};
    } else {
      assert new' == old';
    }
  }

  // ---------- The server ----------

  class Server {
    var conns: seq<Conn>        // every connection accepted so far, with its far end
    var clients: map<nat, int>  // connection to registered pid
    var closed: bool
    var listening: bool
    var crashed: bool
    ghost var triggers: seq<set<nat>> // what the Trigger calls still have to write

    ghost function View(): System
      reads this
    {
      System(conns, clients.Keys, closed, listening, crashed, triggers, {}, {})
    }

    // The state of a Close in progress.
    ghost function ClosingView(rest: set<nat>): System
      reads this
    {
      View().(toBye := rest)
    }

    constructor ()
      ensures View() == Init() && clients == map[]
    {
      conns, clients, closed, listening, crashed, triggers := [], map[], false, true, false, [];
    }

    // serveClient up to the drain loop, for a connection whose first line has
    // arrived: a line that is not a registration closes the connection.
    method ServeClient(c: nat)
      requires Enabled(View(), ServeFirst(c))
      modifies this
      ensures View() == Step(old(View()), ServeFirst(c))
      ensures !crashed ==>
                conns[c].phase == if WellFormed(old(conns[c].inbox[0])) then Registered else Dropped
      ensures crashed <==> old(closed) && WellFormed(old(conns[c].inbox[0]))
      ensures clients == if WellFormed(old(conns[c].inbox[0])) && !old(closed)
                         then old(clients)[c := PidOf(old(conns[c].inbox[0])).value] else old(clients)
    {
      hide TrimSpace, Atoi;
      var text := conns[c].inbox[0];
      var line := TrimSpace(text);
      if !HasPrefix(line, REGISTER + " ") {
        conns := conns[c := conns[c].(inbox := conns[c].inbox[1..], phase := Dropped)];
        return;
      }
      var pid := Atoi(TrimPrefix(line, REGISTER + " "));
      if pid.None? {
        conns := conns[c := conns[c].(inbox := conns[c].inbox[1..], phase := Dropped)];
        return;
      }
      if closed {
        crashed := true;
        return;
      }
      conns := conns[c := conns[c].(inbox := conns[c].inbox[1..], phase := Registered, line := Some(text))];
      clients := clients[c := pid.value];
    }

    // Trigger attempts one write to every client, returns how many landed, and
    // leaves the clients as they were, stalled ones included. Where a write
    // lands, one RECONCILE has arrived behind everything sent before; nobody
    // else has received anything.
    method Trigger(lands: set<nat>) returns (n: nat)
      requires !crashed && Inv(View())
      modifies this
      ensures conns == AfterTrigger(old(conns), old(clients).Keys, lands)
      ensures |conns| == old(|conns|)
      ensures forall c | 0 <= c < |conns| ::
                conns[c].sent == old(conns)[c].sent
                                 + if c in old(clients) && c in lands && old(conns)[c].phase == Registered
                                      && !old(conns)[c].hungUp then [Reconcile] else []
      ensures n == |Reached(old(conns), old(clients).Keys, lands)|
      ensures clients == old(clients) && closed == old(closed) && listening == old(listening) && !crashed
      ensures Leads(old(View()), View()) && Inv(View())
    {
      hide Inv, Enabled, Leads, AfterTrigger, Attempt, Reached, Open, Triggering, Noted, Lands;
      ghost var start, before, names, t := View(), conns, clients.Keys, |triggers|;
      ClientsKnown(start);
      LeadsNowhere(start);
      var rest := clients.Keys;
      conns, triggers := Noted(conns, clients.Keys), triggers + [rest];
      TriggerStarts(start, lands);
      n := 0;
      while rest != {}
        invariant forall c <- rest :: c in names
        invariant Triggering(before, names, lands, rest, conns)
        invariant n == |Reached(before, names - rest, lands)|
        invariant triggers == old(triggers) + [rest] && |conns| == |before|
        invariant clients == old(clients) && closed == old(closed) && listening == old(listening) && !crashed
        invariant Leads(start, View())
        decreases rest
      {
        ghost var some := AnyOf(rest);
        var c :| c in rest;
        var ok := c in lands && Open(conns[c]);
        TriggerTurn(start, View(), before, names, lands, rest, c);
        ReachedGrows(before, names, lands, rest, c);
        conns := conns[c := Attempt(conns[c], ok)];
        if ok {
          n := n + 1;
        }
        rest := rest - {c};
        triggers := triggers[t := rest];
      }
      assert names - rest == names;
      TriggeringDone(before, names, lands, conns);
      TriggerSends(before, names, lands);
      LandsIff(before, lands);
      LeadsKeeps(start, View());
    }

    method Dismiss(c: nat, ok: bool)
      requires c < |conns|
      modifies this`conns
      ensures conns == old(conns)[c := SaidBye(old(conns[c]), ok)]
    {
      if ok {
        conns := conns[c := conns[c].(sent := conns[c].sent + [Bye])];
      }
      conns := conns[c := conns[c].(phase := Dropped)];
    }

    // Close says BYE to every client and closes it; afterwards no client is
    // left and no worker can dial in.
    method Close(lands: set<nat>)
      requires !crashed && Inv(View())
      modifies this
      ensures conns == AfterClose(old(conns), old(clients).Keys, lands)
      ensures |conns| == old(|conns|)
      ensures forall c | 0 <= c < |conns| && c in old(clients) ::
                && conns[c].phase == Dropped
                && conns[c].sent == old(conns)[c].sent
                                    + if c in lands && old(conns)[c].phase == Registered
                                         && !old(conns)[c].hungUp then [Bye] else []
      ensures forall c | 0 <= c < |conns| && c !in old(clients) :: conns[c] == old(conns)[c]
      ensures clients == map[] && closed && !listening && !crashed
      ensures Inv(View()) && (!old(closed) ==> Leads(old(View()), View()))
      ensures old(closed) ==> View() == old(View()).(listening := false)
    {
      ghost var start, before, names := View(), conns, clients.Keys;
      hide Inv, Enabled, Leads, AfterClose, Open, Closing, Lands, SaidBye;
      ClientsKnown(start);
      LeadsNowhere(start);
      var rest := clients.Keys;
      clients, closed := map[], true;
      CloseStarts(start, lands);
      assert clients.Keys == {};
      while rest != {}
        invariant forall c <- rest :: c in names
        invariant Closing(before, names, lands, rest, conns)
        invariant |conns| == |before| && clients == map[] && closed && listening == old(listening) && !crashed
            && triggers == old(triggers)
        invariant old(closed) ==> rest == {}
        invariant !old(closed) ==> Leads(start, ClosingView(rest))
        decreases rest
      {
        ghost var some := AnyOf(rest);
        var c :| c in rest;
        var ok := c in lands && Open(conns[c]);
        CloseTurn(start, ClosingView(rest), before, names, lands, rest, c);
        Dismiss(c, ok);
        rest := rest - {c};
      }
      ClosingDone(before, names, lands, conns);
      CloseSends(before, names, lands);
      LandsIff(before, lands);
      if old(closed) {
        ClosedAgain(start, lands);
      } else {
        CloseEnds(start, View());
      }
      listening := false;
    }
  }

  lemma ClientsKnown(s: System)
    requires Inv(s)
    ensures forall c <- s.clients :: c < |s.conns|
    ensures s.closed ==> s.clients == {}
  {
    hide ConnInv;
  }

  lemma TriggerStarts(s: System, lands: set<nat>)
    requires !s.crashed && Inv(s)
    ensures |Noted(s.conns, s.clients)| == |s.conns|
    ensures Triggering(s.conns, s.clients, lands, s.clients, Noted(s.conns, s.clients))
    ensures |Reached(s.conns, s.clients - s.clients, lands)| == 0
    ensures Leads(s, s.(conns := Noted(s.conns, s.clients), triggers := s.triggers + [s.clients]))
  {
    hide Inv, Runs, Leads;
    LeadsNowhere(s);
    LeadsThen(s, s, Trigger);
    assert Reached(s.conns, s.clients - s.clients, lands) == {};
  }

  lemma TriggerTurn(start: System, s: System, before: seq<Conn>, clients: set<nat>, lands: set<nat>,
                    rest: set<nat>, c: nat)
    requires !s.crashed && c in rest && c < |before| && c in clients && s.triggers != []
        && s.triggers[|s.triggers| - 1] == rest
    requires Triggering(before, clients, lands, rest, s.conns) && Leads(start, s)
    ensures (c in lands && Open(s.conns[c])) <==> Lands(before, lands, c)
    ensures var now := s.conns[c := Attempt(s.conns[c], Lands(before, lands, c))];
            && Triggering(before, clients, lands, rest - {c}, now)
            && Leads(start, s.(conns := now, triggers := s.triggers[|s.triggers| - 1 := rest - {c}]))
  {
    WriteEnabled(s, before, clients, lands, rest, c);
    WriteTurn(before, clients, lands, rest, s.conns, c);
    hide Leads, Attempt, Triggering, Lands, Enabled;
    LeadsThen(start, s, TriggerWrite(|s.triggers| - 1, c, Lands(before, lands, c)));
  }

  lemma WriteEnabled(s: System, before: seq<Conn>, clients: set<nat>, lands: set<nat>, rest: set<nat>, c: nat)
    requires !s.crashed && c in rest && c < |before| && s.triggers != [] && s.triggers[|s.triggers| - 1] == rest
    requires Triggering(before, clients, lands, rest, s.conns)
    ensures (c in lands && Open(s.conns[c])) <==> Lands(before, lands, c)
    ensures Enabled(s, TriggerWrite(|s.triggers| - 1, c, Lands(before, lands, c)))
  {
    hide Attempt, AfterTrigger;
  }

  lemma WriteTurn(before: seq<Conn>, clients: set<nat>, lands: set<nat>, rest: set<nat>, now: seq<Conn>, c: nat)
    requires c in rest && c < |before| && c in clients && Triggering(before, clients, lands, rest, now)
    ensures Triggering(before, clients, lands, rest - {c}, now[c := Attempt(now[c], Lands(before, lands, c))])
  {
    hide Attempt, Lands;
  }

  lemma CloseStarts(s: System, lands: set<nat>)
    requires !s.crashed && Inv(s)
    ensures Closing(s.conns, s.clients, lands, s.clients, s.conns)
    ensures !s.closed ==> Leads(s, s.(clients := {}, closed := true, toBye := s.clients))
  {
    hide Inv, Runs, Leads;
    if !s.closed {
      LeadsNowhere(s);
      LeadsThen(s, s, Close);
    }
  }

  lemma CloseTurn(start: System, s: System, before: seq<Conn>, clients: set<nat>, lands: set<nat>,
                  rest: set<nat>, c: nat)
    requires !s.crashed && s.closed && c in rest && c < |before| && c in clients && s.toBye == rest && s.toClose == {}
    requires Closing(before, clients, lands, rest, s.conns) && Leads(start, s)
    ensures (c in lands && Open(s.conns[c])) <==> Lands(before, lands, c)
    ensures var now := s.conns[c := SaidBye(s.conns[c], Lands(before, lands, c))];
            && Closing(before, clients, lands, rest - {c}, now)
            && Leads(start, s.(conns := now, toBye := rest - {c}))
  {
    hide Leads;
    var ok := Lands(before, lands, c);
    assert Enabled(s, WriteBye(c, ok));
    LeadsThen(start, s, WriteBye(c, ok));
    var s1 := Step(s, WriteBye(c, ok));
    assert Enabled(s1, CloseConn(c));
    LeadsThen(start, s1, CloseConn(c));
    assert s1.toClose - {c} == {};
    var now := s.conns[c := SaidBye(s.conns[c], ok)];
    assert Step(s1, CloseConn(c)).conns == now;
    assert Step(s1, CloseConn(c)) == s.(conns := now, toBye := rest - {c});
  }

  lemma CloseEnds(start: System, s: System)
    requires Inv(start) && Leads(start, s) && !s.crashed && s.closed && s.toBye == {} && s.toClose == {}
    ensures Leads(start, s.(listening := false)) && Inv(s.(listening := false))
  {
    hide Leads, Inv;
    LeadsThen(start, s, StopListening);
    LeadsKeeps(start, s.(listening := false));
  }

  // A second Close finds no client.
  lemma ClosedAgain(s: System, lands: set<nat>)
    requires Inv(s) && s.closed
    ensures s.clients == {} && AfterClose(s.conns, {}, lands) == s.conns && Inv(s.(listening := false))
  {
    StopKeeps(s);
  }
}
