// The sync-mode reconcile protocol: the launcher's server, any number of
// connections, and at the far end of each the reader of Connect with the
// bounded channel and the worker's burst loop.
//
// One step relation over the atomic steps of all goroutines. Writes are
// atomic messages that land or fail. Trigger takes its snapshot under the
// lock and then writes to one connection at a time; Close takes its snapshot
// and then, for each connection, writes BYE and closes it.
module Sync {
  import opened GoStrings

  const REGISTER := "REGISTER"
  const CHANNEL_CAPACITY := 16

  // ---------- Registration lines ----------

  // The pid of a registration line; None when the server refuses the line.
  function PidOf(line: string): Option<int> {
    var text := TrimSpace(line);
    if HasPrefix(text, REGISTER + " ") then Atoi(TrimPrefix(text, REGISTER + " ")) else None
  }

  predicate WellFormed(line: string) {
    PidOf(line).Some?
  }

  // What Connect writes is accepted and carries the worker's pid.
  lemma WorkerRegisters(pid: nat)
    requires pid <= MAX_INT
    ensures PidOf("REGISTER " + Itoa(pid)) == Some(pid)
  {
    var text := "REGISTER " + Itoa(pid);
    assert text == REGISTER + " " + Itoa(pid);
    AllDigitsPlain(Itoa(pid));
    AtoiItoa(pid);
    assert text[0] == 'R';
    assert !IsSpace('R') && TrimLeft(text) == text;
    assert text[|text| - 1] in Itoa(pid);
    assert TrimRight(text) == text;
    assert text[|REGISTER + " "|..] == Itoa(pid);
  }

  // Nothing else is accepted: the line has to be the keyword, a blank and a
  // number that fits Go's int, with white space around the whole only.
  lemma RegistrationIff(line: string, pid: int)
    ensures PidOf(line) == Some(pid) <==>
              exists text :: TrimSpace(line) == "REGISTER " + text && Atoi(text) == Some(pid)
  {
    hide TrimSpace, Atoi;
    var head := "REGISTER ";
    var t := TrimSpace(line);
    assert head == REGISTER + " ";
    if PidOf(line) == Some(pid) {
      var text := t[|head|..];
      assert t == head + text;
    }
    forall text | t == head + text
      ensures t[|head|..] == text
    {
    }
  }

  // ---------- One connection ----------

  datatype Msg = Reconcile | Bye

  datatype BurstEvent = Start | End

  datatype Phase = Awaiting | Registered | Dropped

  datatype Conn = Conn(
    inbox: seq<string>,       // lines the far end sent and the server has not read
    phase: Phase,             // the server's end: before REGISTER, in clients' care, closed
    line: Option<string>,     // the registration line, once accepted
    hungUp: bool,             // the far end has closed the connection
    sent: seq<Msg>,           // everything that landed, in order
    pos: nat,                 // how much of it the reader has read
    reading: bool,            // the reader's loop runs and the channel is open
    queued: nat,              // signals in the channel
    consumed: nat,            // signals the worker has taken
    full: nat,                // signals dropped because the channel was full
    bursty: bool,             // the profile has a reconcile burst
    running: bool,            // a burst is in progress
    stopped: bool,            // the worker's trigger loop has ended
    log: seq<BurstEvent>,     // the burst events emitted
    attempts: nat,            // Trigger writes attempted
    snapshots: nat)           // Trigger calls whose snapshot had the connection

  function Signals(msgs: seq<Msg>): nat {
    if msgs == [] then 0
    else Signals(msgs[..|msgs| - 1]) + if msgs[|msgs| - 1].Reconcile? then 1 else 0
  }

  function Brackets(n: nat): seq<BurstEvent> {
    if n == 0 then [] else Brackets(n - 1) + [Start, End]
  }

  // The burst events of n signals, the last burst perhaps still running.
  function BurstLog(bursty: bool, consumed: nat, running: bool): seq<BurstEvent> {
    if !bursty then []
    else if running && consumed > 0 then Brackets(consumed - 1) + [Start]
    else Brackets(consumed)
  }

  ghost predicate ConnInv(k: Conn) {
    && k.pos <= |k.sent|
    && k.queued <= CHANNEL_CAPACITY
    && k.queued + k.consumed + k.full == Signals(k.sent[..k.pos])
    && (k.full > 0 ==> k.queued + k.consumed >= CHANNEL_CAPACITY)
    && (forall i | 0 <= i < k.pos :: k.sent[i].Bye? ==> !k.reading && i == k.pos - 1)
    && Signals(k.sent) <= k.attempts
    && (k.running ==> k.bursty && k.consumed > 0)
    && k.log == BurstLog(k.bursty, k.consumed, k.running)
    && (k.line.Some? ==> WellFormed(k.line.value))
    && (k.phase.Registered? ==> k.line.Some?)
    && (k.snapshots > 0 ==> k.line.Some?)
  }

  function NewConn(bursty: bool): Conn {
    Conn([], Awaiting, None, false, [], 0, true, 0, 0, 0, bursty, false, false, [], 0, 0)
  }

  // ---------- The system ----------

  datatype System = System(
    conns: seq<Conn>,
    clients: set<nat>,          // the server's map
    closed: bool,               // the map is nil
    listening: bool,
    crashed: bool,              // a write to the nil map
    triggers: seq<set<nat>>,    // per Trigger call, the connections it still has to write to
    toBye: set<nat>,            // Close still has to write BYE to these
    toClose: set<nat>)          // and to close these

  datatype Action =
    | Dial(bursty: bool)
    | SendLine(c: nat, line: string)  // the far end writes a line
    | HangUp(c: nat)                  // the far end's process ends
    | ServeFirst(c: nat)              // serveClient reads the first line
    | ServeFails(c: nat)              // ... or fails to
    | Drain(c: nat)                   // a later line is discarded
    | DrainFails(c: nat)              // the connection dropped: leave clients, close
    | Trigger                         // the snapshot
    | TriggerWrite(t: nat, c: nat, ok: bool)
    | Close                           // the snapshot
    | WriteBye(c: nat, ok: bool)
    | CloseConn(c: nat)
    | StopListening
    | Read(c: nat, cancelled: bool)   // the reader reads a message, then looks at the context
    | ReadFails(c: nat)
    | Consume(c: nat)                 // the worker takes a signal
    | BurstEnds(c: nat)
    | StopLoop(c: nat)                // the worker's trigger loop ends

  function Init(): System {
    System([], {}, false, true, false, [], {}, {})
  }

  // The server's write can land: both ends are open.
  predicate Open(k: Conn) {
    k.phase.Registered? && !k.hungUp
  }

  predicate Enabled(s: System, a: Action) {
    && !s.crashed
    && match a
       case Dial(_) => s.listening
       case SendLine(c, _) => c < |s.conns| && !s.conns[c].hungUp
       case HangUp(c) => c < |s.conns|
       case ServeFirst(c) => c < |s.conns| && s.conns[c].phase.Awaiting? && s.conns[c].inbox != []
       case ServeFails(c) => c < |s.conns| && s.conns[c].phase.Awaiting? && s.conns[c].inbox == [] && s.conns[c].hungUp
       case Drain(c) => c < |s.conns| && s.conns[c].phase.Registered? && s.conns[c].inbox != []
       case DrainFails(c) =>
         c < |s.conns| && s.conns[c].line.Some?
           && (s.conns[c].phase.Dropped? || (s.conns[c].inbox == [] && s.conns[c].hungUp))
       case Trigger => true
       case TriggerWrite(t, c, ok) =>
         t < |s.triggers| && c in s.triggers[t] && c < |s.conns| && (ok ==> Open(s.conns[c]))
       case Close => !s.closed
       case WriteBye(c, ok) => c in s.toBye && c < |s.conns| && (ok ==> Open(s.conns[c]))
       case CloseConn(c) => c in s.toClose && c < |s.conns|
       case StopListening => s.closed && s.toBye == {} && s.toClose == {}
       case Read(c, _) => c < |s.conns| && s.conns[c].reading && s.conns[c].pos < |s.conns[c].sent|
       case ReadFails(c) => c < |s.conns| && s.conns[c].reading && s.conns[c].phase.Dropped?
       case Consume(c) => c < |s.conns| && s.conns[c].queued > 0 && !s.conns[c].running && !s.conns[c].stopped
       case BurstEnds(c) => c < |s.conns| && s.conns[c].running && !s.conns[c].stopped
       case StopLoop(c) => c < |s.conns| && !s.conns[c].running
  }

  function Update(s: System, c: nat, k: Conn): System
    requires c < |s.conns|
  {
    s.(conns := s.conns[c := k])
  }

  // The reader's turn: queue the signal or drop it; stop at BYE or when the
  // context is done.
  function ReadOne(k: Conn, cancelled: bool): Conn
    requires k.pos < |k.sent|
  {
    var msg := k.sent[k.pos];
    var stop := msg.Bye? || cancelled;
    k.(pos := k.pos + 1,
       queued := if msg.Reconcile? && k.queued < CHANNEL_CAPACITY then k.queued + 1 else k.queued,
       full := if msg.Reconcile? && k.queued >= CHANNEL_CAPACITY then k.full + 1 else k.full,
       reading := !stop,
       hungUp := k.hungUp || stop)
  }

  function ConsumeOne(k: Conn): Conn
    requires k.queued > 0
  {
    k.(queued := k.queued - 1, consumed := k.consumed + 1, running := k.bursty,
       log := if k.bursty then k.log + [Start] else k.log)
  }

  function Attempt(k: Conn, ok: bool): Conn {
    k.(attempts := k.attempts + 1, sent := if ok then k.sent + [Reconcile] else k.sent)
  }

  // Trigger's snapshot is noted at every connection in it.
  function Noted(conns: seq<Conn>, clients: set<nat>): seq<Conn> {
    seq(|conns|, i requires 0 <= i < |conns| =>
      if i in clients then conns[i].(snapshots := conns[i].snapshots + 1) else conns[i])
  }

  function Step(s: System, a: Action): System
    requires Enabled(s, a)
  {
    match a
    case Dial(bursty) => s.(conns := s.conns + [NewConn(bursty)])
    case SendLine(c, line) => Update(s, c, s.conns[c].(inbox := s.conns[c].inbox + [line]))
    case HangUp(c) => Update(s, c, s.conns[c].(hungUp := true, reading := false, stopped := true))
    case ServeFirst(c) =>
      var k := s.conns[c].(inbox := s.conns[c].inbox[1..]);
      var line := s.conns[c].inbox[0];
      if !WellFormed(line) then Update(s, c, k.(phase := Dropped))
      else if s.closed then s.(crashed := true)
      else Update(s, c, k.(phase := Registered, line := Some(line))).(clients := s.clients + {c})
    case ServeFails(c) => Update(s, c, s.conns[c].(phase := Dropped))
    case Drain(c) => Update(s, c, s.conns[c].(inbox := s.conns[c].inbox[1..]))
    case DrainFails(c) => Update(s, c, s.conns[c].(phase := Dropped)).(clients := s.clients - {c})
    case Trigger => s.(conns := Noted(s.conns, s.clients), triggers := s.triggers + [s.clients])
    case TriggerWrite(t, c, ok) =>
      Update(s, c, Attempt(s.conns[c], ok)).(triggers := s.triggers[t := s.triggers[t] - {c}])
    case Close => s.(toBye := s.clients, clients := {}, closed := true)
    case WriteBye(c, ok) =>
      Update(s, c, if ok then s.conns[c].(sent := s.conns[c].sent + [Bye]) else s.conns[c])
        .(toBye := s.toBye - {c}, toClose := s.toClose + {c})
    case CloseConn(c) => Update(s, c, s.conns[c].(phase := Dropped)).(toClose := s.toClose - {c})
    case StopListening => s.(listening := false)
    case Read(c, cancelled) => Update(s, c, ReadOne(s.conns[c], cancelled))
    case ReadFails(c) => Update(s, c, s.conns[c].(reading := false, hungUp := true))
    case Consume(c) => Update(s, c, ConsumeOne(s.conns[c]))
    case BurstEnds(c) => Update(s, c, s.conns[c].(running := false, log := s.conns[c].log + [End]))
    case StopLoop(c) => Update(s, c, s.conns[c].(stopped := true))
  }

  ghost predicate Runs(s: System, actions: seq<Action>, s': System)
    decreases |actions|
  {
    if actions == [] then s == s'
    else Enabled(s, actions[0]) && Runs(Step(s, actions[0]), actions[1..], s')
  }

  // ---------- The invariant ----------

  // In how many unfinished Trigger calls the connection is still due a write.
  function Due(triggers: seq<set<nat>>, c: nat): nat {
    if triggers == [] then 0
    else Due(triggers[..|triggers| - 1], c) + if c in triggers[|triggers| - 1] then 1 else 0
  }

  // Only connections with an accepted registration are in the set.
  ghost predicate AllRegistered(s: System, ids: set<nat>) {
    forall c <- ids :: c < |s.conns| && s.conns[c].line.Some?
  }

  ghost predicate Inv(s: System) {
    && (forall c | 0 <= c < |s.conns| :: ConnInv(s.conns[c]) && Accounted(s.conns[c], s.triggers, c))
    && (forall c <- s.clients :: c < |s.conns| && s.conns[c].phase.Registered?)
    && (forall t | 0 <= t < |s.triggers| :: AllRegistered(s, s.triggers[t]))
    && AllRegistered(s, s.toBye) && AllRegistered(s, s.toClose)
    && (s.closed ==> s.clients == {})
    && (!s.closed ==> s.toBye == {} && s.toClose == {})
  }

  // Every Trigger call that saw the connection has attempted its write or is
  // still due to.
  ghost predicate Accounted(k: Conn, triggers: seq<set<nat>>, c: nat) {
    k.snapshots == k.attempts + Due(triggers, c) && k.snapshots <= |triggers|
  }

  // ---------- One connection's steps ----------

  lemma SignalsAppend(msgs: seq<Msg>, msg: Msg)
    ensures Signals(msgs + [msg]) == Signals(msgs) + if msg.Reconcile? then 1 else 0
  {
    assert (msgs + [msg])[..|msgs|] == msgs;
  }

  lemma {:induction false} SignalsPrefix(msgs: seq<Msg>, n: nat)
    requires n <= |msgs|
    ensures Signals(msgs[..n]) <= Signals(msgs)
    decreases |msgs|
  {
    if n < |msgs| {
      assert msgs[..|msgs| - 1][..n] == msgs[..n];
      SignalsPrefix(msgs[..|msgs| - 1], n);
    } else {
      assert msgs[..n] == msgs;
    }
  }

  lemma ReadKeeps(k: Conn, cancelled: bool)
    requires ConnInv(k) && k.reading && k.pos < |k.sent|
    ensures ConnInv(ReadOne(k, cancelled))
  {
    assert k.sent[..k.pos + 1] == k.sent[..k.pos] + [k.sent[k.pos]];
    SignalsAppend(k.sent[..k.pos], k.sent[k.pos]);
  }

  lemma ConsumeKeeps(k: Conn)
    requires ConnInv(k) && k.queued > 0 && !k.running
    ensures ConnInv(ConsumeOne(k))
  {
  }

  lemma BurstEndKeeps(k: Conn)
    requires ConnInv(k) && k.running
    ensures ConnInv(k.(running := false, log := k.log + [End]))
  {
    assert Brackets(k.consumed - 1) + [Start] + [End] == Brackets(k.consumed - 1) + [Start, End];
  }

  lemma AttemptKeeps(k: Conn, ok: bool)
    requires ConnInv(k)
    ensures ConnInv(Attempt(k, ok))
  {
    SignalsAppend(k.sent, Reconcile);
    assert (k.sent + [Reconcile])[..k.pos] == k.sent[..k.pos];
  }

  lemma ByeKeeps(k: Conn)
    requires ConnInv(k)
    ensures ConnInv(k.(sent := k.sent + [Bye]))
  {
    SignalsAppend(k.sent, Bye);
    assert (k.sent + [Bye])[..k.pos] == k.sent[..k.pos];
  }

  lemma NewConnInv(bursty: bool)
    ensures ConnInv(NewConn(bursty))
  {
    assert NewConn(bursty).sent[..0] == [];
  }

  // ---------- The invariant is kept ----------

  // A step of one connection that leaves the server's sets alone.
  lemma UpdateKeeps(s: System, c: nat, k: Conn)
    requires Inv(s) && c < |s.conns| && ConnInv(k)
    requires k.attempts == s.conns[c].attempts && k.snapshots == s.conns[c].snapshots
    requires s.conns[c].line.Some? ==> k.line.Some?
    requires c in s.clients ==> k.phase.Registered?
    ensures Inv(Update(s, c, k))
  {
    hide ConnInv, Due;
    var s' := Update(s, c, k);
    forall t | 0 <= t < |s'.triggers|
      ensures AllRegistered(s', s'.triggers[t])
    {
      assert AllRegistered(s, s.triggers[t]);
    }
  }

  // Shrinking the server's sets keeps the invariant.
  lemma ShrinkKeeps(s: System, clients: set<nat>, toBye: set<nat>, toClose: set<nat>)
    requires Inv(s) && (forall c <- clients :: c in s.clients)
    requires AllRegistered(s, toBye) && AllRegistered(s, toClose) && (s.closed || toBye == toClose == {})
    ensures Inv(s.(clients := clients, toBye := toBye, toClose := toClose))
  {
    hide ConnInv, Due;
    var s' := s.(clients := clients, toBye := toBye, toClose := toClose);
    forall t | 0 <= t < |s'.triggers|
      ensures AllRegistered(s', s'.triggers[t])
    {
      assert AllRegistered(s, s.triggers[t]);
    }
    if s.closed {
      var none: set<nat> := {};
      assert forall c :: c in clients <==> c in none;
    }
  }

  lemma DialKeeps(s: System, bursty: bool)
    requires Inv(s)
    ensures Inv(s.(conns := s.conns + [NewConn(bursty)]))
  {
    hide ConnInv;
    NewConnInv(bursty);
    var s' := s.(conns := s.conns + [NewConn(bursty)]);
    NotDue(s, |s.conns|);
    forall t | 0 <= t < |s'.triggers|
      ensures AllRegistered(s', s'.triggers[t])
    {
      assert AllRegistered(s, s.triggers[t]);
    }
  }

  // No Trigger call is due to write to an unknown connection.
  lemma NotDue(s: System, c: nat)
    requires Inv(s) && c >= |s.conns|
    ensures Due(s.triggers, c) == 0
  {
    hide ConnInv;
    forall t | 0 <= t < |s.triggers|
      ensures c !in s.triggers[t]
    {
      assert AllRegistered(s, s.triggers[t]);
    }
    NeverIn(s.triggers, c);
  }

  lemma {:induction false} NeverIn(triggers: seq<set<nat>>, c: nat)
    requires forall t | 0 <= t < |triggers| :: c !in triggers[t]
    ensures Due(triggers, c) == 0
  {
    if triggers != [] {
      NeverIn(triggers[..|triggers| - 1], c);
    }
  }

  lemma JoinKeeps(s: System, c: nat)
    requires Inv(s) && !s.closed && c < |s.conns| && s.conns[c].phase.Registered?
    ensures Inv(s.(clients := s.clients + {c}))
  {
    hide ConnInv, Due, Accounted;
    var s' := s.(clients := s.clients + {c});
    forall t | 0 <= t < |s'.triggers|
      ensures AllRegistered(s', s'.triggers[t])
    {
      assert AllRegistered(s, s.triggers[t]);
    }
  }

  lemma RegisterKeeps(s: System, c: nat, k: Conn)
    requires Inv(s) && !s.closed && c < |s.conns| && ConnInv(k) && k.phase.Registered?
    requires k.attempts == s.conns[c].attempts && k.snapshots == s.conns[c].snapshots && k.line.Some?
    ensures Inv(Update(s, c, k).(clients := s.clients + {c}))
  {
    hide ConnInv, Due, Accounted, AllRegistered, Inv;
    UpdateKeeps(s, c, k);
    JoinKeeps(Update(s, c, k), c);
  }

  lemma NoteKeeps(k: Conn)
    requires ConnInv(k)
    ensures k.phase.Registered? ==> k.line.Some? && ConnInv(k.(snapshots := k.snapshots + 1))
  {
  }

  // A snapshot leaves every connection accounted for.
  lemma NotedConn(s: System, c: nat)
    requires Inv(s) && c < |s.conns|
    ensures var k := Noted(s.conns, s.clients)[c];
            ConnInv(k) && Accounted(k, s.triggers + [s.clients], c) && k.line == s.conns[c].line
            && k.phase == s.conns[c].phase
    ensures c in s.clients ==> s.conns[c].line.Some?
  {
    InvAt(s, c);
    hide Due, ConnInv, Inv;
    DueAppend(s.triggers, s.clients, c);
    NoteKeeps(s.conns[c]);
  }

  lemma InvAt(s: System, c: nat)
    requires Inv(s) && c < |s.conns|
    ensures ConnInv(s.conns[c]) && Accounted(s.conns[c], s.triggers, c)
    ensures c in s.clients ==> s.conns[c].phase.Registered?
  {
    hide Due, ConnInv, Accounted, AllRegistered;
  }

  lemma TriggerKeeps(s: System)
    requires Inv(s)
    ensures Inv(s.(conns := Noted(s.conns, s.clients), triggers := s.triggers + [s.clients]))
  {
    hide Due, ConnInv, Noted, Accounted;
    var s' := s.(conns := Noted(s.conns, s.clients), triggers := s.triggers + [s.clients]);
    NotedSize(s);
    forall c | 0 <= c < |s.conns|
      ensures ConnInv(s'.conns[c]) && Accounted(s'.conns[c], s'.triggers, c)
      ensures s'.conns[c].line == s.conns[c].line && s'.conns[c].phase == s.conns[c].phase
      ensures c in s.clients ==> s'.conns[c].line.Some?
    {
      NotedConn(s, c);
    }
    forall t | 0 <= t < |s'.triggers|
      ensures AllRegistered(s', s'.triggers[t])
    {
      if t < |s.triggers| {
        assert AllRegistered(s, s.triggers[t]);
      }
    }
  }

  lemma NotedSize(s: System)
    ensures |Noted(s.conns, s.clients)| == |s.conns|
  {
  }

  lemma DueAppend(triggers: seq<set<nat>>, ids: set<nat>, c: nat)
    ensures Due(triggers + [ids], c) == Due(triggers, c) + if c in ids then 1 else 0
  {
    assert (triggers + [ids])[..|triggers|] == triggers;
  }

  lemma {:induction false} DueRemove(triggers: seq<set<nat>>, t: nat, c: nat, d: nat)
    requires t < |triggers| && c in triggers[t]
    ensures Due(triggers[t := triggers[t] - {c}], d) == Due(triggers, d) - if d == c then 1 else 0
    decreases |triggers|
  {
    var n := |triggers| - 1;
    var after := triggers[t := triggers[t] - {c}];
    if t < n {
      assert after[..n] == triggers[..n][t := triggers[t] - {c}];
      DueRemove(triggers[..n], t, c, d);
    } else {
      assert after[..n] == triggers[..n];
    }
  }

  lemma TriggerWriteKeeps(s: System, t: nat, c: nat, ok: bool)
    requires Inv(s) && Enabled(s, TriggerWrite(t, c, ok))
    ensures Inv(Step(s, TriggerWrite(t, c, ok)))
  {
    hide ConnInv, Due;
    var s' := Step(s, TriggerWrite(t, c, ok));
    AttemptKeeps(s.conns[c], ok);
    forall d | 0 <= d < |s'.conns|
      ensures ConnInv(s'.conns[d]) && Accounted(s'.conns[d], s'.triggers, d)
    {
      DueRemove(s.triggers, t, c, d);
    }
    forall u | 0 <= u < |s'.triggers|
      ensures AllRegistered(s', s'.triggers[u])
    {
      assert AllRegistered(s, s.triggers[u]);
    }
  }

  lemma ServeFirstKeeps(s: System, c: nat)
    requires Inv(s) && Enabled(s, ServeFirst(c))
    ensures Inv(Step(s, ServeFirst(c)))
  {
    var k := s.conns[c].(inbox := s.conns[c].inbox[1..]);
    var line := s.conns[c].inbox[0];
    if !WellFormed(line) {
      UpdateKeeps(s, c, k.(phase := Dropped));
    } else if !s.closed {
      RegisterKeeps(s, c, k.(phase := Registered, line := Some(line)));
    } else {
      CrashKeeps(s);
    }
  }

  lemma CrashKeeps(s: System)
    requires Inv(s)
    ensures Inv(s.(crashed := true))
  {
    hide ConnInv, Due;
    forall t | 0 <= t < |s.triggers|
      ensures AllRegistered(s.(crashed := true), s.triggers[t])
    {
      assert AllRegistered(s, s.triggers[t]);
    }
  }

  lemma LeaveKeeps(s: System, c: nat, k: Conn, clients: set<nat>, toBye: set<nat>, toClose: set<nat>)
    requires Inv(s) && c < |s.conns| && ConnInv(k) && c !in clients
    requires k.attempts == s.conns[c].attempts && k.snapshots == s.conns[c].snapshots && k.line == s.conns[c].line
    requires (forall d <- clients :: d in s.clients) && AllRegistered(s, toBye) && AllRegistered(s, toClose)
    requires s.closed || toBye == toClose == {}
    ensures Inv(Update(s, c, k).(clients := clients, toBye := toBye, toClose := toClose))
  {
    ShrinkKeeps(s, clients, toBye, toClose);
    UpdateKeeps(s.(clients := clients, toBye := toBye, toClose := toClose), c, k);
  }

  lemma CloseKeeps(s: System)
    requires Inv(s) && !s.closed
    ensures Inv(s.(toBye := s.clients, clients := {}, closed := true))
  {
    hide Due;
    assert forall c <- s.clients :: ConnInv(s.conns[c]);
    hide ConnInv;
    assert AllRegistered(s, s.clients);
    var s' := s.(toBye := s.clients, clients := {}, closed := true);
    forall t | 0 <= t < |s'.triggers|
      ensures AllRegistered(s', s'.triggers[t])
    {
      assert AllRegistered(s, s.triggers[t]);
    }
  }

  lemma WriteByeKeeps(s: System, c: nat, ok: bool)
    requires Inv(s) && Enabled(s, WriteBye(c, ok))
    ensures Inv(Step(s, WriteBye(c, ok)))
  {
    hide Due, ConnInv;
    ByeKeeps(s.conns[c]);
    var k := if ok then s.conns[c].(sent := s.conns[c].sent + [Bye]) else s.conns[c];
    UpdateKeeps(s, c, k);
    var s1 := Update(s, c, k);
    ShrinkKeeps(s1, s1.clients, s.toBye - {c}, s.toClose + {c});
  }

  lemma CloseConnKeeps(s: System, c: nat)
    requires Inv(s) && Enabled(s, CloseConn(c))
    ensures Inv(Step(s, CloseConn(c)))
  {
    hide Due;
    var k := s.conns[c].(phase := Dropped);
    assert ConnInv(k);
    LeaveKeeps(s, c, k, s.clients, s.toBye, s.toClose - {c});
  }

  lemma DrainFailsKeeps(s: System, c: nat)
    requires Inv(s) && Enabled(s, DrainFails(c))
    ensures Inv(Step(s, DrainFails(c)))
  {
    hide Due;
    var k := s.conns[c].(phase := Dropped);
    assert ConnInv(k);
    LeaveKeeps(s, c, k, s.clients - {c}, s.toBye, s.toClose);
  }

  // The steps that change neither messages nor signals.
  lemma LocalConn(k: Conn, inbox: seq<string>, phase: Phase, hungUp: bool, reading: bool, stopped: bool)
    requires ConnInv(k) && (phase == k.phase || phase.Dropped?) && (reading ==> k.reading)
    ensures ConnInv(k.(inbox := inbox, phase := phase, hungUp := hungUp, reading := reading, stopped := stopped))
  {
  }

  lemma LocalKeeps(s: System, a: Action)
    requires Inv(s) && Enabled(s, a)
    requires a.SendLine? || a.HangUp? || a.ServeFails? || a.Drain? || a.ReadFails? || a.StopLoop?
    ensures Inv(Step(s, a))
  {
    hide ConnInv, Due, AllRegistered;
    var k, k' := s.conns[a.c], Step(s, a).conns[a.c];
    LocalConn(k, k'.inbox, k'.phase, k'.hungUp, k'.reading, k'.stopped);
    UpdateKeeps(s, a.c, k');
  }

  lemma InvStep(s: System, a: Action)
    requires Inv(s) && Enabled(s, a)
    ensures Inv(Step(s, a))
  {
    hide ConnInv, Due, AllRegistered, Accounted;
    match a
    case Dial(bursty) => DialKeeps(s, bursty);
    case ServeFirst(c) => ServeFirstKeeps(s, c);
    case DrainFails(c) => DrainFailsKeeps(s, c);
    case Trigger => TriggerKeeps(s);
    case TriggerWrite(t, c, ok) => TriggerWriteKeeps(s, t, c, ok);
    case Close => CloseKeeps(s);
    case WriteBye(c, ok) => WriteByeKeeps(s, c, ok);
    case CloseConn(c) => CloseConnKeeps(s, c);
    case StopListening => StopKeeps(s);
    case Read(c, cancelled) =>
      ReadKeeps(s.conns[c], cancelled);
      UpdateKeeps(s, c, ReadOne(s.conns[c], cancelled));
    case Consume(c) =>
      ConsumeKeeps(s.conns[c]);
      UpdateKeeps(s, c, ConsumeOne(s.conns[c]));
    case BurstEnds(c) =>
      BurstEndKeeps(s.conns[c]);
      UpdateKeeps(s, c, s.conns[c].(running := false, log := s.conns[c].log + [End]));
    case _ => LocalKeeps(s, a);
  }

  lemma StopKeeps(s: System)
    requires Inv(s)
    ensures Inv(s.(listening := false))
  {
    hide ConnInv, Due;
    forall t | 0 <= t < |s.triggers|
      ensures AllRegistered(s.(listening := false), s.triggers[t])
    {
      assert AllRegistered(s, s.triggers[t]);
    }
  }

  lemma {:induction false} InvRuns(s: System, actions: seq<Action>, s': System)
    requires Inv(s) && Runs(s, actions, s')
    ensures Inv(s')
    decreases |actions|
  {
    hide Inv;
    if actions != [] {
      InvStep(s, actions[0]);
      InvRuns(Step(s, actions[0]), actions[1..], s');
    }
  }

  lemma InitInv()
    ensures Inv(Init())
  {
  }

  // ---------- Safety over every run ----------

  // RECONCILEs that landed and are not read.
  function InFlight(k: Conn): nat
    requires k.pos <= |k.sent|
  {
    Signals(k.sent[k.pos..])
  }

  lemma {:induction false} SignalsSplit(msgs: seq<Msg>, n: nat)
    requires n <= |msgs|
    ensures Signals(msgs) == Signals(msgs[..n]) + Signals(msgs[n..])
    decreases |msgs|
  {
    if n < |msgs| {
      var m := |msgs| - 1;
      assert msgs[..m][..n] == msgs[..n] && msgs[..m][n..] == msgs[n..m];
      assert msgs[n..][..m - n] == msgs[n..m];
      SignalsSplit(msgs[..m], n);
    } else {
      assert msgs[..n] == msgs && msgs[n..] == [];
    }
  }

  // No RECONCILE is made up: on every connection the signals queued, consumed
  // and dropped as full, with the RECONCILEs in flight, are at most the writes
  // that Trigger attempted on it, which are at most the Trigger calls that saw
  // it registered. The channel is never over its capacity, only registered
  // connections are clients, and every signal consumed is one bracketed burst.
  lemma SyncSafety(actions: seq<Action>, s: System, c: nat)
    requires Runs(Init(), actions, s) && c < |s.conns|
    ensures var k := s.conns[c];
            && k.pos <= |k.sent|
            && k.queued + k.consumed + k.full + InFlight(k) == Signals(k.sent)
            && Signals(k.sent) <= k.attempts <= k.snapshots <= |s.triggers|
            && k.queued <= 16
            && (k.full > 0 ==> Signals(k.sent[..k.pos]) > 16)
            && (c in s.clients ==> k.line.Some? && WellFormed(k.line.value))
            && (k.attempts > 0 ==> k.line.Some? && WellFormed(k.line.value))
            && k.log == BurstLog(k.bursty, k.consumed, k.running)
  {
    InitInv();
    InvRuns(Init(), actions, s);
    SignalsSplit(s.conns[c].sent, s.conns[c].pos);
    assert ConnInv(s.conns[c]) && Accounted(s.conns[c], s.triggers, c);
  }

  // ---------- What one step does to one connection ----------

  // The reader takes one message. A RECONCILE is queued while one of the 16
  // slots is free, and dropped only when none is; BYE stops the reader.
  lemma ReadTakesOne(s: System, c: nat, cancelled: bool)
    requires Enabled(s, Read(c, cancelled))
    ensures var k, k', msg := s.conns[c], Step(s, Read(c, cancelled)).conns[c], s.conns[c].sent[s.conns[c].pos];
            && k'.pos == k.pos + 1 && k'.sent == k.sent && k'.consumed == k.consumed
            && (msg == Reconcile && k.queued < 16 ==> k'.queued == k.queued + 1 && k'.full == k.full)
            && (msg == Reconcile && k.queued >= 16 ==> k'.queued == k.queued && k'.full == k.full + 1)
            && (msg == Bye ==> k'.queued == k.queued && k'.full == k.full)
            && (k'.reading <==> msg == Reconcile && !cancelled)
  {
    var k, k' := s.conns[c], Step(s, Read(c, cancelled)).conns[c];
    assert k' == ReadOne(k, cancelled);
  }

  // The worker takes one signal and opens one burst, where the profile has
  // bursts.
  lemma ConsumeTakesOne(s: System, c: nat)
    requires Enabled(s, Consume(c))
    ensures var k, k' := s.conns[c], Step(s, Consume(c)).conns[c];
            && k'.queued == k.queued - 1 && k'.consumed == k.consumed + 1 && k'.full == k.full
            && (k.bursty ==> k'.running && k'.log == k.log + [Start])
            && (!k.bursty ==> !k'.running && k'.log == k.log)
  {
    var k, k' := s.conns[c], Step(s, Consume(c)).conns[c];
    assert k' == ConsumeOne(k);
  }

  // ---------- Counting the writes of a run ----------

  function CountWrites(actions: seq<Action>, c: nat, landed: bool): nat {
    if actions == [] then 0
    else
      var a := actions[0];
      (if a.TriggerWrite? && a.c == c && (landed ==> a.ok) then 1 else 0) + CountWrites(actions[1..], c, landed)
  }

  function SignalsAt(s: System, c: nat): nat {
    if c < |s.conns| then Signals(s.conns[c].sent) else 0
  }

  function AttemptsAt(s: System, c: nat): nat {
    if c < |s.conns| then s.conns[c].attempts else 0
  }

  lemma WriteCounted(s: System, a: Action, c: nat)
    requires Enabled(s, a)
    ensures SignalsAt(Step(s, a), c) == SignalsAt(s, c) + if a.TriggerWrite? && a.c == c && a.ok then 1 else 0
    ensures AttemptsAt(Step(s, a), c) == AttemptsAt(s, c) + if a.TriggerWrite? && a.c == c then 1 else 0
  {
    hide WellFormed, Signals;
    NoSignals();
    if a.TriggerWrite? {
      SignalsAppend(s.conns[a.c].sent, Reconcile);
    } else if a.WriteBye? {
      SignalsAppend(s.conns[a.c].sent, Bye);
    }
  }

  lemma NoSignals()
    ensures Signals([]) == 0
  {
  }

  lemma {:induction false} WritesCountedFrom(s: System, actions: seq<Action>, s': System, c: nat)
    requires Runs(s, actions, s')
    ensures SignalsAt(s', c) == SignalsAt(s, c) + CountWrites(actions, c, true)
    ensures AttemptsAt(s', c) == AttemptsAt(s, c) + CountWrites(actions, c, false)
    decreases |actions|
  {
    hide Enabled, Step, SignalsAt, AttemptsAt;
    if actions != [] {
      WriteCounted(s, actions[0], c);
      WritesCountedFrom(Step(s, actions[0]), actions[1..], s', c);
    }
  }

  // The RECONCILEs that a connection has received are exactly the Trigger
  // writes of the run that landed on it.
  lemma WritesCounted(actions: seq<Action>, s: System, c: nat)
    requires Runs(Init(), actions, s) && c < |s.conns|
    ensures Signals(s.conns[c].sent) == CountWrites(actions, c, true)
    ensures s.conns[c].attempts == CountWrites(actions, c, false)
  {
    hide Runs, Signals;
    WritesCountedFrom(Init(), actions, s, c);
  }

  // ---------- Bursts ----------

  // The events of a worker alternate, one start and one end for each signal it
  // has taken, the last end still missing while a burst runs.
  ghost predicate Alternates(log: seq<BurstEvent>) {
    forall i | 0 <= i < |log| :: log[i] == if i % 2 == 0 then Start else End
  }

  lemma {:induction false} BracketsAlternate(n: nat)
    ensures |Brackets(n)| == 2 * n && Alternates(Brackets(n))
  {
    if n > 0 {
      BracketsAlternate(n - 1);
    }
  }

  lemma BurstsBracketed(actions: seq<Action>, s: System, c: nat)
    requires Runs(Init(), actions, s) && c < |s.conns|
    ensures var k := s.conns[c];
            if k.bursty then Alternates(k.log) && |k.log| == 2 * k.consumed - if k.running then 1 else 0
            else k.log == []
  {
    InitInv();
    InvRuns(Init(), actions, s);
    var k := s.conns[c];
    assert ConnInv(k);
    hide Runs, Inv;
    BracketsAlternate(k.consumed);
    if k.running {
      BracketsAlternate(k.consumed - 1);
    }
  }

  // ---------- Leaving the clients ----------

  predicate Removes(a: Action, c: nat) {
    a == Close || a == DrainFails(c)
  }

  // One step of a connection that has registered, or been refused, already.
  lemma SettledStep(s: System, a: Action, c: nat)
    requires Enabled(s, a) && c < |s.conns| && !s.conns[c].phase.Awaiting?
    ensures c < |Step(s, a).conns| && !Step(s, a).conns[c].phase.Awaiting?
    ensures c in Step(s, a).clients <==> c in s.clients && !Removes(a, c)
  {
    PhaseStays(s, a, c);
    hide WellFormed, Update, Noted;
    if a.ServeFirst? {
      assert a.c != c;
    }
  }

  lemma PhaseStays(s: System, a: Action, c: nat)
    requires Enabled(s, a) && c < |s.conns| && !s.conns[c].phase.Awaiting?
    ensures c < |Step(s, a).conns| && !Step(s, a).conns[c].phase.Awaiting?
  {
    hide WellFormed;
  }

  lemma {:induction false} SettledRuns(s: System, actions: seq<Action>, s': System, c: nat)
    requires Runs(s, actions, s') && c < |s.conns| && !s.conns[c].phase.Awaiting?
    ensures c in s'.clients <==> c in s.clients && forall a <- actions :: !Removes(a, c)
    decreases |actions|
  {
    hide Enabled, Step, Removes;
    if actions != [] {
      SettledStep(s, actions[0], c);
      SettledRuns(Step(s, actions[0]), actions[1..], s', c);
      assert forall a :: a in actions <==> a == actions[0] || a in actions[1..];
    }
  }

  // A client stays one exactly until its own connection drops or the server
  // is closed, and does not come back: no Trigger write, failed, stalled or
  // landed, removes anybody.
  lemma ClientStaysIff(before: seq<Action>, s: System, after: seq<Action>, s': System, c: nat)
    requires Runs(Init(), before, s) && Runs(s, after, s') && c in s.clients
    ensures c in s'.clients <==> forall a <- after :: !Removes(a, c)
  {
    InitInv();
    InvRuns(Init(), before, s);
    InvAt(s, c);
    hide Runs, Inv, Removes;
    SettledRuns(s, after, s', c);
  }

  // ---------- After BYE ----------

  // The reader has read BYE.
  ghost predicate ByeRead(k: Conn) {
    0 < k.pos <= |k.sent| && k.sent[k.pos - 1].Bye?
  }

  ghost predicate Unchanged(k: Conn, k': Conn) {
    && ByeRead(k') && k'.pos == k.pos && !k'.reading
    && k'.queued + k'.consumed == k.queued + k.consumed && k'.full == k.full
  }

  lemma ByeLocal(k: Conn, k': Conn)
    requires ByeRead(k) && Carried(k, k')
    ensures Unchanged(k, k')
  {
  }

  // A step other than reading leaves what a stopped reader has read and
  // counted.
  lemma StoppedReader(s: System, a: Action, c: nat)
    requires Enabled(s, a) && c < |s.conns| && !s.conns[c].reading
    ensures c < |Step(s, a).conns| && Carried(s.conns[c], Step(s, a).conns[c])
  {
    hide Enabled, Step, Carried;
    if a.ServeFirst? || a.ServeFails? || a.Drain? || a.DrainFails? || a.SendLine? || a.HangUp? {
      StoppedLine(s, a, c);
    } else if a.Trigger? || a.TriggerWrite? || a.Close? || a.WriteBye? || a.CloseConn? || a.StopListening? {
      StoppedWrite(s, a, c);
    } else {
      StoppedFarEnd(s, a, c);
    }
  }

  // What has been read and counted stays.
  ghost predicate Carried(k: Conn, k': Conn) {
    && k.sent <= k'.sent && k'.pos == k.pos && !k'.reading
    && k'.queued + k'.consumed == k.queued + k.consumed && k'.full == k.full
  }

  lemma StoppedLine(s: System, a: Action, c: nat)
    requires Enabled(s, a) && c < |s.conns| && !s.conns[c].reading
    requires a.ServeFirst? || a.ServeFails? || a.Drain? || a.DrainFails? || a.SendLine? || a.HangUp?
    ensures c < |Step(s, a).conns| && Carried(s.conns[c], Step(s, a).conns[c])
  {
    hide WellFormed;
    assert s.conns[c].sent <= s.conns[c].sent;
  }

  lemma StoppedWrite(s: System, a: Action, c: nat)
    requires Enabled(s, a) && c < |s.conns| && !s.conns[c].reading
    requires a.Trigger? || a.TriggerWrite? || a.Close? || a.WriteBye? || a.CloseConn? || a.StopListening?
    ensures c < |Step(s, a).conns| && Carried(s.conns[c], Step(s, a).conns[c])
  {
    assert s.conns[c].sent <= s.conns[c].sent;
  }

  lemma StoppedFarEnd(s: System, a: Action, c: nat)
    requires Enabled(s, a) && c < |s.conns| && !s.conns[c].reading
    requires a.Dial? || a.Read? || a.ReadFails? || a.Consume? || a.BurstEnds? || a.StopLoop?
    ensures c < |Step(s, a).conns| && Carried(s.conns[c], Step(s, a).conns[c])
  {
    assert s.conns[c].sent <= s.conns[c].sent;
  }

  lemma ByeStep(s: System, a: Action, c: nat)
    requires Enabled(s, a) && c < |s.conns| && ByeRead(s.conns[c]) && !s.conns[c].reading
    ensures c < |Step(s, a).conns| && Unchanged(s.conns[c], Step(s, a).conns[c])
  {
    hide WellFormed, Step, Enabled;
    StoppedReader(s, a, c);
    ByeLocal(s.conns[c], Step(s, a).conns[c]);
  }

  lemma {:induction false} ByeStays(s: System, actions: seq<Action>, s': System, c: nat)
    requires Runs(s, actions, s')
    requires c < |s.conns| && ByeRead(s.conns[c]) && !s.conns[c].reading
    ensures c < |s'.conns| && Unchanged(s.conns[c], s'.conns[c])
    decreases |actions|
  {
    hide Enabled, Step;
    if actions != [] {
      ByeStep(s, actions[0], c);
      ByeStays(Step(s, actions[0]), actions[1..], s', c);
    }
  }

  // Once BYE is read nothing is queued or dropped on the connection any more,
  // also when a racing Trigger has written behind the BYE.
  lemma NothingAfterBye(before: seq<Action>, s: System, after: seq<Action>, s': System, c: nat)
    requires Runs(Init(), before, s) && Runs(s, after, s')
    requires c < |s.conns| && ByeRead(s.conns[c])
    ensures c < |s'.conns| && Unchanged(s.conns[c], s'.conns[c])
  {
    InitInv();
    InvRuns(Init(), before, s);
    assert ConnInv(s.conns[c]);
    hide Runs, Inv, ConnInv;
    ByeStays(s, after, s', c);
  }

  // Reading BYE ends the reader, so the signals of a connection all come from
  // messages before its first BYE.
  lemma SignalsBeforeBye(actions: seq<Action>, s: System, c: nat, i: nat)
    requires Runs(Init(), actions, s) && c < |s.conns| && i < |s.conns[c].sent| && s.conns[c].sent[i].Bye?
    ensures s.conns[c].pos <= i + 1
    ensures s.conns[c].queued + s.conns[c].consumed + s.conns[c].full <= Signals(s.conns[c].sent[..i])
    ensures s.conns[c].pos == i + 1 ==> !s.conns[c].reading
  {
    InitInv();
    InvRuns(Init(), actions, s);
    var k := s.conns[c];
    assert ConnInv(k);
    if k.pos == i + 1 {
      assert k.sent[..k.pos] == k.sent[..i] + [Bye];
      SignalsAppend(k.sent[..i], Bye);
    } else {
      assert k.sent[..i][..k.pos] == k.sent[..k.pos];
      SignalsPrefix(k.sent[..i], k.pos);
    }
  }

  // ---------- Registration after Close ----------

  // The far end can still make the server read a well-formed REGISTER.
  ghost predicate CanRegister(k: Conn) {
    k.phase.Awaiting? && if k.inbox == [] then !k.hungUp else WellFormed(k.inbox[0])
  }

  ghost predicate SomeCanRegister(s: System) {
    s.listening || exists c | 0 <= c < |s.conns| :: CanRegister(s.conns[c])
  }

  ghost predicate CrashesAfter(s: System, actions: seq<Action>) {
    exists s' :: Runs(s, actions, s') && s'.crashed
  }

  ghost predicate CanCrash(s: System) {
    exists actions: seq<Action> :: CrashesAfter(s, actions)
  }

  lemma NoNewRegistrar(s: System, a: Action)
    requires Enabled(s, a) && s.closed && !SomeCanRegister(s)
    ensures Step(s, a).closed && !SomeCanRegister(Step(s, a)) && !Step(s, a).crashed
  {
    hide WellFormed;
    forall c | 0 <= c < |Step(s, a).conns|
      ensures !CanRegister(Step(s, a).conns[c])
    {
      assert !CanRegister(s.conns[c]);
    }
  }

  lemma {:induction false} NeverCrashes(s: System, actions: seq<Action>, s': System)
    requires s.closed && !s.crashed && !SomeCanRegister(s) && Runs(s, actions, s')
    ensures !s'.crashed
    decreases |actions|
  {
    hide SomeCanRegister, Enabled, Step;
    if actions != [] {
      NoNewRegistrar(s, actions[0]);
      NeverCrashes(Step(s, actions[0]), actions[1..], s');
    }
  }

  lemma CrashNow(s: System, c: nat)
    requires !s.crashed && s.closed && c < |s.conns| && s.conns[c].phase.Awaiting?
    requires s.conns[c].inbox != [] && WellFormed(s.conns[c].inbox[0])
    ensures CrashesAfter(s, [ServeFirst(c)])
  {
    var a := ServeFirst(c);
    assert [a][1..] == [];
    assert Runs(Step(s, a), [], Step(s, a));
    assert Runs(s, [a], Step(s, a));
  }

  lemma CrashSoon(s: System, a: Action, actions: seq<Action>)
    requires Enabled(s, a) && CrashesAfter(Step(s, a), actions)
    ensures CrashesAfter(s, [a] + actions)
  {
    var s' :| Runs(Step(s, a), actions, s') && s'.crashed;
    assert ([a] + actions)[1..] == actions;
    assert Runs(s, [a] + actions, s');
  }

  lemma SendThenCrash(s: System, c: nat)
    requires !s.crashed && s.closed && c < |s.conns| && s.conns[c].phase.Awaiting? && s.conns[c].inbox == []
        && !s.conns[c].hungUp
    ensures CanCrash(s)
  {
    var line := "REGISTER " + Itoa(1);
    WorkerRegisters(1);
    hide WellFormed, PidOf;
    var a := SendLine(c, line);
    CrashNow(Step(s, a), c);
    CrashSoon(s, a, [ServeFirst(c)]);
  }

  // After Close, the server can still write to its nil map exactly when it
  // still listens or a connection has not settled its registration.
  lemma CrashIff(s: System)
    requires s.closed && !s.crashed
    ensures CanCrash(s) <==> SomeCanRegister(s)
  {
    hide WellFormed, Runs, Step, Enabled;
    if !SomeCanRegister(s) {
      forall actions, s' | Runs(s, actions, s')
        ensures !s'.crashed
      {
        NeverCrashes(s, actions, s');
      }
    } else if s.listening {
      DialThenCrash(s);
    } else {
      var c :| 0 <= c < |s.conns| && CanRegister(s.conns[c]);
      if s.conns[c].inbox == [] {
        SendThenCrash(s, c);
      } else {
        CrashNow(s, c);
      }
    }
  }

  lemma DialThenCrash(s: System)
    requires s.closed && !s.crashed && s.listening
    ensures CanCrash(s)
  {
    hide WellFormed, Runs;
    var a := Dial(true);
    SendThenCrash(Step(s, a), |s.conns|);
    var actions :| CrashesAfter(Step(s, a), actions);
    CrashSoon(s, a, actions);
  }

  // A worker that dials in before Close and registers after it.
  function LateRegister(pid: nat): seq<Action> {
    [Dial(true), Close, SendLine(0, "REGISTER " + Itoa(pid)), ServeFirst(0)]
  }

  lemma LateRegisterCrashes(pid: nat)
    requires pid <= MAX_INT
    ensures CrashesAfter(Init(), LateRegister(pid))
  {
    var actions := LateRegister(pid);
    WorkerRegisters(pid);
    hide PidOf;
    var s0 := Init();
    var s1 := Step(s0, actions[0]);
    var s2 := Step(s1, actions[1]);
    var s3 := Step(s2, actions[2]);
    hide WellFormed, Runs;
    assert WellFormed(s3.conns[0].inbox[0]) by {
      assert s3.conns[0].inbox[0] == "REGISTER " + Itoa(pid);
    }
    CrashNow(s3, 0);
    CrashSoon(s2, actions[2], [ServeFirst(0)]);
    CrashSoon(s1, actions[1], [actions[2]] + [ServeFirst(0)]);
    CrashSoon(s0, actions[0], [actions[1]] + ([actions[2]] + [ServeFirst(0)]));
    assert actions == [actions[0]] + ([actions[1]] + ([actions[2]] + [ServeFirst(0)]));
  }
}
