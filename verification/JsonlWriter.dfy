// The lossy JSONL writer: a bounded queue between the emitting goroutines and
// one flushing goroutine.
//
// The class Writer has the operations of the source, each run to its end. The
// datatype State splits them into their atomic steps, so that its runs are
// all the interleavings of any number of emitters with the flusher and Close.
module JsonlWriter {
  import opened GoStrings

  // One JSON object: its members' names and printed values.
  type Event = map<string, string>

  // ---------- The queue ----------

  // The channel, the events dropped so far, the event the flusher has taken
  // out but not encoded yet, and the events encoded.
  datatype Queue = Queue(cap: nat, ch: seq<Event>, dropped: nat, hand: Option<Event>, written: seq<Event>) {
    function InHand(): seq<Event> {
      if hand.Some? then [hand.value] else []
    }

    // Everything accepted, in order.
    function Kept(): seq<Event> {
      written + InHand() + ch
    }

    // The non-blocking send of Emit. A flusher that waits on an empty channel
    // takes the event directly.
    function Offer(e: Event, waiting: bool): Queue {
      if waiting && ch == [] && hand.None? then this.(hand := Some(e))
      else if |ch| < cap then this.(ch := ch + [e])
      else this.(dropped := dropped + 1)
    }

    // The flusher's receive.
    function Receive(): Queue
      requires hand.None? && ch != []
    {
      this.(hand := Some(ch[0]), ch := ch[1..])
    }

    function Encode(): Queue
      requires hand.Some?
    {
      this.(hand := None, written := written + [hand.value])
    }

    // What is left when the flusher has drained everything.
    function Drained(): Queue {
      this.(ch := [], hand := None, written := Kept())
    }
  }

  // ---------- The operations ----------

  datatype FileError = FlushFailed | SyncFailed | CloseFailed

  datatype FileOutcome = FileOutcome(flushed: bool, synced: bool, closed: bool)

  class Writer {
    const cap: nat
    var ch: seq<Event>
    var dropped: nat
    var hand: Option<Event>
    var written: seq<Event>
    var closed: bool

    ghost function View(): Queue
      reads this
    {
      Queue(cap, ch, dropped, hand, written)
    }

    constructor (buffer: nat)
      ensures View() == Queue(buffer, [], 0, None, []) && !closed
    {
      cap := buffer;
      ch := [];
      dropped := 0;
      hand := None;
      written := [];
      closed := false;
    }

    method Emit(event: Event, waiting: bool)
      modifies this
      ensures closed == old(closed)
      ensures View() == if closed then old(View()) else old(View()).Offer(event, waiting)
    {
      if closed {
        return;
      }
      if waiting && ch == [] && hand.None? {
        hand := Some(event);
      } else if |ch| < cap {
        ch := ch + [event];
      } else {
        dropped := dropped + 1;
      }
    }

    // One turn of the flusher's loop.
    method RunOnce() returns (busy: bool)
      modifies this
      ensures closed == old(closed)
      ensures !busy ==> View() == old(View()) && |ch| == 0 && hand.None?
      ensures busy ==> View().Kept() == old(View()).Kept() && View().dropped == old(dropped)
      ensures busy ==> |ch| <= old(|ch|) && hand.None? && (old(hand).Some? || |ch| < old(|ch|))
    {
      if hand.None? {
        if |ch| == 0 {
          return false;
        }
        hand, ch := Some(ch[0]), ch[1..];
        assert old(ch) == [hand.value] + ch;
      }
      ghost var before := View();
      written := written + [hand.value];
      hand := None;
      assert View().Kept() == before.Kept();
      return true;
    }

    // Close returns after the flusher has drained the channel, with the drop
    // count whatever becomes of the file; a second Close changes nothing and
    // has no error. outcome says how flushing, syncing and closing the file go.
    method Close(outcome: FileOutcome) returns (lost: nat, err: Option<FileError>)
      modifies this
      ensures closed && lost == dropped == old(dropped)
      ensures View() == if old(closed) then old(View()) else old(View()).Drained()
      ensures err == if old(closed) then None
                     else if !outcome.flushed then Some(FlushFailed)
                     else if !outcome.synced then Some(SyncFailed)
                     else if !outcome.closed then Some(CloseFailed)
                     else None
    {
      if closed {
        return dropped, None;
      }
      closed := true;
      var busy := true;
      while busy
        invariant closed && dropped == old(dropped)
        invariant View().Kept() == old(View()).Kept()
        invariant !busy ==> |ch| == 0 && hand.None?
        decreases |ch|, hand.Some?, busy
      {
        busy := RunOnce();
      }
      assert View().Kept() == written;
      if !outcome.flushed {
        return dropped, Some(FlushFailed);
      }
      if !outcome.synced {
        return dropped, Some(SyncFailed);
      }
      return dropped, if outcome.closed then None else Some(CloseFailed);
    }
  }

  // ---------- Interleavings ----------

  // A writer between atomic steps. pending are the events of the Emit calls
  // that have read closed as false and not sent yet; offered, accepted and
  // lost record the history.
  datatype State = State(
    q: Queue,
    pending: seq<Event>,
    closed: bool,
    chanClosed: bool,
    runDone: bool,
    panicked: bool,
    offered: seq<Event>,
    accepted: seq<Event>,
    lost: seq<Event>)

  datatype Action =
    | Check(event: Event)             // Emit reads closed
    | Send(i: nat, waiting: bool) // some Emit's select
    | Receive
    | Encode
    | SetClosed                   // Close's compare-and-swap
    | CloseChannel
    | RunExit                     // the flusher's loop ends

  function Init(cap: nat): State {
    State(Queue(cap, [], 0, None, []), [], false, false, false, false, [], [], [])
  }

  predicate Enabled(s: State, a: Action) {
    !s.panicked &&
    match a
    case Check(_) => true
    case Send(i, waiting) => i < |s.pending| && (waiting ==> !s.runDone)
    case Receive => !s.runDone && s.q.hand.None? && s.q.ch != []
    case Encode => s.q.hand.Some?
    case SetClosed => !s.closed
    case CloseChannel => s.closed && !s.chanClosed
    case RunExit => s.chanClosed && s.q.ch == [] && s.q.hand.None?
  }

  function Step(s: State, a: Action): State
    requires Enabled(s, a)
  {
    match a
    case Check(e) => if s.closed then s else s.(pending := s.pending + [e], offered := s.offered + [e])
    case Send(i, waiting) =>
      var e, rest := s.pending[i], s.pending[..i] + s.pending[i + 1..];
      if s.chanClosed then s.(panicked := true)
      else
        var q := s.q.Offer(e, waiting);
        if q.dropped == s.q.dropped
        then s.(q := q, pending := rest, accepted := s.accepted + [e])
        else s.(q := q, pending := rest, lost := s.lost + [e])
    case Receive => s.(q := s.q.Receive())
    case Encode => s.(q := s.q.Encode())
    case SetClosed => s.(closed := true)
    case CloseChannel => s.(chanClosed := true)
    case RunExit => s.(runDone := true)
  }

  // s' is reached from s by the actions.
  ghost predicate Runs(s: State, actions: seq<Action>, s': State)
    decreases |actions|
  {
    if actions == [] then s == s'
    else Enabled(s, actions[0]) && Runs(Step(s, actions[0]), actions[1..], s')
  }

  // ---------- Conservation ----------

  ghost predicate Inv(s: State) {
    && s.accepted == s.q.Kept()
    && |s.lost| == s.q.dropped
    && |s.q.ch| <= s.q.cap
    && multiset(s.offered) == multiset(s.accepted) + multiset(s.lost) + multiset(s.pending)
    && (s.chanClosed ==> s.closed)
    && (s.runDone ==> s.chanClosed && s.q.ch == [] && s.q.hand.None?)
    && (s.panicked ==> s.pending != [])
  }

  lemma OfferKeeps(q: Queue, e: Event, waiting: bool)
    requires |q.ch| <= q.cap
    ensures var q' := q.Offer(e, waiting);
            && |q'.ch| <= q'.cap
            && (q'.dropped == q.dropped ==> q'.Kept() == q.Kept() + [e])
            && (q'.dropped != q.dropped ==> q'.Kept() == q.Kept() && q'.dropped == q.dropped + 1 && |q.ch| == q.cap)
  {
    if waiting && q.ch == [] && q.hand.None? {
      assert q.Offer(e, waiting).Kept() == q.Kept() + [e];
    } else if |q.ch| < q.cap {
      assert q.written + q.InHand() + (q.ch + [e]) == q.Kept() + [e];
    }
  }

  lemma TakePending(l: seq<Event>, i: nat)
    requires i < |l|
    ensures multiset(l[..i] + l[i + 1..]) + multiset{l[i]} == multiset(l)
  {
    assert l == l[..i] + [l[i]] + l[i + 1..];
  }

  lemma InvSend(s: State, i: nat, waiting: bool)
    requires Inv(s) && Enabled(s, Send(i, waiting))
    ensures Inv(Step(s, Send(i, waiting)))
  {
    hide Queue.Offer, Queue.Kept;
    if !s.chanClosed {
      OfferKeeps(s.q, s.pending[i], waiting);
      MoveOne(s, i);
    }
  }

  // The sent event moves from the pending ones to the accepted or lost ones.
  lemma MoveOne(s: State, i: nat)
    requires i < |s.pending|
    ensures var e, rest := s.pending[i], s.pending[..i] + s.pending[i + 1..];
            && multiset(s.accepted + [e]) + multiset(s.lost) + multiset(rest)
               == multiset(s.accepted) + multiset(s.lost) + multiset(s.pending)
            && multiset(s.accepted) + multiset(s.lost + [e]) + multiset(rest)
               == multiset(s.accepted) + multiset(s.lost) + multiset(s.pending)
  {
    TakePending(s.pending, i);
  }

  lemma InvStep(s: State, a: Action)
    requires Inv(s) && Enabled(s, a)
    ensures Inv(Step(s, a))
  {
    match a
    case Send(i, waiting) =>
      InvSend(s, i, waiting);
    case Receive =>
      assert s.q.ch == [s.q.ch[0]] + s.q.ch[1..];
      assert s.q.Receive().Kept() == s.q.Kept();
    case Encode =>
      assert s.q.Encode().Kept() == s.q.Kept();
    case _ =>
  }

  lemma {:induction false} InvRuns(s: State, actions: seq<Action>, s': State)
    requires Inv(s) && Runs(s, actions, s')
    ensures Inv(s')
    decreases |actions|
  {
    if actions != [] {
      InvStep(s, actions[0]);
      InvRuns(Step(s, actions[0]), actions[1..], s');
    }
  }

  // In every interleaving: nothing offered disappears, the file holds a
  // prefix of the accepted events in acceptance order, and the drop counter
  // is exact.
  lemma Conservation(cap: nat, actions: seq<Action>, s: State)
    requires Runs(Init(cap), actions, s)
    ensures |s.offered| == |s.q.written| + |s.q.InHand()| + |s.q.ch| + s.q.dropped + |s.pending|
    ensures s.q.written <= s.accepted && s.accepted == s.q.written + s.q.InHand() + s.q.ch
    ensures multiset(s.offered) == multiset(s.accepted) + multiset(s.lost) + multiset(s.pending)
    ensures |s.q.ch| <= s.q.cap && |s.lost| == s.q.dropped
  {
    InvRuns(Init(cap), actions, s);
    assert |multiset(s.offered)| == |multiset(s.accepted)| + |multiset(s.lost)| + |multiset(s.pending)|;
  }

  // An event is dropped only by a send that finds the channel full.
  lemma DropsOnlyWhenFull(s: State, a: Action)
    requires Inv(s) && Enabled(s, a) && Step(s, a).q.dropped != s.q.dropped
    ensures a.Send? && |s.q.ch| == s.q.cap && Step(s, a).q.dropped == s.q.dropped + 1
    ensures Step(s, a).lost == s.lost + [s.pending[a.i]]
  {
    if a.Send? {
      OfferKeeps(s.q, s.pending[a.i], a.waiting);
    }
  }

  // ---------- After Close ----------

  lemma {:induction false} QuietStays(s: State, actions: seq<Action>, s': State)
    requires s.closed && s.pending == [] && Runs(s, actions, s')
    ensures s'.closed && s'.pending == [] && s'.panicked == s.panicked
    ensures s'.offered == s.offered && s'.accepted == s.accepted && s'.q.dropped == s.q.dropped && s'.lost == s.lost
    decreases |actions|
  {
    if actions != [] {
      QuietStays(Step(s, actions[0]), actions[1..], s');
    }
  }

  // When Close finds no Emit in progress, then once the flusher has ended the
  // file is exactly the accepted events in acceptance order, the count that
  // Close returns is exact, and nothing panicked.
  lemma CloseIsExact(cap: nat, before: seq<Action>, s: State, after: seq<Action>, s': State)
    requires Runs(Init(cap), before, s) && s.closed && s.pending == []
    requires Runs(s, after, s') && s'.runDone
    ensures s'.q.written == s.accepted
    ensures s'.q.dropped == |s.offered| - |s'.q.written|
    ensures !s'.panicked
  {
    InvRuns(Init(cap), before, s);
    InvRuns(s, after, s');
    QuietStays(s, after, s');
    assert |multiset(s.offered)| == |multiset(s.accepted)| + |multiset(s.lost)| + |multiset(s.pending)|;
    assert s'.q.Kept() == s'.q.written;
  }

  // Some run from here sends on the closed channel.
  ghost predicate CanPanic(s: State) {
    exists after: seq<Action> :: PanicsAfter(s, after)
  }

  ghost predicate PanicsAfter(s: State, after: seq<Action>) {
    exists s' :: Runs(s, after, s') && s'.panicked
  }

  // With the channel closed, a panic is still to come in some run exactly
  // when an Emit is in progress.
  lemma PanicIff(cap: nat, before: seq<Action>, s: State)
    requires Runs(Init(cap), before, s) && s.chanClosed && !s.panicked
    ensures CanPanic(s) <==> s.pending != []
  {
    InvRuns(Init(cap), before, s);
    if s.pending != [] {
      var after := [Send(0, false)];
      var s' := Step(s, after[0]);
      assert Runs(s', after[1..], s');
      assert Runs(s, after, s') && s'.panicked;
      assert PanicsAfter(s, after);
    } else {
      forall after, s' | Runs(s, after, s')
        ensures !s'.panicked
      {
        QuietStays(s, after, s');
      }
    }
  }

  // An Emit that has found the writer open and sends after Close has closed
  // the channel.
  function LateSend(e: Event): seq<Action> {
    [Check(e), SetClosed, CloseChannel, Send(0, false)]
  }

  lemma LateSendPanics(cap: nat, e: Event)
    ensures PanicsAfter(Init(cap), LateSend(e))
  {
    var s0 := Init(cap);
    var s1 := Step(s0, Check(e));
    var s2 := Step(s1, SetClosed);
    var s3 := Step(s2, CloseChannel);
    var s4 := Step(s3, Send(0, false));
    var actions := LateSend(e);
    assert actions[1..][1..] == actions[2..] && actions[2..][1..] == actions[3..] && actions[3..][1..] == [];
    assert Runs(s4, [], s4);
    assert Runs(s3, actions[3..], s4);
    assert Runs(s2, actions[2..], s4);
    assert Runs(s1, actions[1..], s4);
    assert Runs(s0, actions, s4) && s4.panicked;
  }

  // ---------- The class and the steps ----------

  // The queue of an Emit that nothing interrupts: its check and its send leave
  // what the method Emit leaves, the event accepted last or lost last.
  lemma EmitIsCheckThenSend(s: State, e: Event, waiting: bool)
    requires !s.panicked && !s.closed && !s.chanClosed && !s.runDone && s.pending == []
    ensures Enabled(s, Check(e)) && Enabled(Step(s, Check(e)), Send(0, waiting))
    ensures var s' := Step(Step(s, Check(e)), Send(0, waiting));
            && s'.q == s.q.Offer(e, waiting) && s'.pending == [] && !s'.panicked && s'.offered == s.offered + [e]
            && if s'.q.dropped == s.q.dropped then s'.accepted == s.accepted + [e] && s'.lost == s.lost
               else s'.lost == s.lost + [e] && s'.accepted == s.accepted
  {
    var s1 := Step(s, Check(e));
    assert s1.pending == [e];
  }

  // After the compare-and-swap of Close an Emit does nothing at all.
  lemma EmitAfterClose(s: State, e: Event)
    requires !s.panicked && s.closed
    ensures Step(s, Check(e)) == s
  {
  }

  // The receive and the encoding write the oldest queued event behind the
  // earlier ones.
  lemma FlushWritesOldest(s: State)
    requires Enabled(s, Receive)
    ensures Enabled(Step(s, Receive), Encode)
    ensures var s' := Step(Step(s, Receive), Encode);
            s'.q.written == s.q.written + [s.q.ch[0]] && s'.q.ch == s.q.ch[1..] && s'.q.hand == None
  {
  }
}
