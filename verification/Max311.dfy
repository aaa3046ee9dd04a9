/**
 The receive side of the MAX311x UART driver: a ring of 1024 words that four
 entry points share, against a plain queue.
 */
module Max311 {
  import opened Serial

  const RECEIVE_BUFFER_SIZE: nat := 1024

  /** A reply of the device when nothing goes on: transmitter empty, nothing received. */
  const IDLE: bv16 := 0x4000

  /** MAX311XE_RD_R: the reply carries a received character. */
  predicate HasData(w: bv16) {
    w & 0x8000 != 0
  }

  /** MAX311XE_RD_T: the transmit buffer is empty. */
  predicate CanSend(w: bv16) {
    w & 0x4000 != 0
  }

  /** MAX311XE_RD_RA_FE: the character came with a framing error. */
  predicate Damaged(w: bv16) {
    w & 0x0400 != 0
  }

  function ByteOf(w: bv16): bv8 {
    (w & 0xFF) as bv8
  }

  function StatusOf(w: bv16): Status {
    if Damaged(w) then Error else Success
  }

  // ---------------------------------------------------------------- the queue

  /** The queue, the replies the device has yet to give, and what happened so far. */
  datatype Uart = Uart(queue: seq<bv16>, replies: seq<bv16>, log: seq<Event>)

  /** A character came in, and was kept or lost; one was handed to the caller; or one was written out. */
  datatype Event = Arrived(word: bv16, kept: bool) | Delivered(word: bv16) | Written(byte: bv8)

  function Reply(u: Uart): bv16 {
    if u.replies == [] then IDLE else u.replies[0]
  }

  function Sent(u: Uart): Uart {
    if u.replies == [] then u else u.(replies := u.replies[1..])
  }

  /** A full queue drops what arrives. */
  function Buffered(u: Uart, w: bv16): Uart {
    if |u.queue| < RECEIVE_BUFFER_SIZE - 1 then u.(queue := u.queue + [w], log := u.log + [Arrived(w, true)])
    else u.(log := u.log + [Arrived(w, false)])
  }

  /** Buffers `w` and the replies after it up to the first without data; that reply is the second result. */
  function Collected(u: Uart, w: bv16): (r: (Uart, bv16))
    ensures !HasData(r.1)
    ensures |r.0.replies| <= |u.replies|
    decreases |u.replies|, if HasData(w) then 1 else 0
  {
    if !HasData(w) then (u, w)
    else
      var u' := Buffered(u, w);
      Collected(Sent(u'), Reply(u'))
  }

  /** One question to the device and everything that follows from it. */
  function Asked(u: Uart): (r: (Uart, bv16))
    ensures u.replies == [] ==> CanSend(r.1)
    ensures u.replies != [] ==> |r.0.replies| < |u.replies|
  {
    Collected(Sent(u), Reply(u))
  }

  function AfterReady(u: Uart): (Uart, bool) {
    var u' := Asked(u).0;
    (u', u'.queue != [])
  }

  function AfterGet(u: Uart): (r: (Uart, Status, bv8)) {
    if u.queue != [] then
      var w := u.queue[0];
      (u.(queue := u.queue[1..], log := u.log + [Delivered(w)]), StatusOf(w), ByteOf(w))
    else
      var w, u' := Reply(u), Sent(u);
      if HasData(w) then (u'.(log := u'.log + [Arrived(w, true), Delivered(w)]), StatusOf(w), ByteOf(w))
      else (u', NoData, 0)
  }

  /** Asks until the transmitter is empty. */
  function Waited(u: Uart): (r: Uart)
    decreases |u.replies|
  {
    var (u', w) := Asked(u);
    if CanSend(w) then u' else Waited(u')
  }

  function Wrote(u: Uart, byte: bv8): Uart {
    u.(log := u.log + [Written(byte)])
  }

  function AfterPut(u: Uart, byte: bv8, busyWait: bool): (Uart, Status) {
    if busyWait then (Asked(Wrote(Waited(u), byte)).0, Success)
    else
      var (u', w) := Asked(u);
      if CanSend(w) then (Asked(Wrote(u', byte)).0, Success) else (u', NotReady)
  }

  // ---------------------------------------------------------------- whole runs

  datatype Call = GetByte | PutByte(byte: bv8, busyWait: bool) | RxReady

  function After(u: Uart, c: Call): Uart {
    match c
    case GetByte => AfterGet(u).0
    case PutByte(byte, busyWait) => AfterPut(u, byte, busyWait).0
    case RxReady => AfterReady(u).0
  }

  function Served(u: Uart, calls: seq<Call>): Uart
    decreases |calls|
  {
    if calls == [] then u else Served(After(u, calls[0]), calls[1..])
  }

  /** What the callers of `GetByte` were told, call after call; a call that found nothing adds nothing. */
  function Answers(u: Uart, calls: seq<Call>): seq<(Status, bv8)>
    decreases |calls|
  {
    if calls == [] then []
    else
      var (_, status, byte) := AfterGet(u);
      (if calls[0].GetByte? && status != NoData then [(status, byte)] else [])
      + Answers(After(u, calls[0]), calls[1..])
  }

  function Answer(w: bv16): (Status, bv8) {
    (StatusOf(w), ByteOf(w))
  }

  function AnswersFor(words: seq<bv16>): (r: seq<(Status, bv8)>)
    ensures |r| == |words|
    ensures forall i :: 0 <= i < |words| ==> r[i] == Answer(words[i])
  {
    seq(|words|, i requires 0 <= i < |words| => Answer(words[i]))
  }

  /** The characters among replies. */
  function Received(replies: seq<bv16>): seq<bv16> {
    if replies == [] then []
    else Received(replies[..|replies| - 1]) + (if HasData(replies[|replies| - 1]) then [replies[|replies| - 1]] else [])
  }

  function Arrivals(log: seq<Event>): seq<bv16> {
    if log == [] then []
    else Arrivals(log[..|log| - 1]) + (if log[|log| - 1].Arrived? then [log[|log| - 1].word] else [])
  }

  function Kept(log: seq<Event>): seq<bv16> {
    if log == [] then []
    else
      var e := log[|log| - 1];
      Kept(log[..|log| - 1]) + (if e.Arrived? && e.kept then [e.word] else [])
  }

  function Deliveries(log: seq<Event>): seq<bv16> {
    if log == [] then []
    else Deliveries(log[..|log| - 1]) + (if log[|log| - 1].Delivered? then [log[|log| - 1].word] else [])
  }

  /** A character is lost exactly when 1023 are waiting at that moment. */
  predicate Honest(log: seq<Event>) {
    log == [] ||
    (var front, e := log[..|log| - 1], log[|log| - 1];
     Honest(front) && (e.Arrived? ==> (e.kept <==> |Kept(front)| - |Deliveries(front)| < RECEIVE_BUFFER_SIZE - 1)))
  }

  /**
   `all` is what the device will ever have replied.  The characters among the
   replies used so far are the arrivals; the kept ones are those delivered
   followed by those waiting; and none was lost without need.
   */
  predicate Accounted(u: Uart, all: seq<bv16>) {
    && |u.replies| <= |all| && u.replies == all[|all| - |u.replies|..]
    && Arrivals(u.log) == Received(all[..|all| - |u.replies|])
    && Deliveries(u.log) + u.queue == Kept(u.log)
    && Honest(u.log)
    && |u.queue| < RECEIVE_BUFFER_SIZE
  }

  lemma LogSnoc(log: seq<Event>, e: Event)
    ensures Arrivals(log + [e]) == Arrivals(log) + (if e.Arrived? then [e.word] else [])
    ensures Kept(log + [e]) == Kept(log) + (if e.Arrived? && e.kept then [e.word] else [])
    ensures Deliveries(log + [e]) == Deliveries(log) + (if e.Delivered? then [e.word] else [])
    ensures Honest(log + [e]) <==>
      Honest(log) && (e.Arrived? ==> (e.kept <==> |Kept(log)| - |Deliveries(log)| < RECEIVE_BUFFER_SIZE - 1))
  {
    assert (log + [e])[..|log|] == log;
  }

  lemma ReceivedSnoc(replies: seq<bv16>, w: bv16)
    ensures Received(replies + [w]) == Received(replies) + (if HasData(w) then [w] else [])
  {
    assert (replies + [w])[..|replies|] == replies;
  }

  /** A reply has been taken but its character not yet dealt with. */
  predicate Pending(u: Uart, all: seq<bv16>, w: bv16) {
    && |u.replies| <= |all| && u.replies == all[|all| - |u.replies|..]
    && Arrivals(u.log) + (if HasData(w) then [w] else []) == Received(all[..|all| - |u.replies|])
    && Deliveries(u.log) + u.queue == Kept(u.log)
    && Honest(u.log)
    && |u.queue| < RECEIVE_BUFFER_SIZE
  }

  lemma SentPends(u: Uart, all: seq<bv16>)
    requires Accounted(u, all)
    ensures Pending(Sent(u), all, Reply(u))
  {
    if u.replies != [] {
      var n := |all| - |u.replies|;
      assert all[..n + 1] == all[..n] + [all[n]];
      assert u.replies[0] == all[n] && u.replies[1..] == all[n + 1..];
      ReceivedSnoc(all[..n], all[n]);
    } else {
      assert !HasData(IDLE);
      assert Arrivals(u.log) + [] == Arrivals(u.log);
    }
  }

  lemma BufferedAccounts(u: Uart, all: seq<bv16>, w: bv16)
    requires Pending(u, all, w) && HasData(w)
    ensures Accounted(Buffered(u, w), all)
  {
    var kept := |u.queue| < RECEIVE_BUFFER_SIZE - 1;
    LogSnoc(u.log, Arrived(w, kept));
    assert |Kept(u.log)| == |Deliveries(u.log)| + |u.queue|;
    assert Deliveries(u.log) + (u.queue + [w]) == (Deliveries(u.log) + u.queue) + [w];
  }

  lemma {:induction false} CollectedAccounts(u: Uart, all: seq<bv16>, w: bv16)
    requires Pending(u, all, w)
    ensures Accounted(Collected(u, w).0, all)
    decreases |u.replies|, if HasData(w) then 1 else 0
  {
    hide HasData, Arrivals, Received, Deliveries, Kept, Honest;
    if HasData(w) {
      var u' := Buffered(u, w);
      BufferedAccounts(u, all, w);
      SentPends(u', all);
      IdleHasNone();
      CollectedAccounts(Sent(u'), all, Reply(u'));
    } else {
      assert Arrivals(u.log) + [] == Arrivals(u.log);
    }
  }

  lemma IdleHasNone()
    ensures !HasData(IDLE) && CanSend(IDLE)
  {
  }

  lemma AskedAccounts(u: Uart, all: seq<bv16>)
    requires Accounted(u, all)
    ensures Accounted(Asked(u).0, all)
  {
    hide Accounted, Pending;
    SentPends(u, all);
    CollectedAccounts(Sent(u), all, Reply(u));
  }

  lemma {:induction false} WaitedAccounts(u: Uart, all: seq<bv16>)
    requires Accounted(u, all)
    ensures Accounted(Waited(u), all)
    decreases |u.replies|
  {
    hide Accounted, Asked, CanSend;
    AskedAccounts(u, all);
    var (u', w) := Asked(u);
    if !CanSend(w) {
      WaitedAccounts(u', all);
    }
  }

  lemma GetAccounts(u: Uart, all: seq<bv16>)
    requires Accounted(u, all)
    ensures Accounted(AfterGet(u).0, all)
  {
    hide HasData, Arrivals, Received, Deliveries, Kept, Honest;
    if u.queue != [] {
      var w, rest := u.queue[0], u.queue[1..];
      LogSnoc(u.log, Delivered(w));
      assert Deliveries(u.log) + [w] + rest == Deliveries(u.log) + u.queue;
      assert Arrivals(u.log) + [] == Arrivals(u.log) && Kept(u.log) + [] == Kept(u.log);
    } else {
      SentPends(u, all);
      if HasData(Reply(u)) {
        DirectAccounts(Sent(u), all, Reply(u));
      } else {
        assert Arrivals(u.log) + [] == Arrivals(u.log);
      }
    }
  }

  /** With nothing waiting, a character goes straight to the caller. */
  lemma DirectAccounts(u: Uart, all: seq<bv16>, w: bv16)
    requires Pending(u, all, w) && HasData(w) && u.queue == []
    ensures Accounted(u.(log := u.log + [Arrived(w, true), Delivered(w)]), all)
  {
    hide HasData, Arrivals, Received, Deliveries, Kept, Honest;
    var log := u.log + [Arrived(w, true)];
    LogSnoc(u.log, Arrived(w, true));
    LogSnoc(log, Delivered(w));
    assert log + [Delivered(w)] == u.log + [Arrived(w, true), Delivered(w)];
    assert Deliveries(u.log) + [] == Deliveries(u.log) == Kept(u.log);
    assert Kept(log) + [] == Kept(log) && Arrivals(log) + [] == Arrivals(log);
    assert Deliveries(log) + [w] + [] == Kept(log);
  }

  lemma WroteAccounts(u: Uart, all: seq<bv16>, byte: bv8)
    requires Accounted(u, all)
    ensures Accounted(Wrote(u, byte), all)
  {
    hide Arrivals, Received, Deliveries, Kept, Honest;
    LogSnoc(u.log, Written(byte));
    assert Arrivals(u.log) + [] == Arrivals(u.log) && Kept(u.log) + [] == Kept(u.log) &&
        Deliveries(u.log) + [] == Deliveries(u.log);
  }

  lemma CallAccounts(u: Uart, all: seq<bv16>, c: Call)
    requires Accounted(u, all)
    ensures Accounted(After(u, c), all)
  {
    hide Accounted, Asked, Waited, AfterGet, CanSend, Wrote;
    match c
    case GetByte => GetAccounts(u, all);
    case RxReady => AskedAccounts(u, all);
    case PutByte(byte, busyWait) =>
      if busyWait {
        WaitedAccounts(u, all);
        WroteAccounts(Waited(u), all, byte);
        AskedAccounts(Wrote(Waited(u), byte), all);
      } else {
        AskedAccounts(u, all);
        WroteAccounts(Asked(u).0, all, byte);
        AskedAccounts(Wrote(Asked(u).0, byte), all);
      }
  }

  lemma {:induction false} RunAccounts(u: Uart, all: seq<bv16>, calls: seq<Call>)
    requires Accounted(u, all)
    ensures Accounted(Served(u, calls), all)
    decreases |calls|
  {
    hide Accounted, After;
    if calls != [] {
      CallAccounts(u, all, calls[0]);
      RunAccounts(After(u, calls[0]), all, calls[1..]);
    }
  }

  // ---------------------------------------------------------------- what the callers are told

  /** A call delivers at most one word, and only `GetByte` delivers; the answer is that word's. */
  lemma {:induction false} CollectedDelivers(u: Uart, w: bv16)
    ensures Deliveries(Collected(u, w).0.log) == Deliveries(u.log)
    decreases |u.replies|, if HasData(w) then 1 else 0
  {
    hide HasData, Deliveries;
    if HasData(w) {
      var u' := Buffered(u, w);
      IdleHasNone();
      LogSnoc(u.log, Arrived(w, |u.queue| < RECEIVE_BUFFER_SIZE - 1));
      assert Deliveries(u.log) + [] == Deliveries(u.log);
      CollectedDelivers(Sent(u'), Reply(u'));
    }
  }

  lemma AskedDelivers(u: Uart)
    ensures Deliveries(Asked(u).0.log) == Deliveries(u.log)
  {
    CollectedDelivers(Sent(u), Reply(u));
  }

  lemma {:induction false} WaitedDelivers(u: Uart)
    ensures Deliveries(Waited(u).log) == Deliveries(u.log)
    decreases |u.replies|
  {
    hide Asked, CanSend, Deliveries;
    AskedDelivers(u);
    var (u', w) := Asked(u);
    if !CanSend(w) {
      WaitedDelivers(u');
    }
  }

  lemma WroteDelivers(u: Uart, byte: bv8)
    ensures Deliveries(Wrote(u, byte).log) == Deliveries(u.log)
  {
    LogSnoc(u.log, Written(byte));
    assert Deliveries(u.log) + [] == Deliveries(u.log);
  }

  lemma GetDelivers(u: Uart)
    ensures
      var (u', status, byte) := AfterGet(u);
      if status == NoData then Deliveries(u'.log) == Deliveries(u.log)
      else exists w :: Deliveries(u'.log) == Deliveries(u.log) + [w] && (status, byte) == Answer(w)
  {
    hide HasData, Deliveries, ByteOf, Damaged;
    var w := if u.queue != [] then u.queue[0] else Reply(u);
    if u.queue != [] {
      LogSnoc(u.log, Delivered(w));
    } else if HasData(w) {
      var log := u.log + [Arrived(w, true)];
      LogSnoc(u.log, Arrived(w, true));
      LogSnoc(log, Delivered(w));
      assert log + [Delivered(w)] == u.log + [Arrived(w, true), Delivered(w)];
      assert Deliveries(u.log) + [] == Deliveries(u.log);
    }
  }

  lemma CallDelivers(u: Uart, c: Call)
    requires !c.GetByte?
    ensures Deliveries(After(u, c).log) == Deliveries(u.log)
  {
    hide Asked, Waited, CanSend, Deliveries, Wrote;
    match c
    case RxReady => AskedDelivers(u);
    case PutByte(byte, busyWait) =>
      if busyWait {
        WaitedDelivers(u);
        WroteDelivers(Waited(u), byte);
        AskedDelivers(Wrote(Waited(u), byte));
      } else {
        AskedDelivers(u);
        WroteDelivers(Asked(u).0, byte);
        AskedDelivers(Wrote(Asked(u).0, byte));
      }
  }

  lemma AnswersNext(u: Uart, calls: seq<Call>)
    requires calls != []
    ensures Answers(u, []) == []
    ensures Answers(u, calls) ==
            (if calls[0].GetByte? && AfterGet(u).1 != NoData then [(AfterGet(u).1, AfterGet(u).2)] else [])
            + Answers(After(u, calls[0]), calls[1..])
  {
  }

  /** The answers are those of the delivered words, in order. */
  lemma {:induction false} AnswersAreDelivered(u: Uart, calls: seq<Call>)
    ensures AnswersFor(Deliveries(u.log)) + Answers(u, calls) == AnswersFor(Deliveries(Served(u, calls).log))
    decreases |calls|
  {
    hide Deliveries, AfterGet, After, Answers, Answer;
    if calls == [] {
      AnswersNext(u, [RxReady]);
    } else {
      var u' := After(u, calls[0]);
      AnswersNext(u, calls);
      AnswersAreDelivered(u', calls[1..]);
      if calls[0].GetByte? {
        GetDelivers(u);
        GetIs(u);
        if AfterGet(u).1 != NoData {
          var w :| Deliveries(u'.log) == Deliveries(u.log) + [w] && (AfterGet(u).1, AfterGet(u).2) == Answer(w);
          assert AnswersFor(Deliveries(u.log) + [w]) == AnswersFor(Deliveries(u.log)) + [Answer(w)];
        }
      } else {
        CallDelivers(u, calls[0]);
      }
    }
  }

  lemma GetIs(u: Uart)
    ensures After(u, GetByte) == AfterGet(u).0
  {
  }

  /**
   Over any calls after initialisation and whatever the device replies: the words
   delivered followed by those waiting are the received words in order, without
   exactly those that arrived while 1023 were waiting; and the callers were told
   byte and error of the delivered words, in that order.
   */
  lemma WholeRun(replies: seq<bv16>, calls: seq<Call>)
    ensures
      var start := Uart([], replies, []);
      var u := Served(start, calls);
      var used := |replies| - |u.replies|;
      && 0 <= used && u.replies == replies[used..]
      && Arrivals(u.log) == Received(replies[..used])
      && Deliveries(u.log) + u.queue == Kept(u.log)
      && Honest(u.log)
      && Answers(start, calls) == AnswersFor(Deliveries(u.log))
  {
    hide Answers, Served;
    var start := Uart([], replies, []);
    assert replies[0..] == replies && replies[..0] == [];
    RunAccounts(start, replies, calls);
    AnswersAreDelivered(start, calls);
    assert AnswersFor(Deliveries([])) == [];
    assert [] + Answers(start, calls) == Answers(start, calls);
  }

  // ---------------------------------------------------------------- the ring

  /** The words from `drain` up to `fill`, around the end of the ring. */
  function Ring(b: seq<bv16>, drain: nat, fill: nat): (q: seq<bv16>)
    requires drain <= |b| && fill <= |b|
  {
    if drain <= fill then b[drain..fill] else b[drain..] + b[..fill]
  }

  function Following(i: nat): (n: nat)
    ensures n < RECEIVE_BUFFER_SIZE
  {
    (i + 1) % RECEIVE_BUFFER_SIZE
  }

  lemma RingTake(b: seq<bv16>, drain: nat, fill: nat)
    requires |b| == RECEIVE_BUFFER_SIZE && drain < |b| && fill < |b| && drain != fill
    ensures Ring(b, drain, fill) == [b[drain]] + Ring(b, Following(drain), fill)
  {
    if drain == |b| - 1 {
      assert Following(drain) == 0;
    } else {
      assert Following(drain) == drain + 1;
    }
  }

  lemma RingPut(b: seq<bv16>, drain: nat, fill: nat, w: bv16)
    requires |b| == RECEIVE_BUFFER_SIZE && drain < |b| && fill < |b|
    ensures |Ring(b, drain, fill)| < RECEIVE_BUFFER_SIZE - 1 <==> Following(fill) != drain
    ensures Following(fill) != drain ==> Ring(b[fill := w], drain, Following(fill)) == Ring(b, drain, fill) + [w]
  {
    if fill == |b| - 1 {
      assert Following(fill) == 0;
    } else {
      assert Following(fill) == fill + 1;
    }
  }

  class Driver {
    const buffer: array<bv16>
    var fill: nat
    var drain: nat
    var replies: seq<bv16>
    ghost var log: seq<Event>

    ghost predicate Valid()
      reads this
    {
      buffer.Length == RECEIVE_BUFFER_SIZE && fill < RECEIVE_BUFFER_SIZE && drain < RECEIVE_BUFFER_SIZE
    }

    ghost function Waiting(): (q: seq<bv16>)
      requires Valid()
      reads this, buffer
    {
      Ring(buffer[..], drain, fill)
    }

    ghost function State(): Uart
      requires Valid()
      reads this, buffer
    {
      Uart(Waiting(), replies, log)
    }

    /** `SpiMax311InitializePort`: discards what was buffered. */
    constructor (device: seq<bv16>)
      ensures Valid() && fresh(buffer) && State() == Uart([], device, [])
    {
      buffer := new bv16[RECEIVE_BUFFER_SIZE](_ => 0);
      fill, drain, replies, log := 0, 0, device, [];
    }

    method Send() returns (w: bv16)
      requires Valid()
      modifies this`replies
      ensures Valid() && w == Reply(old(State())) && State() == Sent(old(State()))
    {
      if replies == [] {
        w := IDLE;
      } else {
        w := replies[0];
        replies := replies[1..];
      }
    }

    /** `SpiMax311BufferRxData`. */
    method BufferData(w: bv16)
      requires Valid()
      modifies this`fill, this`log, buffer
      ensures Valid() && State() == Buffered(old(State()), w)
    {
      hide Ring;
      RingPut(buffer[..], drain, fill, w);
      var next := Following(fill);
      if next != drain {
        log := log + [Arrived(w, true)];
        buffer[fill] := w;
        assert buffer[..] == old(buffer[..])[fill := w];
        fill := next;
      } else {
        log := log + [Arrived(w, false)];
      }
    }

    /** The loop of three entry points: buffers `w` and what follows while there is data. */
    method Collect(w: bv16) returns (last: bv16)
      requires Valid()
      modifies this, buffer
      ensures Valid() && (State(), last) == Collected(old(State()), w)
    {
      hide HasData, Buffered;
      last := w;
      while HasData(last)
        invariant Valid() && Collected(State(), last) == Collected(old(State()), w)
        decreases |replies|, if HasData(last) then 1 else 0
      {
        IdleHasNone();
        BufferData(last);
        last := Send();
      }
    }

    method TxEmpty() returns (empty: bool)
      requires Valid()
      modifies this, buffer
      ensures Valid() && State() == Asked(old(State())).0 && empty == CanSend(Asked(old(State())).1)
    {
      hide Collected, CanSend;
      var w := Send();
      w := Collect(w);
      empty := CanSend(w);
    }

    method RxReadyCall(attached: bool) returns (ready: bool)
      requires Valid()
      modifies this, buffer
      ensures Valid() && (State(), ready) == if attached then AfterReady(old(State())) else (old(State()), false)
    {
      hide Collected;
      if !attached {
        return false;
      }
      var w := Send();
      w := Collect(w);
      ready := fill != drain;
    }

    method TakeOldest() returns (w: bv16)
      requires Valid() && drain != fill
      modifies this`drain, this`log
      ensures Valid() && old(Waiting()) == [w] + Waiting() && log == old(log) + [Delivered(w)]
    {
      hide Ring;
      RingTake(buffer[..], drain, fill);
      w := buffer[drain];
      drain := Following(drain);
      log := log + [Delivered(w)];
    }

    method GetByteCall(attached: bool) returns (status: Status, byte: bv8)
      requires Valid()
      modifies this
      ensures Valid()
      ensures attached ==> (State(), status, byte) == AfterGet(old(State()))
      ensures !attached ==> State() == old(State()) && status == NotReady
    {
      hide ByteOf, Damaged, HasData;
      byte := 0;
      if !attached {
        return NotReady, 0;
      }
      if drain != fill {
        var w := TakeOldest();
        return StatusOf(w), ByteOf(w);
      }
      var w := Send();
      if HasData(w) {
        log := log + [Arrived(w, true), Delivered(w)];
        return StatusOf(w), ByteOf(w);
      }
      status := NoData;
    }

    method PutByteCall(attached: bool, byte: bv8, busyWait: bool) returns (status: Status)
      requires Valid()
      modifies this, buffer
      ensures Valid() && (State(), status) == if attached then AfterPut(old(State()), byte, busyWait)
        else (old(State()), NotReady)
    {
      hide Collected, CanSend;
      if !attached {
        return NotReady;
      }
      var empty := TxEmpty();
      if busyWait {
        while !empty
          invariant Valid()
          invariant Waited(old(State())) == if empty then State() else Waited(State())
          decreases |replies|, !empty
        {
          empty := TxEmpty();
        }
      } else if !empty {
        return NotReady;
      }
      log := log + [Written(byte)];
      var w := Send();
      w := Collect(w);
      status := Success;
    }
  }
}
