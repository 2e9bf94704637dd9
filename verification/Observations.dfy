/** Reading a receipt without a lock while its client is acknowledged and closed: the atomic loads of an
    observation, interleaved with the steps of Close and with the transitions of the frame. */
module Observations {
  import opened Tables
  import opened WindowSpec

  /** 0 unknown, 1 live, 2 closing, 3 closed. */
  type Lifetime = n: nat | n <= 3
  const UNKNOWN: Lifetime := 0
  const LIVE: Lifetime := 1
  const CLOSING: Lifetime := 2
  const CLOSED: Lifetime := 3

  /** What a reader is told of the frame. */
  datatype Report = Told(frame: Frame) | ClosedUnconfirmed

  datatype Observation = Observation(report: Report, lifetime: Lifetime)

  /** The loads of an observation: the frame, the owner's lifetime, for a closed client the frame again,
      and the closing flag. */
  datatype Reader =
    | Frame0
    | Lifetime0(frame: Frame)
    | Frame1(lifetime: Lifetime)
    | Closing0(frame: Frame, lifetime: Lifetime)
    | Read(result: Observation)

  /** Close: the flag, the closing lifetime, the stop of all transport workers, the receipts detached
      from the buffer, and the closed lifetime. */
  datatype CloserAt = Flag | MarkClosing | Joining | Detach | MarkClosed | Returned

  /** `field` is the client's lifetime, `owner` the cell that receipts point to, once there is one.
      `listed` is whether the receipt is still on the buffer's list, `early` (history) whether its
      acknowledgement came before closing began. */
  datatype Watch = Watch(closing: bool, field: Lifetime, owner: Option<Lifetime>, cell: Frame, listed: bool,
                         early: bool, closers: seq<CloserAt>, readers: seq<Reader>)

  /** A receipt that was just admitted, before its owner cell exists. */
  function Admitted(): Watch {
    Watch(false, UNKNOWN, None, Retained, true, false, [], [])
  }

  /** The lifetime moves up to `l`, in the client and in the owner cell. */
  function Raise(w: Watch, l: Lifetime): Watch {
    var f := if l > w.field then l else w.field;
    w.(field := f, owner := if w.owner.Some? then Some(f) else None)
  }

  function Bind(w: Watch): Watch {
    if w.owner.Some? then w
    else
      var l := if w.closing && w.field < CLOSING then CLOSING else w.field;
      w.(owner := Some(if l == UNKNOWN then LIVE else l))
  }

  function CloserStep(w: Watch, i: nat): Watch
    requires i < |w.closers|
  {
    match w.closers[i]
    case Flag => w.(closing := true, closers := w.closers[i := MarkClosing])
    case MarkClosing => Raise(w, CLOSING).(closers := w.closers[i := Joining])
    case Joining => w.(closers := w.closers[i := Detach])
    case Detach => w.(listed := false, closers := w.closers[i := MarkClosed])
    case MarkClosed => Raise(w, CLOSED).(closers := w.closers[i := Returned])
    case Returned => w
  }

  /** Everything that changes a receipt finds it on the list, and a final state stays. */
  function Acked(w: Watch): Watch {
    if w.listed && w.cell == Retained then w.(cell := Acknowledged, early := !w.closing) else w
  }

  function RetiredNow(w: Watch): Watch {
    if w.listed && w.cell == Retained then w.(cell := Retired) else w
  }

  function Conclude(frame: Frame, lifetime: Lifetime, closing: bool): Observation {
    var l := if closing && lifetime < CLOSING then CLOSING else lifetime;
    Observation(if l == CLOSED && frame == Retained then ClosedUnconfirmed else Told(frame), l)
  }

  function ReaderStep(w: Watch, r: Reader): Reader
    requires w.owner.Some?
  {
    match r
    case Frame0 => Lifetime0(w.cell)
    case Lifetime0(frame) => if w.owner.value == CLOSED then Frame1(CLOSED) else Closing0(frame, w.owner.value)
    case Frame1(lifetime) => Closing0(w.cell, lifetime)
    case Closing0(frame, lifetime) => Read(Conclude(frame, lifetime, w.closing))
    case Read(_) => r
  }

  datatype Event = Ship | Close | CloserTurn(i: nat) | Ack | Retire | Observe | ReaderTurn(i: nat)

  /** Receipts exist once their owner cell does, so only then is one observed. */
  ghost predicate Next(w: Watch, e: Event, x: Watch) {
    match e
    case Ship => x == Bind(w)
    case Close => x == w.(closers := w.closers + [Flag])
    case CloserTurn(i) => i < |w.closers| && x == CloserStep(w, i)
    case Ack => x == Acked(w)
    case Retire => x == RetiredNow(w)
    case Observe => w.owner.Some? && x == w.(readers := w.readers + [Frame0])
    case ReaderTurn(i) =>
      i < |w.readers| && w.owner.Some? && x == w.(readers := w.readers[i := ReaderStep(w, w.readers[i])])
  }

  ghost predicate Run(states: seq<Watch>, events: seq<Event>) {
    && |states| == |events| + 1 && states[0] == Admitted()
    && forall i | 0 <= i < |events| :: Next(states[i], events[i], states[i + 1])
  }

  // ----- What every interleaving keeps -----

  ghost predicate CloserOk(w: Watch, c: CloserAt) {
    && (c != Flag ==> w.closing)
    && (c == MarkClosed || c == Returned ==> !w.listed)
  }

  /** A reader that has seen a final state has seen the truth, and one that was told of an acknowledgement by
      a live client was told of an early one. */
  ghost predicate ReaderOk(w: Watch, r: Reader) {
    match r
    case Frame0 => true
    case Lifetime0(frame) => frame != Retained ==> w.cell == frame
    case Frame1(lifetime) => lifetime == CLOSED
    case Closing0(frame, lifetime) => frame != Retained ==> w.cell == frame
    case Read(result) =>
      && (result.report.Told? && result.report.frame != Retained ==> w.cell == result.report.frame)
      && (result.report == ClosedUnconfirmed ==> result.lifetime == CLOSED)
      && (result.report == Told(Retained) ==> result.lifetime != CLOSED)
      && (result.report == Told(Acknowledged) && result.lifetime == LIVE ==> w.early)
  }

  /** Lifetimes agree with each other, with the closing flag and with the list. */
  ghost predicate LifetimesOk(w: Watch) {
    && (w.field != UNKNOWN ==> w.closing && w.field >= CLOSING)
    && (w.field == CLOSED ==> !w.listed)
    && (w.owner.Some? ==> w.owner.value != UNKNOWN && w.owner.value >= w.field
                          && (w.owner.value == CLOSED ==> w.field == CLOSED) && (w.owner.value == CLOSING ==> w.closing))
    && (w.cell == Acknowledged && !w.closing ==> w.early)
  }

  ghost predicate Safe(w: Watch) {
    && LifetimesOk(w)
    && (forall i | 0 <= i < |w.closers| :: CloserOk(w, w.closers[i]))
    && (forall i | 0 <= i < |w.readers| :: ReaderOk(w, w.readers[i]))
  }

  /** What no step takes back. */
  ghost predicate Forward(w: Watch, x: Watch) {
    && (w.closing ==> x.closing) && (!w.listed ==> !x.listed && x.cell == w.cell)
    && (w.cell != Retained ==> x.cell == w.cell && x.early == w.early)
    && w.field <= x.field && (w.owner.Some? ==> x.owner.Some? && w.owner.value <= x.owner.value)
  }

  lemma CloserForward(w: Watch, i: nat)
    requires LifetimesOk(w) && i < |w.closers| && CloserOk(w, w.closers[i])
    ensures LifetimesOk(CloserStep(w, i)) && Forward(w, CloserStep(w, i))
  {
    match w.closers[i]
    case MarkClosing => RaiseForward(w, CLOSING);
    case MarkClosed => RaiseForward(w, CLOSED);
    case _ =>
  }

  lemma RaiseForward(w: Watch, l: Lifetime)
    requires LifetimesOk(w) && l >= CLOSING && w.closing && (l == CLOSED ==> !w.listed)
    ensures LifetimesOk(Raise(w, l)) && Forward(w, Raise(w, l))
  {
  }

  lemma BindForward(w: Watch)
    requires LifetimesOk(w)
    ensures LifetimesOk(Bind(w)) && Forward(w, Bind(w))
  {
  }

  lemma NextForward(w: Watch, e: Event, x: Watch)
    requires Safe(w) && Next(w, e, x)
    ensures LifetimesOk(x) && Forward(w, x)
  {
    match e
    case Ship => BindForward(w);
    case CloserTurn(i) => assert CloserOk(w, w.closers[i]); CloserForward(w, i);
    case _ =>
  }

  lemma NextReaders(w: Watch, e: Event, x: Watch, i: nat)
    requires Safe(w) && Next(w, e, x) && Forward(w, x) && i < |x.readers|
    ensures ReaderOk(x, x.readers[i])
  {
    if i < |w.readers| { assert ReaderOk(w, w.readers[i]); }
  }

  lemma NextClosers(w: Watch, e: Event, x: Watch, i: nat)
    requires Safe(w) && Next(w, e, x) && Forward(w, x) && i < |x.closers|
    ensures CloserOk(x, x.closers[i])
  {
    if i < |w.closers| { assert CloserOk(w, w.closers[i]); }
  }

  lemma NextSafe(w: Watch, e: Event, x: Watch)
    requires Safe(w) && Next(w, e, x)
    ensures Safe(x) && Forward(w, x)
  {
    NextForward(w, e, x);
    forall i | 0 <= i < |x.closers| ensures CloserOk(x, x.closers[i]) { NextClosers(w, e, x, i); }
    forall i | 0 <= i < |x.readers| ensures ReaderOk(x, x.readers[i]) { NextReaders(w, e, x, i); }
  }

  lemma {:induction false} SafeAlways(states: seq<Watch>, events: seq<Event>, i: nat)
    requires Run(states, events) && i < |states|
    ensures Safe(states[i])
  {
    if i > 0 {
      SafeAlways(states, events, i - 1);
      NextSafe(states[i - 1], events[i - 1], states[i]);
    }
  }

  /** An observation of a live client with an acknowledged frame means the acknowledgement was accepted
      before closing began. */
  lemma LiveAckIsEarly(states: seq<Watch>, events: seq<Event>, i: nat, r: nat)
    requires Run(states, events) && i < |states| && r < |states[i].readers|
    requires states[i].readers[r] == Read(Observation(Told(Acknowledged), LIVE))
    ensures states[i].cell == Acknowledged && states[i].early
  {
    SafeAlways(states, events, i);
    assert ReaderOk(states[i], states[i].readers[r]);
  }

  // ----- Later observations -----

  /** Reader `r` stood still, took one step, or has just started. */
  ghost predicate ReaderMoved(w: Watch, x: Watch, r: nat) {
    r < |x.readers| ==>
      if r >= |w.readers| then x.readers[r] == Frame0
      else x.readers[r] == w.readers[r] || (w.owner.Some? && x.readers[r] == ReaderStep(w, w.readers[r]))
  }

  lemma NextReader(w: Watch, e: Event, x: Watch, r: nat)
    requires Next(w, e, x)
    ensures ReaderMoved(w, x, r) && |w.readers| <= |x.readers|
  {
  }

  /** One step of a run, as reader `r` sees it. */
  lemma RunStep(states: seq<Watch>, events: seq<Event>, i: nat, r: nat)
    requires Run(states, events) && 0 < i < |states|
    ensures Safe(states[i - 1]) && Safe(states[i]) && Forward(states[i - 1], states[i])
    ensures ReaderMoved(states[i - 1], states[i], r) && |states[i - 1].readers| <= |states[i].readers|
  {
    SafeAlways(states, events, i - 1);
    NextSafe(states[i - 1], events[i - 1], states[i]);
    NextReader(states[i - 1], events[i - 1], states[i], r);
  }

  /** A finished observation of a closed client saw the frozen state. */
  ghost predicate Frozen(w: Watch, o: Observation) {
    w.owner == Some(CLOSED) && o == Conclude(w.cell, CLOSED, w.closing)
  }

  ghost predicate ClosedTruth(w: Watch, r: Reader) {
    match r
    case Frame1(lifetime) => w.owner == Some(CLOSED)
    case Closing0(frame, lifetime) => lifetime == CLOSED ==> w.owner == Some(CLOSED) && frame == w.cell
    case Read(result) => result.lifetime == CLOSED ==> Frozen(w, result)
    case _ => true
  }

  lemma MovedClosedTruth(w: Watch, x: Watch, r: nat)
    requires Safe(w) && Safe(x) && Forward(w, x) && ReaderMoved(w, x, r) && r < |w.readers| <= |x.readers|
    requires ClosedTruth(w, w.readers[r])
    ensures ClosedTruth(x, x.readers[r])
  {
    assert ReaderOk(w, w.readers[r]);
  }

  lemma {:induction false} ClosedTruthAlways(states: seq<Watch>, events: seq<Event>, i: nat, r: nat)
    requires Run(states, events) && i < |states| && r < |states[i].readers|
    ensures ClosedTruth(states[i], states[i].readers[r])
  {
    if i > 0 {
      RunStep(states, events, i, r);
      if r < |states[i - 1].readers| {
        ClosedTruthAlways(states, events, i - 1, r);
        MovedClosedTruth(states[i - 1], states[i], r);
      }
    }
  }

  /** A reader that started when the owner cell already read closed will conclude `o`. */
  ghost predicate OnCourse(w: Watch, r: nat, o: Observation) {
    r < |w.readers| ==>
      match w.readers[r]
      case Frame0 => true
      case Lifetime0(frame) => true
      case Frame1(lifetime) => lifetime == CLOSED
      case Closing0(frame, lifetime) => lifetime == CLOSED && frame == w.cell
      case Read(result) => result == o
  }

  lemma MovedFrozen(w: Watch, x: Watch, r: nat, o: Observation)
    requires Safe(w) && Safe(x) && Forward(w, x) && ReaderMoved(w, x, r) && Frozen(w, o) && OnCourse(w, r, o)
    ensures Frozen(x, o) && OnCourse(x, r, o)
  {
  }

  lemma {:induction false} StaysFrozen(states: seq<Watch>, events: seq<Event>, a: nat, b: nat, r: nat, o: Observation)
    requires Run(states, events) && a <= b < |states| && Frozen(states[a], o) && |states[a].readers| <= r
    ensures Frozen(states[b], o) && OnCourse(states[b], r, o)
  {
    if a < b {
      StaysFrozen(states, events, a, b - 1, r, o);
      RunStep(states, events, b, r);
      MovedFrozen(states[b - 1], states[b], r, o);
    }
  }

  /** Once an observation reports closed, every later observation of the receipt is identical. */
  lemma ClosedIsFinal(states: seq<Watch>, events: seq<Event>, a: nat, b: nat, r: nat, q: nat)
    requires Run(states, events) && a <= b < |states|
    requires r < |states[a].readers| <= q < |states[b].readers|
    requires states[a].readers[r].Read? && states[a].readers[r].result.lifetime == CLOSED
    requires states[b].readers[q].Read?
    ensures states[b].readers[q].result == states[a].readers[r].result
  {
    ClosedTruthAlways(states, events, a, r);
    StaysFrozen(states, events, a, b, q, states[a].readers[r].result);
  }

  /** A reader that started when the frame was already in final state `f` is told so. */
  ghost predicate Sees(w: Watch, r: nat, f: Frame) {
    r < |w.readers| ==>
      match w.readers[r]
      case Frame0 => true
      case Lifetime0(frame) => frame == f
      case Frame1(lifetime) => true
      case Closing0(frame, lifetime) => frame == f
      case Read(result) => result.report == Told(f)
  }

  lemma MovedSees(w: Watch, x: Watch, r: nat, f: Frame)
    requires Forward(w, x) && ReaderMoved(w, x, r) && f != Retained && w.cell == f && Sees(w, r, f)
    ensures x.cell == f && Sees(x, r, f)
  {
  }

  lemma {:induction false} StaysSeen(states: seq<Watch>, events: seq<Event>, a: nat, b: nat, r: nat, f: Frame)
    requires Run(states, events) && a <= b < |states| && f != Retained && states[a].cell == f && |states[a].readers| <= r
    ensures states[b].cell == f && Sees(states[b], r, f)
  {
    if a < b {
      StaysSeen(states, events, a, b - 1, r, f);
      RunStep(states, events, b, r);
      MovedSees(states[b - 1], states[b], r, f);
    }
  }

  /** What an observation reports of the frame is true: an acknowledged or retired report is the state of the
      frame, a frame that was in such a state when the observation started is reported so, and an unconfirmed
      one is reported exactly of a closed client. */
  lemma ReportIsTrue(states: seq<Watch>, events: seq<Event>, a: nat, b: nat, r: nat)
    requires Run(states, events) && a <= b < |states| && |states[a].readers| <= r < |states[b].readers|
    requires states[b].readers[r].Read?
    ensures var o := states[b].readers[r].result;
      && (o.report.Told? && o.report.frame != Retained ==> states[b].cell == o.report.frame)
      && (states[a].cell != Retained ==> o.report == Told(states[a].cell))
      && (o.report == ClosedUnconfirmed ==> o.lifetime == CLOSED && states[b].cell == Retained)
      && (o.report == Told(Retained) ==> o.lifetime != CLOSED)
  {
    SafeAlways(states, events, b);
    assert ReaderOk(states[b], states[b].readers[r]);
    if states[a].cell != Retained { StaysSeen(states, events, a, b, r, states[a].cell); }
    ClosedTruthAlways(states, events, b, r);
  }

  /** The client has reached lifetime `l`, as every later reader will find. */
  ghost predicate Reached(w: Watch, l: Lifetime) {
    w.owner.Some? && (w.owner.value >= l || (l == CLOSING && w.closing))
  }

  /** A reader's lifetime was reached when it was read. */
  ghost predicate Witnessed(w: Watch, r: Reader) {
    match r
    case Frame1(lifetime) => Reached(w, lifetime)
    case Closing0(frame, lifetime) => Reached(w, lifetime)
    case Read(result) => Reached(w, result.lifetime)
    case _ => true
  }

  lemma MovedWitnessed(w: Watch, x: Watch, r: nat)
    requires Forward(w, x) && ReaderMoved(w, x, r) && r < |w.readers| <= |x.readers| && Witnessed(w, w.readers[r])
    ensures Witnessed(x, x.readers[r])
  {
  }

  lemma {:induction false} WitnessedAlways(states: seq<Watch>, events: seq<Event>, i: nat, r: nat)
    requires Run(states, events) && i < |states| && r < |states[i].readers|
    ensures Witnessed(states[i], states[i].readers[r])
  {
    if i > 0 {
      RunStep(states, events, i, r);
      if r < |states[i - 1].readers| {
        WitnessedAlways(states, events, i - 1, r);
        MovedWitnessed(states[i - 1], states[i], r);
      }
    }
  }

  ghost predicate AtLeast(w: Watch, r: nat, l: Lifetime) {
    r < |w.readers| ==>
      match w.readers[r]
      case Frame1(lifetime) => lifetime == CLOSED
      case Closing0(frame, lifetime) => lifetime >= l || (l == CLOSING && w.closing)
      case Read(result) => result.lifetime >= l
      case _ => true
  }

  lemma MovedReached(w: Watch, x: Watch, r: nat, l: Lifetime)
    requires Forward(w, x) && ReaderMoved(w, x, r) && Reached(w, l) && AtLeast(w, r, l)
    ensures Reached(x, l) && AtLeast(x, r, l)
  {
  }

  lemma {:induction false} StaysReached(states: seq<Watch>, events: seq<Event>, a: nat, b: nat, r: nat, l: Lifetime)
    requires Run(states, events) && a <= b < |states| && Reached(states[a], l) && |states[a].readers| <= r
    ensures Reached(states[b], l) && AtLeast(states[b], r, l)
  {
    if a < b {
      StaysReached(states, events, a, b - 1, r, l);
      RunStep(states, events, b, r);
      MovedReached(states[b - 1], states[b], r, l);
    }
  }

  /** The lifetime an observation reports lies between what the client had reached when it started and what it
      has reached when it ends. */
  lemma LifetimeIsTrue(states: seq<Watch>, events: seq<Event>, a: nat, b: nat, r: nat, l: Lifetime)
    requires Run(states, events) && a <= b < |states| && |states[a].readers| <= r < |states[b].readers|
    requires states[b].readers[r].Read? && Reached(states[a], l)
    ensures l <= states[b].readers[r].result.lifetime && Reached(states[b], states[b].readers[r].result.lifetime)
  {
    StaysReached(states, events, a, b, r, l);
    WitnessedAlways(states, events, b, r);
  }

  /** Lifetimes only move forward: no later observation reports an earlier lifetime. */
  lemma LifetimesMoveForward(states: seq<Watch>, events: seq<Event>, a: nat, b: nat, r: nat, q: nat)
    requires Run(states, events) && a <= b < |states|
    requires r < |states[a].readers| <= q < |states[b].readers|
    requires states[a].readers[r].Read? && states[b].readers[q].Read?
    ensures states[a].readers[r].result.lifetime <= states[b].readers[q].result.lifetime
  {
    WitnessedAlways(states, events, a, r);
    StaysReached(states, events, a, b, q, states[a].readers[r].result.lifetime);
  }
}
