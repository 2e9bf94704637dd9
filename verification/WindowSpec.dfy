/** What a client's send window means: the queue of unacknowledged messages, without the array,
    the retired map and the linked receipt list that represent it. `AckBuffer` refines this module. */
module WindowSpec {
  import opened Words
  import opened Tables

  const PRESSURE_STEPS: nat := 16
  const RING_SIZE: nat := 64
  /** Slots a Go slice can have. */
  const MAX_SLOTS: nat := 0x7FFF_FFFF_FFFF_FFFF

  datatype Message = Message(body: Option<string>, seqNum: u64, ack: bool)

  /** A held message with its byte charge. A retired slot keeps only its sequence number. */
  datatype Slot = Slot(msg: Message, size: nat, retired: bool)

  /** A tracked admission: its receipt cell and its transmission limit (0 for none). */
  datatype Entry = Entry(sn: u64, cell: nat, max: nat, sends: nat)

  datatype Frame = Retained | Acknowledged | Retired

  /** `wakes` counts how often blocked producers were woken: a channel taken at count k is closed
      once the count exceeds k. `ring` holds the latest locally released sequence numbers. */
  datatype Window = Window(
    first: u64, next: u64, slots: seq<Slot>, deliver: nat,
    capacity: nat, ackEvery: nat, running: bool, closed: bool,
    accounting: bool, maxBytes: nat, bytes: nat, escapeSeq: u64, escapeBytes: nat,
    lastFlagged: u64, sinceFlag: nat,
    tracked: seq<Entry>, cells: seq<Frame>, ring: seq<u64>, wakes: nat)

  /** Bytes handed back to the shared pool, `escape` of them an escape. */
  datatype Refund = Refund(bytes: nat, escape: nat)

  function Fresh(accounting: bool, maxBytes: nat): Window {
    Window(1, 1, [], 0, 1, 1, true, false, accounting, maxBytes, 0, 0, 0, 0, 0, [], [], [], 0)
  }

  ghost function SizeOf(): Slot -> nat { (s: Slot) => s.size }

  /** How far a sequence number is ahead of the first held one, modulo 2^64. */
  function Pos(w: Window, sn: u64): u64 {
    Minus(sn, w.first)
  }

  // ----- Admission -----

  predicate Available(w: Window) {
    |w.slots| < w.capacity
  }

  /** The source's test for "an acknowledgement is already requested by a held message". */
  predicate HeldFlagged(w: Window) {
    w.lastFlagged != 0 && w.lastFlagged >= w.first
  }

  predicate Over(w: Window, size: nat) {
    w.maxBytes != 0 && w.bytes + size > w.maxBytes
  }

  /** After how many unrequested bytes a limit that is half used asks for an acknowledgement; 0 for
      no pressure. `pool` is the shared budget's use and total. */
  function Step(w: Window, size: nat, pool: Option<(nat, nat)>): nat {
    var own := if w.maxBytes != 0 && 2 * (w.bytes + size) >= w.maxBytes then w.maxBytes / PRESSURE_STEPS else 0;
    if pool.Some? && pool.value.1 != 0 && 2 * pool.value.0 >= pool.value.1
       && (own == 0 || pool.value.1 / PRESSURE_STEPS < own)
    then pool.value.1 / PRESSURE_STEPS
    else own
  }

  /** `track` is the transmission limit of an admission with a receipt. */
  datatype Request = Request(msg: Message, size: nat, track: Option<nat>)

  predicate Flagged(w: Window, r: Request, forced: bool, step: nat)
    requires w.ackEvery > 0
  {
    r.msg.ack || w.next % w.ackEvery == 0 || forced || (step != 0 && w.sinceFlag + r.size >= step)
  }

  function Admit(w: Window, r: Request, forced: bool, step: nat, escaped: bool): Window
    requires w.ackEvery > 0
  {
    var flagged := Flagged(w, r, forced, step);
    w.(next := Plus(w.next, 1),
    slots := w.slots + [Slot(Message(r.msg.body, w.next, flagged), r.size, false)],
    bytes := w.bytes + r.size,
    escapeSeq := if escaped then w.next else w.escapeSeq,
    escapeBytes := if escaped then r.size else w.escapeBytes,
    lastFlagged := if flagged then w.next else w.lastFlagged,
    sinceFlag := if flagged then 0 else w.sinceFlag + r.size,
    tracked := if r.track.Some? then w.tracked + [Entry(w.next, |w.cells|, r.track.value, 0)] else w.tracked,
    cells := if r.track.Some? then w.cells + [Retained] else w.cells)
  }

  // ----- Removal from the front -----

  /** How many leading entries lie in the first `k` slots. */
  function Covered(tracked: seq<Entry>, first: u64, k: nat): (n: nat)
    ensures n <= |tracked|
  {
    if |tracked| == 0 || Minus(tracked[0].sn, first) >= k then 0 else 1 + Covered(tracked[1..], first, k)
  }

  /** Receipt cells of acknowledged entries: a retired frame stays retired. */
  function Confirm(cells: seq<Frame>, es: seq<Entry>): (r: seq<Frame>)
    ensures |r| == |cells|
  {
    if |es| == 0 then cells
    else
      var c := Confirm(cells, es[..|es| - 1]);
      var e := es[|es| - 1].cell;
      if e < |c| && c[e] == Retained then c[e := Acknowledged] else c
  }

  /** Bytes of the first `k` slots, as far as they were not returned by Close already. */
  ghost function RemoveRefund(w: Window, k: nat): Refund
    requires k <= |w.slots|
  {
    Refund(Min(Sum(w.slots[..k], SizeOf()), w.bytes),
           if w.escapeBytes != 0 && Pos(w, w.escapeSeq) < k then w.escapeBytes else 0)
  }

  /** Removes the first `k` slots, as acknowledged or as released locally. */
  ghost function Remove(w: Window, k: nat, acked: bool): Window
    requires k <= |w.slots| <= MAX_SLOTS
  {
    var n := Covered(w.tracked, w.first, k);
    w.(first := Plus(w.first, k),
    slots := w.slots[k..],
    deliver := if w.deliver > k then w.deliver - k else 0,
    bytes := w.bytes - RemoveRefund(w, k).bytes,
    escapeBytes := if RemoveRefund(w, k).escape != 0 then 0 else w.escapeBytes,
    tracked := w.tracked[n..],
    cells := if acked then Confirm(w.cells, w.tracked[..n]) else w.cells,
    wakes := w.wakes + 1)
  }

  /** The number of retired slots at the front. */
  function RetiredRun(slots: seq<Slot>): (n: nat)
    ensures n <= |slots|
  {
    if |slots| == 0 || !slots[0].retired then 0 else 1 + RetiredRun(slots[1..])
  }

  /** Remembers one more released sequence number, forgetting the oldest of 64. */
  function Remember(ring: seq<u64>, sn: u64): seq<u64> {
    (if |ring| < RING_SIZE then ring else ring[1..]) + [sn]
  }

  function RememberRun(ring: seq<u64>, first: u64, n: nat): seq<u64>
    requires n <= MAX_SLOTS
  {
    if n == 0 then ring else Remember(RememberRun(ring, first, n - 1), Plus(first, n - 1))
  }

  /** Retired slots at the front leave without an acknowledgement. */
  ghost function ReleaseHead(w: Window): Window
    requires |w.slots| <= MAX_SLOTS
  {
    var n := RetiredRun(w.slots);
    if n == 0 then w else Remove(w.(ring := RememberRun(w.ring, w.first, n)), n, false)
  }

  ghost function ReleaseRefunds(w: Window): seq<Refund> {
    if RetiredRun(w.slots) == 0 then [] else [RemoveRefund(w, RetiredRun(w.slots))]
  }

  // ----- Acknowledgement -----

  datatype AckError = Unexpected | NotInBuffer | NotDelivered

  datatype AckOutcome = Applied | Ignored | Rejected(error: AckError)

  /** The checks of an acknowledgement, in the source's order. `backing` is the array length. */
  function AckVerdict(w: Window, sn: u64, backing: u64): AckOutcome {
    var i := Pos(w, sn);
    if i >= |w.slots| && sn in w.ring then Ignored
    else if sn < w.first && Minus(backing, Minus(MAX64, w.first)) <= sn then Rejected(Unexpected)
    else if sn >= w.next && sn != MAX64 && w.next != 0 then Rejected(Unexpected)
    else if i >= backing || i >= |w.slots| then Rejected(NotInBuffer)
    else if i >= w.deliver && !(w.deliver == 0 && i == 0) then Rejected(NotDelivered)
    else Applied
  }

  /** How many slots an acknowledgement removes. */
  function AckCount(w: Window, sn: u64, backing: u64): (k: nat)
    ensures k <= |w.slots|
  {
    if AckVerdict(w, sn, backing) == Applied then Pos(w, sn) + 1 else 0
  }

  /** The first `k` slots are acknowledged, and retired slots they uncover are released. */
  ghost function AckBy(w: Window, k: nat): Window
    requires k <= |w.slots| <= MAX_SLOTS
  {
    if k == 0 then w else ReleaseHead(Remove(w, k, true))
  }

  ghost function Ack(w: Window, sn: u64, backing: u64): Window
    requires |w.slots| <= MAX_SLOTS
  {
    AckBy(w, AckCount(w, sn, backing))
  }

  ghost function AckRefunds(w: Window, k: nat): seq<Refund>
    requires k <= |w.slots| <= MAX_SLOTS
  {
    if k == 0 then [] else [RemoveRefund(w, k)] + ReleaseRefunds(Remove(w, k, true))
  }

  // ----- Transmission limits -----

  predicate Exhausted(e: Entry) {
    e.max != 0 && e.sends >= e.max
  }

  function RetireRefund(w: Window, i: nat): Refund
    requires i < |w.slots|
  {
    Refund(Min(w.slots[i].size, w.bytes),
           if w.escapeBytes != 0 && w.escapeSeq == w.slots[i].msg.seqNum then w.escapeBytes else 0)
  }

  /** Slot `i` becomes a placeholder: its receipt reads retired and its bytes go back. */
  function Retire(w: Window, i: nat, cell: nat): Window
    requires i < |w.slots|
  {
    var sn := w.slots[i].msg.seqNum;
    w.(slots := w.slots[i := Slot(Message(None, sn, false), 0, true)],
    cells := if cell < |w.cells| then w.cells[cell := Retired] else w.cells,
    bytes := w.bytes - RetireRefund(w, i).bytes,
    escapeBytes := if RetireRefund(w, i).escape != 0 then 0 else w.escapeBytes,
    lastFlagged := if w.lastFlagged == sn then 0 else w.lastFlagged,
    wakes := w.wakes + 1)
  }

  predicate ToRetire(w: Window, e: Entry) {
    Exhausted(e) && Pos(w, e.sn) < |w.slots| && !w.slots[Pos(w, e.sn)].retired
  }

  function RetireIfSpent(w: Window, e: Entry): (x: Window)
    ensures x.tracked == w.tracked && x.first == w.first && |x.slots| == |w.slots| && x.closed == w.closed
    ensures x.ring == w.ring
  {
    if ToRetire(w, e) then Retire(w, Pos(w, e.sn), e.cell) else w
  }

  /** A delivery reset's pass over the first `j` tracked entries. */
  function RetireSpent(w: Window, j: nat): (x: Window)
    requires j <= |w.tracked|
    ensures x.tracked == w.tracked && x.first == w.first && |x.slots| == |w.slots| && x.closed == w.closed
    ensures x.ring == w.ring
    decreases j
  {
    if j == 0 then w else RetireIfSpent(RetireSpent(w, j - 1), w.tracked[j - 1])
  }

  function SpentRefunds(w: Window, j: nat): seq<Refund>
    requires j <= |w.tracked|
    decreases j
  {
    if j == 0 then []
    else
      var x, e := RetireSpent(w, j - 1), w.tracked[j - 1];
      SpentRefunds(w, j - 1) + if ToRetire(x, e) then [RetireRefund(x, Pos(x, e.sn))] else []
  }

  /** Delivery starts over, without the frames that had their last transmission. */
  ghost function Reset(w: Window): Window
    requires |w.slots| <= MAX_SLOTS
  {
    ReleaseHead(RetireSpent(w.(deliver := 0), |w.tracked|))
  }

  ghost function ResetRefunds(w: Window): seq<Refund> {
    SpentRefunds(w.(deliver := 0), |w.tracked|) + ReleaseRefunds(RetireSpent(w.(deliver := 0), |w.tracked|))
  }

  // ----- Delivery -----

  /** The tracked entry of slot `i`, if any. */
  function EntryAt(tracked: seq<Entry>, first: u64, i: nat): (j: Option<nat>)
    ensures j.Some? ==> j.value < |tracked| && Minus(tracked[j.value].sn, first) == i
    ensures j.None? ==> forall k | 0 <= k < |tracked| :: Minus(tracked[k].sn, first) != i
  {
    if |tracked| == 0 then None
    else
      var last := |tracked| - 1;
      if Minus(tracked[last].sn, first) == i then Some(last) else EntryAt(tracked[..last], first, i)
  }

  predicate OnlyRetiredAfter(slots: seq<Slot>, i: nat) {
    forall k | i < k < |slots| :: slots[k].retired
  }

  datatype Handoff = Handoff(w: Window, msg: Option<Message>, refunds: seq<Refund>)

  /** The message handed out for slot `i`: once sealed, the last live one asks for an acknowledgement. */
  function Outgoing(w: Window, i: nat): Message
    requires i < |w.slots|
  {
    var m := w.slots[i].msg;
    if !w.running && OnlyRetiredAfter(w.slots, i) then m.(ack := true) else m
  }

  function CountSend(w: Window, j: Option<nat>): Window
    requires j.Some? ==> j.value < |w.tracked|
  {
    if j.None? || w.tracked[j.value].max == 0 then w
    else w.(tracked := w.tracked[j.value := w.tracked[j.value].(sends := w.tracked[j.value].sends + 1)])
  }

  /** The next live message to send; a frame at its limit is retired instead. */
  ghost function Next(w: Window): Handoff
    requires |w.slots| <= MAX_SLOTS
    decreases |w.slots| - w.deliver
  {
    if w.deliver >= |w.slots| then Handoff(w, None, [])
    else if w.slots[w.deliver].retired then Next(w.(deliver := w.deliver + 1))
    else
      var j := EntryAt(w.tracked, w.first, w.deliver);
      if j.Some? && Exhausted(w.tracked[j.value]) then
        var x := Retire(w, w.deliver, w.tracked[j.value].cell).(deliver := w.deliver + 1);
        var n := Next(ReleaseHead(x));
        n.(refunds := [RetireRefund(w, w.deliver)] + ReleaseRefunds(x) + n.refunds)
      else
        Handoff(CountSend(w, j).(deliver := w.deliver + 1), Some(Outgoing(w, w.deliver)), [])
  }

  // ----- Flow control and shutdown -----

  function Resize(w: Window, capacity: nat): Window {
    if capacity == w.capacity then w
    else w.(capacity := capacity, ackEvery := Max(capacity / 2, 1), wakes := w.wakes + 1)
  }

  /** Admission stops; what is held stays. */
  function Seal(w: Window): Window {
    w.(running := false, wakes := w.wakes + 1)
  }

  function CloseRefund(w: Window): Refund {
    Refund(w.bytes, if w.bytes != 0 then w.escapeBytes else 0)
  }

  /** Admission stops and the bytes go back; what is held stays available. */
  function Close(w: Window): Window {
    w.(running := false, closed := true, bytes := 0, wakes := w.wakes + 1,
    escapeBytes := if w.bytes != 0 then 0 else w.escapeBytes)
  }

  /** The receipt list is dropped; cells keep their last state. */
  function Forget(w: Window): Window {
    w.(tracked := [])
  }

  // ----- What is left unacknowledged -----

  function Live(slots: seq<Slot>): seq<Message> {
    if |slots| == 0 then []
    else Live(slots[..|slots| - 1]) + if slots[|slots| - 1].retired then [] else [slots[|slots| - 1].msg]
  }
}
