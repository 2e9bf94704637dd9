/** One attempt to add, in plain terms: exactly when it is refused before the shared budget is asked, and
    exactly when its message asks for an acknowledgement. */
module Attempts {
  import opened Words
  import opened Tables
  import opened BudgetSpec
  import opened WindowSpec
  import WL = WindowLaws
  import opened WindowTheorems
  import opened FrameRuns
  import opened Clients

  /** Refused before the pool is asked: exactly if the count window is full, or the message would exceed the
      client's byte cap while the last request is one of a held message. */
  lemma RefusedIff(w: Window, size: nat)
    ensures RefusedLocally(w, size) <==>
      || |w.slots| >= w.capacity
      || (w.accounting && w.maxBytes != 0 && w.bytes + size > w.maxBytes && 0 < w.lastFlagged && w.first <= w.lastFlagged)
  {
  }

  /** A refusal with room in the count window means that a held, live message asks for an acknowledgement;
      and an empty window refuses nothing. */
  lemma RefusedMeans(w: Window, size: nat)
    requires WL.Inv(w) && Plain(w) && FlagHeld(w) && RefusedLocally(w, size) && |w.slots| < w.capacity
    ensures w.bytes + size > w.maxBytes > 0 && exists i :: Asking(w, i)
  {
    assert Asking(w, w.lastFlagged - w.first);
  }

  /** How many unrequested bytes make a message ask: a sixteenth of a limit that is at least half used, of the
      smaller one if both are, and none otherwise. */
  function Pressure(w: Window, size: nat, used: nat, total: nat): nat {
    var own := if 0 < w.maxBytes <= 2 * (w.bytes + size) then w.maxBytes / 16 else 0;
    var shared := if 0 < total <= 2 * used then Some(total / 16) else None;
    if shared.None? then own else if own == 0 then shared.value else Min(own, shared.value)
  }

  /** What an admitted attempt stores, and exactly when it asks: its caller wants it, its number is a multiple
      of half the count window, its client's cap is exceeded, the pool was overshot, or bytes press. */
  lemma AttemptAsksIff(w: Window, r: Request, overshot: bool, q: Pool)
    requires w.ackEvery == Interval(w.capacity)
    ensures var x := Admitted(w, r, overshot, q);
      && |x.slots| == |w.slots| + 1 && x.slots[..|w.slots|] == w.slots
      && var s, step := x.slots[|w.slots|], Pressure(w, r.size, q.used, q.total);
      && s.msg.body == r.msg.body && s.msg.seqNum == w.next && s.size == r.size && !s.retired
      && (s.msg.ack <==> || r.msg.ack || w.next % Interval(w.capacity) == 0
                         || (w.maxBytes != 0 && w.bytes + r.size > w.maxBytes) || overshot
                         || (step != 0 && w.sinceFlag + r.size >= step))
      && x.sinceFlag == (if s.msg.ack then 0 else w.sinceFlag + r.size)
      && x.lastFlagged == (if s.msg.ack then w.next else w.lastFlagged)
  {
    var step := Step(w, r.size, Some((q.used, q.total)));
    AdmittedAsksIff(w, r, Over(w, r.size) || overshot, step, overshot && q.fair);
  }
}
