/** What a consumer does with one received message (internal/adapters/sqs/consumer/consumer.go:25-43, 171-364). */
module Consumers {
  import opened Results
  import opened Wager
  import opened AppErrors
  import opened Interleaving
  import Backoff

  const VISIBILITY_TIMEOUT: nat := 60 * Backoff.SECOND
  const VISIBILITY_RENEWAL: nat := 20 * Backoff.SECOND
  const SHUTDOWN_GRACE: nat := 30 * Backoff.SECOND
  const MAX_RECEIVE_COUNT := 5
  const TRANSIENT_BACKOFF_BASE := 5

  /** Seconds a message stays hidden after a transient failure; None leaves it to the queue's redrive. */
  function TransientVisibility(receiveCount: int): Option<nat> {
    var count := if receiveCount < 1 then 1 else receiveCount;
    if count >= MAX_RECEIVE_COUNT then None else Some(TRANSIENT_BACKOFF_BASE * Backoff.Power2(count - 1))
  }

  /** Each receive before the fifth waits twice as long as the one before, starting from five seconds. */
  lemma VisibilityDoubles(receiveCount: int)
    ensures TransientVisibility(receiveCount).None? <==> receiveCount >= 5
    ensures receiveCount <= 1 ==> TransientVisibility(receiveCount) == Some(5)
    ensures 1 <= receiveCount < 4 ==>
              TransientVisibility(receiveCount + 1).value == 2 * TransientVisibility(receiveCount).value <= 40
  {
    if 1 <= receiveCount < 4 {
      assert Backoff.Power2(0) == 1 && Backoff.Power2(1) == 2 && Backoff.Power2(2) == 4 && Backoff.Power2(3) == 8;
    }
  }

  // ----- One message, from start to end -----

  /** What the use case reports in time, or that it did not. */
  datatype Heard = TimedOut | Reported(answer: Answer)

  /** When the handling of a message starts, when the use case would answer and what, and when the consumer is told to
      stop. */
  datatype Work = Work(startedAt: Time, finishedAt: Time, answer: Answer, cancelledAt: Option<Time>) {
    predicate Valid() {
      startedAt <= finishedAt && (cancelledAt.Some? ==> startedAt <= cancelledAt.value)
    }

    /** After a cancellation the answer is awaited for the grace period only. */
    predicate RunsOut() {
      cancelledAt.Some? && finishedAt > cancelledAt.value + SHUTDOWN_GRACE
    }

    function EndsAt(): Time {
      if RunsOut() then cancelledAt.value + SHUTDOWN_GRACE else finishedAt
    }

    function Heard(): Heard {
      if RunsOut() then TimedOut else Reported(answer)
    }

    predicate Cancelled() {
      cancelledAt.Some? && cancelledAt.value <= EndsAt()
    }

    /** Renewals stop at the end or at the cancellation. */
    function RenewsUntil(): Time {
      if Cancelled() then cancelledAt.value else EndsAt()
    }

    function TickAt(n: nat): Time {
      startedAt + n * VISIBILITY_RENEWAL
    }
  }

  /** Answers the use case returns as errors of the transient class. */
  predicate IsTransient(a: Answer) {
    a.GaveUp? || a == Failure(Transient)
  }

  predicate Confirms(h: Heard) {
    h.Reported? && (h.answer.Success? || h.answer.DuplicateDelivery?)
  }

  // ----- Renewals -----

  /** How many renewals go through, from the n-th on; the first that fails is the last. */
  function Renewed(w: Work, failing: set<nat>, n: nat): nat
    decreases w.RenewsUntil() - w.TickAt(n)
  {
    if w.TickAt(n + 1) < w.RenewsUntil() && n + 1 !in failing then Renewed(w, failing, n + 1) else n
  }

  /** The instant the message would become visible again, after n renewals. */
  function HiddenUntil(w: Work, receivedAt: Time, n: nat): Time {
    if n == 0 then receivedAt + VISIBILITY_TIMEOUT else w.TickAt(n) + VISIBILITY_TIMEOUT
  }

  /** The renewals that have gone through by an instant. */
  function RenewedBy(w: Work, n: nat, x: Time): nat
    decreases n
  {
    if n > 0 && w.TickAt(n) > x then RenewedBy(w, n - 1, x) else n
  }

  lemma {:induction false} RenewedByBounds(w: Work, n: nat, x: Time)
    requires w.startedAt <= x
    ensures var m := RenewedBy(w, n, x); m <= n && w.TickAt(m) <= x && (m < n ==> x < w.TickAt(m + 1))
    decreases n
  {
    if n > 0 && w.TickAt(n) > x {
      RenewedByBounds(w, n - 1, x);
    }
  }

  /** At every instant of the handling the message is hidden from other receives. */
  ghost predicate StaysHidden(w: Work, receivedAt: Time, n: nat) {
    forall x: Time | w.startedAt <= x < w.EndsAt() :: x < HiddenUntil(w, receivedAt, RenewedBy(w, n, x))
  }

  lemma {:induction false} RenewedFacts(w: Work, failing: set<nat>, n: nat)
    ensures var m := Renewed(w, failing, n);
            && n <= m && (m > n ==> w.TickAt(m) < w.RenewsUntil())
            && !(w.TickAt(m + 1) < w.RenewsUntil() && m + 1 !in failing)
    decreases w.RenewsUntil() - w.TickAt(n)
  {
    if w.TickAt(n + 1) < w.RenewsUntil() && n + 1 !in failing {
      RenewedFacts(w, failing, n + 1);
    }
  }

  /** A message is renewed every twenty seconds until the handling ends, the consumer is told to stop or a renewal
      fails: n renewals go through exactly when this holds. */
  predicate RenewsTimes(w: Work, failing: set<nat>, n: nat) {
    var until := if w.cancelledAt.Some? && w.cancelledAt.value < w.finishedAt then w.cancelledAt.value
                 else w.finishedAt;
    && (forall k | 1 <= k <= n :: w.startedAt + k * 20 * Backoff.SECOND < until && k !in failing)
    && (n + 1 in failing || w.startedAt + (n + 1) * 20 * Backoff.SECOND >= until)
  }

  lemma {:induction false} RenewedSoFar(w: Work, failing: set<nat>, n: nat)
    ensures forall k | n < k <= Renewed(w, failing, n) :: w.TickAt(k) < w.RenewsUntil() && k !in failing
    decreases w.RenewsUntil() - w.TickAt(n)
  {
    if w.TickAt(n + 1) < w.RenewsUntil() && n + 1 !in failing {
      RenewedSoFar(w, failing, n + 1);
    }
  }

  lemma RenewedExactly(w: Work, failing: set<nat>, n: nat)
    ensures n == Renewed(w, failing, 0) <==> RenewsTimes(w, failing, n)
  {
    RenewedFacts(w, failing, 0);
    RenewedSoFar(w, failing, 0);
    hide Renewed;
    var m := Renewed(w, failing, 0);
    assert RenewsTimes(w, failing, m);
  }

  // ----- What the handling of a message comes to, by its instants and its answer -----

  /** The answer came before the consumer was told to stop, or within thirty seconds of it. */
  predicate AnsweredInTime(w: Work) {
    w.cancelledAt.None? || w.finishedAt <= w.cancelledAt.value + 30 * Backoff.SECOND
  }

  /** A durable commit was confirmed in time: this delivery's, or an earlier one of the same message. */
  predicate Done(acceptable: bool, w: Work) {
    acceptable && AnsweredInTime(w) && (w.answer.Success? || w.answer.DuplicateDelivery?)
  }

  /** When a message that is kept is offered again, given the instant its visibility stood at after the renewals: a
      refused message at once, one whose answer did not come in time when the grace period ends, one answered during
      shutdown at its answer, a transient failure after its backoff and any other failure at its answer. */
  function OfferedAt(acceptable: bool, receiveCount: int, w: Work, renewed: Time): Time {
    if !acceptable then w.startedAt
    else if !AnsweredInTime(w) then w.cancelledAt.value + 30 * Backoff.SECOND
    else if Done(acceptable, w) then renewed
    else if w.cancelledAt.Some? && w.cancelledAt.value <= w.finishedAt then w.finishedAt
    else if w.answer == Failure(Transient) || w.answer == GaveUp then
      if receiveCount <= 1 then w.finishedAt + 5 * Backoff.SECOND
      else if receiveCount == 2 then w.finishedAt + 10 * Backoff.SECOND
      else if receiveCount == 3 then w.finishedAt + 20 * Backoff.SECOND
      else if receiveCount == 4 then w.finishedAt + 40 * Backoff.SECOND
      else renewed
    else w.finishedAt
  }

  lemma ReceiveDelays(receiveCount: int)
    ensures TransientVisibility(receiveCount) ==
            if receiveCount <= 1 then Some(5) else if receiveCount == 2 then Some(10)
            else if receiveCount == 3 then Some(20) else if receiveCount == 4 then Some(40) else None
  {
    assert Backoff.Power2(0) == 1 && Backoff.Power2(1) == 2 && Backoff.Power2(2) == 4 && Backoff.Power2(3) == 8;
  }

  /** Exactly when a message stays hidden while it is handled: the first renewal, if any, comes before the visibility of
      the receive runs out, and the end comes before that of the last renewal does. */
  lemma StaysHiddenExactlyWhen(w: Work, receivedAt: Time, failing: set<nat>)
    requires w.Valid()
    ensures var n := Renewed(w, failing, 0);
            StaysHidden(w, receivedAt, n) <==>
            w.startedAt == w.EndsAt()
            || (w.EndsAt() <= HiddenUntil(w, receivedAt, n)
                && (n > 0 ==> w.TickAt(1) <= receivedAt + VISIBILITY_TIMEOUT))
  {
    var n := Renewed(w, failing, 0);
    RenewedFacts(w, failing, 0);
    hide Renewed, StaysHidden;
    if w.startedAt < w.EndsAt() {
      var last := w.EndsAt() - 1;
      RenewedByBounds(w, n, last);
      assert RenewedBy(w, n, last) == n;
      if n > 0 {
        RenewedByBounds(w, n, w.TickAt(1) - 1);
        assert RenewedBy(w, n, w.TickAt(1) - 1) == 0;
      }
      if StaysHidden(w, receivedAt, n) {
        HiddenAt(w, receivedAt, n, last);
        if n > 0 {
          HiddenAt(w, receivedAt, n, w.TickAt(1) - 1);
        }
      } else {
        var x: Time := SeenAt(w, receivedAt, n);
        RenewedByBounds(w, n, x);
      }
    } else {
      NeverHandled(w, receivedAt, n);
    }
  }

  lemma HiddenAt(w: Work, receivedAt: Time, n: nat, x: Time)
    requires StaysHidden(w, receivedAt, n) && w.startedAt <= x < w.EndsAt()
    ensures x < HiddenUntil(w, receivedAt, RenewedBy(w, n, x))
  {
  }

  lemma SeenAt(w: Work, receivedAt: Time, n: nat) returns (x: Time)
    requires !StaysHidden(w, receivedAt, n)
    ensures w.startedAt <= x < w.EndsAt() && x >= HiddenUntil(w, receivedAt, RenewedBy(w, n, x))
  {
    x :| w.startedAt <= x < w.EndsAt() && x >= HiddenUntil(w, receivedAt, RenewedBy(w, n, x));
  }

  lemma NeverHandled(w: Work, receivedAt: Time, n: nat)
    requires w.startedAt >= w.EndsAt()
    ensures StaysHidden(w, receivedAt, n)
  {
  }

  /** So when no renewal fails, a message whose handling starts within 10 seconds of its receive stays hidden to the
      end, shutdown grace included, and one that starts within 40 seconds does unless the consumer is told to stop.
      Messages of a batch are handled one after the other and renewed only once their turn has come, so later ones may
      start later than that. */
  lemma TimelyWorkStaysHidden(w: Work, receivedAt: Time)
    requires w.Valid() && receivedAt <= w.startedAt
    requires w.startedAt <= receivedAt + VISIBILITY_TIMEOUT - VISIBILITY_RENEWAL
             - (if w.Cancelled() then SHUTDOWN_GRACE else 0)
    ensures StaysHidden(w, receivedAt, Renewed(w, {}, 0))
  {
    hide StaysHidden, Renewed;
    StaysHiddenExactlyWhen(w, receivedAt, {});
    RenewedFacts(w, {}, 0);
  }

  /** The receipt handles a queue still keeps and the instants at which their messages become visible again. */
  class MessageQueue {
    var visibleAt: map<string, Time>

    constructor ()
      ensures visibleAt == map[]
    {
      visibleAt := map[];
    }

    method Delete(handle: string, fails: bool) returns (ok: bool)
      modifies this
      ensures ok == !fails
      ensures visibleAt == if ok then old(visibleAt) - {handle} else old(visibleAt)
    {
      if !fails {
        visibleAt := visibleAt - {handle};
      }
      ok := !fails;
    }

    method ChangeVisibility(handle: string, now: Time, seconds: nat, fails: bool)
      modifies this
      ensures visibleAt == if fails || handle !in old(visibleAt) then old(visibleAt)
                           else old(visibleAt)[handle := now + seconds * Backoff.SECOND]
    {
      if !fails && handle in visibleAt {
        visibleAt := visibleAt[handle := now + seconds * Backoff.SECOND];
      }
    }
  }

  class Consumer {
    const queue: MessageQueue

    constructor (q: MessageQueue)
      ensures queue == q
    {
      queue := q;
    }

    /** Hides the message anew at every tick until the handling ends, the consumer is told to stop or a call fails. */
    method RenewVisibility(handle: string, w: Work, failing: set<nat>) returns (n: nat)
      modifies queue
      ensures n == Renewed(w, failing, 0)
      ensures queue.visibleAt ==
              if n > 0 && handle in old(queue.visibleAt)
                 then old(queue.visibleAt)[handle := w.TickAt(n) + VISIBILITY_TIMEOUT]
              else old(queue.visibleAt)
    {
      n := 0;
      while w.TickAt(n + 1) < w.RenewsUntil() && n + 1 !in failing
        invariant Renewed(w, failing, n) == Renewed(w, failing, 0)
        invariant queue.visibleAt ==
                  if n > 0 && handle in old(queue.visibleAt)
                     then old(queue.visibleAt)[handle := w.TickAt(n) + VISIBILITY_TIMEOUT]
                  else old(queue.visibleAt)
        decreases w.RenewsUntil() - w.TickAt(n)
      {
        n := n + 1;
        queue.ChangeVisibility(handle, w.TickAt(n), VISIBILITY_TIMEOUT / Backoff.SECOND, false);
      }
    }

    /** Deletes a message exactly when a durable commit was confirmed in time, by this delivery or an earlier one, and
        the queue took the deletion. Otherwise the message stays and is offered again as OfferedAt says. The last call
        to the queue may fail, and then the visibility is as the renewals left it. Renewals are stopped only after that
        call, so one under way may still land, and then hides the message for a whole timeout, whatever the last call
        asked for. */
    method Process(handle: string, acceptable: bool, receiveCount: int, w: Work, failing: set<nat>, fails: bool,
                   late: Option<Time>)
      requires w.Valid()
      modifies queue
      ensures handle in queue.visibleAt <==> handle in old(queue.visibleAt) && (fails || !Done(acceptable, w))
      ensures handle in queue.visibleAt ==>
                var n := if acceptable then Renewed(w, failing, 0) else 0;
                var renewed := if n > 0 then w.startedAt + n * 20 * Backoff.SECOND + 60 * Backoff.SECOND
                    else old(queue.visibleAt[handle]);
                queue.visibleAt[handle] ==
                if acceptable && late.Some? then late.value + 60 * Backoff.SECOND
                else if fails then renewed
                else OfferedAt(acceptable, receiveCount, w, renewed)
      ensures forall other | other != handle ::
                && (other in queue.visibleAt <==> other in old(queue.visibleAt))
                && (other in queue.visibleAt ==> queue.visibleAt[other] == old(queue.visibleAt[other]))
    {
      hide Renewed;
      if !acceptable {
        queue.ChangeVisibility(handle, w.startedAt, 0, fails);
        return;
      }
      var _ := RenewVisibility(handle, w, failing);
      Submitted(handle, receiveCount, w, fails);
      if late.Some? {
        queue.ChangeVisibility(handle, late.value, VISIBILITY_TIMEOUT / Backoff.SECOND, false);
      }
    }

    /** What follows the use case's answer, or its absence. */
    method Submitted(handle: string, receiveCount: int, w: Work, fails: bool)
      requires w.Valid()
      modifies queue
      ensures handle in queue.visibleAt <==> handle in old(queue.visibleAt) && (fails || !Done(true, w))
      ensures handle in queue.visibleAt ==>
                queue.visibleAt[handle] ==
                if fails then old(queue.visibleAt[handle])
                   else OfferedAt(true, receiveCount, w, old(queue.visibleAt[handle]))
      ensures forall other | other != handle ::
                && (other in queue.visibleAt <==> other in old(queue.visibleAt))
                && (other in queue.visibleAt ==> queue.visibleAt[other] == old(queue.visibleAt[other]))
    {
      var heard, now := w.Heard(), w.EndsAt();
      if heard.TimedOut? {
        queue.ChangeVisibility(handle, now, 0, fails);
        return;
      }
      if !Confirms(heard) {
        if w.Cancelled() {
          queue.ChangeVisibility(handle, now, 0, fails);
          return;
        }
        if IsTransient(heard.answer) {
          ReceiveDelays(receiveCount);
          var delay := TransientVisibility(receiveCount);
          if delay.Some? {
            queue.ChangeVisibility(handle, now, delay.value, fails);
          }
          return;
        }
        queue.ChangeVisibility(handle, now, 0, fails);
        return;
      }
      var _ := queue.Delete(handle, fails);
    }
  }
}
