/** internal/platform/outbox: queued events, claimed one at a time and marked together with whatever
  * their handler wrote. */
module Outbox {
  import opened Wrappers

  datatype Status = Pending | Processing | Done | Failed

  /** Nanoseconds. */
  type Time = int

  const MINUTE: Time := 60000000000
  const HUNDRED_YEARS: Time := 3153600000000000000

  /** An idempotency key: a text prefix and the id it is about. */
  datatype Key = Key(prefix: string, id: Uuid)

  /** A payload that decodes to the id of a document, or one that does not decode. */
  datatype Payload = DocumentId(id: Uuid) | Malformed

  /** An outbox_events row.  An event's id is its position, and rows stand in creation order. */
  datatype Event = Event(kind: string, key: Key, payload: Payload, status: Status, attempts: nat, nextAttemptAt: Time)

  /** A handler's error; Permanent marks the ones not worth retrying. */
  datatype HandlerError = Retryable | Permanent

  // ---------- Enqueueing ----------

  predicate HasKey(es: seq<Event>, key: Key) {
    exists e <- es :: e.key == key
  }

  /** ON CONFLICT DO NOTHING on the idempotency key. */
  function Enqueue(es: seq<Event>, kind: string, key: Key, payload: Payload, now: Time): seq<Event> {
    if HasKey(es, key) then es else es + [Event(kind, key, payload, Pending, 0, now)]
  }

  predicate KeysUnique(es: seq<Event>) {
    forall i, j | 0 <= i < j < |es| :: es[i].key != es[j].key
  }

  /** After enqueueing there is exactly one event under the key, the first one ever enqueued under it
    * stays as it is, and enqueueing anything under the key again changes nothing. */
  lemma {:induction false} EnqueuedOnce(es: seq<Event>, kind: string, key: Key, payload: Payload, now: Time,
                                        kind': string, payload': Payload, later: Time)
    requires KeysUnique(es)
    ensures var es' := Enqueue(es, kind, key, payload, now);
      && es <= es' && KeysUnique(es')
      && (exists i | 0 <= i < |es'| :: es'[i].key == key)
      && Enqueue(es', kind', key, payload', later) == es'
  {
    var es' := Enqueue(es, kind, key, payload, now);
    if HasKey(es, key) {
      var e :| e in es && e.key == key;
      var i :| 0 <= i < |es| && es[i] == e;
      assert es'[i].key == key;
    } else {
      assert forall i | 0 <= i < |es| :: es[i] in es;
      assert es'[|es|].key == key && es'[|es|] in es';
    }
  }

  // ---------- Retry delays ----------

  function Pow2(n: nat): nat {
    if n == 0 then 1 else 2 * Pow2(n - 1)
  }

  function Min(x: int, y: int): int {
    if x <= y then x else y
  }

  lemma {:induction false} Pow2Grows(m: nat, n: nat)
    requires m <= n
    ensures 1 <= Pow2(m) <= Pow2(n)
  {
    if m < n {
      Pow2Grows(m, n - 1);
    } else if n > 0 {
      Pow2Grows(m - 1, n - 1);
    }
  }

  /** How long the attempts-th failure waits: one minute doubled each time, an hour at most. */
  function Delay(attempts: nat): Time {
    Min(Pow2(if attempts == 0 then 0 else attempts - 1), 60) * MINUTE
  }

  /** The first failure waits a minute, 60000000000 nanoseconds; each further one twice as long as the one
    * before, and never longer than sixty. */
  lemma {:induction false} DelayDoubles(attempts: nat)
    requires attempts > 0
    ensures Delay(1) == 60000000000
    ensures Delay(attempts + 1) == Min(2 * Delay(attempts), 3600000000000)
  {
    assert Pow2(0) == 1;
    Pow2Grows(0, attempts - 1);
  }

  method Backoff(attempts: nat) returns (d: Time)
    ensures d == Delay(attempts)
  {
    d := MINUTE;
    var i := 1;
    while i < attempts && d < 60 * MINUTE
      invariant 1 <= i <= 7 && i <= (if attempts == 0 then 1 else attempts)
      invariant d == Pow2(i - 1) * MINUTE
    {
      assert Pow2(6) == 64;
      d := d * 2;
      i := i + 1;
    }
    if i < attempts { Pow2Grows(i - 1, attempts - 1); }
    if d > 60 * MINUTE { d := 60 * MINUTE; }
  }

  // ---------- Claiming and marking ----------

  predicate Claimable(e: Event, now: Time) {
    (e.status == Pending || e.status == Failed) && e.nextAttemptAt <= now
  }

  /** The oldest claimable event. */
  predicate IsNext(es: seq<Event>, now: Time, i: nat) {
    i < |es| && Claimable(es[i], now) && forall j | 0 <= j < i :: !Claimable(es[j], now)
  }

  function FindNext(es: seq<Event>, now: Time): (r: Option<nat>)
    ensures r.Some? ==> IsNext(es, now, r.value)
    ensures r.None? ==> forall e <- es :: !Claimable(e, now)
  {
    if es == [] then None
    else
      var earlier := FindNext(es[..|es| - 1], now);
      if earlier.Some? then earlier
      else if Claimable(es[|es| - 1], now) then Some(|es| - 1) else None
  }

  lemma {:induction false} NextIsUnique(es: seq<Event>, now: Time, i: nat)
    requires IsNext(es, now, i)
    ensures FindNext(es, now) == Some(i)
  {
    assert es[i] in es;
  }

  function Claimed(e: Event): Event {
    e.(status := Processing, attempts := e.attempts + 1)
  }

  function MarkedDone(e: Event): Event {
    e.(status := Done)
  }

  function MarkedFailed(e: Event, err: HandlerError, now: Time): Event {
    e.(status := Failed, nextAttemptAt := now + if err.Permanent? then HUNDRED_YEARS else Delay(e.attempts))
  }

  /** What the end of a handler makes of its claimed event. */
  function Marked(e: Event, err: Option<HandlerError>, now: Time): Event {
    if err.None? then MarkedDone(e) else MarkedFailed(e, err.value, now)
  }

  /** A retryable failure is claimable again within the hour but not before a minute has passed, a
    * permanent one not for a hundred years, and a done event never. */
  lemma {:induction false} WhenClaimable(e: Event, err: Option<HandlerError>, now: Time, later: Time)
    ensures Claimable(Marked(e, err, now), later) ==> err.Some? && later >= now + MINUTE
    ensures err == Some(Retryable) && later >= now + 60 * MINUTE ==> Claimable(Marked(e, err, now), later)
    ensures err == Some(Permanent) ==> (Claimable(Marked(e, err, now), later) <==> later >= now + HUNDRED_YEARS)
  {
    Pow2Grows(0, if e.attempts == 0 then 0 else e.attempts - 1);
  }
}
