/** The lock-held regions of src/audio/audio-loop.cpp: the drop-oldest queue, the stop flag and the health report. */
module AudioLoop {

  const QUEUE_LIMIT := 5
  const RETRY_SECONDS := 10
  const NS := 1_000_000_000

  datatype Health = Idle | Listening | SpeechDisabled | VadFailed | Retrying | KeyRejected

  datatype AudioHealth = AudioHealth(state: Health, retrySeconds: nat)

  /** Everything the mutex guards. */
  datatype Shared<T> = Shared(stop: bool, queue: seq<T>, health: Health, retryUntil: nat)

  /** The queue after one more segment: at the limit its front is lost. */
  function Enqueued<T>(queue: seq<T>, segment: T): (q: seq<T>)
    ensures |queue| <= QUEUE_LIMIT ==> |q| <= QUEUE_LIMIT
    ensures |q| > 0 && q[|q| - 1] == segment
  {
    (if |queue| >= QUEUE_LIMIT then queue[1..] else queue) + [segment]
  }

  /** What start() leaves for the new workers. */
  function Begun<T>(): Shared<T> {
    Shared(false, [], Listening, 0)
  }

  /** The sender's region, once it may go on: the front of the queue is its own. */
  function Taken<T>(s: Shared<T>): Shared<T> {
    if s.stop || s.queue == [] then s else s.(queue := s.queue[1..])
  }

  function WithHealth<T>(s: Shared<T>, health: Health, retrySeconds: nat, now: nat): Shared<T> {
    s.(health := health, retryUntil := if retrySeconds > 0 then now + retrySeconds * NS else 0)
  }

  /** What health() tells the dock at time now. */
  function Reported<T>(s: Shared<T>, now: nat): AudioHealth {
    var seconds := if s.retryUntil > now then (s.retryUntil - now + NS - 1) / NS else 0;
    AudioHealth(if s.health == Retrying && seconds == 0 then Listening else s.health, seconds)
  }

  class AudioLoop<T> {
    var stop: bool
    var queue: seq<T>
    var health: Health
    var retryUntil: nat

    ghost function Snapshot(): Shared<T>
      reads this
    {
      Shared(stop, queue, health, retryUntil)
    }

    constructor ()
      ensures Snapshot() == Shared(false, [], Idle, 0)
    {
      stop, queue, health, retryUntil := false, [], Idle, 0;
    }

    /** The two locked regions of start(). */
    method Begin()
      modifies this
      ensures Snapshot() == Begun()
    {
      stop := false;
      queue := [];
      SetHealth(Listening, 0, 0);
    }

    method Enqueue(segment: T)
      modifies this`queue
      ensures Snapshot() == old(Snapshot()).(queue := Enqueued(old(queue), segment))
    {
      if |queue| >= QUEUE_LIMIT {
        queue := queue[1..];
      }
      queue := queue + [segment];
    }

    /** The sender's locked region: the front of the queue, unless the stop flag is up. */
    method TakeFront() returns (segment: seq<T>)
      requires stop || queue != []
      modifies this`queue
      ensures Snapshot() == Taken(old(Snapshot()))
      ensures segment + queue == old(queue) && |segment| == if stop then 0 else 1
    {
      if stop {
        return [];
      }
      segment := [queue[0]];
      queue := queue[1..];
    }

    method SetHealth(state: Health, retrySeconds: nat, now: nat)
      modifies this`health, this`retryUntil
      ensures Snapshot() == WithHealth(old(Snapshot()), state, retrySeconds, now)
    {
      health := state;
      retryUntil := if retrySeconds > 0 then now + retrySeconds * NS else 0;
    }

    /** Reports the reason and raises the stop flag; only Begin lowers it again. */
    method GiveUp(state: Health)
      modifies this`health, this`retryUntil, this`stop
      ensures Snapshot() == WithHealth(old(Snapshot()), state, 0, 0).(stop := true)
    {
      SetHealth(state, 0, 0);
      stop := true;
    }

    method GetHealth(now: nat) returns (result: AudioHealth)
      ensures result == Reported(Snapshot(), now)
      ensures result.state == Retrying <==> health == Retrying && now < retryUntil
      ensures result.retrySeconds > 0 <==> now < retryUntil
    {
      var seconds := if retryUntil > now then (retryUntil - now + 999_999_999) / 1_000_000_000 else 0;
      var state := health;
      if state == Retrying && seconds == 0 {
        state := Listening;
      }
      result := AudioHealth(state, seconds);
    }
  }

  /** The countdown shown after a 429 starts at 10 s and is over exactly when the pause is. */
  lemma CountdownBounds<T>(s: Shared<T>, at: nat, now: nat)
    requires at <= now
    ensures var r := Reported(WithHealth(s, Retrying, RETRY_SECONDS, at), now);
            && r.retrySeconds <= RETRY_SECONDS
            && (r.state == Retrying <==> now < at + RETRY_SECONDS * NS)
            && now + r.retrySeconds * NS >= at + RETRY_SECONDS * NS
            && (r.retrySeconds > 0 ==> now + (r.retrySeconds - 1) * NS < at + RETRY_SECONDS * NS)
  {
    var left := at + RETRY_SECONDS * NS - now;
    if left > 0 {
      var seconds := (left + NS - 1) / NS;
      assert NS * seconds <= left + NS - 1 < NS * seconds + NS;
    }
  }
}
