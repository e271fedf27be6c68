/** HTTP sends with retries: who closes each response and who cancels each timeout. */
module RetryTransport {

  import opened Options

  type Bytes = seq<int>

  /** A send gives exactly one of a response and an error. */
  datatype Outcome = Response(status: int) | Failure(transient: bool)

  /** `Returned(k)` hands the response of the k-th send, body unread, to the caller. */
  datatype Result = Returned(k: nat) | Failed

  /** The methods section 9.2.2 of RFC 9110 calls idempotent. */
  const IDEMPOTENT_METHODS: set<string> := {"GET", "HEAD", "OPTIONS", "TRACE", "PUT", "DELETE"}

  predicate IsIdempotent(verb: string) {
    verb == "GET" || verb == "HEAD" || verb == "OPTIONS" || verb == "PUT" || verb == "DELETE"
  }

  /** Only idempotent methods are retried, and all of them but TRACE. */
  lemma RetriedMethods(verb: string)
    ensures IsIdempotent(verb) <==> verb in IDEMPOTENT_METHODS - {"TRACE"}
  {
    assert ("TRACE")[0] == 'T';
  }

  predicate IsRetryableStatus(status: int) {
    status == 408 || status == 429 || status == 500 || status == 502 || status == 503 || status == 504
  }

  /** No success and no redirect is retried; of the client errors only the two that ask for it, of the gateway errors all. */
  lemma RetriedStatuses(status: int)
    ensures status < 400 || 504 < status ==> !IsRetryableStatus(status)
    ensures 400 <= status < 500 ==> (IsRetryableStatus(status) <==> status in {408, 429})
    ensures 502 <= status <= 504 ==> IsRetryableStatus(status)
    ensures 500 <= status <= 501 ==> (IsRetryableStatus(status) <==> status == 500)
  {
  }

  predicate Retryable(o: Outcome) {
    match o
    case Response(status) => IsRetryableStatus(status)
    case Failure(transient) => transient
  }

  /** A request body: reading it consumes it. `broken` after a read that failed. */
  class Stream {
    var data: Bytes
    var closed: bool
    var broken: bool

    constructor (bytes: Bytes)
      ensures data == bytes && !closed && !broken
    {
      data, closed, broken := bytes, false, false;
    }

    /** Takes some of what is left; how much is up to the reader. */
    method Consume()
      modifies `data
      ensures exists n :: 0 <= n <= |old(data)| && data == old(data)[n..]
    {
      var n :| 0 <= n <= |data|;
      data := data[n..];
    }

    /** All that was left, or an error somewhere along the way. */
    method ReadAll() returns (r: Option<Bytes>)
      modifies `data, `broken
      ensures broken <==> r.None?
      ensures r.Some? ==> r.value == old(data) && data == []
    {
      broken := *;
      if broken {
        Consume();
        return None;
      }
      r, data := Some(data), [];
    }

    method Close()
      modifies `closed
      ensures closed
    {
      closed := true;
    }
  }

  function Content(s: Stream?): Option<Bytes>
    reads s
  {
    if s == null then None else Some(s.data)
  }

  /** What a send offers: the bytes its body still held, and the length it declares. */
  datatype Sent = Sent(body: Option<Bytes>, length: int)

  /** What has gone over one request's connection. Sends, timeouts and response bodies are numbered alike. */
  class Wire {
    var sends: seq<Sent>
    var outcomes: seq<Outcome>
    var timeouts: set<nat>
    var cancelled: set<nat>
    var closed: set<nat>
    var cancelOnClose: map<nat, nat>
    var interrupted: bool   // the caller's context ended during a delay

    constructor ()
      ensures sends == [] && outcomes == [] && !interrupted
      ensures timeouts == {} && cancelled == {} && closed == {} && cancelOnClose == map[]
    {
      sends, outcomes, timeouts, cancelled, closed, cancelOnClose := [], [], {}, {}, {}, map[];
      interrupted := false;
    }

    /** The wrapped transport reads any part of the body and closes it. */
    method Send(body: Stream?, length: int) returns (o: Outcome)
      modifies `sends, `outcomes, body
      ensures sends == old(sends) + [Sent(old(Content(body)), length)] && outcomes == old(outcomes) + [o]
      ensures body != null ==> body.closed && body.broken == old(body.broken)
    {
      o := *;
      sends, outcomes := sends + [Sent(Content(body), length)], outcomes + [o];
      if body != null {
        body.Consume();
        body.Close();
      }
    }

    /** The delay before the next attempt. */
    method Sleep()
      modifies `interrupted
    {
      interrupted := *;
    }

    method Cancel(k: nat)
      modifies `cancelled
      ensures cancelled == old(cancelled) + {k}
    {
      cancelled := cancelled + {k};
    }

    /** Closing a wrapped body also cancels its timeout. */
    method Close(k: nat)
      modifies `closed, `cancelled
      ensures closed == old(closed) + {k}
      ensures cancelled == old(cancelled) + if k in cancelOnClose then {cancelOnClose[k]} else {}
    {
      closed := closed + {k};
      if k in cancelOnClose {
        Cancel(cancelOnClose[k]);
      }
    }
  }

  /** Nothing is leaked: whatever is still open belongs to the returned body. */
  ghost predicate Owned(w: Wire, result: Result)
    reads w
  {
    && |w.sends| == |w.outcomes|
    && (forall k :: k in w.timeouts ==>
          k in w.cancelled || (result == Returned(k) && k in w.cancelOnClose && w.cancelOnClose[k] == k))
    && (forall k :: 0 <= k < |w.outcomes| && w.outcomes[k].Response? ==> k in w.closed || result == Returned(k))
  }

  /** The returned response is the last one, still readable, and was worth no further retry. */
  ghost predicate ResultFits(w: Wire, result: Result, maxRetries: int)
    reads w
  {
    result.Returned? ==>
      && result.k == |w.outcomes| - 1
      && w.outcomes[result.k].Response?
      && result.k !in w.closed
      && result.k !in w.cancelled
      && (Retryable(w.outcomes[result.k]) ==> result.k == maxRetries)
  }

  /** Nothing has gone over the wire yet. */
  ghost predicate Unused(w: Wire)
    reads w
  {
    && w.sends == [] && w.outcomes == [] && w.timeouts == {} && w.cancelled == {}
    && w.closed == {} && w.cancelOnClose == map[] && !w.interrupted
  }

  ghost predicate AllRetryable(outcomes: seq<Outcome>) {
    forall k :: 0 <= k < |outcomes| ==> Retryable(outcomes[k])
  }

  ghost predicate Numbered(s: set<nat>, n: nat) {
    forall k: nat :: k in s <==> k < n
  }

  /** What one attempt leaves behind when the loop goes round again, or ends. */
  ghost predicate Attempted(w: Wire, attempts: nat, sent: Sent, lastResp: Option<nat>, maxRetries: int)
    reads w
  {
    && |w.sends| == |w.outcomes| == attempts
    && (forall k :: 0 <= k < attempts ==> w.sends[k] == sent)
    && AllRetryable(w.outcomes)
    && Numbered(w.timeouts, attempts)
    && (lastResp.None? || (lastResp.value == maxRetries == attempts - 1 && w.outcomes[maxRetries].Response?))
    && (forall k :: 0 <= k < attempts && lastResp != Some(k) ==>
          k in w.cancelled && (w.outcomes[k].Response? ==> k in w.closed))
    && (forall k :: k in w.cancelled || k in w.closed ==> k < attempts && lastResp != Some(k))
    && (lastResp.Some? ==> lastResp.value in w.cancelOnClose && w.cancelOnClose[lastResp.value] == lastResp.value)
    && (forall k :: k in w.cancelOnClose ==> lastResp == Some(k))
  }

  /** Every attempt offers all of the bytes that the body held before it was read, and declares their number. */
  function Resent(bytes: Option<Bytes>, length: int): Sent {
    Sent(bytes, if bytes.Some? then |bytes.value| else length)
  }

  /**
   A request whose method is not retried is sent once, as it came. One whose method is retried is sent with the bytes
   its body came with, `maxRetries + 1` times or until an outcome is final, unless its body cannot be read or a delay
   is interrupted; then nothing is returned.
   */
  method RoundTrip(w: Wire, verb: string, body: Stream?, length: int, maxRetries: int) returns (result: Result)
    requires Unused(w)
    modifies w, body
    ensures Owned(w, result)
    ensures ResultFits(w, result, if IsIdempotent(verb) then maxRetries else 0)
    ensures !IsIdempotent(verb) ==> w.sends == [Sent(old(Content(body)), length)]
    ensures IsIdempotent(verb) ==> forall k :: 0 <= k < |w.sends| ==> w.sends[k] == Resent(old(Content(body)), length)
    ensures body != null && w.sends != [] ==> body.closed
    ensures !IsIdempotent(verb) ==> w.timeouts == {} && (result.Returned? <==> w.outcomes[0].Response?)
    ensures IsIdempotent(verb) && body != null && body.broken ==> w.sends == [] && result.Failed?
    ensures IsIdempotent(verb) && !(body != null && body.broken) ==> Retried(w, result, maxRetries)
  {
    if !IsIdempotent(verb) {
      var o := w.Send(body, length);
      return if o.Response? then Returned(0) else Failed;
    }
    var bytes: Option<Bytes> := None;
    if body != null {
      bytes := body.ReadAll();
      if bytes.None? {
        return Failed;
      }
    }
    result := SendRepeatedly(w, body, bytes, length, maxRetries);
    if body != null {
      body.Close();
    }
  }

  /**
   Each send under a timeout, all but the last worth a retry. There are `maxRetries + 1` of them unless the last
   outcome was final or a delay was interrupted; an interruption returns nothing, anything else the last response.
   */
  ghost predicate Retried(w: Wire, result: Result, maxRetries: int)
    reads w
  {
    && |w.sends| == |w.outcomes| <= Planned(maxRetries)
    && (|w.sends| < Planned(maxRetries) ==> w.sends != [] && (w.interrupted || !Retryable(w.outcomes[|w.outcomes| - 1])))
    && (w.interrupted ==> result.Failed? && |w.sends| < Planned(maxRetries) && AllRetryable(w.outcomes))
    && (forall k :: 0 <= k < |w.sends| ==> k in w.timeouts)
    && (w.sends != [] ==>
          && AllRetryable(w.outcomes[..|w.outcomes| - 1])
          && (!w.interrupted ==> (result.Returned? <==> w.outcomes[|w.outcomes| - 1].Response?)))
  }

  function Planned(maxRetries: int): nat {
    if maxRetries < 0 then 0 else maxRetries + 1
  }

  method SendRepeatedly(w: Wire, body: Stream?, bytes: Option<Bytes>, length: int, maxRetries: int) returns (result: Result)
    requires Unused(w)
    requires body == null <==> bytes.None?
    modifies w
    ensures Owned(w, result) && ResultFits(w, result, maxRetries) && Retried(w, result, maxRetries)
    ensures forall k :: 0 <= k < |w.sends| ==> w.sends[k] == Resent(bytes, length)
  {
    var lastResp: Option<nat> := None;
    var attempt := 0;
    while attempt <= maxRetries
      invariant attempt == 0 || attempt <= maxRetries + 1
      invariant Attempted(w, attempt, Resent(bytes, length), lastResp, maxRetries)
      invariant attempt <= maxRetries ==> lastResp.None?
      invariant !w.interrupted
      invariant attempt == maxRetries + 1 > 0 ==> (lastResp.Some? <==> w.outcomes[maxRetries].Response?)
    {
      var done;
      result, lastResp, done := Attempt(w, attempt, body, bytes, length, maxRetries);
      if done {
        return;
      }
      attempt := attempt + 1;
      if attempt <= maxRetries {
        w.Sleep();
        if w.interrupted {
          return Failed;
        }
      }
    }
    result := if lastResp.Some? then Returned(lastResp.value) else Failed;
  }

  /** Sends a clone of the request, its body a fresh reader over the buffered bytes. */
  method SendClone(w: Wire, body: Stream?, bytes: Option<Bytes>, length: int) returns (o: Outcome)
    requires body == null <==> bytes.None?
    modifies w`sends, w`outcomes
    ensures w.sends == old(w.sends) + [Resent(bytes, length)] && w.outcomes == old(w.outcomes) + [o]
  {
    var clone, declared := body, length;
    if bytes.Some? {
      clone := new Stream(bytes.value);
      declared := |bytes.value|;
    }
    o := w.Send(clone, declared);
  }

  /** One send and what follows from its outcome; `done` when the loop returns. */
  method Attempt(w: Wire, attempt: nat, body: Stream?, bytes: Option<Bytes>, length: int, maxRetries: int)
    returns (result: Result, lastResp: Option<nat>, done: bool)
    requires body == null <==> bytes.None?
    requires attempt <= maxRetries && Attempted(w, attempt, Resent(bytes, length), None, maxRetries)
    modifies w
    ensures w.interrupted == old(w.interrupted)
    ensures !done ==> Attempted(w, attempt + 1, Resent(bytes, length), lastResp, maxRetries)
    ensures !done && attempt < maxRetries ==> lastResp.None?
    ensures done ==> Owned(w, result) && ResultFits(w, result, maxRetries)
    ensures |w.sends| == |w.outcomes| == attempt + 1 && Numbered(w.timeouts, attempt + 1)
    ensures !done && attempt == maxRetries ==> (lastResp.Some? <==> w.outcomes[attempt].Response?)
    ensures forall k :: 0 <= k < attempt + 1 ==> w.sends[k] == Resent(bytes, length)
    ensures AllRetryable(w.outcomes[..attempt])
    ensures done ==> !Retryable(w.outcomes[attempt]) && (result.Returned? <==> w.outcomes[attempt].Response?)
  {
    result, lastResp, done := Failed, None, false;
    w.timeouts := w.timeouts + {attempt};
    var o := SendClone(w, body, bytes, length);
    assert w.outcomes[..attempt] == old(w.outcomes);
    if o.Failure? {
      w.Cancel(attempt);
      done := !o.transient;
    } else if !IsRetryableStatus(o.status) {
      w.cancelOnClose := w.cancelOnClose[attempt := attempt];
      result, done := Returned(attempt), true;
    } else if attempt < maxRetries {
      w.Close(attempt);
      w.Cancel(attempt);
    } else {
      lastResp := Some(attempt);
      w.cancelOnClose := w.cancelOnClose[attempt := attempt];
    }
  }

  /** Once the caller closes what was returned, no timeout runs on and no response is open. */
  method Finish(w: Wire, result: Result)
    requires Owned(w, result)
    modifies w`closed, w`cancelled
    ensures w.timeouts <= w.cancelled
    ensures forall k :: 0 <= k < |w.outcomes| && w.outcomes[k].Response? ==> k in w.closed
  {
    if result.Returned? {
      w.Close(result.k);
    }
  }
}
