/** Which answers of the upstream a call retries, when, and how it ends (app/agentcore/client.go, Stream). */
module Retries {
  import opened Text
  import opened Wrappers
  import opened Client

  // ----- Which answers are retried -----

  /** The kinds of upstream errors that pass by themselves. */
  predicate PassingKind(kind: string) {
    kind == "rate_limit_error" || kind == "overloaded_error" || kind == "api_error" || kind == "server_error"
    || kind == "timeout_error"
  }

  /** An answer after which the same call is made again, given the output ceiling it was made with: nothing of it was
      shown, and it is a failure that may pass, or one that names the ceiling while that can be lowered. */
  predicate RetriedAnswer(host: Host, r: Response, ceiling: int) {
    match r
    case Unreachable => true
    case Status(status, phrase, _) =>
      status == 429 || status >= 500 || ((status == 400 || status == 422) && phrase && ceiling > 8192)
    case Body(lines, ending) =>
      var p := Parse(host, Fresh([]), lines, ending);
      p.events == [] &&
      match p.failure
      case None => false
      case Some(Aborted) => false
      case Some(Idle) => false
      case Some(Upstream(kind, phrase)) =>
        PassingKind(TrimSpace(kind))
        || (phrase && TrimSpace(kind) != "rate_limit_error" && TrimSpace(kind) != "overloaded_error" && ceiling > 8192)
      case Some(Http(status, phrase, _)) =>
        status == 429 || status >= 500 || ((status == 400 || status == 422) && phrase && ceiling > 8192)
      case Some(_) => true
  }

  lemma RetriedIff(host: Host, k: nat, ceiling: int)
    ensures Retried(host, k, ceiling) <==> RetriedAnswer(host, host.responses(k), ceiling)
  {
  }

  // ----- How a call ends -----

  /** Nobody cancels. */
  ghost predicate Uncancelled(host: Host) {
    forall k :: !host.cancelledBefore(k) && !host.cancelledWaiting(k)
  }

  /** An uncancelled call makes attempts up to and including the first whose answer is not retried, six at most, and ends
      as that one did. */
  lemma CallEndsIff(host: Host, requested: int, outcome: Outcome, sent: seq<int>, events: seq<ClientEvent>,
                    notices: seq<Notice>, waits: seq<nat>)
    requires Promised(host, requested, outcome, sent, events, notices, waits) && Uncancelled(host) && !outcome.NoBaseUrl?
    ensures 1 <= |sent| <= 6 && sent[0] == if requested > 0 then requested else 64_000
    ensures forall k :: 0 <= k < |sent| - 1 ==> RetriedAnswer(host, host.responses(k), sent[k])
    ensures var last := |sent| - 1;
      var answer := Attempt(host, last, []);
      if RetriedAnswer(host, host.responses(last), sent[last])
      then |sent| == 6 && answer.failure.Some? && outcome == Exhausted(answer.failure.value)
      else outcome == if answer.failure.None? then Ok else Failed(answer.failure.value)
  {
    forall k | 0 <= k < |sent| ensures Retried(host, k, sent[k]) <==> RetriedAnswer(host, host.responses(k), sent[k]) {
      RetriedIff(host, k, sent[k]);
    }
  }

  /** An answer that may well be different the next time. */
  predicate Passing(r: Response) {
    r.Unreachable? || (r.Status? && (r.status == 429 || r.status >= 500))
  }

  /** Up to five such answers and then a complete one: the call succeeds with the next attempt. */
  lemma PassingFailuresAreOvercome(host: Host, requested: int, outcome: Outcome, sent: seq<int>, events: seq<ClientEvent>,
                                   notices: seq<Notice>, waits: seq<nat>, n: nat)
    requires Promised(host, requested, outcome, sent, events, notices, waits) && Uncancelled(host) && !outcome.NoBaseUrl?
    requires n <= 5 && (forall k :: 0 <= k < n ==> Passing(host.responses(k)))
    requires host.responses(n).Body? && Parse(host, Fresh([]), host.responses(n).lines, host.responses(n).ending).failure.None?
    ensures outcome == Ok && |sent| == n + 1
  {
    CallEndsIff(host, requested, outcome, sent, events, notices, waits);
    assert forall k, c :: 0 <= k < n ==> RetriedAnswer(host, host.responses(k), c);
    assert forall c :: !RetriedAnswer(host, host.responses(n), c);
  }

  /** A first answer with any other status, and no word about the ceiling, is final. */
  lemma OtherStatusIsFinal(host: Host, requested: int, outcome: Outcome, sent: seq<int>, events: seq<ClientEvent>,
                           notices: seq<Notice>, waits: seq<nat>)
    requires Promised(host, requested, outcome, sent, events, notices, waits) && Uncancelled(host) && !outcome.NoBaseUrl?
    requires host.responses(0).Status? && host.responses(0).status != 429 && host.responses(0).status < 500
    requires !host.responses(0).phrase
    ensures var r := host.responses(0);
      outcome == Failed(Http(r.status, r.phrase, r.retryAfter)) && |sent| == 1 && events == [] && waits == []
  {
    CallEndsIff(host, requested, outcome, sent, events, notices, waits);
    assert forall c :: !RetriedAnswer(host, host.responses(0), c);
  }

  /** A body that stalled, or that showed anything, is never retried. */
  lemma StalledIsFinal(host: Host, requested: int, outcome: Outcome, sent: seq<int>, events: seq<ClientEvent>,
                       notices: seq<Notice>, waits: seq<nat>, k: nat)
    requires Promised(host, requested, outcome, sent, events, notices, waits) && k < |sent|
    requires Attempt(host, k, []).failure == Some(Idle) || Attempt(host, k, []).events != []
    ensures k == |sent| - 1
  {
    RetriedIff(host, k, sent[k]);
  }

  // ----- When, and with what ceiling -----

  function Least(a: nat, b: nat): nat {
    if a < b then a else b
  }

  function KindOfStatus(status: int): string {
    if status == 429 then "rate_limit_error" else if status >= 500 then "server_error" else "invalid_request_error"
  }

  /** The wait before retry n + 1: what the answer asked for, or else half a second doubled n times, but never more than
      half a minute. */
  lemma WaitsAre(host: Host, notices: seq<Notice>, waits: seq<nat>, n: nat)
    requires Announced(host, notices) && Slept(notices, waits) && n < |notices|
    ensures var r := host.responses(n);
      && notices[n].attempt == n + 1
      && notices[n].delay == Least(30_000, if NamesDelay(host, n) then Attempt(host, n, []).failure.value.retryAfter
                                           else 500 * Pow2(n))
      && (n < |waits| ==> waits[n] == notices[n].delay)
      && (r.Status? ==> notices[n].status == r.status && notices[n].kind == KindOfStatus(r.status))
      && (r.Unreachable? ==> notices[n].status == 0 && notices[n].kind == "connection_error")
      && (r.Status? && r.retryAfter > 0 ==> notices[n].delay == Least(30_000, r.retryAfter))
  {
    assert notices[n] == NoticeOf(n + 1, Attempt(host, n, []).failure.value);
  }

  /** The answer names the output ceiling. */
  predicate NamesCeiling(host: Host, k: nat) {
    var f := Attempt(host, k, []).failure;
    f.Some? &&
    match f.value
    case Http(status, phrase, _) => (status == 400 || status == 422) && phrase
    case Upstream(kind, phrase) => phrase && TrimSpace(kind) != "rate_limit_error" && TrimSpace(kind) != "overloaded_error"
    case _ => false
  }

  /** The next attempt is made with the same ceiling, unless the answer names it and it is above 8192: then with half of
      it, or 8192. */
  lemma CeilingsAre(host: Host, sent: seq<int>, k: nat)
    requires Chain(host, sent) && k + 1 < |sent|
    ensures sent[k + 1] == if NamesCeiling(host, k) && sent[k] > 8192
                           then (if sent[k] / 2 < 8192 then 8192 else sent[k] / 2) else sent[k]
  {
    assert Retried(host, k, sent[k]);
  }
}
