/** One logical call to the marketplace: attempts, retries of reads, and what is known about delivery. */
module HttpClient {
  import opened Common
  import opened Publication
  import Submissions

  datatype Operation = Operation(read: bool, allowsRetry: bool, json: bool, successes: set<int>)

  /** How a response body was received. */
  datatype Body = Unreadable(retryable: bool) | Empty | Malformed | Decoded(envelope: Submissions.Json, error: bool)

  datatype Response = Response(status: int, body: Body, retryableStatus: bool)

  /** What one HTTP exchange did: how often a request was written, and what came back. */
  datatype Exchange = Exchange(built: bool, writes: nat, failed: bool, retryableFailure: bool, response: Option<Response>)

  /** The surroundings of one attempt. */
  datatype Turn = Turn(expiredBefore: bool, waitError: Option<ErrorCode>, exchange: Exchange, expiredAfter: bool, backoffFails: bool)

  /** What is known after an attempt; `error` None when a successful response was read. */
  datatype Result = Result(error: Option<ErrorCode>, delivery: Delivery, status: int, retryable: bool, body: Option<Body>)

  const MaxReadAttempts: nat := 3

  function AttemptLimit(op: Operation): nat {
    if op.read && op.allowsRetry then MaxReadAttempts else 1
  }

  function WithoutResponse(writes: nat): Delivery {
    if writes > 0 then UnknownDelivery else NotDispatched
  }

  function ResponseResult(op: Operation, r: Response): Result {
    if r.body.Unreadable? then Result(Some(InvalidResponse), ResponseReceived, r.status, r.body.retryable, None)
    else if r.status in op.successes then Result(None, ResponseReceived, r.status, false, Some(r.body))
    else Result(Some(if r.status == 429 then RateLimited else UnexpectedStatus), ResponseReceived, r.status, r.retryableStatus, None)
  }

  function DoAttempt(op: Operation, x: Exchange): Result {
    if !x.built then Result(Some(InvalidRequest), NotDispatched, 0, false, None)
    else if x.response.None? then
      Result(Some(TransportFailure), WithoutResponse(x.writes), 0, x.failed && x.retryableFailure, None)
    else if x.failed then
      Result(Some(TransportFailure), ResponseReceived, x.response.value.status, false, None)
    else ResponseResult(op, x.response.value)
  }

  function Written(x: Exchange): nat { if x.built then x.writes else 0 }

  function Cut(r: Result): Result { r.(error := Some(Interrupted), retryable := false) }

  predicate ShouldRetry(op: Operation, r: Result, turn: Turn, attempt: nat) {
    !turn.expiredAfter && attempt < AttemptLimit(op) && op.read && op.allowsRetry && r.retryable
  }

  /** The reply handed to the caller once the attempts are over. */
  function ReplyOf(op: Operation, r: Result): Submissions.Reply {
    if r.error.Some? then Submissions.Failed(r.error.value, Some(r.delivery), if r.delivery.ResponseReceived? then r.status else 0)
    else if r.body.None? || !op.json then Submissions.Envelope(false, Submissions.Scalar)
    else match r.body.value
         case Empty => Submissions.Failed(EmptyResponse, Some(r.delivery), r.status)
         case Decoded(envelope, error) => Submissions.Envelope(error, envelope)
         case _ => Submissions.Failed(InvalidResponse, Some(r.delivery), r.status)
  }

  /** The total number of requests written in the first `n` turns. */
  function TotalWritten(turns: seq<Turn>, n: nat): nat
    requires n <= |turns|
  {
    if n == 0 then 0 else TotalWritten(turns, n - 1) + Written(turns[n - 1].exchange)
  }

  /** What a logical call reports, and after how many exchanges. */
  datatype Report = Report(reply: Submissions.Reply, attempts: nat)

  const NothingYet := Result(None, NotDispatched, 0, false, None)

  /** The report of the attempts from number `attempt` on, when `last` is what the one before it left. */
  function AttemptsFrom(op: Operation, turns: seq<Turn>, attempt: nat, last: Result): (report: Report)
    requires 1 <= attempt <= AttemptLimit(op) + 1 && AttemptLimit(op) <= |turns|
    ensures report.attempts <= AttemptLimit(op)
    decreases AttemptLimit(op) + 1 - attempt
  {
    if attempt > AttemptLimit(op) then Report(ReplyOf(op, last), attempt - 1)
    else
      var turn := turns[attempt - 1];
      if attempt > 1 && (turn.expiredBefore || turn.waitError.Some?) then Report(ReplyOf(op, Cut(last)), attempt - 1)
      else if turn.waitError.Some? then Report(Submissions.Failed(turn.waitError.value, Some(NotDispatched), 0), 0)
      else
        var result := DoAttempt(op, turn.exchange);
        if !ShouldRetry(op, result, turn, attempt) then Report(ReplyOf(op, result), attempt)
        else if turn.backoffFails then Report(ReplyOf(op, Cut(result)), attempt)
        else AttemptsFrom(op, turns, attempt + 1, result)
  }

  function Called(op: Operation, turns: seq<Turn>): (report: Report)
    requires AttemptLimit(op) <= |turns|
    ensures report.attempts <= AttemptLimit(op)
  {
    AttemptsFrom(op, turns, 1, NothingYet)
  }

  // ---------------------------------------------------------------- what the last exchange says

  /** A response with one of the operation's success statuses was received, and this is how its body came. */
  predicate Received(op: Operation, x: Exchange, body: Body) {
    && x.built && !x.failed && x.response.Some? && x.response.value.status in op.successes
    && x.response.value.body == body && !body.Unreadable?
  }

  /** The error that an exchange without such a response is reported as. */
  ghost predicate FailsAs(op: Operation, x: Exchange, code: ErrorCode, delivery: Delivery, status: int) {
    if !x.built then code.InvalidRequest? && delivery.NotDispatched? && status == 0
    else if x.response.None? then code.TransportFailure? && delivery == (if x.writes > 0 then UnknownDelivery else NotDispatched) && status == 0
    else
      && delivery.ResponseReceived? && status == x.response.value.status
      && (if x.failed then code.TransportFailure?
          else if x.response.value.body.Unreadable? then code.InvalidResponse?
          else x.response.value.status !in op.successes && if status == 429 then code.RateLimited? else code.UnexpectedStatus?)
  }

  /** The exchange failed in a way that a retried read may try again. */
  predicate WorthRetrying(op: Operation, x: Exchange) {
    && op.read && op.allowsRetry && x.built
    && (if x.response.None? then x.failed && x.retryableFailure
        else !x.failed &&
             if x.response.value.body.Unreadable? then x.response.value.body.retryable
             else x.response.value.status !in op.successes && x.response.value.retryableStatus)
  }

  /** The reply is that of the exchange: the decoded envelope, or the error it stands for; a retry cut short is interrupted. */
  ghost predicate Says(op: Operation, x: Exchange, cut: bool, reply: Submissions.Reply) {
    if exists body :: Received(op, x, body) then
      var body := x.response.value.body;
      if !op.json then reply == Submissions.Envelope(false, Submissions.Scalar)
      else if body.Decoded? then reply == Submissions.Envelope(body.error, body.envelope)
      else reply == Submissions.Failed(if body.Empty? then EmptyResponse else InvalidResponse, Some(ResponseReceived), x.response.value.status)
    else
      && reply.Failed? && reply.delivery.Some?
      && exists code :: FailsAs(op, x, code, reply.delivery.value, reply.status) &&
                        reply.code == (if cut then Interrupted else code)
  }

  /** The next attempt is worth making, but time or the limiter stops it. */
  predicate CutShort(op: Operation, turns: seq<Turn>, n: nat)
    requires 0 < n <= |turns|
  {
    && n < AttemptLimit(op) && n < |turns| && WorthRetrying(op, turns[n - 1].exchange) && !turns[n - 1].expiredAfter
    && (turns[n - 1].backoffFails || turns[n].expiredBefore || turns[n].waitError.Some?)
  }

  /** The attempts went on for as long as they were worth it and could, and no longer. */
  ghost predicate RightLength(op: Operation, turns: seq<Turn>, n: nat)
    requires n <= |turns|
  {
    && (forall i :: 0 <= i < n ==> turns[i].waitError.None? && (i > 0 ==> !turns[i].expiredBefore))
    && (forall i :: 0 <= i < n - 1 ==> WorthRetrying(op, turns[i].exchange) && !turns[i].expiredAfter && !turns[i].backoffFails)
    && (n > 0 && n < AttemptLimit(op) && WorthRetrying(op, turns[n - 1].exchange) && !turns[n - 1].expiredAfter ==> CutShort(op, turns, n))
  }

  /** What `AttemptsFrom` reports: the word of the last exchange, after failures that were all worth retrying. */
  ghost predicate Truthful(op: Operation, turns: seq<Turn>, report: Report)
    requires report.attempts <= |turns|
  {
    && (report.attempts == 0 ==>
          |turns| > 0 && turns[0].waitError.Some? && report.reply == Submissions.Failed(turns[0].waitError.value, Some(NotDispatched), 0))
    && (report.attempts > 0 ==>
          Says(op, turns[report.attempts - 1].exchange, CutShort(op, turns, report.attempts), report.reply))
    && RightLength(op, turns, report.attempts)
  }

  lemma AttemptSays(op: Operation, x: Exchange)
    ensures Says(op, x, false, ReplyOf(op, DoAttempt(op, x)))
    ensures DoAttempt(op, x).retryable && op.read && op.allowsRetry <==> WorthRetrying(op, x)
    ensures WorthRetrying(op, x) ==> Says(op, x, true, ReplyOf(op, Cut(DoAttempt(op, x))))
  {
    var r := DoAttempt(op, x);
    if x.built && !x.failed && x.response.Some? && x.response.value.status in op.successes && !x.response.value.body.Unreadable? {
      assert Received(op, x, x.response.value.body);
    } else {
      assert r.error.Some? && FailsAs(op, x, r.error.value, r.delivery, if r.delivery.ResponseReceived? then r.status else 0);
    }
  }

  lemma {:induction false} AttemptsAreTruthful(op: Operation, turns: seq<Turn>, attempt: nat, last: Result)
    requires 1 <= attempt <= AttemptLimit(op) + 1 && AttemptLimit(op) <= |turns|
    requires attempt > 1 ==> last == DoAttempt(op, turns[attempt - 2].exchange) && WorthRetrying(op, turns[attempt - 2].exchange)
    requires forall i :: 0 <= i < attempt - 1 ==> turns[i].waitError.None? && (i > 0 ==> !turns[i].expiredBefore)
    requires forall i :: 0 <= i < attempt - 1 ==> WorthRetrying(op, turns[i].exchange) && !turns[i].expiredAfter && !turns[i].backoffFails
    requires attempt <= AttemptLimit(op)
    ensures Truthful(op, turns, AttemptsFrom(op, turns, attempt, last))
    decreases AttemptLimit(op) + 1 - attempt
  {
    var turn := turns[attempt - 1];
    AttemptSays(op, turn.exchange);
    if attempt > 1 {
      AttemptSays(op, turns[attempt - 2].exchange);
      assert turn.expiredBefore || turn.waitError.Some? ==> CutShort(op, turns, attempt - 1);
    }
    if turn.waitError.None? && !(attempt > 1 && turn.expiredBefore) {
      var result := DoAttempt(op, turn.exchange);
      if ShouldRetry(op, result, turn, attempt) && !turn.backoffFails {
        AttemptsAreTruthful(op, turns, attempt + 1, result);
      }
    }
  }

  lemma CalledIsTruthful(op: Operation, turns: seq<Turn>)
    requires AttemptLimit(op) <= |turns|
    ensures Truthful(op, turns, Called(op, turns))
  {
    AttemptsAreTruthful(op, turns, 1, NothingYet);
  }

  /** A JSON operation hands on an envelope exactly when the last response was a success with a decoded body: that envelope. */
  lemma EnvelopeIff(op: Operation, turns: seq<Turn>)
    requires AttemptLimit(op) <= |turns| && op.json
    ensures var (reply, n) := (Called(op, turns).reply, Called(op, turns).attempts);
            && (reply.Envelope? <==> n > 0 && exists e, f :: Received(op, turns[n - 1].exchange, Decoded(e, f)))
            && (forall e, f :: n > 0 && Received(op, turns[n - 1].exchange, Decoded(e, f)) ==> reply == Submissions.Envelope(f, e))
            && (n > 0 && Received(op, turns[n - 1].exchange, Empty) ==> reply.Failed? && reply.code.EmptyResponse?)
            && (n > 0 && Received(op, turns[n - 1].exchange, Malformed) ==> reply.Failed? && reply.code.InvalidResponse?)
  {
    CalledIsTruthful(op, turns);
    var (reply, n) := (Called(op, turns).reply, Called(op, turns).attempts);
    if n > 0 {
      var x := turns[n - 1].exchange;
      if reply.Envelope? {
        var body :| Received(op, x, body);
        assert body.Decoded? && Received(op, x, Decoded(body.envelope, body.error));
      }
    }
  }

  /** What a caller may conclude from the report. */
  ghost predicate Promised(op: Operation, turns: seq<Turn>, report: Report)
    requires report.attempts <= |turns|
  {
    var (reply, n) := (report.reply, report.attempts);
    && (reply.Envelope? || (reply.Failed? && reply.delivery.Some?))
    && (!(op.read && op.allowsRetry) ==> n <= 1)
    && (reply.Envelope? ==> n > 0 && turns[n - 1].exchange.response.Some?)
    && (op.json ==> (reply.Envelope? <==> n > 0 && exists e, f :: Received(op, turns[n - 1].exchange, Decoded(e, f))))
    && (op.json ==> forall e, f :: n > 0 && Received(op, turns[n - 1].exchange, Decoded(e, f)) ==> reply == Submissions.Envelope(f, e))
    && (reply.Failed? && reply.delivery == Some(NotDispatched) ==>
          (n == 0 || Written(turns[n - 1].exchange) == 0) && (!(op.read && op.allowsRetry) ==> TotalWritten(turns, n) == 0))
    && (reply.Failed? && reply.delivery == Some(UnknownDelivery) ==> n > 0 && Written(turns[n - 1].exchange) > 0)
    && (reply.Failed? && reply.delivery == Some(ResponseReceived) ==>
          n > 0 && turns[n - 1].exchange.response.Some? && reply.status == turns[n - 1].exchange.response.value.status)
  }

  lemma CalledIsPromised(op: Operation, turns: seq<Turn>)
    requires AttemptLimit(op) <= |turns|
    ensures Promised(op, turns, Called(op, turns))
  {
    CalledIsTruthful(op, turns);
    if op.json {
      EnvelopeIff(op, turns);
    }
    if !(op.read && op.allowsRetry) {
      TotalOfOne(turns, Called(op, turns).attempts);
    }
  }

  /**
   The attempt loop. `attempts` is the number of exchanges made; for an operation that may not be retried there is
   at most one, and then "not dispatched" means that nothing was written.
   */
  method Execute(op: Operation, turns: seq<Turn>) returns (reply: Submissions.Reply, attempts: nat)
    requires |turns| >= AttemptLimit(op)
    ensures Report(reply, attempts) == Called(op, turns) && attempts <= AttemptLimit(op)
    ensures Truthful(op, turns, Report(reply, attempts)) && Promised(op, turns, Report(reply, attempts))
  {
    CalledIsTruthful(op, turns);
    CalledIsPromised(op, turns);
    var result := NothingYet;
    attempts := 0;
    var attempt := 1;
    while attempt <= AttemptLimit(op)
      invariant 1 <= attempt <= AttemptLimit(op) + 1 && attempts == attempt - 1
      invariant Called(op, turns) == AttemptsFrom(op, turns, attempt, result)
    {
      var turn := turns[attempt - 1];
      if attempt > 1 && turn.expiredBefore {
        return ReplyOf(op, Cut(result)), attempts;
      }
      if turn.waitError.Some? {
        if attempt > 1 {
          return ReplyOf(op, Cut(result)), attempts;
        }
        return Submissions.Failed(turn.waitError.value, Some(NotDispatched), 0), attempts;
      }
      result := DoAttempt(op, turn.exchange);
      attempts := attempts + 1;
      if !ShouldRetry(op, result, turn, attempt) {
        break;
      }
      if turn.backoffFails {
        return ReplyOf(op, Cut(result)), attempts;
      }
      attempt := attempt + 1;
    }
    reply := ReplyOf(op, result);
  }

  // ---------------------------------------------------------------- when "not dispatched" can be believed

  ghost predicate SaysNotDispatched(op: Operation, turns: seq<Turn>)
    requires AttemptLimit(op) <= |turns|
  {
    var reply := Called(op, turns).reply;
    reply.Failed? && reply.delivery == Some(NotDispatched)
  }

  /** Whenever the call reports "not dispatched", none of its attempts wrote a request. */
  ghost predicate ReportIsTrusted(op: Operation) {
    forall turns: seq<Turn> :: AttemptLimit(op) <= |turns| && SaysNotDispatched(op, turns) ==>
      TotalWritten(turns, Called(op, turns).attempts) == 0
  }

  /** One attempt writes its request and fails in a way worth retrying, the next fails before writing anything. */
  function MisleadingTurns(): seq<Turn> {
    var written := Turn(false, None, Exchange(true, 1, true, true, None), false, false);
    var unwritten := Turn(false, None, Exchange(true, 0, true, false, None), false, false);
    [written, unwritten, unwritten]
  }

  lemma RetriedReadMisleads(op: Operation)
    requires op.read && op.allowsRetry
    ensures SaysNotDispatched(op, MisleadingTurns())
    ensures TotalWritten(MisleadingTurns(), Called(op, MisleadingTurns()).attempts) == 1
  {
    var turns := MisleadingTurns();
    var first, second := DoAttempt(op, turns[0].exchange), DoAttempt(op, turns[1].exchange);
    assert Called(op, turns) == AttemptsFrom(op, turns, 2, first);
    assert Called(op, turns) == Report(ReplyOf(op, second), 2);
    assert TotalWritten(turns, 1) == 1;
  }

  /** The report can be believed exactly for operations that are not retried reads. */
  lemma ReportIsTrustedIff(op: Operation)
    ensures ReportIsTrusted(op) <==> !(op.read && op.allowsRetry)
  {
    if op.read && op.allowsRetry {
      RetriedReadMisleads(op);
    } else {
      forall turns: seq<Turn> | AttemptLimit(op) <= |turns| && SaysNotDispatched(op, turns)
        ensures TotalWritten(turns, Called(op, turns).attempts) == 0
      {
        SingleAttempt(op, turns);
      }
    }
  }

  lemma SingleAttempt(op: Operation, turns: seq<Turn>)
    requires !(op.read && op.allowsRetry) && AttemptLimit(op) <= |turns| && SaysNotDispatched(op, turns)
    ensures TotalWritten(turns, Called(op, turns).attempts) == 0
  {
    TotalOfOne(turns, Called(op, turns).attempts);
  }

  // ---------------------------------------------------------------- a product submission from end to end

  /**
   A mutation, classified: the result is valid unless the marketplace answered with an impossible HTTP status, and a
   proven rejection means that nothing was written or all was named.
   */
  method SubmitProduct(op: Operation, turns: seq<Turn>, members: seq<Member>)
    returns (result: Submission, attempts: nat, reply: Submissions.Reply)
    requires !op.read && |turns| >= 1 && Submissions.GoodMembers(members)
    ensures attempts <= 1 && Report(reply, attempts) == Called(op, turns) && result == Submissions.Classify(members, reply)
    ensures Submissions.Valid(result) <==> Submissions.PlausibleStatus(reply)
    ensures op.json ==> (result.disposition.Accepted? <==>
                          attempts == 1 && exists e :: Received(op, turns[0].exchange, Decoded(e, false)))
    ensures !Submissions.Valid(result) ==>
              attempts == 1 && turns[0].exchange.response.Some? && result.httpStatus == turns[0].exchange.response.value.status &&
              !(100 <= result.httpStatus <= 599)
    ensures result.disposition.RejectedProven? ==> Submissions.Covers(members, result.members)
    ensures result.disposition.RejectedProven? ==>
              || (result.delivery.NotDispatched? && TotalWritten(turns, attempts) == 0)
              || (result.delivery.ResponseReceived? && reply.Envelope? && Submissions.NamesAll(members, reply.additional))
    ensures TotalWritten(turns, attempts) > 0 ==> !result.delivery.NotDispatched?
  {
    reply, attempts := Execute(op, turns);
    if reply.Envelope? {
      result := Submissions.ClassifyEnvelope(members, reply.error, reply.additional);
    } else {
      result := Submissions.ClassifyFailure(members, reply);
      assert result.delivery == reply.delivery.value;
    }
    Submissions.RejectionCauses(members, reply);
    Submissions.ClassifiedIsValidIff(members, reply);
    TotalOfOne(turns, attempts);
  }

  lemma TotalOfOne(turns: seq<Turn>, n: nat)
    requires n <= 1 <= |turns|
    ensures TotalWritten(turns, n) == if n == 0 then 0 else Written(turns[0].exchange)
  {
  }
}
