/** The delivery task `send_notification_task`: one execution loads a
    notification, routes it to an adapter, writes its status and either
    finishes or asks the queue for a retry. `Run` strings executions together
    the way the task queue re-runs a retried task. */
module Worker {
  import opened Adapters
  import opened RetryPolicy
  import opened Store

  /** Which gateway adapter an execution called. */
  datatype Adapter = EmailAdapter | SmsAdapter | NoAdapter

  /** What the two gateways would do if called during one execution. */
  datatype Responses = Responses(email: EmailResponse, sms: SmsResponse)

  /** The branch on `notification_type`: "email" and "sms" have adapters,
      every other string is an in-app notification. */
  function Route(notificationType: string): (adapter: Adapter)
    ensures adapter == EmailAdapter <==> notificationType == "email"
    ensures adapter == SmsAdapter <==> notificationType == "sms"
  {
    if notificationType == "email" then EmailAdapter
    else if notificationType == "sms" then SmsAdapter
    else NoAdapter
  }

  /** The `success` flag of one execution for a notification of this type. */
  function Delivered(notificationType: string, responses: Responses): (success: bool)
    ensures Route(notificationType) == NoAdapter ==> success
    ensures Route(notificationType) == EmailAdapter ==> (success <==> responses.email == EmailReturned(202))
    ensures Route(notificationType) == SmsAdapter ==> (success <==> SendSms(responses.sms))
  {
    match Route(notificationType)
    case EmailAdapter => SendEmail(responses.email)
    case SmsAdapter => SendSms(responses.sms)
    case NoAdapter => true
  }

  /** The table, the outcome and the adapter called after one execution. */
  datatype AttemptResult = AttemptResult(rows: map<int, Notification>, outcome: TaskOutcome, called: Adapter)

  /** One execution of the task for `id` with retry count `retries`, as a
      function of the table before it and of what the gateways do. */
  function Attempt(rows: map<int, Notification>, id: int, retries: nat, maxRetries: nat, responses: Responses)
    : (r: AttemptResult)
    // a missing id writes nothing and calls nothing, but still takes the retry path
    ensures id !in rows ==> r.rows == rows && r.called == NoAdapter && r.outcome == RetryDecision(retries, maxRetries)
    // a found notification gets "sent" exactly when its adapter reported success
    ensures id in rows ==> (r.rows.Keys == rows.Keys
                            && r.rows[id] == rows[id].(status := r.rows[id].status)
                            && (r.rows[id].status == Sent <==> Delivered(rows[id].notificationType, responses))
                            && (r.rows[id].status == Failed <==> !Delivered(rows[id].notificationType, responses))
                            && r.called == Route(rows[id].notificationType))
    // no other row changes
    ensures forall k :: k in rows && k != id ==> k in r.rows && r.rows[k] == rows[k]
    // a successful execution schedules nothing; every failure asks for a retry or gives up
    ensures r.outcome == Done <==> id in rows && Delivered(rows[id].notificationType, responses)
    ensures r.outcome != Done ==> r.outcome == RetryDecision(retries, maxRetries)
  {
    if id !in rows then
      AttemptResult(rows, RetryDecision(retries, maxRetries), NoAdapter)
    else
      var n := rows[id];
      var success := Delivered(n.notificationType, responses);
      var written := rows[id := n.(status := if success then Sent else Failed)];
      AttemptResult(written, if success then Done else RetryDecision(retries, maxRetries), Route(n.notificationType))
  }

  /** `send_notification_task`: one execution against the table and the
      queue. A granted retry puts the same id back on the queue with the
      retry count raised by one and the countdown of this execution. */
  method SendNotificationTask(store: NotificationStore, queue: DispatchQueue, id: int, retries: nat,
                              maxRetries: nat, responses: Responses)
    returns (outcome: TaskOutcome, called: Adapter)
    requires store.Valid()
    modifies store, queue
    ensures store.Valid() && store.nextId == old(store.nextId)
    ensures store.rows == Attempt(old(store.rows), id, retries, maxRetries, responses).rows
    ensures outcome == Attempt(old(store.rows), id, retries, maxRetries, responses).outcome
    ensures called == Attempt(old(store.rows), id, retries, maxRetries, responses).called
    ensures queue.jobs == old(queue.jobs) + if outcome.Retry? then [Job(id, retries + 1, outcome.countdown)] else []
  {
    called := NoAdapter;
    var raised := false;       // an exception reached the `except` branch
    var found := id in store.rows;
    if !found {
      raised := true;          // ValueError: not found
    } else {
      var n := store.rows[id];
      var success: bool;
      if n.notificationType == "email" {
        called := EmailAdapter;
        success := SendEmail(responses.email);
      } else if n.notificationType == "sms" {
        called := SmsAdapter;
        success := SendSms(responses.sms);
      } else {
        success := true;
      }
      store.rows := store.rows[id := n.(status := if success then Sent else Failed)];
      if !success {
        raised := true;        // ValueError: failed to send
      }
    }
    if raised {
      if found {
        store.rows := store.rows[id := store.rows[id].(status := Failed)];
      }
      outcome := RetryDecision(retries, maxRetries);
      if outcome.Retry? {
        queue.jobs := queue.jobs + [Job(id, retries + 1, outcome.countdown)];
      }
    } else {
      outcome := Done;
    }
  }

  /** The story of one notification across executions of the task. */
  datatype RunResult = RunResult(rows: map<int, Notification>, executions: nat, countdowns: seq<nat>, last: TaskOutcome)

  /** Executions for `id` starting at retry count `retries`, one per entry of
      `script` (what the gateways do during that execution), for as long as
      each execution is granted a retry. `last` is the outcome of the final
      execution; it is `Retry` only when the script ends first. */
  function Run(rows: map<int, Notification>, id: int, retries: nat, maxRetries: nat, script: seq<Responses>)
    : (r: RunResult)
    requires |script| > 0
    ensures r.rows.Keys == rows.Keys
    ensures 1 <= r.executions <= |script|
    decreases |script|
  {
    var a := Attempt(rows, id, retries, maxRetries, script[0]);
    if a.outcome.Retry? && |script| > 1 then
      var rest := Run(a.rows, id, retries + 1, maxRetries, script[1..]);
      RunResult(rest.rows, rest.executions + 1, [a.outcome.countdown] + rest.countdowns, rest.last)
    else
      RunResult(a.rows, 1, if a.outcome.Retry? then [a.outcome.countdown] else [], a.outcome)
  }

  /** The cap bounds the executions: at most one first run plus `maxRetries`
      retries, each waiting `30 * (k + 1)` for retry count k, so the waits
      strictly increase; and a run that stopped with a retry pending used up
      its whole script. */
  lemma {:induction false} RunBounded(rows: map<int, Notification>, id: int, retries: nat, maxRetries: nat,
                                      script: seq<Responses>)
    requires |script| > 0 && retries <= maxRetries
    ensures var r := Run(rows, id, retries, maxRetries, script);
            1 <= r.executions <= maxRetries - retries + 1
            && r.executions <= |script|
            && (r.last.Retry? ==> r.executions == |script|)
            && |r.countdowns| == (if r.last.Retry? then r.executions else r.executions - 1)
            && (forall k :: 0 <= k < |r.countdowns| ==> r.countdowns[k] == Countdown(retries + k))
    decreases |script|
  {
    var a := Attempt(rows, id, retries, maxRetries, script[0]);
    if a.outcome.Retry? && |script| > 1 {
      RunBounded(a.rows, id, retries + 1, maxRetries, script[1..]);
    }
  }

  /** The table's keys never change, and once a found notification has been
      processed its status is never left "pending". */
  lemma {:induction false} RunSettles(rows: map<int, Notification>, id: int, retries: nat, maxRetries: nat,
                                      script: seq<Responses>)
    requires |script| > 0
    ensures var r := Run(rows, id, retries, maxRetries, script);
            r.rows.Keys == rows.Keys
            && (id in rows ==> r.rows[id].status in {Sent, Failed})
            && (forall k :: k in rows && k != id ==> r.rows[k] == rows[k])
    decreases |script|
  {
    var a := Attempt(rows, id, retries, maxRetries, script[0]);
    if a.outcome.Retry? && |script| > 1 {
      RunSettles(a.rows, id, retries + 1, maxRetries, script[1..]);
    }
  }

  /** A notification whose adapter fails on every execution is run once plus
      once per remaining retry, ends "failed", and is given up. */
  lemma {:induction false} RunAlwaysFailing(rows: map<int, Notification>, id: int, retries: nat, maxRetries: nat,
                                            script: seq<Responses>)
    requires id in rows && retries <= maxRetries && |script| > maxRetries - retries
    requires forall k :: 0 <= k < |script| ==> !Delivered(rows[id].notificationType, script[k])
    ensures var r := Run(rows, id, retries, maxRetries, script);
            r.last == GiveUp && r.executions == maxRetries - retries + 1 && r.rows[id].status == Failed
    decreases |script|
  {
    var a := Attempt(rows, id, retries, maxRetries, script[0]);
    assert !Delivered(rows[id].notificationType, script[0]);
    if retries < maxRetries {
      assert a.rows[id].notificationType == rows[id].notificationType;
      assert forall k :: 0 <= k < |script[1..]| ==> script[1..][k] == script[k + 1];
      RunAlwaysFailing(a.rows, id, retries + 1, maxRetries, script[1..]);
    }
  }

  /** A notification whose adapter first succeeds on execution `j` (counting
      from 0), while retries are still available, ends "sent" after exactly
      `j + 1` executions and schedules nothing more. */
  lemma {:induction false} RunSucceedsAt(rows: map<int, Notification>, id: int, retries: nat, maxRetries: nat,
                                         script: seq<Responses>, j: nat)
    requires id in rows && j < |script| && retries + j <= maxRetries
    requires forall k :: 0 <= k < j ==> !Delivered(rows[id].notificationType, script[k])
    requires Delivered(rows[id].notificationType, script[j])
    ensures var r := Run(rows, id, retries, maxRetries, script);
            r.last == Done && r.executions == j + 1 && r.rows[id].status == Sent
    decreases |script|
  {
    var a := Attempt(rows, id, retries, maxRetries, script[0]);
    if j > 0 {
      assert !Delivered(rows[id].notificationType, script[0]);
      assert a.rows[id].notificationType == rows[id].notificationType;
      assert forall k :: 0 <= k < |script[1..]| ==> script[1..][k] == script[k + 1];
      RunSucceedsAt(a.rows, id, retries + 1, maxRetries, script[1..], j - 1);
    }
  }

  /** An id that is not in the table is never written, yet it is retried
      until the cap like any other failure. */
  lemma {:induction false} RunNotFound(rows: map<int, Notification>, id: int, retries: nat, maxRetries: nat,
                                       script: seq<Responses>)
    requires id !in rows && retries <= maxRetries && |script| > maxRetries - retries
    ensures var r := Run(rows, id, retries, maxRetries, script);
            r.rows == rows && r.last == GiveUp && r.executions == maxRetries - retries + 1
    decreases |script|
  {
    if retries < maxRetries {
      RunNotFound(rows, id, retries + 1, maxRetries, script[1..]);
    }
  }

  /** An in-app notification (any type other than "email" or "sms") is sent
      on its first execution without calling an adapter. */
  lemma InAppSentAtOnce(rows: map<int, Notification>, id: int, maxRetries: nat, script: seq<Responses>)
    requires id in rows && |script| > 0
    requires rows[id].notificationType != "email" && rows[id].notificationType != "sms"
    ensures Attempt(rows, id, 0, maxRetries, script[0]).called == NoAdapter
    ensures var r := Run(rows, id, 0, maxRetries, script);
            r.last == Done && r.executions == 1 && r.rows[id].status == Sent && r.countdowns == []
  {
  }

  /** With the decorator's cap of 3, an email whose gateway never answers 202
      is executed four times (the first run and three retries), ends
      "failed", and waited 30, 60 and 90 seconds between executions. */
  lemma EmailAlwaysFailingWithDefaultCap(rows: map<int, Notification>, id: int, script: seq<Responses>)
    requires id in rows && rows[id].notificationType == "email" && |script| >= 4
    requires forall k :: 0 <= k < |script| ==> script[k].email != EmailReturned(202)
    ensures var r := Run(rows, id, 0, MaxRetries, script);
            r.last == GiveUp && r.executions == 4 && r.rows[id].status == Failed && r.countdowns == [30, 60, 90]
  {
    RunAlwaysFailing(rows, id, 0, MaxRetries, script);
    RunBounded(rows, id, 0, MaxRetries, script);
  }
}
