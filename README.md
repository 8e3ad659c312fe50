# Notification delivery pipeline, modelled in Dafny

This project models the asynchronous delivery pipeline of a notification
service. The API stores a notification with status "pending" and puts its id
on a task queue. A worker task loads the notification and routes it by
`notification_type`: "email" goes to SendGrid, "sms" goes to Twilio, and any
other type is in-app. The task writes "sent" or "failed". On failure it asks
the queue to run it again after `30 * (retries + 1)` seconds, until the cap of
three retries is reached. A connection manager keeps a list of
(websocket, user id) entries and pushes messages to every entry of one user.

Modules:

- `Adapters` (`adapters.dfy`) holds the result mappings of `send_email` and `send_sms`. Each gateway call is replaced by the response it produced or by the fact that it raised.
- `RetryPolicy` (`retry.dfy`) holds the countdown and the choice between retrying and giving up.
- `Store` (`store.dfy`) holds the `notifications` table as a class over a map and the dispatch queue as a class over a sequence of jobs. It also models `create_notification` and `get_notifications`.
- `Worker` (`worker.dfy`) holds one execution of `send_notification_task`. `Attempt` is a function that specifies it, and `SendNotificationTask` is a method that updates the table and the queue in place. `Run` chains executions the way the queue re-runs a retried task, and the lemmas about it cover the whole retry story.
- `Connections` (`connections.dfy`) holds `ConnectionManager` as a class with its entry list and an explicit log of every `send_text` call. It also models the disconnect branch of the websocket handler.

## Behaviour notes

- A notification id that is not found is retried like any other failure. The `ValueError` is raised inside the `try`, so it reaches the retry path.
- With `max_retries=3` the task runs up to four times: the first execution and three retries.
- Disconnect uses `list.remove`, which raises when the entry is absent. So removal is not idempotent.
- Status is never reset to "pending" before a retry. Between executions a retried notification reads "failed".
- `create_notification` calls `delay` after the commit, with no `try` around it. If the broker refuses the message, the request fails, the row stays committed as "pending", and no job is queued. No execution of the task will ever move that row off "pending".
- `send_sms` calls `client.message.create`. As far as the Twilio client is known, it offers `messages`, not `message`. If so, the lookup raises inside the `try`, and `send_sms` returns false on every call. Then every "sms" notification ends "failed" after four executions. The model covers this as a raised call; it is not assumed either way.
- `send_personal_message` has no `try` around `send_text`. A send that raises ends the walk, and later matching entries get nothing.

## Model

| member | source | states |
|---|---|---|
| Adapters.SendEmail | app/celery_worker.py:39-49 | true exactly when SendGrid returned status 202; any other code, and any exception, gives false |
| Adapters.SendSms | app/celery_worker.py:53-70 | true exactly when Twilio returned a message with a present, non-empty sid; a missing or empty sid, and any exception, gives false |
| RetryPolicy.Countdown | app/celery_worker.py:114 | the countdown for retry count r is positive, a multiple of 30, and equal to 30 times (r + 1) |
| RetryPolicy.CountdownIncreasing | app/celery_worker.py:114 | countdowns strictly increase with the retry count |
| RetryPolicy.RetryDecision | app/celery_worker.py:112-116 | after a failure the task never reports success; it retries exactly when retries < max_retries (an assumption about the task library) with countdown 30*(retries+1), and gives up otherwise |
| Store.CreateNotification | app/main.py:46-60 | commits one record under an id not used before, holding the request's user id, message and type and the column default status "pending" (app/models.py:18), and the owner's listing gains exactly that record; when the broker accepts the message, enqueues exactly that id with retry count 0 and answers "queued" with the same id; otherwise raises, queues nothing and leaves the row "pending" |
| Store.GetNotifications | app/main.py:62-65 | every stored notification of the user is returned, and everything returned is a stored notification of that user |
| Store.ListingAfterCreate | app/main.py:46-65 | after inserting a pending record under a fresh id, the owner's listing is the old listing plus that record, and every other user's listing is unchanged |
| Worker.Route | app/celery_worker.py:84-97 | "email" routes to the email adapter, "sms" to the SMS adapter, and every other type string to no adapter |
| Worker.Delivered | app/celery_worker.py:84-97 | the success flag is the email or SMS adapter's result for those types, and true for every other type |
| Worker.Attempt | app/celery_worker.py:73-119 | a missing id writes nothing, calls no adapter and takes the retry path; for a found id, status becomes "sent" iff the adapter succeeded and "failed" iff it did not, only the status changes, and no other row changes; the outcome is Done iff the notification was found and delivered, and otherwise it is the retry decision |
| Worker.SendNotificationTask | app/celery_worker.py:73-119 | the table, outcome and adapter called are those of Attempt; a granted retry appends exactly one job for the same id with retry count + 1 and the countdown; nothing else is enqueued |
| Worker.Run | app/celery_worker.py:73-116 | re-running a retried task keeps the table's keys and performs between one execution and one per script entry |
| Worker.RunBounded | app/celery_worker.py:112-116 | a run makes at most max_retries - retries + 1 executions; a run that stops with a retry pending used its whole script; the k-th countdown is 30*(retries+k+1) |
| Worker.RunSettles | app/celery_worker.py:100-110 | a found notification is never left "pending" after processing; other rows and the key set are unchanged |
| Worker.RunAlwaysFailing | app/celery_worker.py:100-116 | if the adapter fails on every execution, the run gives up after exactly max_retries - retries + 1 executions, with status "failed" |
| Worker.RunSucceedsAt | app/celery_worker.py:100-104 | if the adapter first succeeds on execution j within the cap, the run ends Done after exactly j + 1 executions, with status "sent", and schedules nothing more |
| Worker.RunNotFound | app/celery_worker.py:79-116 | an id that is not in the table is never written, yet it is retried until the cap and then given up |
| Worker.InAppSentAtOnce | app/celery_worker.py:95-104 | a type other than "email" or "sms" calls no adapter and is "sent" on the first execution, with no retry |
| Worker.EmailAlwaysFailingWithDefaultCap | app/celery_worker.py:73-116 | with the cap of 3, an email that never gets 202 runs four times, waits 30, 60 and 90 seconds between runs, and ends "failed" |
| Connections.Deliveries | app/main.py:28-31 | pushing to a user makes no more sends than there are entries, and each send carries the message to a websocket registered for that user; the exact per-entry count is DeliveriesCount |
| Connections.DeliveriesConcat | app/main.py:29-31 | pushing to a concatenation of entry lists sends to the first part and then the second, so sends follow list order |
| Connections.DeliveriesCount | app/main.py:29-31 | each websocket receives exactly one copy per entry it has for that user, and none through entries of other users |
| Connections.DeliveriesNoMatch | app/main.py:29-31 | with no entry for the user, pushing sends nothing |
| Connections.BothRegistrationsReceive | app/main.py:27-31 | two registrations for one user both receive a push to that user |
| Connections.Reached | app/main.py:28-31 | the walk stops at the first entry for the user whose send raises, or at the end of the list; no entry before it is one whose send raises |
| Connections.ReachedAllWhenNoneRaise | app/main.py:28-31 | when no send to the user's websockets raises, the walk covers the whole list |
| Connections.FirstIndex | app/main.py:42 | the position of the first entry equal to the given one |
| Connections.RemoveFirst | app/main.py:42 | removal takes away exactly one copy of the entry, shortens the list by one, and keeps the entries before and after it in order |
| Connections.PushAfterDisconnect | app/main.py:28-42 | after a disconnect, every other registration of the user still receives as many copies as before, and the removed websocket one copy fewer |
| Connections.PushAfterDisconnectOrder | app/main.py:28-42 | after a disconnect, a push sends to the entries before the removed one and then to those after it, in their old order |
| Connections.RemoveNotIdempotent | app/main.py:42 | an entry registered once is gone after one removal, so a second removal of it raises |
| Connections.ConnectionManager.constructor | app/main.py:23-24 | the registry starts with no entries and no sends |
| Connections.ConnectionManager.Connect | app/main.py:25-27 | appends exactly one entry (ws, user id) at the end; the existing entries and the send log are unchanged |
| Connections.ConnectionManager.SendPersonalMessage | app/main.py:28-31 | the entries are unchanged; the send log grows by exactly the sends to matching entries, in list order, up to the first matching entry whose send raises; it raises exactly when such an entry exists |
| Connections.HandleDisconnect | app/main.py:41-42 | raises exactly when no entry equals (ws, user id), and then changes nothing; otherwise removes the first equal entry |

## Left out

- Logging, the network probe and `print` at import time, and `load_dotenv` are left out. They are side-effecting I/O.
- The SendGrid and Twilio clients, credentials from environment variables, and the fixed sender and recipient addresses are left out. Each call is modelled only by its response or by the fact that it raised.
- The broker and Redis configuration are left out. So are the internals of the task library's `retry` and `MaxRetriesExceededError`.
- RetryPolicy.RetryDecision: the retry cap is an assumption. A retry is granted exactly when the retry count is below `max_retries`. Otherwise `GiveUp`: no further execution is scheduled and the status stays "failed". What the library raises at the cap when `exc` is passed is not modelled. Whether the `except MaxRetriesExceededError` branch catches it is not modelled either.
- Worker.SendNotificationTask: SQLAlchemy session mechanics are not modelled. A committed status write is an update of the map. Commit and rollback failures are not modelled.
- The gap between a failed commit and the rollback is not modelled. The failure status is already committed before the `except` branch rewrites it.
- The status column is a string. The model uses the three values the pipeline writes.
- Store.CreateNotification: ids come from a counter starting at 1. This stands in for the database's auto-increment key. The database, HTTP routing, request validation and `get_db` are not modelled.
- Store.GetNotifications: the query has no ORDER BY, so the listing is modelled as a set of rows. Any row order is out of scope.
- Websocket accept, receive and send are left out as transport I/O. The model records each `send_text` call that returns in the send log. Which sends raise is a parameter. The receive loop is not modelled.
- Async interleaving is left out. For example, a disconnect could remove an entry while `send_personal_message` is suspended. Each operation is modelled as one atomic step.
- The unused `User` table is left out.
