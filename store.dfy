/** The notification records, the table that holds them, the dispatch queue
    that carries notification ids to the worker, and the two HTTP operations
    that touch them: creating a notification and listing a user's notifications. */
module Store {

  /** The values the delivery pipeline writes into the `status` column. */
  datatype Status = Pending | Sent | Failed

  /** A row of the `notifications` table. `notificationType` is kept as the
      free string the API accepts: only "email" and "sms" are special. */
  datatype Notification = Notification(
    id: int,
    userId: int,
    message: string,
    notificationType: string,
    status: Status)

  /** The body of `POST /notifications`. */
  datatype NotificationRequest = NotificationRequest(userId: int, message: string, notificationType: string)

  /** The JSON answer of `POST /notifications`. */
  datatype CreateResponse = CreateResponse(message: string, notificationId: int)

  /** How `create_notification` ends: with its JSON answer, or with the
      exception `delay` raised after the row `notificationId` was committed. */
  datatype CreateResult = Answered(response: CreateResponse) | EnqueueRaised(notificationId: int)
  {
    /** The id of the row the call committed. */
    function CommittedId(): int
    {
      match this
      case Answered(response) => response.notificationId
      case EnqueueRaised(id) => id
    }
  }

  /** One message on the queue: run the delivery task for `notificationId`
      with retry count `retries`, not before `countdown` seconds have passed. */
  datatype Job = Job(notificationId: int, retries: nat, countdown: nat)

  /** Every row is stored under its own id, and ids come from an
      auto-increment counter starting at 1. */
  ghost predicate WellKeyed(rows: map<int, Notification>, nextId: int)
  {
    1 <= nextId && forall k :: k in rows ==> rows[k].id == k && 1 <= k < nextId
  }

  /** The `notifications` table. A committed write is an update of `rows`. */
  class NotificationStore {
    var rows: map<int, Notification>
    var nextId: int

    ghost predicate Valid()
      reads this
    {
      WellKeyed(rows, nextId)
    }

    constructor ()
      ensures Valid() && rows == map[] && nextId == 1
    {
      rows := map[];
      nextId := 1;
    }
  }

  /** The broker queue of delivery jobs, in the order they were sent. */
  class DispatchQueue {
    var jobs: seq<Job>

    constructor ()
      ensures jobs == []
    {
      jobs := [];
    }
  }

  /** `create_notification`: insert and commit a record under a fresh id
      holding the request's user id, message and type and the column default
      status "pending", then put exactly that id on the queue with no delay and
      answer "queued" with the id. `published` says whether the broker accepted
      the message; when it did not, `delay` raises after the commit, so the
      row stays "pending", nothing is queued and the request fails. */
  method CreateNotification(store: NotificationStore, queue: DispatchQueue, request: NotificationRequest,
                            published: bool)
    returns (result: CreateResult)
    requires store.Valid()
    modifies store, queue
    ensures store.Valid()
    ensures result.Answered? <==> published
    ensures result.Answered? ==> result.response.message == "queued"
    ensures result.CommittedId() !in old(store.rows)
    ensures store.rows == old(store.rows)[result.CommittedId() := Notification(result.CommittedId(), request.userId, request.message, request.notificationType, Pending)]
    ensures GetNotifications(store.rows, request.userId)
         == GetNotifications(old(store.rows), request.userId) + {Notification(result.CommittedId(), request.userId, request.message, request.notificationType, Pending)}
    ensures queue.jobs == old(queue.jobs) + if published then [Job(result.CommittedId(), 0, 0)] else []
  {
    var id := store.nextId;
    ListingAfterCreate(store.rows, id, request, request.userId);
    store.rows := store.rows[id := Notification(id, request.userId, request.message, request.notificationType, Pending)];
    store.nextId := store.nextId + 1;
    if published {
      queue.jobs := queue.jobs + [Job(id, 0, 0)];
      result := Answered(CreateResponse("queued", id));
    } else {
      result := EnqueueRaised(id);
    }
  }

  /** `get_notifications`: the stored notifications owned by `userId`. The
      query has no ORDER BY, so the answer is a set of rows. */
  function GetNotifications(rows: map<int, Notification>, userId: int): (found: set<Notification>)
    ensures forall k :: k in rows && rows[k].userId == userId ==> rows[k] in found
    ensures forall n :: n in found ==> n.userId == userId && exists k :: k in rows && rows[k] == n
  {
    set k | k in rows && rows[k].userId == userId :: rows[k]
  }

  /** After a notification is created for `request.userId`, that user's
      listing gains exactly the new pending record, and every other user's
      listing is unchanged. */
  lemma ListingAfterCreate(rows: map<int, Notification>, nextId: int, request: NotificationRequest, userId: int)
    requires WellKeyed(rows, nextId)
    ensures nextId !in rows
    ensures GetNotifications(rows[nextId := Notification(nextId, request.userId, request.message, request.notificationType, Pending)], userId)
         == if userId == request.userId
            then GetNotifications(rows, userId) + {Notification(nextId, request.userId, request.message, request.notificationType, Pending)}
            else GetNotifications(rows, userId)
  {
    var after := rows[nextId := Notification(nextId, request.userId, request.message, request.notificationType, Pending)];
    var extra := if userId == request.userId then {Notification(nextId, request.userId, request.message, request.notificationType, Pending)} else {};
    forall n ensures n in GetNotifications(after, userId) <==> n in GetNotifications(rows, userId) + extra {
      if n in GetNotifications(after, userId) {
        var k :| k in after && after[k] == n;
        if k != nextId { assert rows[k] == n; }
      }
      if n in GetNotifications(rows, userId) {
        var k :| k in rows && rows[k] == n;
        assert k != nextId && after[k] == n;
      }
      if n in extra { assert after[nextId] == n; }
    }
  }
}
