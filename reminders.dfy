/** The contest reminder: one non-repeating notification request under a fixed
    identifier, fired 15 minutes before the contest starts. The notification center is
    a list of pending requests to which `add` appends. */
module Reminders {
  import opened Wrappers
  import opened Models

  const ReminderId := "contest-reminder"
  const ReminderTitle := "LeetCode Contest Reminder"
  const LeadSeconds := 15 * 60

  datatype NotificationRequest = NotificationRequest(
    identifier: string,
    title: string,
    body: string,
    fireAt: int,
    repeats: bool)

  /** The request built for a contest. */
  function ReminderFor(c: Contest): (r: NotificationRequest)
    ensures r.identifier == ReminderId && !r.repeats
    ensures r.fireAt + 900 == c.startTime
  {
    NotificationRequest(ReminderId, ReminderTitle, c.title + " starts in 15 minutes",
                        c.startTime - LeadSeconds, false)
  }

  /** The pending requests left after removing every one with the given identifier. */
  function Without(pending: seq<NotificationRequest>, id: string): (r: seq<NotificationRequest>)
    ensures forall x :: x in r <==> x in pending && x.identifier != id
    ensures |r| <= |pending|
  {
    if pending == [] then []
    else (if pending[0].identifier == id then [] else [pending[0]]) + Without(pending[1..], id)
  }

  /** How many pending requests carry the identifier. */
  function CountWithId(pending: seq<NotificationRequest>, id: string): nat {
    if pending == [] then 0
    else (if pending[0].identifier == id then 1 else 0) + CountWithId(pending[1..], id)
  }

  lemma {:induction false} WithoutConcat(a: seq<NotificationRequest>, b: seq<NotificationRequest>, id: string)
    ensures Without(a + b, id) == Without(a, id) + Without(b, id)
  {
    if a == [] {
      assert a + b == b;
    } else {
      assert (a + b)[0] == a[0] && (a + b)[1..] == a[1..] + b;
      WithoutConcat(a[1..], b, id);
    }
  }

  lemma {:induction false} WithoutIdempotent(pending: seq<NotificationRequest>, id: string)
    ensures Without(Without(pending, id), id) == Without(pending, id)
  {
    if pending != [] {
      var head := if pending[0].identifier == id then [] else [pending[0]];
      WithoutConcat(head, Without(pending[1..], id), id);
      WithoutIdempotent(pending[1..], id);
      assert Without(head, id) == head by {
        if head != [] {
          assert head[1..] == [];
        }
      }
    }
  }

  lemma {:induction false} NoneLeft(pending: seq<NotificationRequest>, id: string)
    ensures CountWithId(Without(pending, id), id) == 0
  {
    if pending != [] {
      NoneLeft(pending[1..], id);
      var head := if pending[0].identifier == id then [] else [pending[0]];
      CountConcat(head, Without(pending[1..], id), id);
    }
  }

  lemma {:induction false} CountConcat(a: seq<NotificationRequest>, b: seq<NotificationRequest>, id: string)
    ensures CountWithId(a + b, id) == CountWithId(a, id) + CountWithId(b, id)
  {
    if a == [] {
      assert a + b == b;
    } else {
      assert (a + b)[0] == a[0] && (a + b)[1..] == a[1..] + b;
      CountConcat(a[1..], b, id);
    }
  }

  /** The pending requests after `scheduleNotification`: unchanged without a contest or
      without permission; otherwise every pending reminder is removed and the new one
      is appended. */
  function Scheduled(pending: seq<NotificationRequest>, contest: Option<Contest>, granted: bool): seq<NotificationRequest> {
    if contest.None? || !granted then pending
    else Without(pending, ReminderId) + [ReminderFor(contest.value)]
  }

  /** After scheduling, exactly one reminder is pending, it is the new contest's, and
      every other pending request is kept in order. */
  lemma {:induction false} ScheduledKeepsOneReminder(pending: seq<NotificationRequest>, c: Contest)
    ensures var after := Scheduled(pending, Some(c), true);
      && CountWithId(after, ReminderId) == 1
      && after[|after| - 1] == ReminderFor(c)
      && Without(after, ReminderId) == Without(pending, ReminderId)
  {
    var r := ReminderFor(c);
    NoneLeft(pending, ReminderId);
    CountConcat(Without(pending, ReminderId), [r], ReminderId);
    assert [r][1..] == [];
    WithoutConcat(Without(pending, ReminderId), [r], ReminderId);
    WithoutIdempotent(pending, ReminderId);
    assert Without([r], ReminderId) == [];
    assert Without(pending, ReminderId) + [] == Without(pending, ReminderId);
  }

  /** Scheduling the same contest twice leaves the same pending requests as once. */
  lemma {:induction false} ScheduleIdempotent(pending: seq<NotificationRequest>, contest: Option<Contest>, granted: bool)
    ensures Scheduled(Scheduled(pending, contest, granted), contest, granted) == Scheduled(pending, contest, granted)
  {
    if contest.Some? && granted {
      ScheduledKeepsOneReminder(pending, contest.value);
    }
  }

  /** `UNUserNotificationCenter` as far as the reminder uses it: the user's answer to the
      authorization request and the list of pending requests. */
  class NotificationCenter {
    var authorizationGranted: bool
    var pending: seq<NotificationRequest>

    constructor (granted: bool, initial: seq<NotificationRequest>)
      ensures authorizationGranted == granted && pending == initial
    {
      authorizationGranted := granted;
      pending := initial;
    }

    method RequestAuthorization() returns (granted: bool)
      ensures granted == authorizationGranted
    {
      granted := authorizationGranted;
    }

    method RemovePending(id: string)
      modifies this
      ensures pending == Without(old(pending), id)
      ensures authorizationGranted == old(authorizationGranted)
    {
      pending := Without(pending, id);
    }

    method Add(request: NotificationRequest)
      modifies this
      ensures pending == old(pending) + [request]
      ensures authorizationGranted == old(authorizationGranted)
    {
      pending := pending + [request];
    }
  }
}
