/**
 * The meeting controller: `createMeeting` inserts a meeting under a fresh id,
 * `getMeeting` looks a meeting up and, when it is active, adds the requester
 * to its participants in place. The collection is a map keyed by `meetingId`
 * (a unique index in the schema).
 */
module Meetings {
  import opened Common

  type UserId = string

  datatype Meeting = Meeting(meetingId: string, host: UserId, participants: seq<UserId>, isActive: bool)

  /** A successful response: the status code and the meeting document. */
  datatype Reply = Reply(status: int, meeting: Meeting)

  predicate NoDuplicates(s: seq<UserId>)
  {
    forall i, j :: 0 <= i < j < |s| ==> s[i] != s[j]
  }

  /** The participant update of `getMeeting`: push the requester unless already present. */
  function Admit(m: Meeting, u: UserId): (r: Meeting)
    ensures u in r.participants
    ensures r.meetingId == m.meetingId && r.host == m.host && r.isActive == m.isActive
    ensures u in m.participants ==> r == m
    ensures u !in m.participants ==> r.participants == m.participants + [u]
    ensures NoDuplicates(m.participants) ==> NoDuplicates(r.participants)
  {
    if u in m.participants then m else m.(participants := m.participants + [u])
  }

  /** Repeated joins by the same user change nothing after the first. */
  lemma AdmitIdempotent(m: Meeting, u: UserId)
    ensures Admit(Admit(m, u), u) == Admit(m, u)
  {
  }

  /** The meeting after `us` join it one after another. */
  function AdmitAll(m: Meeting, us: seq<UserId>): Meeting
    decreases |us|
  {
    if us == [] then m else AdmitAll(Admit(m, us[0]), us[1..])
  }

  /**
   * After any sequence of joins, the participants are the earlier ones, in
   * their order, followed by the newcomers; every joiner is present and no
   * one appears twice.
   */
  lemma {:induction false} AdmitAllParticipants(m: Meeting, us: seq<UserId>)
    requires NoDuplicates(m.participants)
    ensures var r := AdmitAll(m, us);
            && m.participants <= r.participants
            && (forall x :: x in r.participants <==> x in m.participants || x in us)
            && NoDuplicates(r.participants)
            && r.host == m.host && r.meetingId == m.meetingId && r.isActive == m.isActive
    decreases |us|
  {
    if us != [] {
      var m' := Admit(m, us[0]);
      AdmitAllParticipants(m', us[1..]);
      var r := AdmitAll(m, us);
      assert r == AdmitAll(m', us[1..]);
      forall x ensures x in r.participants <==> x in m.participants || x in us {
        assert x in us <==> x == us[0] || x in us[1..];
      }
    }
  }

  class MeetingTable {
    var meetings: map<string, Meeting>

    ghost predicate Valid()
      reads this
    {
      forall k :: k in meetings ==> meetings[k].meetingId == k && NoDuplicates(meetings[k].participants)
    }

    constructor ()
      ensures Valid() && meetings == map[]
    {
      meetings := map[];
    }

    /** `createMeeting` with `freshId` standing for the generated uuid. */
    method CreateMeeting(requester: UserId, freshId: string) returns (reply: Reply)
      requires Valid() && freshId !in meetings
      modifies this
      ensures Valid()
      ensures reply.status == 201
      ensures reply.meeting == Meeting(freshId, requester, [requester], true)
      ensures meetings == old(meetings)[freshId := reply.meeting]
    {
      var m := Meeting(freshId, requester, [requester], true);
      meetings := meetings[freshId := m];
      reply := Reply(201, m);
    }

    /** `getMeeting`: 404 for an unknown or inactive meeting; otherwise admit the requester. */
    method GetMeeting(requester: UserId, meetingId: string) returns (r: Result<Meeting, HttpError>)
      requires Valid()
      modifies this
      ensures Valid()
      ensures !(meetingId in old(meetings) && old(meetings)[meetingId].isActive) ==>
                r == Err(HttpError(404, "Meeting not found or ended")) && meetings == old(meetings)
      ensures meetingId in old(meetings) && old(meetings)[meetingId].isActive ==>
                && r == Ok(Admit(old(meetings)[meetingId], requester))
                && meetings == old(meetings)[meetingId := r.value]
                && requester in r.value.participants
                && old(meetings)[meetingId].participants <= r.value.participants
    {
      if meetingId in meetings && meetings[meetingId].isActive {
        var m := meetings[meetingId];
        if requester !in m.participants {
          m := m.(participants := m.participants + [requester]);
          meetings := meetings[meetingId := m];
        }
        r := Ok(m);
      } else {
        r := Err(HttpError(404, "Meeting not found or ended"));
      }
    }
  }
}
