/** The card that shows one meeting on the home page: its duration, the
    actions open to it, the tags that can still be attached, and the
    handlers behind its buttons. Date parsing and locale formatting are
    not part of this model: the start and end times are integer
    milliseconds. */
module MeetingCard {
  import opened Common
  import opened ClientApi

  const HourMs: int := 3600000
  const MinuteMs: int := 60000
  const SecondMs: int := 1000

  /** JavaScript's `%`: the remainder takes the sign of the dividend. */
  function JsRem(a: int, b: int): (r: int)
    requires b > 0
    ensures a >= 0 ==> r == a % b
    ensures a < 0 ==> -b < r <= 0
  {
    if a >= 0 then a % b else -((-a) % b)
  }

  /** Math.floor(a / b) for a positive divisor. Dafny's division rounds
      toward negative infinity when the divisor is positive. */
  function FloorDiv(a: int, b: int): (q: int)
    requires b > 0
    ensures q * b <= a < q * b + b
  {
    a / b
  }

  datatype Duration = Duration(hours: int, minutes: int, seconds: int)

  /** The three numbers displayDuration prints. */
  function DurationParts(startMs: int, endMs: int): Duration {
    var d := endMs - startMs;
    Duration(
      FloorDiv(d, HourMs),
      FloorDiv(JsRem(d, HourMs), MinuteMs),
      FloorDiv(JsRem(d, MinuteMs), SecondMs))
  }

  /** displayDuration's text. */
  function DisplayDuration(startMs: int, endMs: int): string {
    var p := DurationParts(startMs, endMs);
    IntToDecimal(p.hours) + " hours, " + IntToDecimal(p.minutes) + " minutes, "
      + IntToDecimal(p.seconds) + " seconds"
  }

  /** For a meeting that ended after it started, the parts are whole hours,
      minutes below 60 and seconds below 60, and together they make up the
      duration in whole seconds. */
  lemma DurationDecomposes(startMs: int, endMs: int)
    requires startMs <= endMs
    ensures var p := DurationParts(startMs, endMs);
      && p.hours == (endMs - startMs) / HourMs
      && 0 <= p.minutes < 60
      && 0 <= p.seconds < 60
      && p.hours * 3600 + p.minutes * 60 + p.seconds == (endMs - startMs) / SecondMs
  {
    var d := endMs - startMs;
    var p := DurationParts(startMs, endMs);
    var h, m, s := p.hours, p.minutes, p.seconds;
    assert h == d / 3600000 && m == (d % 3600000) / 60000 && s == (d % 60000) / 1000;
    var r := d % 3600000;
    assert d == h * 3600000 + r && 0 <= r < 3600000;
    var t := r % 60000;
    assert r == m * 60000 + t && 0 <= t < 60000;
    assert 0 <= m < 60;
    assert d == (h * 60 + m) * 60000 + t;
    assert d % 60000 == t;
    assert t == s * 1000 + t % 1000;
    assert d == (h * 3600 + m * 60 + s) * 1000 + t % 1000;
  }

  /** A meeting whose end lies before its start gets a negative hour count
      and minutes and seconds in [-60, 0]: JavaScript's remainder keeps the
      sign of the negative duration. */
  lemma NegativeDuration(startMs: int, endMs: int)
    requires endMs < startMs
    ensures var p := DurationParts(startMs, endMs);
      && p.hours < 0
      && -60 <= p.minutes <= 0
      && -60 <= p.seconds <= 0
  {
  }

  // ---------------------------------------------------------------------
  // What the card shows

  /** isPast. */
  predicate IsPast(m: Meeting) {
    m.status == "COMPLETED"
  }

  datatype Action = StopRecording | DeleteRecording

  /** The footer action: delete for a past meeting, stop otherwise. */
  function CardAction(m: Meeting): (a: Action)
    ensures a == DeleteRecording <==> m.status == "COMPLETED"
    ensures a == StopRecording <==> m.status != "COMPLETED"
  {
    if IsPast(m) then DeleteRecording else StopRecording
  }

  /** Only past cards show the summary and the duration. */
  function ShowsDuration(m: Meeting): (shown: bool)
    ensures shown <==> CardAction(m) == DeleteRecording
  {
    IsPast(m)
  }

  /** The dropdown's tags: those of `allTags` not yet on the meeting, in
      `allTags` order. */
  function AvailableTags(allTags: seq<Tag>, m: Meeting): (r: seq<Tag>)
    ensures forall t :: t in r <==> t in allTags && !HasTagId(m.tags, t.tagId)
    ensures |r| <= |allTags|
  {
    Filter(allTags, (t: Tag) => !HasTagId(m.tags, t.tagId))
  }

  /** The dropdown keeps the order of `allTags`: listing a concatenation
      lists each part in turn. */
  lemma AvailableTagsKeepOrder(a: seq<Tag>, b: seq<Tag>, m: Meeting)
    ensures AvailableTags(a + b, m) == AvailableTags(a, m) + AvailableTags(b, m)
  {
    FilterConcat(a, b, (t: Tag) => !HasTagId(m.tags, t.tagId));
  }

  /** Once a tag's id is on the meeting, it is no longer offered; a tag
      that is offered is one the meeting lacks. */
  lemma AvailableTagsExcludeAttached(allTags: seq<Tag>, m: Meeting, t: Tag)
    requires t in m.tags
    ensures forall u | u in AvailableTags(allTags, m) :: u.tagId != t.tagId
  {
  }

  // ---------------------------------------------------------------------
  // Handlers

  /** The card's state: whether the tag dropdown is open, the remote calls
      made so far, and how often onUpdateMeetings was called. */
  class CardState {
    const meeting: Meeting
    var showTagDropdown: bool
    var calls: seq<RemoteCall>
    var updates: nat

    constructor (meeting: Meeting)
      ensures this.meeting == meeting
      ensures !showTagDropdown && calls == [] && updates == 0
    {
      this.meeting := meeting;
      showTagDropdown := false;
      calls := [];
      updates := 0;
    }

    /** The plus button. */
    method TogglePlus()
      modifies this
      ensures showTagDropdown == !old(showTagDropdown)
      ensures calls == old(calls) && updates == old(updates)
    {
      showTagDropdown := !showTagDropdown;
    }

    /** handleTagDelete: the call, then onUpdateMeetings if it succeeded. */
    method HandleTagDelete(tagId: int, ok: bool)
      modifies this
      ensures calls == old(calls) + [DeleteTagFromMeeting(meeting.meetingId, tagId)]
      ensures updates == old(updates) + (if ok then 1 else 0)
      ensures showTagDropdown == old(showTagDropdown)
    {
      calls := calls + [DeleteTagFromMeeting(meeting.meetingId, tagId)];
      if ok {
        updates := updates + 1;
      }
    }

    /** handleTagAdd: the tag is attached by name; on success the meetings
        are refreshed and the dropdown closes, on failure both stay. */
    method HandleTagAdd(tag: Tag, ok: bool)
      modifies this
      ensures calls == old(calls) + [AddTagToMeeting(meeting.meetingId, tag.name)]
      ensures updates == old(updates) + (if ok then 1 else 0)
      ensures ok ==> !showTagDropdown
      ensures !ok ==> showTagDropdown == old(showTagDropdown)
    {
      calls := calls + [AddTagToMeeting(meeting.meetingId, tag.name)];
      if ok {
        updates := updates + 1;
        showTagDropdown := false;
      }
    }

    /** handleStopRecording. */
    method HandleStopRecording(ok: bool)
      modifies this
      ensures calls == old(calls) + [StopMeeting(meeting.meetingId)]
      ensures updates == old(updates) + (if ok then 1 else 0)
      ensures showTagDropdown == old(showTagDropdown)
    {
      calls := calls + [StopMeeting(meeting.meetingId)];
      if ok {
        updates := updates + 1;
      }
    }

    /** handleDeleteMeeting. */
    method HandleDeleteMeeting(ok: bool)
      modifies this
      ensures calls == old(calls) + [DeleteMeeting(meeting.meetingId)]
      ensures updates == old(updates) + (if ok then 1 else 0)
      ensures showTagDropdown == old(showTagDropdown)
    {
      calls := calls + [DeleteMeeting(meeting.meetingId)];
      if ok {
        updates := updates + 1;
      }
    }
  }
}
