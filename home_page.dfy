/** The home page: meetings split into an active and a completed section,
    a tag filter that selects which meetings are fetched, and the record
    button that starts a meeting for the selected audio configuration. */
module HomePage {
  import opened Common
  import opened ClientApi

  /** filterMeetingsByStatus: the meetings with the status, in order. */
  function FilterMeetingsByStatus(meetings: seq<Meeting>, status: string): (r: seq<Meeting>)
    ensures forall m :: m in r <==> m in meetings && m.status == status
    ensures forall k | 0 <= k < |r| :: r[k].status == status
  {
    Filter(meetings, (m: Meeting) => m.status == status)
  }

  /** The filter keeps the meetings' order: filtering a concatenation
      filters each part in turn. */
  lemma FilterMeetingsKeepsOrder(a: seq<Meeting>, b: seq<Meeting>, status: string)
    ensures FilterMeetingsByStatus(a + b, status)
      == FilterMeetingsByStatus(a, status) + FilterMeetingsByStatus(b, status)
  {
    FilterConcat(a, b, (m: Meeting) => m.status == status);
  }

  function ActiveSection(meetings: seq<Meeting>): seq<Meeting> {
    FilterMeetingsByStatus(meetings, "ACTIVE")
  }

  function CompletedSection(meetings: seq<Meeting>): seq<Meeting> {
    FilterMeetingsByStatus(meetings, "COMPLETED")
  }

  /** No meeting is in both sections, and a meeting whose status is
      neither value is in neither. */
  lemma SectionsSplitByStatus(meetings: seq<Meeting>, m: Meeting)
    requires m in meetings
    ensures !(m in ActiveSection(meetings) && m in CompletedSection(meetings))
    ensures m in ActiveSection(meetings) <==> m.status == "ACTIVE"
    ensures m in CompletedSection(meetings) <==> m.status == "COMPLETED"
    ensures m.status != "ACTIVE" && m.status != "COMPLETED" ==>
      m !in ActiveSection(meetings) && m !in CompletedSection(meetings)
  {
  }

  /** The tags whose id is not `tagId`, in their order. */
  function WithoutTagId(tags: seq<Tag>, tagId: int): seq<Tag> {
    Filter(tags, (t: Tag) => t.tagId != tagId)
  }

  /** toggleFilterTag's updater: every tag with the id goes if one is
      there, otherwise the tag is appended. */
  function ToggledTags(prev: seq<Tag>, tag: Tag): (r: seq<Tag>)
    ensures HasTagId(r, tag.tagId) <==> !HasTagId(prev, tag.tagId)
    ensures HasTagId(prev, tag.tagId) ==> forall t :: t in r <==> t in prev && t.tagId != tag.tagId
    ensures !HasTagId(prev, tag.tagId) ==> |r| == |prev| + 1 && r[..|prev|] == prev && r[|prev|] == tag
  {
    if HasTagId(prev, tag.tagId) then WithoutTagId(prev, tag.tagId)
    else
      var r := prev + [tag];
      assert r[|prev|] == tag;
      r
  }

  /** Removing a tag keeps the remaining tags in their order: the toggle
      of a filter split in two is the two halves, each without the id. */
  lemma ToggledTagsKeepOrder(a: seq<Tag>, b: seq<Tag>, tag: Tag)
    requires HasTagId(a + b, tag.tagId)
    ensures ToggledTags(a + b, tag) == WithoutTagId(a, tag.tagId) + WithoutTagId(b, tag.tagId)
  {
    FilterConcat(a, b, (t: Tag) => t.tagId != tag.tagId);
  }

  /** Toggling a tag that is not in the filter, and then toggling it again,
      gives back the filter it started from. */
  lemma ToggleAbsentTwice(prev: seq<Tag>, tag: Tag)
    requires !HasTagId(prev, tag.tagId)
    ensures ToggledTags(ToggledTags(prev, tag), tag) == prev
  {
    var p := (t: Tag) => t.tagId != tag.tagId;
    assert HasTagId(prev + [tag], tag.tagId) by {
      assert (prev + [tag])[|prev|] == tag;
    }
    FilterConcat(prev, [tag], p);
    FilterAllKept(prev, p);
    assert Filter([tag], p) == [];
  }

  /** The page's state, the remote calls made so far, and the address the
      page navigated to, if any. */
  class HomeState {
    var meetings: seq<Meeting>
    var selectedAudioId: Option<int>
    var filterTags: seq<Tag>
    var calls: seq<RemoteCall>
    var location: Option<string>

    constructor ()
      ensures meetings == [] && selectedAudioId.None? && filterTags == []
      ensures calls == [] && location.None?
    {
      meetings := [];
      selectedAudioId := None;
      filterTags := [];
      calls := [];
      location := None;
    }

    /** handleSelectChange: the option's value is the configuration's
        audio_id as text, and Number() reads it back. */
    method HandleSelectChange(audioId: int)
      modifies this
      ensures selectedAudioId == Some(audioId)
      ensures meetings == old(meetings) && filterTags == old(filterTags)
      ensures calls == old(calls) && location == old(location)
    {
      selectedAudioId := Some(audioId);
    }

    /** handleRecordClick: nothing without a selected configuration;
        otherwise the meeting is started and, if that succeeds, the page
        moves to the new meeting. */
    method HandleRecordClick(started: Option<Meeting>)
      modifies this
      ensures old(selectedAudioId).None? ==> calls == old(calls) && location == old(location)
      ensures old(selectedAudioId).Some? ==> calls == old(calls) + [StartMeeting(old(selectedAudioId).value)]
      ensures old(selectedAudioId).Some? && started.Some? ==>
        location == Some("/" + IntToDecimal(started.value.meetingId))
      ensures started.None? ==> location == old(location)
      ensures meetings == old(meetings) && filterTags == old(filterTags)
      ensures selectedAudioId == old(selectedAudioId)
    {
      if selectedAudioId.None? {
        return;
      }
      calls := calls + [StartMeeting(selectedAudioId.value)];
      if started.Some? {
        location := Some("/" + IntToDecimal(started.value.meetingId));
      }
    }

    method ToggleFilterTag(tag: Tag)
      modifies this
      ensures filterTags == ToggledTags(old(filterTags), tag)
      ensures meetings == old(meetings) && selectedAudioId == old(selectedAudioId)
      ensures calls == old(calls) && location == old(location)
    {
      filterTags := ToggledTags(filterTags, tag);
    }

    method ClearFilterTags()
      modifies this
      ensures filterTags == []
      ensures meetings == old(meetings) && selectedAudioId == old(selectedAudioId)
      ensures calls == old(calls) && location == old(location)
    {
      filterTags := [];
    }

    /** fetchMeetings: page 1 and the filter tags' names, in order; the
        meetings are replaced only when the call succeeds. */
    method FetchMeetings(fetched: Option<seq<Meeting>>)
      modifies this
      ensures calls == old(calls) + [GetMeetings(1, Names(old(filterTags)))]
      ensures fetched.Some? ==> meetings == fetched.value
      ensures fetched.None? ==> meetings == old(meetings)
      ensures filterTags == old(filterTags) && selectedAudioId == old(selectedAudioId)
      ensures location == old(location)
    {
      calls := calls + [GetMeetings(1, Names(filterTags))];
      if fetched.Some? {
        meetings := fetched.value;
      }
    }
  }
}
