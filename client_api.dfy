/** The shapes the web client exchanges with the server, and a record of
    the remote calls its handlers make. A handler's remote call is an
    input: whether it succeeded, and what it returned, are parameters of
    the handler. */
module ClientApi {
  datatype Tag = Tag(tagId: int, name: string)

  /** The fields of a meeting the client's logic reads. */
  datatype Meeting = Meeting(meetingId: int, title: string, status: string, tags: seq<Tag>)

  datatype AudioDevice = AudioDevice(name: string, channel: int, nChannels: int)

  datatype AudioConfig = AudioConfig(company: string, audioId: int, devices: seq<AudioDevice>)

  datatype Setting = Setting(key: string, value: string)

  /** One call of the client's API helpers, with its arguments. */
  datatype RemoteCall =
    | StartMeeting(audioId: int)
    | StopMeeting(meetingId: int)
    | DeleteMeeting(meetingId: int)
    | GetMeetings(page: int, tagNames: seq<string>)
    | AddTagToMeeting(meetingId: int, name: string)
    | DeleteTagFromMeeting(meetingId: int, tagId: int)
    | CreateTag(name: string)
    | DeleteTag(tagId: int)
    | CreateAudioConfiguration(company: string, devices: seq<AudioDevice>)
    | GetAudioConfigurations
    | SaveSetting(setting: Setting)

  /** Whether some tag in `tags` has the id (Array.prototype.some on
      tag_id). */
  predicate HasTagId(tags: seq<Tag>, tagId: int) {
    exists t | t in tags :: t.tagId == tagId
  }

  /** The tag names, in order (tags.map(tag => tag.name)). */
  function Names(tags: seq<Tag>): (names: seq<string>)
    ensures |names| == |tags|
    ensures forall i | 0 <= i < |tags| :: names[i] == tags[i].name
  {
    if tags == [] then [] else [tags[0].name] + Names(tags[1..])
  }
}
