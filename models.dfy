/** The persistent entities of the meeting assistant and the store that
    holds them: meetings, tags and the links between them, audio
    configurations with their devices, and key/value settings. Each table
    is a map keyed by its primary key; the uniqueness constraints of the
    schema are the store's invariant. */
module Models {
  import opened Common

  /** Meeting status: the only two values the column admits. */
  datatype Status = Active | Completed

  function StatusName(s: Status): string {
    match s
    case Active => "ACTIVE"
    case Completed => "COMPLETED"
  }

  function ParseStatus(text: string): (r: Option<Status>)
    ensures r.Some? <==> text == "ACTIVE" || text == "COMPLETED"
    ensures r.Some? ==> StatusName(r.value) == text
  {
    if text == "ACTIVE" then Some(Active)
    else if text == "COMPLETED" then Some(Completed)
    else None
  }

  lemma StatusNamesDistinct(a: Status, b: Status)
    ensures StatusName(a) == StatusName(b) <==> a == b
    ensures ParseStatus(StatusName(a)) == Some(a)
  {
  }

  /** One entry of a stored transcript: who spoke and what was said. */
  datatype TranscriptRecord = TranscriptRecord(speaker: string, text: string)

  /** A meeting row. Title, status and start time are required; end time,
      audio file, summary and transcript may be absent. */
  datatype Meeting = Meeting(
    title: string,
    audioId: int,
    status: Status,
    startTime: string,
    endTime: Option<string>,
    audioFile: Option<string>,
    summary: Option<string>,
    transcript: Option<seq<TranscriptRecord>>)

  datatype TagRow = TagRow(tagId: int, name: string)

  /** The primary key of an audio device row. */
  datatype DeviceKey = DeviceKey(audioId: int, name: string, channel: int)

  /** A device of an audio configuration as the API returns it and as the
      audio service records from it: name, channel and channel count. */
  datatype DeviceSpec = DeviceSpec(name: string, channel: int, nChannels: int)

  datatype Setting = Setting(key: string, value: string)

  /** No two keys of `m` carry the same value. */
  ghost predicate UniqueValues<K, V>(m: map<K, V>) {
    forall a, b | a in m && b in m && m[a] == m[b] :: a == b
  }

  ghost predicate UniqueSettingKeys(rows: map<int, Setting>) {
    forall a, b | a in rows && b in rows && rows[a].key == rows[b].key :: a == b
  }

  /** Every key lies in [1, next): the ids handed out so far. */
  ghost predicate IdsBelow<V>(m: map<int, V>, next: int) {
    1 <= next && forall id | id in m :: 1 <= id < next
  }

  class Db {
    var meetings: map<int, Meeting>
    var nextMeetingId: int
    /** meetings_tags: (meeting_id, tag_id) pairs, the table's composite key. */
    var links: set<(int, int)>
    var tags: map<int, string>
    var nextTagId: int
    /** audio: audio_id to company. */
    var audios: map<int, string>
    var nextAudioId: int
    /** audio_devices: (audio_id, name, channel) to n_channels. */
    var devices: map<DeviceKey, int>
    var settings: map<int, Setting>
    var nextSettingId: int

    ghost predicate Valid()
      reads this
    {
      && IdsBelow(meetings, nextMeetingId)
      && IdsBelow(tags, nextTagId)
      && IdsBelow(audios, nextAudioId)
      && IdsBelow(settings, nextSettingId)
      && UniqueValues(tags)
      && UniqueValues(audios)
      && UniqueSettingKeys(settings)
    }

    constructor ()
      ensures Valid()
      ensures meetings == map[] && links == {} && tags == map[] && audios == map[]
      ensures devices == map[] && settings == map[]
    {
      meetings, nextMeetingId := map[], 1;
      links := {};
      tags, nextTagId := map[], 1;
      audios, nextAudioId := map[], 1;
      devices := map[];
      settings, nextSettingId := map[], 1;
    }
  }

  /** The first row of a table scan (ascending primary key, rows 1 to
      next - 1) that satisfies `p`: SQLAlchemy's query.filter(...).first(). */
  method FirstWhere<V>(m: map<int, V>, next: int, p: V -> bool) returns (r: Option<int>)
    requires IdsBelow(m, next)
    ensures r.Some? ==> r.value in m && p(m[r.value])
    ensures r.Some? ==> forall id | id in m && id < r.value :: !p(m[id])
    ensures r.None? <==> forall id | id in m :: !p(m[id])
  {
    var id := 1;
    while id < next
      invariant 1 <= id <= next
      invariant forall k | k in m && k < id :: !p(m[k])
    {
      if id in m && p(m[id]) {
        return Some(id);
      }
      id := id + 1;
    }
    return None;
  }
}
