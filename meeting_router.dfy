/** The meeting endpoints: start a meeting with its live transcription
    service, stop it, delete it, list meetings newest first (optionally
    only those carrying one of some tags), rename it, and attach or detach
    tags. The registry of running services is the module-level map from
    meeting id to service.

    The clock is an input (`now`, the formatted local time), and so is the
    configured output directory. */
module MeetingRouter {
  import opened Common
  import opened Models
  import opened AudioServiceModel
  import TagRouter
  import AudioRouter

  const UntitledMeeting: string := "Untitled Meeting"
  const DefaultOutputDir: string := "./recordings/"

  /** meeting id to running service. */
  class ServiceRegistry {
    var services: map<int, AudioService>

    constructor ()
      ensures services == map[]
    {
      services := map[];
    }
  }

  /** The MeetingTags response: a meeting with the tags linked to it. */
  datatype MeetingView = MeetingView(meetingId: int, meeting: Meeting, tags: set<TagRow>)

  /** get_tags_for_meeting: the tags joined to the meeting's links. */
  function TagsOf(db: Db, meetingId: int): (r: set<TagRow>)
    reads db
    ensures forall t | t in r :: t.tagId in db.tags && db.tags[t.tagId] == t.name && (meetingId, t.tagId) in db.links
    ensures forall id | id in db.tags && (meetingId, id) in db.links :: TagRow(id, db.tags[id]) in r
  {
    set id | id in db.tags && (meetingId, id) in db.links :: TagRow(id, db.tags[id])
  }

  function View(db: Db, meetingId: int): MeetingView
    reads db
    requires meetingId in db.meetings
  {
    MeetingView(meetingId, db.meetings[meetingId], TagsOf(db, meetingId))
  }

  /** get_meeting_by_id. */
  function GetMeetingById(db: Db, meetingId: int): (r: Result<Meeting>)
    reads db
    ensures r.Err? <==> meetingId !in db.meetings
    ensures r.Err? ==> r.error == NotFound
    ensures r.Ok? ==> r.value == db.meetings[meetingId]
  {
    if meetingId in db.meetings then Ok(db.meetings[meetingId]) else Err(NotFound)
  }

  /** get_meeting. */
  function GetMeeting(db: Db, meetingId: int): (r: Result<MeetingView>)
    reads db
    ensures r.Err? <==> meetingId !in db.meetings
    ensures r.Err? ==> r.error == NotFound
    ensures r.Ok? ==> r.value.meetingId == meetingId && r.value.meeting == db.meetings[meetingId]
  {
    if meetingId in db.meetings then Ok(View(db, meetingId)) else Err(NotFound)
  }

  /** os.path.join of a directory and a relative file name. */
  function PathJoin(dir: string, file: string): (r: string)
    ensures |r| >= |dir| + |file| && r[..|dir|] == dir && r[|r| - |file|..] == file
    ensures |r| <= |dir| + |file| + 1
  {
    if dir == [] || dir[|dir| - 1] == '/' then dir + file else dir + "/" + file
  }

  lemma DefaultAudioFile(meetingId: nat)
    ensures PathJoin(DefaultOutputDir, IntToDecimal(meetingId) + ".wav") == "./recordings/" + IntToDecimal(meetingId) + ".wav"
  {
  }

  /** The new meeting start_meeting stores. */
  function NewMeeting(audioId: int, now: string): (m: Meeting)
    ensures m.title == UntitledMeeting && m.status == Active && m.startTime == now && m.audioId == audioId
    ensures m.endTime.None? && m.audioFile.None? && m.summary.None? && m.transcript.None?
  {
    Meeting(UntitledMeeting, audioId, Active, now, None, None, None, None)
  }

  /** start_meeting: a new ACTIVE row with the next id, and a service for
      it, registered under that id and started, recording from the
      devices of the meeting's audio configuration. The service keeps the
      constructor's sample rate (16000) and chunk size (1024); silence
      seconds, threshold and maximum record time are the values of the
      configuration file, inputs here. */
  method StartMeeting(db: Db, reg: ServiceRegistry, audioId: int, now: string,
                      silenceSeconds: real, threshold: real, maxRecordTime: real)
    returns (meetingId: int, m: Meeting)
    requires db.Valid()
    modifies db`meetings, db`nextMeetingId, reg
    ensures db.Valid()
    ensures meetingId == old(db.nextMeetingId) && meetingId !in old(db.meetings)
    ensures m == NewMeeting(audioId, now)
    ensures db.meetings == old(db.meetings)[meetingId := m] && db.nextMeetingId == old(db.nextMeetingId) + 1
    ensures meetingId in reg.services && fresh(reg.services[meetingId])
    ensures forall id | id in reg.services && id != meetingId :: id in old(reg.services) && reg.services[id] == old(reg.services)[id]
    ensures forall id | id in old(reg.services) && id != meetingId :: id in reg.services
    ensures reg.services[meetingId].running && reg.services[meetingId].meetingId == meetingId
    ensures reg.services[meetingId].deviceInfo == AudioRouter.DevicesOf(db.devices, audioId)
    ensures reg.services[meetingId].transcript == "" && reg.services[meetingId].currentPhrase == ""
    ensures reg.services[meetingId].config == Config(16000, 1024, silenceSeconds, threshold, maxRecordTime)
  {
    meetingId := db.nextMeetingId;
    m := NewMeeting(audioId, now);
    db.meetings := db.meetings[meetingId := m];
    db.nextMeetingId := db.nextMeetingId + 1;
    var deviceInfo := AudioRouter.DevicesOf(db.devices, audioId);
    var service := new AudioService(deviceInfo, meetingId, Config(16000, 1024, silenceSeconds, threshold, maxRecordTime));
    reg.services := reg.services[meetingId := service];
    var _, _, _ := service.Begin();
  }

  /** The meeting as stop_meeting leaves it: COMPLETED, with its end time
      and audio file set and, when a service was running, a transcript of
      one record by "Unknown" holding the service's transcription. The
      prior status is not checked. */
  function Stopped(m: Meeting, meetingId: int, now: string, outputDir: string, transcription: Option<string>): (s: Meeting)
    ensures s.status == Completed && s.endTime == Some(now)
    ensures s.audioFile == Some(PathJoin(outputDir, IntToDecimal(meetingId) + ".wav"))
    ensures transcription.Some? ==> s.transcript == Some([TranscriptRecord("Unknown", transcription.value)])
    ensures transcription.None? ==> s.transcript == m.transcript
    ensures s.title == m.title && s.audioId == m.audioId && s.startTime == m.startTime && s.summary == m.summary
  {
    var t := if transcription.Some? then Some([TranscriptRecord("Unknown", transcription.value)]) else m.transcript;
    m.(status := Completed, endTime := Some(now), audioFile := Some(PathJoin(outputDir, IntToDecimal(meetingId) + ".wav")),
       transcript := t)
  }

  /** Stopping twice gives the same meeting as stopping once, when no
      service is left for the second stop. */
  lemma StopAgainChangesOnlyTimes(m: Meeting, meetingId: int, now: string, later: string, outputDir: string, transcription: Option<string>)
    ensures Stopped(Stopped(m, meetingId, now, outputDir, transcription), meetingId, later, outputDir, None)
      == Stopped(m, meetingId, later, outputDir, transcription)
  {
  }

  /** stop_meeting: 404 (nothing changes, the service stays registered)
      when there is no such meeting; otherwise the service is removed from
      the registry and stopped, and the meeting row is completed. */
  method StopMeeting(db: Db, reg: ServiceRegistry, meetingId: int, now: string, outputDir: string)
    returns (r: Result<MeetingView>)
    requires db.Valid()
    modifies db`meetings, reg, if meetingId in reg.services then {reg.services[meetingId]} else {}
    ensures db.Valid()
    ensures r.Err? <==> meetingId !in old(db.meetings)
    ensures r.Err? ==> r.error == NotFound && db.meetings == old(db.meetings) && reg.services == old(reg.services)
    ensures r.Err? && meetingId in old(reg.services) ==> unchanged(old(reg.services)[meetingId])
    ensures r.Ok? ==> meetingId !in reg.services && reg.services == old(reg.services) - {meetingId}
    ensures r.Ok? ==> db.meetings == old(db.meetings)[meetingId := Stopped(old(db.meetings)[meetingId], meetingId, now, outputDir,
      if meetingId in old(reg.services) then Some(old(reg.services[meetingId].GetTranscription())) else None)]
    ensures r.Ok? ==> r.value == View(db, meetingId)
    ensures r.Ok? && meetingId in old(reg.services) ==>
      var service := old(reg.services)[meetingId];
      !service.running && service.transcript == old(service.transcript) && service.currentPhrase == old(service.currentPhrase)
  {
    if meetingId !in db.meetings {
      return Err(NotFound);
    }
    var transcription: Option<string> := None;
    if meetingId in reg.services {
      var service := reg.services[meetingId];
      reg.services := reg.services - {meetingId};
      transcription := Some(service.GetTranscription());
      service.Stop();
    }
    db.meetings := db.meetings[meetingId := Stopped(db.meetings[meetingId], meetingId, now, outputDir, transcription)];
    r := Ok(View(db, meetingId));
  }

  /** delete_meeting: the service is removed from the registry and stopped
      first, whatever follows. Without such a meeting the result is 404 and
      the session is rolled back, so the store is unchanged; otherwise the
      meeting row and its tag links are deleted. */
  method DeleteMeeting(db: Db, reg: ServiceRegistry, meetingId: int) returns (r: Result<()>)
    requires db.Valid()
    modifies db`meetings, db`links, reg, if meetingId in reg.services then {reg.services[meetingId]} else {}
    ensures db.Valid()
    ensures meetingId !in reg.services && reg.services == old(reg.services) - {meetingId}
    ensures meetingId in old(reg.services) ==>
      var service := old(reg.services)[meetingId];
      !service.running && service.transcript == old(service.transcript) && service.currentPhrase == old(service.currentPhrase)
    ensures r.Err? <==> meetingId !in old(db.meetings)
    ensures r.Err? ==> r.error == NotFound && db.meetings == old(db.meetings) && db.links == old(db.links)
    ensures r.Ok? ==> db.meetings == old(db.meetings) - {meetingId}
    ensures r.Ok? ==> db.links == set p | p in old(db.links) && p.0 != meetingId
  {
    if meetingId in reg.services {
      var service := reg.services[meetingId];
      reg.services := reg.services - {meetingId};
      service.Stop();
    }
    if meetingId !in db.meetings {
      return Err(NotFound);
    }
    db.links := set p | p in db.links && p.0 != meetingId;
    db.meetings := db.meetings - {meetingId};
    return Ok(());
  }

  /** The filter of get_all_meetings: no names (an absent or empty list)
      keeps every meeting; otherwise a meeting is kept when it is linked
      to a stored tag whose name is listed. */
  predicate Listed(db: Db, meetingId: int, names: seq<string>)
    reads db
  {
    meetingId in db.meetings
      && (names == [] || exists p | p in db.links :: p.0 == meetingId && p.1 in db.tags && db.tags[p.1] in names)
  }

  /** Newest first: start times never increase along the list. */
  predicate NewestFirst(xs: seq<MeetingView>) {
    forall i, j | 0 <= i < j < |xs| :: StrLe(xs[j].meeting.startTime, xs[i].meeting.startTime)
  }

  /** Puts `v` before the first entry that does not start later. */
  function InsertNewestFirst(xs: seq<MeetingView>, v: MeetingView): seq<MeetingView> {
    if xs == [] || StrLe(xs[0].meeting.startTime, v.meeting.startTime) then [v] + xs
    else [xs[0]] + InsertNewestFirst(xs[1..], v)
  }

  /** Insertion adds exactly `v` and keeps the list newest first. */
  lemma {:induction false} InsertKeepsOrder(xs: seq<MeetingView>, v: MeetingView)
    requires NewestFirst(xs)
    ensures multiset(InsertNewestFirst(xs, v)) == multiset(xs) + multiset{v}
    ensures NewestFirst(InsertNewestFirst(xs, v))
  {
    if xs == [] {
    } else if StrLe(xs[0].meeting.startTime, v.meeting.startTime) {
      forall j | 0 < j < |xs|
        ensures StrLe(xs[j].meeting.startTime, v.meeting.startTime)
      {
        StrLeTrans(xs[j].meeting.startTime, xs[0].meeting.startTime, v.meeting.startTime);
      }
      InsertFront(xs, v);
    } else {
      InsertKeepsOrder(xs[1..], v);
      StrLeTotal(xs[0].meeting.startTime, v.meeting.startTime);
      InsertBehind(xs, v, InsertNewestFirst(xs[1..], v));
    }
  }

  /** The step behind the head: the head starts no earlier than `v` and than
      every entry of the rest, so it stays in front of the rest with `v`
      inserted. */
  lemma InsertBehind(xs: seq<MeetingView>, v: MeetingView, rest: seq<MeetingView>)
    requires xs != [] && NewestFirst(xs) && NewestFirst(rest)
    requires StrLe(v.meeting.startTime, xs[0].meeting.startTime)
    requires multiset(rest) == multiset(xs[1..]) + multiset{v}
    ensures multiset([xs[0]] + rest) == multiset(xs) + multiset{v}
    ensures NewestFirst([xs[0]] + rest)
  {
    assert xs == [xs[0]] + xs[1..];
    forall x | x in rest
      ensures StrLe(x.meeting.startTime, xs[0].meeting.startTime)
    {
      assert x in multiset(rest);
      if x != v {
        assert x in multiset(xs[1..]);
        var j :| 0 <= j < |xs[1..]| && xs[1..][j] == x;
        assert xs[j + 1] == x;
      }
    }
    ConsSorted(xs[0], rest);
  }

  lemma InsertFront(xs: seq<MeetingView>, v: MeetingView)
    requires NewestFirst(xs)
    requires forall j | 0 <= j < |xs| :: StrLe(xs[j].meeting.startTime, v.meeting.startTime)
    ensures NewestFirst([v] + xs)
  {
    var r := [v] + xs;
    forall i, j | 0 <= i < j < |r|
      ensures StrLe(r[j].meeting.startTime, r[i].meeting.startTime)
    {
      if i > 0 {
        assert r[i] == xs[i - 1] && r[j] == xs[j - 1];
      }
    }
  }

  lemma ConsSorted(x: MeetingView, rest: seq<MeetingView>)
    requires NewestFirst(rest)
    requires forall y | y in rest :: StrLe(y.meeting.startTime, x.meeting.startTime)
    ensures NewestFirst([x] + rest)
  {
    var r := [x] + rest;
    forall i, j | 0 <= i < j < |r|
      ensures StrLe(r[j].meeting.startTime, r[i].meeting.startTime)
    {
      assert r[j] == rest[j - 1];
      if i > 0 {
        assert r[i] == rest[i - 1];
      }
    }
  }

  /** Each listed meeting's view once, and nothing else. */
  ghost predicate ListsExactly(db: Db, names: seq<string>, r: seq<MeetingView>, bound: int)
    reads db
  {
    forall v :: multiset(r)[v] == if v.meetingId < bound && Listed(db, v.meetingId, names) && v == View(db, v.meetingId) then 1 else 0
  }

  /** One step of the scan: the meeting with the id is inserted when it is
      listed, and the list then holds exactly the listed meetings below the
      next id. */
  lemma ListsStep(db: Db, names: seq<string>, r: seq<MeetingView>, id: int)
    requires NewestFirst(r) && ListsExactly(db, names, r, id)
    ensures Listed(db, id, names) ==>
      && NewestFirst(InsertNewestFirst(r, View(db, id)))
      && ListsExactly(db, names, InsertNewestFirst(r, View(db, id)), id + 1)
    ensures !Listed(db, id, names) ==> ListsExactly(db, names, r, id + 1)
  {
    if Listed(db, id, names) {
      var v := View(db, id);
      assert v.meetingId == id;
      InsertKeepsOrder(r, v);
      var r' := InsertNewestFirst(r, v);
      forall w: MeetingView ensures multiset(r')[w] == if w.meetingId < id + 1 && Listed(db, w.meetingId, names) && w == View(db, w.meetingId) then 1 else 0 {
        assert multiset(r')[w] == multiset(r)[w] + (if w == v then 1 else 0);
      }
    }
  }

  /** get_all_meetings: the listed meetings, newest first. Meetings with
      equal start times may come in any order. */
  method GetAllMeetings(db: Db, names: seq<string>) returns (r: seq<MeetingView>)
    requires db.Valid()
    ensures NewestFirst(r)
    ensures forall v | v in r :: Listed(db, v.meetingId, names) && v == View(db, v.meetingId)
    ensures forall id | Listed(db, id, names) :: multiset(r)[View(db, id)] == 1
  {
    r := [];
    var id := 1;
    while id < db.nextMeetingId
      invariant 1 <= id <= db.nextMeetingId
      invariant NewestFirst(r)
      invariant ListsExactly(db, names, r, id)
    {
      ListsStep(db, names, r, id);
      if Listed(db, id, names) {
        r := InsertNewestFirst(r, View(db, id));
      }
      id := id + 1;
    }
    forall v | v in r ensures Listed(db, v.meetingId, names) && v == View(db, v.meetingId) {
      assert multiset(r)[v] > 0;
    }
    forall id | Listed(db, id, names) ensures multiset(r)[View(db, id)] == 1 {
      assert View(db, id).meetingId == id;
    }
  }

  /** update_meeting_title: 404 changes nothing; otherwise only the title
      of that meeting changes. */
  method UpdateMeetingTitle(db: Db, meetingId: int, title: string) returns (r: Result<MeetingView>)
    requires db.Valid()
    modifies db`meetings
    ensures db.Valid()
    ensures r.Err? <==> meetingId !in old(db.meetings)
    ensures r.Err? ==> r.error == NotFound && db.meetings == old(db.meetings)
    ensures r.Ok? ==> db.meetings == old(db.meetings)[meetingId := old(db.meetings)[meetingId].(title := title)]
    ensures r.Ok? ==> r.value == View(db, meetingId)
  {
    var found := GetMeetingById(db, meetingId);
    if found.Err? {
      return Err(found.error);
    }
    db.meetings := db.meetings[meetingId := found.value.(title := title)];
    r := Ok(View(db, meetingId));
  }

  /** get_or_create_tag: the same lookup-or-insert by name as create_tag. */
  method GetOrCreateTag(db: Db, name: string) returns (tag: TagRow)
    requires db.Valid()
    modifies db`tags, db`nextTagId
    ensures db.Valid()
    ensures TagRouter.Created(TagRouter.TableOf(db), tag) == TagRouter.AfterCreate(old(TagRouter.TableOf(db)), name)
  {
    tag := TagRouter.CreateTag(db, name);
  }

  /** add_meeting_tag_relationship: the link is added unless it is already
      there, so no pair is ever stored twice. Neither the meeting nor the
      tag is checked to exist. */
  method AddMeetingTagRelationship(db: Db, meetingId: int, tagId: int)
    requires db.Valid()
    modifies db`links
    ensures db.Valid()
    ensures db.links == old(db.links) + {(meetingId, tagId)}
    ensures (meetingId, tagId) in old(db.links) ==> db.links == old(db.links)
  {
    if (meetingId, tagId) !in db.links {
      db.links := db.links + {(meetingId, tagId)};
    }
  }

  /** add_meeting_tag: get or create the tag by name, then link it. */
  method AddMeetingTag(db: Db, meetingId: int, name: string) returns (tag: TagRow)
    requires db.Valid()
    modifies db`tags, db`nextTagId, db`links
    ensures db.Valid()
    ensures tag.name == name && tag.tagId in db.tags && db.tags[tag.tagId] == name
    ensures TagRouter.Created(TagRouter.TableOf(db), tag) == TagRouter.AfterCreate(old(TagRouter.TableOf(db)), name)
    ensures db.links == old(db.links) + {(meetingId, tag.tagId)}
  {
    tag := GetOrCreateTag(db, name);
    AddMeetingTagRelationship(db, meetingId, tag.tagId);
  }

  /** delete_meeting_tag: 404 when the pair is not linked; otherwise that
      one pair is removed. */
  method DeleteMeetingTag(db: Db, meetingId: int, tagId: int) returns (r: Result<()>)
    requires db.Valid()
    modifies db`links
    ensures db.Valid()
    ensures r.Err? <==> (meetingId, tagId) !in old(db.links)
    ensures r.Err? ==> r.error == NotFound
    ensures db.links == old(db.links) - {(meetingId, tagId)}
  {
    if (meetingId, tagId) !in db.links {
      return Err(NotFound);
    }
    db.links := db.links - {(meetingId, tagId)};
    return Ok(());
  }
}
