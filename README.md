# MeetingAI core in Dafny

MeetingAI records an interview or meeting and transcribes it live. It can
label the transcript by speaker, and it answers questions about the
conversation through a language model. This project models its core in
Dafny:

- the FastAPI routers for meetings, tags, audio configurations and chat,
  over an in-memory store;
- the per-chunk state machine that builds the live transcript;
- the loop that assigns speakers to transcript segments and merges turns;
- the prompt templates and the chat dispatch;
- the list, arithmetic and handler logic of three screens of the web
  client: the meeting card, the home page and the settings page.

The model has one module per source file:

| module | file | models |
|---|---|---|
| `Common` | `common.dfy` | Option, Result, HTTP error codes, Python's `str.strip`, `' '.join`, substring occurrence, `filter`, decimal text and `int()`, string order |
| `Models` | `models.dfy` | the SQLAlchemy entities, the unique and key constraints, the store as a class `Db` with one map or set per table and a next-id counter per serial key, and `query.filter(...).first()` |
| `TagRouter` | `tag_router.dfy` | `get_tags`, `create_tag` and `delete_tag` |
| `AudioRouter` | `audio_router.dfy` | the PyAudio device cache, device lookup per configuration, `create_or_update_audio` |
| `MeetingRouter` | `meeting_router.dfy` | the `services` registry, start, stop, delete, list, retitle, and tag links |
| `AudioServiceModel` | `audio_service.dfy` | `AudioService`: its fields, the per-chunk step of `start`, `stop` and `get_transcription` |
| `PostProcessing` | `post_processing.dfy` | `diarize`: best-overlap speaker choice and merging of consecutive same-speaker segments |
| `Prompts` | `prompts.dfy` | `BasePrompt.get_messages` and the seven prompt templates |
| `ChatSchema` | `chat_schema.dfy` | the `Category` enum |
| `ChatRouter` | `chat_router.dfy` | `get_settings_map`, `save_setting`, `getChatResponse` |
| `ClientApi` | `client_api.dfy` | the shapes the client exchanges, and a log of the remote calls its handlers make |
| `MeetingCard` | `meeting_card.dfy` | `displayDuration`, `isPast`, the tag dropdown, the card's handlers |
| `HomePage` | `home_page.dfy` | `filterMeetingsByStatus`, the tag filter, record and fetch handlers |
| `SettingsPage` | `settings_page.dfy` | the tag guards, the device-row editor, settings defaults, channel options, submit |

Code that changes state step by step is modelled imperatively. The store is
a `Db` object, and the handlers are methods with field-level `modifies`
clauses. `AudioService`, the meeting registry and the client screens'
React state are classes. Loops are `while` and `for` loops with invariants. Each
method is proved against a specification function:

- `Diarize` is proved against `Transcript`;
- `GetAllMeetings` is proved against `Listed` and `View`;
- `Drain` is proved against `Steps`;
- `CreateTag` and `GetOrCreateTag` are proved against `AfterCreate`.

Lemmas then state properties of those functions. Pure code (prompts,
schema, list updaters) is modelled as functions.

Things outside the program become inputs:

- clocks (the current time is a `string`);
- PyAudio's device list;
- chunk energies;
- the transcription server's text;
- the classifier and the completion API;
- screenshots;
- whether a client's remote call succeeds, and what it returns.

A client handler records each remote call in a `calls` log. Whether the
call succeeded is a parameter of the handler.

## Model

| member | source | states |
|---|---|---|
| `Common.StatusCode` | `server/routers/meeting_router.py:52` | every HTTP error maps to a 4xx/5xx code, and the code is 404 exactly for NotFound |
| `Common.Strip` | `server/services/post_processing.py:38` | the result is `s` with its leading and trailing whitespace removed; it neither begins nor ends with whitespace, and it is empty iff `s` is all whitespace |
| `Common.StripIdempotent` | `server/services/post_processing.py:38` | stripping twice is stripping once |
| `Common.LeadingSpaces` | `server/services/post_processing.py:38` | the leading whitespace run is maximal |
| `Common.TrailingStart` | `server/services/post_processing.py:38` | the trailing whitespace run is maximal |
| `Common.JoinAppend` | `server/services/post_processing.py:59` | joining one more string adds the separator and the string, except after an empty list |
| `Common.Join` | `server/services/post_processing.py:59` | `sep.join(xs)`: the parts in order with the separator between each pair; its shape and length are stated by `JoinAppend` and `JoinLength` |
| `Common.JoinLength` | `server/services/post_processing.py:59` | a join's length is the sum of the parts plus one separator between each pair |
| `Common.Filter` | `client/app/page.tsx:17` | `Array.prototype.filter`: the result holds exactly the elements that satisfy the test, and is no longer than the input |
| `Common.FilterConcat` | `client/app/page.tsx:17` | filtering keeps order: filtering a concatenation filters each part in turn |
| `Common.FilterIdempotent` | `client/app/page.tsx:17` | filtering twice is filtering once |
| `Common.FilterAllKept` | `client/app/page.tsx:17` | a filter that every element passes returns the list unchanged |
| `Common.OccursAfter` | `server/library/prompts.py:4` | a string occurs in `a + t + b` at the offset given by the length of `a` |
| `Common.OccursShift` | `server/library/prompts.py:4` | an occurrence moves right by the length of `a` when the string is embedded in `a + t + b` |
| `Common.OccursInSuffix` | `server/library/prompts.py:4` | an occurrence moves right by the length of `a` under a prefix `a` |
| `Common.OccursInPrefix` | `server/library/prompts.py:4` | an occurrence stays put when text is appended |
| `Common.DigitChar` | `server/routers/meeting_router.py:148` | a digit below ten is written as a decimal digit character |
| `Common.NatToDecimal` | `server/routers/meeting_router.py:148` | `str()` of a natural number is a non-empty string of decimal digits |
| `Common.IntToDecimal` | `server/routers/meeting_router.py:148` | `str()` of an integer is non-empty |
| `Common.ParseInt` | `server/routers/chat_router.py:102` | `int(text)`: surrounding whitespace, an optional sign and decimal digits give the number, anything else fails; `ParseIntOfDecimal` states that it reads back `str(n)` |
| `Common.DigitsOfDecimal` | `server/routers/chat_router.py:102` | reading back the digits of `str(n)` gives `n` |
| `Common.ParseIntOfDecimal` | `server/routers/chat_router.py:102` | `int(str(n)) == n` for every integer |
| `Common.StrLeTotal` | `server/routers/meeting_router.py:193` | the start-time order compares any two strings |
| `Common.StrLeTrans` | `server/routers/meeting_router.py:193` | the start-time order is transitive |
| `Common.StrLeAntisym` | `server/routers/meeting_router.py:193` | the start-time order is antisymmetric |
| `Models.ParseStatus` | `server/models/models.py:6-8` | only "ACTIVE" and "COMPLETED" denote a status, and a parsed status prints as its text |
| `Models.StatusNamesDistinct` | `server/models/models.py:6-8` | the two statuses have different names, and each name parses back to its status |
| `Models.Db.constructor` | `server/models/models.py:10-62` | an empty store satisfies every key and uniqueness constraint (tag names, companies, setting keys, ids below the counters) |
| `Models.FirstWhere` | `server/routers/tag_router.py:24` | `query.filter(...).first()`: the lowest matching primary key, or none iff no row matches |
| `TagRouter.AfterCreate` | `server/routers/tag_router.py:22-31` | an existing name returns its row and leaves the table as is; a new name adds exactly one row with the next id; names stay unique |
| `TagRouter.CreateIdempotent` | `server/routers/tag_router.py:24-26` | a second create with the same name returns the same tag and changes nothing |
| `TagRouter.CreateAddsAtMostOne` | `server/routers/tag_router.py:27-31` | a create adds one row for a new name and none for an existing one; the only new id is the next one |
| `TagRouter.GetTags` | `server/routers/tag_router.py:17-20` | returns every stored tag and nothing else, in ascending id order |
| `TagRouter.CreateTag` | `server/routers/tag_router.py:22-31` | the store's tag table and the returned tag are `AfterCreate` of the old table |
| `TagRouter.DeleteTag` | `server/routers/tag_router.py:33-40` | 404 iff the id is unknown, with nothing changed; otherwise exactly that tag and its meeting links are gone |
| `AudioRouter.DeviceMapContents` | `server/routers/audio_router.py:21-26` | the map holds exactly the names of input devices on host API 0, each with a positive channel count taken from the last such device of that name |
| `AudioRouter.DeviceMap` | `server/routers/audio_router.py:21-26` | the scan over PyAudio's devices that keeps input devices on host API 0 and maps each name to its channel count; its contents are stated by `DeviceMapContents` |
| `AudioRouter.DeviceCache.constructor` | `server/routers/audio_router.py:11` | the cache starts empty |
| `AudioRouter.GetPyAudioDevices` | `server/routers/audio_router.py:13-28` | a filled cache is returned and kept; an empty cache is filled with the device map and that map is returned |
| `AudioRouter.DevicesOf` | `server/routers/audio_router.py:37-45` | exactly the device rows of the configuration, as name, channel and channel count |
| `AudioRouter.DevicesOfIgnoresOthers` | `server/routers/audio_router.py:37-45` | rows of another configuration do not change a configuration's device list |
| `AudioRouter.GetAudioWithDevices` | `server/routers/audio_router.py:47-57` | 404 iff the audio id is unknown; otherwise the company and its devices |
| `AudioRouter.AddedRowsContents` | `server/routers/audio_router.py:83-93` | every new row comes from a request, its channel count from the device map and not from the request; every request has a row |
| `AudioRouter.NewRows` | `server/routers/audio_router.py:83-93` | the loop builds the requested rows and reports a repeated (name, channel) pair iff the request has one |
| `AudioRouter.ReplacedContents` | `server/routers/audio_router.py:80-93` | after the replace the configuration holds exactly the requested devices, and every other configuration is unchanged |
| `AudioRouter.UpsertCompany` | `server/routers/audio_router.py:73-78` | an existing company keeps its row; a new one gets exactly one new row with the next id; companies stay unique |
| `AudioRouter.CreateOrUpdateAudio` | `server/routers/audio_router.py:71-96` | the company row is upserted and stays; the device map is the cached one, or `DeviceMap` of PyAudio's devices when the cache is empty, and is cached; a device missing from that map gives 400, and a repeated pair gives 500, both with the device rows unchanged; otherwise the old rows are replaced by the requested ones and the new configuration is returned |
| `AudioRouter.DuplicateFound` | `server/routers/audio_router.py:83-93` | a request equal to an earlier one is a repeated key |
| `AudioRouter.DuplicateKept` | `server/routers/audio_router.py:83-93` | a repeated key in a prefix stays repeated |
| `AudioRouter.NoDuplicateYet` | `server/routers/audio_router.py:83-93` | a prefix without repeats, extended by a new request, has none |
| `MeetingRouter.ServiceRegistry.constructor` | `server/routers/meeting_router.py:25` | the registry of running services starts empty |
| `MeetingRouter.TagsOf` | `server/routers/meeting_router.py:55-57` | a meeting's tags are exactly the stored tags linked to it |
| `MeetingRouter.GetMeetingById` | `server/routers/meeting_router.py:49-53` | 404 iff the id is unknown, otherwise the stored row |
| `MeetingRouter.GetMeeting` | `server/routers/meeting_router.py:200-203` | 404 iff the id is unknown, otherwise the response for that row |
| `MeetingRouter.PathJoin` | `server/routers/meeting_router.py:148` | `os.path.join`: the file name is appended to the directory with at most one separator |
| `MeetingRouter.DefaultAudioFile` | `server/routers/meeting_router.py:148` | with the default output directory the file is `./recordings/<id>.wav` |
| `MeetingRouter.NewMeeting` | `server/routers/meeting_router.py:98-104` | a new meeting is "Untitled Meeting", ACTIVE, started now, for the audio id, with no end time, file, summary or transcript |
| `MeetingRouter.StartMeeting` | `server/routers/meeting_router.py:93-111` | the meeting is stored under the next id, a fresh running service with that configuration's devices, the configured tuning values and an empty transcript is registered under it, and no other service changes |
| `MeetingRouter.Stopped` | `server/routers/meeting_router.py:138-148` | completed, ended now, with file `<dir>/<id>.wav`; one "Unknown" record holding the service's text when a service existed, the old transcript otherwise; title, audio id, start and summary kept |
| `MeetingRouter.StopAgainChangesOnlyTimes` | `server/routers/meeting_router.py:145-148` | stopping a stopped meeting again, with no service, changes only its end time: the status is not checked |
| `MeetingRouter.StopMeeting` | `server/routers/meeting_router.py:132-167` | 404 iff the id is unknown, with the store, the registry and the services unchanged; otherwise the stored meeting becomes `Stopped`, that meeting's service alone is stopped (its text kept) and removed, and the response is the new view |
| `MeetingRouter.DeleteMeeting` | `server/routers/meeting_router.py:169-183` | that meeting's service alone is stopped and removed, even on 404; 404 iff the id is unknown, with the store unchanged; otherwise the meeting and all its tag links are gone |
| `MeetingRouter.InsertKeepsOrder` | `server/routers/meeting_router.py:193` | inserting into a newest-first list keeps it newest first and adds exactly that element |
| `MeetingRouter.InsertBehind` | `server/routers/meeting_router.py:193` | an element no newer than the head goes behind it, and the list stays newest first |
| `MeetingRouter.InsertFront` | `server/routers/meeting_router.py:193` | an element at least as new as every other goes in front |
| `MeetingRouter.ConsSorted` | `server/routers/meeting_router.py:193` | a head at least as new as the rest keeps the list newest first |
| `MeetingRouter.ListsStep` | `server/routers/meeting_router.py:186-198` | scanning one more id adds its view exactly when it is listed |
| `MeetingRouter.GetAllMeetings` | `server/routers/meeting_router.py:186-198` | the result is ordered by start time, newest first; every listed meeting (any meeting when no tag is given, else one carrying a named tag) appears exactly once; nothing else appears |
| `MeetingRouter.UpdateMeetingTitle` | `server/routers/meeting_router.py:205-215` | 404 iff the id is unknown; otherwise only that meeting's title changes |
| `MeetingRouter.GetOrCreateTag` | `server/routers/meeting_router.py:74-81` | the tag table and the returned tag are `AfterCreate` of the old table: idempotent by name |
| `MeetingRouter.AddMeetingTagRelationship` | `server/routers/meeting_router.py:83-91` | the pair is added to the link set, and an existing pair adds nothing: links are never duplicated |
| `MeetingRouter.AddMeetingTag` | `server/routers/meeting_router.py:217-221` | the named tag is got or created and linked to the meeting |
| `MeetingRouter.DeleteMeetingTag` | `server/routers/meeting_router.py:223-233` | 404 iff the pair is absent; the link set loses exactly that pair |
| `AudioServiceModel.Truncate` | `server/services/audio_service.py:109` | Python's `int()` on a float rounds toward zero |
| `AudioServiceModel.SilenceLimit` | `server/services/audio_service.py:109` | `int(sample_rate / chunk_size * silence_seconds)`, truncated toward zero; `DefaultSilenceLimit` gives its default value |
| `AudioServiceModel.DefaultSilenceLimit` | `server/services/audio_service.py:109` | the default rate, chunk size and silence seconds give a silence limit of 15 chunks |
| `AudioServiceModel.Step` | `server/services/audio_service.py:125-134` | one queued chunk: count silence, flush the phrase into the transcript and empty the buffer when the counter passes the limit or the buffer is too long, then append the chunk; its effects are stated by `StepEffect` |
| `AudioServiceModel.Steps` | `server/services/audio_service.py:122-134` | the queued chunks processed in order by `Step`; its effects are stated by `StepsEffect` and `FlushForeverAfter` |
| `AudioServiceModel.StepEffect` | `server/services/audio_service.py:125-134` | one chunk: the transcript only grows, and grows iff the chunk flushes; a flush adds exactly a newline to the transcription; silence rises by one iff the energy is below the threshold; the buffer ends with the chunk and, after a flush, is the chunk |
| `AudioServiceModel.StepsEffect` | `server/services/audio_service.py:122-134` | over many chunks the old transcript stays a prefix, the silence count never drops, and the transcription gains one newline per flush |
| `AudioServiceModel.FlushForeverAfter` | `server/services/audio_service.py:108-129` | the silence counter is never reset, so once it passes the limit every later chunk flushes |
| `AudioServiceModel.DefaultThresholdNeverSilent` | `server/services/audio_service.py:31` | with the default threshold 0 no chunk counts as silent |
| `AudioServiceModel.AudioService.constructor` | `server/services/audio_service.py:26-48` | a fresh service has an empty transcript and phrase, is not running, and keeps its devices, meeting id and configuration |
| `AudioServiceModel.AudioService.GetTranscription` | `server/services/audio_service.py:167-168` | the transcription is the transcript followed by the current phrase |
| `AudioServiceModel.AudioService.Begin` | `server/services/audio_service.py:106-112` | `start` begins with an empty buffer, a zero silence count and the computed limit, and sets running |
| `AudioServiceModel.AudioService.ProcessChunk` | `server/services/audio_service.py:125-134` | the service's transcript, phrase, buffer and count become one `Step` of the old ones |
| `AudioServiceModel.AudioService.Drain` | `server/services/audio_service.py:122-134` | draining the queue applies `Steps` to the queued chunks in order |
| `AudioServiceModel.AudioService.ApplyTranscription` | `server/services/audio_service.py:158-160` | the current phrase becomes the stripped reply text; nothing else changes |
| `AudioServiceModel.AudioService.Stop` | `server/services/audio_service.py:162-165` | the service is no longer running; the transcript and phrase are kept |
| `PostProcessing.Overlap` | `server/services/post_processing.py:45` | overlap is never negative, and positive iff the intervals intersect |
| `PostProcessing.ScanChoosesFirstLargest` | `server/services/post_processing.py:41-48` | with no overlapping turn the speaker is "Unknown"; otherwise it is the label of the first turn with the largest overlap |
| `PostProcessing.ExtendWithLarger` | `server/services/post_processing.py:46-48` | a strictly larger overlap takes over the choice |
| `PostProcessing.ExtendKeepsFirst` | `server/services/post_processing.py:46-48` | an overlap no larger than the best keeps the earlier choice |
| `PostProcessing.TieGoesToEarlierTurn` | `server/services/post_processing.py:46-48` | of two turns with equal positive overlap, the earlier one wins |
| `PostProcessing.AssignSpeaker` | `server/services/post_processing.py:41-48` | the inner loop computes the scan's speaker and a non-negative best overlap |
| `PostProcessing.Label` | `server/services/post_processing.py:35-48` | one labelled, stripped text per segment |
| `PostProcessing.RunItems` | `server/services/post_processing.py:50-63` | a run expands to one item per text |
| `PostProcessing.ExpandAppend` | `server/services/post_processing.py:50-63` | expanding runs distributes over append |
| `PostProcessing.PushKeepsShape` | `server/services/post_processing.py:50-63` | adding a segment extends the last run iff its speaker matches, and otherwise starts a new run; runs stay non-empty with no two adjacent speakers equal, and no segment is lost |
| `PostProcessing.RunsAreMaximal` | `server/services/post_processing.py:50-63` | the runs of a labelled list are non-empty maximal same-speaker blocks that expand back to the list |
| `PostProcessing.RunsLength` | `server/services/post_processing.py:50-70` | there are at most as many runs as segments, and none iff there are no segments |
| `PostProcessing.RunsCountChanges` | `server/services/post_processing.py:53-63` | the number of runs is one more than the number of speaker changes |
| `PostProcessing.LastRunSpeaker` | `server/services/post_processing.py:66-70` | the last run belongs to the last segment's speaker |
| `PostProcessing.Records` | `server/services/post_processing.py:57-70` | one record per run: its speaker and its texts joined by single spaces |
| `PostProcessing.Transcript` | `server/services/post_processing.py:31-72` | the result of `diarize` as a value: the records of the maximal same-speaker runs of the best-overlap labels; `Diarize` computes it and `TranscriptShape`, `RecordsAlternate` and `RunsAreMaximal` state its shape |
| `PostProcessing.RecordsAppend` | `server/services/post_processing.py:57-60` | records distribute over append |
| `PostProcessing.RunsSnoc` | `server/services/post_processing.py:50-63` | the runs of a list extended by one item are the old runs with that item pushed |
| `PostProcessing.LabelSnoc` | `server/services/post_processing.py:35-48` | labelling one more segment appends its label |
| `PostProcessing.RecordsAlternate` | `server/services/post_processing.py:53-63` | no two adjacent records have the same speaker |
| `PostProcessing.TranscriptShape` | `server/services/post_processing.py:31-70` | no segments give no records; otherwise there are between 1 and #segments records, and adjacent records have different speakers |
| `PostProcessing.TrackStart` | `server/services/post_processing.py:50-52` | the first segment opens the current run |
| `PostProcessing.TrackExtend` | `server/services/post_processing.py:53-54` | a segment with the current speaker extends the current run |
| `PostProcessing.TrackSwitch` | `server/services/post_processing.py:55-63` | a new speaker closes the current run as a record and opens a new one |
| `PostProcessing.TrackFinish` | `server/services/post_processing.py:66-70` | closing the open run completes the records of all runs |
| `PostProcessing.Diarize` | `server/services/post_processing.py:31-72` | the loop's result is exactly `Transcript(segments, turns)`: the records of the maximal same-speaker runs of the best-overlap labels |
| `Prompts.BasePrompt` | `server/library/prompts.py:1-4` | the base system prompt, and the prompt is "# Conversation \n" followed by the conversation |
| `Prompts.GetMessages` | `server/library/prompts.py:6-10` | exactly two messages: the system prompt, then the user prompt |
| `Prompts.ClassifyPrompt` | `server/library/prompts.py:12-87` | the classify template: the category descriptions, the conversation, and a request naming the five categories; `ClassifyHoldsConversation` and `ClassifyNamesEveryCategory` state what it contains |
| `Prompts.TriviaPrompt` | `server/library/prompts.py:89-114` | the trivia template: the resume, then the conversation, then the request; `TriviaHoldsConversation` and `ResumeBeforeConversation` state what it contains |
| `Prompts.ResumePrompt` | `server/library/prompts.py:118-137` | the resume template: the resume, then the conversation, then the request; `ResumeHoldsConversation` and `ResumeBeforeConversation` state what it contains |
| `Prompts.SystemDesignPrompt` | `server/library/prompts.py:141-161` | the system design template around the conversation; `SystemDesignHoldsConversation` states that it contains it |
| `Prompts.CodingPrompt` | `server/library/prompts.py:165-190` | the coding template around the conversation; `CodingHoldsConversation` states that it contains it |
| `Prompts.ClarifyPrompt` | `server/library/prompts.py:194-219` | the clarify template around the conversation; `ClarifyHoldsConversation` states that it contains it |
| `Prompts.SummarizePrompt` | `server/library/prompts.py:223-238` | the summarize template around the transcript; `SummarizeHoldsConversation` states that it contains it |
| `Prompts.TemplatesKeepSystemPrompt` | `server/library/prompts.py:2-3` | every template keeps the base system prompt |
| `Prompts.ClassifyHoldsConversation` | `server/library/prompts.py:84` | the classify prompt contains the conversation |
| `Prompts.TriviaHoldsConversation` | `server/library/prompts.py:96` | the trivia prompt contains the conversation |
| `Prompts.ResumeHoldsConversation` | `server/library/prompts.py:126` | the resume prompt contains the conversation |
| `Prompts.SystemDesignHoldsConversation` | `server/library/prompts.py:145` | the system design prompt contains the conversation |
| `Prompts.CodingHoldsConversation` | `server/library/prompts.py:169` | the coding prompt contains the conversation |
| `Prompts.ClarifyHoldsConversation` | `server/library/prompts.py:198` | the clarify prompt contains the conversation |
| `Prompts.SummarizeHoldsConversation` | `server/library/prompts.py:227` | the summarize prompt contains the conversation |
| `Prompts.ResumeBeforeConversation` | `server/library/prompts.py:92-126` | in the trivia and resume prompts the resume occurs before the conversation |
| `Prompts.SelfOccurs` | `server/library/prompts.py:87` | a string occurs in itself at offset 0 |
| `Prompts.ListedFirst` | `server/library/prompts.py:87` | the first name of a list "a, b, c, d, or e." occurs right after the lead |
| `Prompts.ListedSecond` | `server/library/prompts.py:87` | the second name occurs after the first and ", " |
| `Prompts.ListedThird` | `server/library/prompts.py:87` | the third name occurs after the second and ", " |
| `Prompts.ListedFourth` | `server/library/prompts.py:87` | the fourth name occurs after the third and ", " |
| `Prompts.ListedFifth` | `server/library/prompts.py:87` | the fifth name occurs after the fourth and ", or " |
| `Prompts.RequestNamesCategory` | `server/library/prompts.py:87` | the request line names every category by its enum value |
| `Prompts.OccursInTail` | `server/library/prompts.py:84-87` | text after the conversation keeps its occurrences, shifted |
| `Prompts.ClassifyNamesEveryCategory` | `server/library/prompts.py:84-87` | the classify prompt names each of the five categories after the conversation |
| `ChatSchema.ParseCategory` | `server/schemas/chat_schema.py:5-10` | a parsed category has the text as its value |
| `ChatSchema.CategoryRoundTrip` | `server/schemas/chat_schema.py:5-10` | every category parses back from its value, and parsing fails iff no category has the text |
| `ChatRouter.SettingsMap` | `server/routers/chat_router.py:64-66` | the settings map holds each row's key with its value, and nothing else |
| `ChatRouter.UpsertRow` | `server/routers/chat_router.py:75-80` | an existing key's row gets the new value; otherwise one row with the next id is added; keys stay unique and the map is updated at the key |
| `ChatRouter.SaveSetting` | `server/routers/chat_router.py:73-83` | the store's settings map becomes the old one with the key set to the value, keys stay unique, and the saved setting is returned |
| `ChatRouter.NoRowNoKey` | `server/routers/chat_router.py:66` | a key that no row carries is not in the map |
| `ChatRouter.UpdateKeepsUnique` | `server/routers/chat_router.py:77` | overwriting a row's value keeps keys unique |
| `ChatRouter.InsertKeepsUnique` | `server/routers/chat_router.py:79-80` | adding a row with a new key keeps keys unique |
| `ChatRouter.KeyWriteKeeps` | `server/routers/chat_router.py:75-80` | writing one key keeps every other key's value |
| `ChatRouter.KeyWriteAddsNothing` | `server/routers/chat_router.py:75-80` | writing one key adds no other key |
| `ChatRouter.KeyWriteMap` | `server/routers/chat_router.py:75-80` | writing one key's row is a point update of the map |
| `ChatRouter.ClassifiedTypeIsValid` | `server/routers/chat_router.py:88-89` | a classified request's type is one of the five categories |
| `ChatRouter.ResolvedType` | `server/routers/chat_router.py:88-89` | the request's question type, or the classifier's category value when it has none; `ClassifiedTypeIsValid` states that the latter is a category |
| `ChatRouter.PromptFor` | `server/routers/chat_router.py:105-114` | trivia and resume get their templates with the resume; coding, system_design and clarify get theirs without it; all keep the system prompt |
| `ChatRouter.PromptHoldsConversation` | `server/routers/chat_router.py:105-118` | the dispatched prompt contains the conversation |
| `ChatRouter.ImageMessages` | `server/routers/chat_router.py:119-134` | the messages sent with a screenshot: the system message, then a user message of the prompt text and the image URL; `ImageMessagesKeepPrompt` relates them to `get_messages` |
| `ChatRouter.ImageMessagesKeepPrompt` | `server/routers/chat_router.py:119-134` | with an image the system message is kept, and the user content becomes the text prompt followed by the JPEG data URL of the screenshot |
| `ChatRouter.FirstChoice` | `server/routers/chat_router.py:143` | the reply is the first choice, or "" when there are none |
| `ChatRouter.GetChatResponse` | `server/routers/chat_router.py:85-146` | a non-integer monitor_number gives 500; an unknown type gives 400 and never for a classified request; a failed screenshot gives 500; otherwise the request succeeds, and with the prompt for the type, the image messages when asked, and the reasoning backend when asked, the reply is the first choice and the type is the resolved one |
| `ChatRouter.SettingDefaults` | `server/routers/chat_router.py:100-102` | missing settings default to resume "", job_description "" and monitor number 1 |
| `ClientApi.Names` | `client/app/page.tsx:80` | the tag names, one per tag, in order |
| `MeetingCard.JsRem` | `client/components/meeting-card.tsx:73-74` | JavaScript's `%`: the Euclidean remainder for a non-negative dividend, a non-positive remainder for a negative one |
| `MeetingCard.FloorDiv` | `client/components/meeting-card.tsx:72-74` | `Math.floor(a / b)` is the largest `q` with `q * b <= a` |
| `MeetingCard.DurationParts` | `client/components/meeting-card.tsx:71-74` | the hours, minutes and seconds `displayDuration` computes; `DurationDecomposes` and `NegativeDuration` state their ranges |
| `MeetingCard.DisplayDuration` | `client/components/meeting-card.tsx:68-76` | the text "h hours, m minutes, s seconds" of the three parts |
| `MeetingCard.DurationDecomposes` | `client/components/meeting-card.tsx:71-74` | for a non-negative duration: hours are the duration div 3600000, minutes and seconds are below 60, and h*3600 + m*60 + s is the duration in whole seconds |
| `MeetingCard.NegativeDuration` | `client/components/meeting-card.tsx:71-74` | an end before the start gives negative hours and minutes and seconds in [-60, 0] |
| `MeetingCard.CardAction` | `client/components/meeting-card.tsx:159-183` | the delete action iff the meeting is COMPLETED, the stop action otherwise |
| `MeetingCard.ShowsDuration` | `client/components/meeting-card.tsx:84-113` | the duration is shown exactly on the cards that offer delete |
| `MeetingCard.AvailableTags` | `client/components/meeting-card.tsx:143-145` | the dropdown holds exactly the tags whose id is not on the meeting |
| `MeetingCard.AvailableTagsKeepOrder` | `client/components/meeting-card.tsx:143-145` | the dropdown keeps the order of all tags |
| `MeetingCard.AvailableTagsExcludeAttached` | `client/components/meeting-card.tsx:143-145` | no offered tag shares an id with an attached tag |
| `MeetingCard.CardState.constructor` | `client/components/meeting-card.tsx:24` | the dropdown starts closed, with no calls made |
| `MeetingCard.CardState.TogglePlus` | `client/components/meeting-card.tsx:135` | the plus button flips the dropdown |
| `MeetingCard.CardState.HandleTagDelete` | `client/components/meeting-card.tsx:30-38` | removes the tag from the meeting; meetings are refreshed only on success |
| `MeetingCard.CardState.HandleTagAdd` | `client/components/meeting-card.tsx:40-48` | adds the tag by name; on success the meetings are refreshed and the dropdown closes; on failure both stay |
| `MeetingCard.CardState.HandleStopRecording` | `client/components/meeting-card.tsx:50-57` | stops the meeting; meetings are refreshed only on success |
| `MeetingCard.CardState.HandleDeleteMeeting` | `client/components/meeting-card.tsx:59-66` | deletes the meeting; meetings are refreshed only on success |
| `HomePage.FilterMeetingsByStatus` | `client/app/page.tsx:16-18` | exactly the meetings with the status |
| `HomePage.FilterMeetingsKeepsOrder` | `client/app/page.tsx:16-18` | the filter keeps the meetings' order |
| `HomePage.SectionsSplitByStatus` | `client/app/page.tsx:160-179` | a meeting is in the active section iff ACTIVE and in the completed one iff COMPLETED; never in both, and in neither for any other status |
| `HomePage.ToggledTags` | `client/app/page.tsx:63-72` | a present tag id is removed with every tag carrying it; an absent one is appended at the end |
| `HomePage.ToggledTagsKeepOrder` | `client/app/page.tsx:63-72` | removing a present tag keeps the other tags in their order: the toggle of a split filter is the two halves, each without the id |
| `HomePage.ToggleAbsentTwice` | `client/app/page.tsx:63-72` | toggling an absent tag twice restores the filter |
| `HomePage.HomeState.constructor` | `client/app/page.tsx:21-25` | no meetings, no selection and an empty filter |
| `HomePage.HomeState.HandleSelectChange` | `client/app/page.tsx:48-50` | the selection becomes the audio id |
| `HomePage.HomeState.HandleRecordClick` | `client/app/page.tsx:52-61` | nothing without a selection; otherwise the meeting is started, and the page moves to it only on success |
| `HomePage.HomeState.ToggleFilterTag` | `client/app/page.tsx:63-72` | the filter becomes `ToggledTags` of the old one |
| `HomePage.HomeState.ClearFilterTags` | `client/app/page.tsx:74-76` | the filter becomes empty |
| `HomePage.HomeState.FetchMeetings` | `client/app/page.tsx:78-85` | fetches page 1 with the filter's tag names in order; the meetings are replaced only on success |
| `SettingsPage.TagsAfterDelete` | `client/app/settings/page.tsx:83` | exactly the tags without that id remain |
| `SettingsPage.TagsAfterDeleteKeepOrder` | `client/app/settings/page.tsx:83` | the others keep their order |
| `SettingsPage.DeleteAbsentTag` | `client/app/settings/page.tsx:83` | deleting an absent id changes nothing |
| `SettingsPage.AddDeviceRow` | `client/app/settings/page.tsx:90` | a row with no name and channel 0 is appended |
| `SettingsPage.RemoveDeviceRow` | `client/app/settings/page.tsx:94` | exactly row `i` goes; an out-of-range `i` leaves the rows unchanged |
| `SettingsPage.DeviceChange` | `client/app/settings/page.tsx:97-100` | only the chosen field of row `i` changes; the length and the other rows are kept |
| `SettingsPage.DeviceChangeOutOfRange` | `client/app/settings/page.tsx:97-100` | an out-of-range index changes nothing |
| `SettingsPage.SubmittedDevices` | `client/app/settings/page.tsx:107-111` | every row is sent with its name and channel and a channel count of 1 |
| `SettingsPage.EnabledButtons` | `client/app/settings/page.tsx:155-207` | add is enabled iff the input has a non-space character; submit iff the company does and there is at least one row |
| `SettingsPage.FindDevice` | `client/app/settings/page.tsx:241` | the device found has the name and every earlier device has another name; none iff no device has it |
| `SettingsPage.ChannelOptions` | `client/app/settings/page.tsx:240-246` | 0 to n_channels - 1 for the chosen device, none for an unknown one |
| `SettingsPage.MapGet` | `client/app/settings/page.tsx:55` | `new Map(...).get`: the value of an entry for the key that no later entry for the key follows; none iff no entry has the key |
| `SettingsPage.OrDefault` | `client/app/settings/page.tsx:56-58` | JavaScript's logical or with a default: the default for a missing or empty value |
| `SettingsPage.MapGetUnique` | `client/app/settings/page.tsx:55` | with distinct keys each entry's key maps to its value |
| `SettingsPage.LoadedSettingsDefaults` | `client/app/settings/page.tsx:55-58` | stored values are loaded, an empty monitor number falls back to '1', and missing settings default to resume '', job_description '' and monitor number '1' |
| `SettingsPage.SettingsState.constructor` | `client/app/settings/page.tsx:20-30` | empty lists and inputs, and the default AI settings |
| `SettingsPage.SettingsState.LoadSettings` | `client/app/settings/page.tsx:55-58` | the AI settings become `LoadedSettings` of the fetched list |
| `SettingsPage.SettingsState.HandleAddTag` | `client/app/settings/page.tsx:67-78` | a trimmed name already taken does nothing; otherwise the untrimmed input is sent, and on success the tag is appended and the input cleared |
| `SettingsPage.SettingsState.HandleKeyDown` | `client/app/settings/page.tsx:122-126` | Enter with a non-blank input runs `HandleAddTag`: nothing when the trimmed name is taken, otherwise the untrimmed input is sent and, on success, the tag is appended and the input cleared; any other key does nothing |
| `SettingsPage.SettingsState.HandleDeleteTag` | `client/app/settings/page.tsx:80-87` | sends the delete; the tag goes from the list only on success |
| `SettingsPage.SettingsState.HandleAddDeviceRow` | `client/app/settings/page.tsx:89-91` | the rows become `AddDeviceRow` of the old rows |
| `SettingsPage.SettingsState.HandleRemoveDeviceRow` | `client/app/settings/page.tsx:93-95` | the rows become `RemoveDeviceRow` of the old rows |
| `SettingsPage.SettingsState.HandleDeviceChange` | `client/app/settings/page.tsx:97-101` | the rows become `DeviceChange` of the old rows |
| `SettingsPage.SettingsState.HandleSubmit` | `client/app/settings/page.tsx:103-120` | sends the company and the submitted devices; on success clears the form and refetches, replacing the configurations when that fetch succeeds |
| `SettingsPage.SettingsState.SaveAiSettings` | `client/app/settings/page.tsx:312-316` | saves resume, job_description and monitor_number, in that order |

## Left out

- I/O is not modelled. This covers PyAudio capture, the recording thread's mixing, `rms_energy` and WAV writing (`server/services/audio_service.py:19-23,62-104,137-146`), and the transcription server's HTTP call. Chunk energy and the reply text are inputs.
- Concurrency is not modelled: asyncio tasks and the recording thread. Each chunk is processed by one sequential method, and a transcription lands through `ApplyTranscription` whenever the caller chooses.
- The timed transcribe ticks of `start` (`server/services/audio_service.py:110,119-121`) are left out. `Drain` processes whatever the queue holds.
- `_find_device_index` (`server/services/audio_service.py:52-60`) is not modelled: it only feeds PyAudio.
- The WebSocket endpoint (`server/routers/meeting_router.py:113-130`) is left out: network I/O and timed sleeps.
- Model loading and the Whisper/pyannote pipeline are left out. `Diarize` takes the segments and turns as parameters.
- `summarize`, `classify_conversation` and the completion API are left out as language-model calls. The classifier and the completion are function parameters of `GetChatResponse`. They are total, so a failure of `classify_conversation` (`server/routers/chat_router.py:89`) or of the completion call (`server/routers/chat_router.py:137`), which the source turns into a 500, is not modelled, and the success clause of `GetChatResponse` relies on that.
- Screenshot capture is left out. The base64 text of a screenshot is an input, and `None` stands for a failed grab.
- `get_all_settings`, `getChatCompletions` and `get_all_audio_with_devices` are thin listings or forwarding endpoints, and are not modelled.
- The `page` parameter of `get_all_meetings` is accepted but unused (`server/routers/meeting_router.py:189`), so the model takes none.
- The order of tied start times in `get_all_meetings` is left open. The model only promises newest first.
- SQLAlchemy sessions and SQLite are replaced by in-memory maps. Ids come from counters that never reuse a deleted id, while SQLite may reuse the highest one.
- The rollback of a failed commit is modelled by its effect: the device rows are restored, and the committed Audio row stays.
- `delete_tag` and `delete_meeting` remove the `meetings_tags` rows. The ORM clears these secondary rows on delete.
- The store returns tags in id order, while SQLite does not promise any order; `GetTags` states id order.
- The transcript column holds `json.dumps` of the records. The model stores the record list itself.
- `GetChatResponse`: the job_description setting is read but never used (`server/routers/chat_router.py:101`); the model reads it too and, like the source, never uses the value.
- `GetChatResponse`: a failing `int(monitor_number)` raises before the type is checked, and the model keeps that order (500 before 400).
- `GetChatResponse`: content `None` in the first choice is not modelled; a choice is a string.
- Python's `int()` also accepts underscores between digits and non-ASCII digits. The model's `ParseInt` accepts surrounding whitespace, an optional sign and ASCII digits only.
- `Common.Strip`: `str.strip()` and `String.trim()` remove all Unicode whitespace. The model strips space, tab, newline, carriage return, vertical tab and form feed.
- `Prompts.ClassifyNamesEveryCategory`: states that the request names every category. It does not state that the request names no other word.
- `MeetingCard.NegativeDuration`: its proof needs no steps; it records the sign behaviour of JavaScript's `%`.
- Date parsing and `toLocaleString` in the meeting card are left out, and times enter as integer milliseconds. With integers, the floating-point division and `Math.floor` are exact.
- The settings page's device listing (`client/app/settings/page.tsx:45-49`) only reshapes the fetched map, and is not modelled.
- React rendering, JSX layout, the sidebar, routing and the client's fetch wrappers are not modelled. A handler's remote call is logged in `calls`, and its outcome is a parameter.
- The home page's initial load of the audio configurations and tags (`client/app/page.tsx:28-46`) and the settings page's initial `setTags` and `setAudioConfigurations` (`client/app/settings/page.tsx:43,52`) only copy fetched lists into state, and are not modelled.
- The effect that refetches the meetings whenever the tag filter changes (`client/app/page.tsx:87-89`) is React wiring: `ToggleFilterTag` and `ClearFilterTags` only change the filter, and the caller runs `FetchMeetings` after them.
- `AudioServiceModel.SilenceLimit`: the model divides exactly, while Python divides in binary floating point before `int()`. For a configured silence_seconds whose product lands just below or on a whole number, the truncated limits can differ by one.
- `MeetingRouter.StartMeeting`: the transcribe rate and output directory read from the configuration file set timing and WAV output, which are not modelled; the silence seconds, threshold and maximum record time are inputs.
- The per-meeting view `client/app/[meeting_id]/page.tsx` is not part of this model.
- `AudioServiceModel.StepEffect`: the buffer limit compares the buffer's length in bytes to `max_record_time * sample_rate` samples, as the source does. The model keeps that comparison.
- `AudioServiceModel.FlushForeverAfter`: the source never resets the silence counter, and the model keeps that; the lemma shows the consequence.
