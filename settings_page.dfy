/** The settings page: the tag list with its add and delete guards, the
    rows of a new audio configuration and its submission, and the three
    AI settings with their defaults. */
module SettingsPage {
  import opened Common
  import opened ClientApi

  /** A row of the audio configuration form (name, channel). */
  datatype DeviceRow = DeviceRow(name: string, channel: int)

  /** handleDeviceChange's field and value. */
  datatype Edit = SetName(name: string) | SetChannel(channel: int)

  // ---------------------------------------------------------------------
  // Tags

  /** The add guard: a tag already carrying the trimmed input. */
  predicate TagNameTaken(tags: seq<Tag>, input: string) {
    exists t | t in tags :: t.name == Strip(input)
  }

  /** The tags after a successful delete: every tag with the id goes. */
  function TagsAfterDelete(tags: seq<Tag>, tagId: int): (r: seq<Tag>)
    ensures forall t :: t in r <==> t in tags && t.tagId != tagId
    ensures !HasTagId(r, tagId)
  {
    Filter(tags, (t: Tag) => t.tagId != tagId)
  }

  /** The remaining tags keep their order. */
  lemma TagsAfterDeleteKeepOrder(a: seq<Tag>, b: seq<Tag>, tagId: int)
    ensures TagsAfterDelete(a + b, tagId) == TagsAfterDelete(a, tagId) + TagsAfterDelete(b, tagId)
  {
    FilterConcat(a, b, (t: Tag) => t.tagId != tagId);
  }

  /** Deleting an id that no tag carries changes nothing. */
  lemma DeleteAbsentTag(tags: seq<Tag>, tagId: int)
    requires !HasTagId(tags, tagId)
    ensures TagsAfterDelete(tags, tagId) == tags
  {
    FilterAllKept(tags, (t: Tag) => t.tagId != tagId);
  }

  // ---------------------------------------------------------------------
  // Device rows

  function AddDeviceRow(rows: seq<DeviceRow>): (r: seq<DeviceRow>)
    ensures |r| == |rows| + 1 && r[..|rows|] == rows
    ensures r[|rows|] == DeviceRow("", 0)
  {
    rows + [DeviceRow("", 0)]
  }

  /** handleRemoveDeviceRow: prev.filter((_, i) => i !== index), the row at that
      position goes. */
  function RemoveDeviceRow(rows: seq<DeviceRow>, index: int): (r: seq<DeviceRow>)
    ensures 0 <= index < |rows| ==> r == rows[..index] + rows[index + 1..]
    ensures !(0 <= index < |rows|) ==> r == rows
  {
    if rows == [] then []
    else if index == 0 then rows[1..]
    else
      var rest := RemoveDeviceRow(rows[1..], index - 1);
      assert 0 < index < |rows| ==>
        (rows[..index] == [rows[0]] + rows[1..][..index - 1] && rows[index + 1..] == rows[1..][index..]);
      [rows[0]] + rest
  }

  function ApplyEdit(row: DeviceRow, e: Edit): DeviceRow {
    match e
    case SetName(name) => row.(name := name)
    case SetChannel(channel) => row.(channel := channel)
  }

  /** handleDeviceChange: only the chosen field of row `index` changes. */
  function DeviceChange(rows: seq<DeviceRow>, index: int, e: Edit): (r: seq<DeviceRow>)
    ensures |r| == |rows|
    ensures forall i | 0 <= i < |rows| && i != index :: r[i] == rows[i]
    ensures 0 <= index < |rows| && e.SetName? ==>
      r[index].name == e.name && r[index].channel == rows[index].channel
    ensures 0 <= index < |rows| && e.SetChannel? ==>
      r[index].channel == e.channel && r[index].name == rows[index].name
  {
    seq(|rows|, i requires 0 <= i < |rows| => if i == index then ApplyEdit(rows[i], e) else rows[i])
  }

  /** A change at an index outside the list leaves it as it was. */
  lemma DeviceChangeOutOfRange(rows: seq<DeviceRow>, index: int, e: Edit)
    requires !(0 <= index < |rows|)
    ensures DeviceChange(rows, index, e) == rows
  {
  }

  /** The devices submitted for the rows: each with n_channels 1. */
  function SubmittedDevices(rows: seq<DeviceRow>): (r: seq<AudioDevice>)
    ensures |r| == |rows|
    ensures forall i | 0 <= i < |rows| ::
      r[i].name == rows[i].name && r[i].channel == rows[i].channel && r[i].nChannels == 1
  {
    if rows == [] then []
    else SubmittedDevices(rows[..|rows| - 1]) + [AudioDevice(rows[|rows| - 1].name, rows[|rows| - 1].channel, 1)]
  }

  /** The submit button is disabled for a blank company or no rows. */
  predicate SubmitDisabled(company: string, rows: seq<DeviceRow>) {
    Strip(company) == "" || |rows| == 0
  }

  /** The add-tag button is disabled for a blank input. */
  predicate AddTagDisabled(newTag: string) {
    Strip(newTag) == ""
  }

  /** A button is enabled exactly when its input has a character that is
      not whitespace, and, for submit, there is at least one row. */
  lemma EnabledButtons(newTag: string, company: string, rows: seq<DeviceRow>)
    ensures !AddTagDisabled(newTag) <==> exists k | 0 <= k < |newTag| :: !IsSpace(newTag[k])
    ensures !SubmitDisabled(company, rows) <==>
      (exists k | 0 <= k < |company| :: !IsSpace(company[k])) && |rows| > 0
  {
  }

  /** The first device with the name (Array.prototype.find). */
  function FindDevice(devices: seq<AudioDevice>, name: string): (r: Option<AudioDevice>)
    ensures r.Some? ==> r.value in devices && r.value.name == name
    ensures r.None? <==> forall d | d in devices :: d.name != name
    ensures r.Some? ==> exists i | 0 <= i < |devices| ::
      devices[i] == r.value && forall j | 0 <= j < i :: devices[j].name != name
  {
    if devices == [] then None
    else if devices[0].name == name then Some(devices[0])
    else
      var rest := FindDevice(devices[1..], name);
      assert rest.Some? ==> exists i | 0 <= i < |devices| ::
        devices[i] == rest.value && forall j | 0 <= j < i :: devices[j].name != name by {
        if rest.Some? {
          var i :| 0 <= i < |devices[1..]| && devices[1..][i] == rest.value
            && forall j | 0 <= j < i :: devices[1..][j].name != name;
          assert forall j | 0 <= j < i + 1 :: devices[j].name != name by {
            forall j | 0 <= j < i + 1 ensures devices[j].name != name {
              if j > 0 { assert devices[j] == devices[1..][j - 1]; }
            }
          }
        }
      }
      rest
  }

  /** The channel options of a row: 0 .. n_channels - 1 of the device the
      row names; none when no device has the name or its channel count is
      0 (falsy). Array.from clamps a negative length to 0. */
  function ChannelOptions(devices: seq<AudioDevice>, name: string): (r: seq<int>)
    ensures FindDevice(devices, name).None? ==> r == []
    ensures FindDevice(devices, name).Some? ==>
      var n := FindDevice(devices, name).value.nChannels;
      && |r| == (if n > 0 then n else 0)
      && forall i | 0 <= i < |r| :: r[i] == i
  {
    var found := FindDevice(devices, name);
    if found.None? || found.value.nChannels == 0 then []
    else
      var n := if found.value.nChannels > 0 then found.value.nChannels else 0;
      seq(n, i => i)
  }

  // ---------------------------------------------------------------------
  // AI settings

  /** new Map(settings.map(s => [s.key, s.value])).get(key): a later entry
      for a key overrides an earlier one. */
  function MapGet(settings: seq<Setting>, key: string): (r: Option<string>)
    ensures r.None? <==> forall s | s in settings :: s.key != key
    ensures r.Some? ==> Setting(key, r.value) in settings
    ensures r.Some? ==> exists i | 0 <= i < |settings| ::
      settings[i] == Setting(key, r.value) && forall j | i < j < |settings| :: settings[j].key != key
  {
    if settings == [] then None
    else
      var last := settings[|settings| - 1];
      assert settings == settings[..|settings| - 1] + [last];
      if last.key == key then Some(last.value) else MapGet(settings[..|settings| - 1], key)
  }

  /** `value || fallback`: a missing or empty value falls back. */
  function OrDefault(v: Option<string>, fallback: string): (r: string)
    ensures v.None? ==> r == fallback
    ensures v.Some? && v.value == "" ==> r == fallback
    ensures v.Some? && v.value != "" ==> r == v.value
  {
    if v.Some? && v.value != "" then v.value else fallback
  }

  datatype AiSettings = AiSettings(resume: string, jobDescription: string, monitorNumber: string)

  function LoadedSettings(settings: seq<Setting>): AiSettings {
    AiSettings(
      OrDefault(MapGet(settings, "resume"), ""),
      OrDefault(MapGet(settings, "job_description"), ""),
      OrDefault(MapGet(settings, "monitor_number"), "1"))
  }

  predicate UniqueKeys(settings: seq<Setting>) {
    forall i, j | 0 <= i < |settings| && 0 <= j < |settings| && settings[i].key == settings[j].key :: i == j
  }

  /** With unique keys (the server's setting table), the map holds each
      entry's own value. */
  lemma {:induction false} MapGetUnique(settings: seq<Setting>, i: int)
    requires UniqueKeys(settings) && 0 <= i < |settings|
    ensures MapGet(settings, settings[i].key) == Some(settings[i].value)
  {
    var last := |settings| - 1;
    if i != last {
      var init := settings[..last];
      assert UniqueKeys(init) by {
        forall a, b | 0 <= a < |init| && 0 <= b < |init| && init[a].key == init[b].key
          ensures a == b
        {
          assert settings[a] == init[a] && settings[b] == init[b];
        }
      }
      assert settings[last].key != settings[i].key;
      assert init[i] == settings[i];
      MapGetUnique(init, i);
    }
  }

  /** The page shows the stored value of a key when it is not empty, and
      the endpoint's default otherwise: resume '', job description '',
      monitor '1'. */
  lemma LoadedSettingsDefaults(settings: seq<Setting>)
    requires UniqueKeys(settings)
    ensures forall i | 0 <= i < |settings| && settings[i].key == "monitor_number" && settings[i].value != "" ::
      LoadedSettings(settings).monitorNumber == settings[i].value
    ensures forall i | 0 <= i < |settings| && settings[i].key == "monitor_number" && settings[i].value == "" ::
      LoadedSettings(settings).monitorNumber == "1"
    ensures forall i | 0 <= i < |settings| && settings[i].key == "resume" ::
      LoadedSettings(settings).resume == settings[i].value
    ensures forall i | 0 <= i < |settings| && settings[i].key == "job_description" ::
      LoadedSettings(settings).jobDescription == settings[i].value
    ensures (forall s | s in settings :: s.key != "monitor_number") ==> LoadedSettings(settings).monitorNumber == "1"
    ensures (forall s | s in settings :: s.key != "resume") ==> LoadedSettings(settings).resume == ""
    ensures (forall s | s in settings :: s.key != "job_description") ==> LoadedSettings(settings).jobDescription == ""
  {
    forall i | 0 <= i < |settings|
      ensures MapGet(settings, settings[i].key) == Some(settings[i].value)
    {
      MapGetUnique(settings, i);
    }
  }

  // ---------------------------------------------------------------------
  // Handlers

  /** The page's state and the remote calls made so far. */
  class SettingsState {
    var tags: seq<Tag>
    var newTag: string
    var selectedCompany: string
    var selectedDevices: seq<DeviceRow>
    var audioConfigurations: seq<AudioConfig>
    var ai: AiSettings
    var calls: seq<RemoteCall>

    constructor ()
      ensures tags == [] && newTag == "" && selectedCompany == "" && selectedDevices == []
      ensures audioConfigurations == [] && ai == AiSettings("", "", "1") && calls == []
    {
      tags := [];
      newTag := "";
      selectedCompany := "";
      selectedDevices := [];
      audioConfigurations := [];
      ai := AiSettings("", "", "1");
      calls := [];
    }

    /** The settings part of the initial load. */
    method LoadSettings(settings: seq<Setting>)
      modifies this
      ensures ai == LoadedSettings(settings)
      ensures tags == old(tags) && newTag == old(newTag) && selectedCompany == old(selectedCompany)
      ensures selectedDevices == old(selectedDevices) && audioConfigurations == old(audioConfigurations)
      ensures calls == old(calls)
    {
      ai := LoadedSettings(settings);
    }

    /** handleAddTag: nothing when a tag already has the trimmed name;
        otherwise createTag receives the input as typed, and on success the
        new tag is appended and the input cleared. */
    method HandleAddTag(created: Option<Tag>)
      modifies this
      ensures TagNameTaken(old(tags), old(newTag)) ==> calls == old(calls) && tags == old(tags) && newTag == old(newTag)
      ensures !TagNameTaken(old(tags), old(newTag)) ==> calls == old(calls) + [CreateTag(old(newTag))]
      ensures !TagNameTaken(old(tags), old(newTag)) && created.Some? ==>
        tags == old(tags) + [created.value] && newTag == ""
      ensures created.None? ==> tags == old(tags) && newTag == old(newTag)
      ensures selectedCompany == old(selectedCompany) && selectedDevices == old(selectedDevices)
      ensures audioConfigurations == old(audioConfigurations) && ai == old(ai)
    {
      if exists t | t in tags :: t.name == Strip(newTag) {
        return;
      }
      calls := calls + [CreateTag(newTag)];
      if created.Some? {
        tags := tags + [created.value];
        newTag := "";
      }
    }

    /** handleKeyDown: Enter with a non-blank input runs handleAddTag;
        any other key, or a blank input, changes nothing. */
    method HandleKeyDown(key: string, created: Option<Tag>)
      modifies this
      ensures !(key == "Enter" && Strip(old(newTag)) != "") ==>
        calls == old(calls) && tags == old(tags) && newTag == old(newTag)
      ensures key == "Enter" && Strip(old(newTag)) != "" && TagNameTaken(old(tags), old(newTag)) ==>
        calls == old(calls) && tags == old(tags) && newTag == old(newTag)
      ensures key == "Enter" && Strip(old(newTag)) != "" && !TagNameTaken(old(tags), old(newTag)) ==>
        calls == old(calls) + [CreateTag(old(newTag))]
      ensures key == "Enter" && Strip(old(newTag)) != "" && !TagNameTaken(old(tags), old(newTag)) && created.Some? ==>
        tags == old(tags) + [created.value] && newTag == ""
      ensures created.None? ==> tags == old(tags) && newTag == old(newTag)
      ensures selectedCompany == old(selectedCompany) && selectedDevices == old(selectedDevices)
      ensures audioConfigurations == old(audioConfigurations) && ai == old(ai)
    {
      if key == "Enter" && !AddTagDisabled(newTag) {
        HandleAddTag(created);
      }
    }

    /** handleDeleteTag: the tag list changes only when the call succeeds. */
    method HandleDeleteTag(tag: Tag, ok: bool)
      modifies this
      ensures calls == old(calls) + [DeleteTag(tag.tagId)]
      ensures ok ==> tags == TagsAfterDelete(old(tags), tag.tagId)
      ensures !ok ==> tags == old(tags)
      ensures newTag == old(newTag) && selectedCompany == old(selectedCompany)
      ensures selectedDevices == old(selectedDevices) && audioConfigurations == old(audioConfigurations)
      ensures ai == old(ai)
    {
      calls := calls + [DeleteTag(tag.tagId)];
      if ok {
        tags := TagsAfterDelete(tags, tag.tagId);
      }
    }

    method HandleAddDeviceRow()
      modifies this
      ensures selectedDevices == AddDeviceRow(old(selectedDevices))
      ensures tags == old(tags) && newTag == old(newTag) && selectedCompany == old(selectedCompany)
      ensures audioConfigurations == old(audioConfigurations) && ai == old(ai) && calls == old(calls)
    {
      selectedDevices := AddDeviceRow(selectedDevices);
    }

    method HandleRemoveDeviceRow(index: int)
      modifies this
      ensures selectedDevices == RemoveDeviceRow(old(selectedDevices), index)
      ensures tags == old(tags) && newTag == old(newTag) && selectedCompany == old(selectedCompany)
      ensures audioConfigurations == old(audioConfigurations) && ai == old(ai) && calls == old(calls)
    {
      selectedDevices := RemoveDeviceRow(selectedDevices, index);
    }

    method HandleDeviceChange(index: int, e: Edit)
      modifies this
      ensures selectedDevices == DeviceChange(old(selectedDevices), index, e)
      ensures tags == old(tags) && newTag == old(newTag) && selectedCompany == old(selectedCompany)
      ensures audioConfigurations == old(audioConfigurations) && ai == old(ai) && calls == old(calls)
    {
      selectedDevices := DeviceChange(selectedDevices, index, e);
    }

    /** handleSubmit: the company and every row with n_channels 1. After a
        successful create the form is cleared and the configurations are
        fetched again; they are replaced when that fetch succeeds. */
    method HandleSubmit(created: bool, refreshed: Option<seq<AudioConfig>>)
      modifies this
      ensures !created ==>
        && calls == old(calls) + [CreateAudioConfiguration(old(selectedCompany), SubmittedDevices(old(selectedDevices)))]
        && selectedCompany == old(selectedCompany) && selectedDevices == old(selectedDevices)
        && audioConfigurations == old(audioConfigurations)
      ensures created ==>
        && calls == old(calls) + [CreateAudioConfiguration(old(selectedCompany), SubmittedDevices(old(selectedDevices))),
                                  GetAudioConfigurations]
        && selectedCompany == "" && selectedDevices == []
        && audioConfigurations == (if refreshed.Some? then refreshed.value else old(audioConfigurations))
      ensures tags == old(tags) && newTag == old(newTag) && ai == old(ai)
    {
      calls := calls + [CreateAudioConfiguration(selectedCompany, SubmittedDevices(selectedDevices))];
      if created {
        selectedCompany := "";
        selectedDevices := [];
        calls := calls + [GetAudioConfigurations];
        if refreshed.Some? {
          audioConfigurations := refreshed.value;
        }
      }
    }

    /** The save button: the three AI settings, in order. */
    method SaveAiSettings()
      modifies this
      ensures calls == old(calls) + [SaveSetting(Setting("resume", ai.resume)),
        SaveSetting(Setting("job_description", ai.jobDescription)),
        SaveSetting(Setting("monitor_number", ai.monitorNumber))]
      ensures tags == old(tags) && newTag == old(newTag) && selectedCompany == old(selectedCompany)
      ensures selectedDevices == old(selectedDevices) && audioConfigurations == old(audioConfigurations)
      ensures ai == old(ai)
    {
      calls := calls + [SaveSetting(Setting("resume", ai.resume)),
        SaveSetting(Setting("job_description", ai.jobDescription)),
        SaveSetting(Setting("monitor_number", ai.monitorNumber))];
    }
  }
}
