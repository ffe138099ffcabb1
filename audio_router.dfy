/** The audio-configuration endpoints: the cached map of input devices,
    the devices of one configuration, and the upsert of a configuration by
    company that replaces its device list.

    The PyAudio enumeration is an input: the list of device descriptions
    the host reports, in index order. */
module AudioRouter {
  import opened Common
  import opened Models

  /** What PyAudio reports for one device index. */
  datatype PaDevice = PaDevice(name: string, maxInputChannels: int, hostApi: int)

  predicate Usable(d: PaDevice) {
    d.maxInputChannels > 0 && d.hostApi == 0
  }

  /** The device map built from the enumeration: usable devices only,
      name to input channel count; a later device with the same name
      overwrites an earlier one. */
  function DeviceMap(infos: seq<PaDevice>): map<string, int> {
    if infos == [] then map[]
    else
      var m := DeviceMap(infos[..|infos| - 1]);
      var d := infos[|infos| - 1];
      if Usable(d) then m[d.name := d.maxInputChannels] else m
  }

  /** A name is in the map exactly when some usable device has it, and it
      maps to the channel count of the last usable device of that name;
      every count in the map is positive. */
  lemma {:induction false} DeviceMapContents(infos: seq<PaDevice>)
    ensures forall name | name in DeviceMap(infos) :: DeviceMap(infos)[name] > 0
    ensures forall name | name in DeviceMap(infos) ::
      exists i | 0 <= i < |infos| ::
        (Usable(infos[i]) && infos[i].name == name && DeviceMap(infos)[name] == infos[i].maxInputChannels
         && forall j | i < j < |infos| :: !(Usable(infos[j]) && infos[j].name == name))
    ensures forall i | 0 <= i < |infos| && Usable(infos[i]) :: infos[i].name in DeviceMap(infos)
  {
    if infos != [] {
      var init := infos[..|infos| - 1];
      var d := infos[|infos| - 1];
      DeviceMapContents(init);
      var m := DeviceMap(infos);
      forall name | name in m
        ensures exists i | 0 <= i < |infos| ::
          (Usable(infos[i]) && infos[i].name == name && m[name] == infos[i].maxInputChannels
           && forall j | i < j < |infos| :: !(Usable(infos[j]) && infos[j].name == name))
      {
        if Usable(d) && d.name == name {
          assert Usable(infos[|infos| - 1]) && infos[|infos| - 1].name == name;
        } else {
          var i :| 0 <= i < |init| && Usable(init[i]) && init[i].name == name
            && DeviceMap(init)[name] == init[i].maxInputChannels
            && forall j | i < j < |init| :: !(Usable(init[j]) && init[j].name == name);
          assert infos[i] == init[i];
          assert forall j | i < j < |infos| :: !(Usable(infos[j]) && infos[j].name == name) by {
            forall j | i < j < |infos|
              ensures !(Usable(infos[j]) && infos[j].name == name)
            {
              if j < |init| {
                assert infos[j] == init[j];
              }
            }
          }
        }
      }
      forall i | 0 <= i < |infos| && Usable(infos[i])
        ensures infos[i].name in m
      {
        if i < |init| {
          assert infos[i] == init[i];
        }
      }
    }
  }

  /** The module-level `devices` cache: absent until the first call. */
  class DeviceCache {
    var devices: Option<map<string, int>>

    constructor ()
      ensures devices.None?
    {
      devices := None;
    }
  }

  /** get_pyaudio_devices: the cached map if there is one; otherwise the
      map is built from the enumeration and cached. */
  method GetPyAudioDevices(cache: DeviceCache, infos: seq<PaDevice>) returns (r: map<string, int>)
    modifies cache
    ensures old(cache.devices).Some? ==> r == old(cache.devices).value && cache.devices == old(cache.devices)
    ensures old(cache.devices).None? ==> r == DeviceMap(infos) && cache.devices == Some(r)
  {
    if cache.devices.Some? {
      return cache.devices.value;
    }
    r := map[];
    for i := 0 to |infos|
      invariant r == DeviceMap(infos[..i])
    {
      assert infos[..i + 1][..i] == infos[..i];
      if infos[i].maxInputChannels > 0 && infos[i].hostApi == 0 {
        r := r[infos[i].name := infos[i].maxInputChannels];
      }
    }
    assert infos[..|infos|] == infos;
    cache.devices := Some(r);
  }

  /** get_audio_devices_by_audio_id: the device rows of one configuration. */
  function DevicesOf(devices: map<DeviceKey, int>, audioId: int): (r: set<DeviceSpec>)
    ensures forall k | k in devices && k.audioId == audioId :: DeviceSpec(k.name, k.channel, devices[k]) in r
    ensures forall d | d in r ::
      (DeviceKey(audioId, d.name, d.channel) in devices && devices[DeviceKey(audioId, d.name, d.channel)] == d.nChannels)
  {
    set k | k in devices && k.audioId == audioId :: DeviceSpec(k.name, k.channel, devices[k])
  }

  /** Devices of other configurations never show up, whatever they are. */
  lemma DevicesOfIgnoresOthers(devices: map<DeviceKey, int>, audioId: int, k: DeviceKey, n: int)
    requires k.audioId != audioId
    ensures DevicesOf(devices[k := n], audioId) == DevicesOf(devices, audioId)
  {
    var a := DevicesOf(devices[k := n], audioId);
    var b := DevicesOf(devices, audioId);
    forall d | d in a ensures d in b {
      assert DeviceKey(audioId, d.name, d.channel) in devices;
    }
    forall d | d in b ensures d in a {
      assert DeviceKey(audioId, d.name, d.channel) in devices[k := n];
    }
  }

  /** A configuration with its devices, the AudioSchema response. */
  datatype AudioView = AudioView(company: string, audioId: int, devices: set<DeviceSpec>)

  /** get_audio_with_devices. */
  function GetAudioWithDevices(db: Db, audioId: int): (r: Result<AudioView>)
    reads db
    ensures r.Err? <==> audioId !in db.audios
    ensures r.Err? ==> r.error == NotFound
    ensures r.Ok? ==>
      (r.value.company == db.audios[audioId] && r.value.audioId == audioId && r.value.devices == DevicesOf(db.devices, audioId))
  {
    if audioId in db.audios then Ok(AudioView(db.audios[audioId], audioId, DevicesOf(db.devices, audioId)))
    else Err(NotFound)
  }

  /** One device of a create_or_update_audio request. A channel count in
      the request is ignored. */
  datatype DeviceRequest = DeviceRequest(name: string, channel: int)

  predicate Missing(channels: map<string, int>, d: DeviceRequest) {
    d.name !in channels || channels[d.name] == 0
  }

  ghost predicate HasDuplicateKey(reqs: seq<DeviceRequest>) {
    exists i, j | 0 <= i < j < |reqs| :: reqs[i] == reqs[j]
  }

  function AddedRows(audioId: int, channels: map<string, int>, reqs: seq<DeviceRequest>): map<DeviceKey, int>
    requires forall i | 0 <= i < |reqs| :: !Missing(channels, reqs[i])
  {
    if reqs == [] then map[]
    else
      var d := reqs[|reqs| - 1];
      assert !Missing(channels, d);
      AddedRows(audioId, channels, reqs[..|reqs| - 1])[DeviceKey(audioId, d.name, d.channel) := channels[d.name]]
  }

  /** The rows written for a request are exactly its devices, each with the
      channel count of the device map. */
  lemma {:induction false} AddedRowsContents(audioId: int, channels: map<string, int>, reqs: seq<DeviceRequest>)
    requires forall i | 0 <= i < |reqs| :: !Missing(channels, reqs[i])
    ensures forall k | k in AddedRows(audioId, channels, reqs) ::
      (k.audioId == audioId && DeviceRequest(k.name, k.channel) in reqs && AddedRows(audioId, channels, reqs)[k] == channels[k.name])
    ensures forall d | d in reqs :: DeviceKey(audioId, d.name, d.channel) in AddedRows(audioId, channels, reqs)
  {
    if reqs != [] {
      var init := reqs[..|reqs| - 1];
      AddedRowsContents(audioId, channels, init);
      assert reqs == init + [reqs[|reqs| - 1]];
    }
  }

  /** The device rows after the loop over the request: every row of other
      configurations, plus the new rows. */
  function Replaced(devices: map<DeviceKey, int>, audioId: int, added: map<DeviceKey, int>): map<DeviceKey, int> {
    (map k | k in devices && k.audioId != audioId :: devices[k]) + added
  }

  /** The loop over the request: the rows it adds, and whether two of
      them share a key. */
  method NewRows(audioId: int, channels: map<string, int>, reqs: seq<DeviceRequest>)
    returns (added: map<DeviceKey, int>, duplicate: bool)
    requires forall i | 0 <= i < |reqs| :: !Missing(channels, reqs[i])
    ensures added == AddedRows(audioId, channels, reqs)
    ensures duplicate <==> HasDuplicateKey(reqs)
  {
    added := map[];
    duplicate := false;
    for i := 0 to |reqs|
      invariant added == AddedRows(audioId, channels, reqs[..i])
      invariant duplicate <==> HasDuplicateKey(reqs[..i])
    {
      var d := reqs[i];
      assert reqs[..i + 1][..i] == reqs[..i];
      AddedRowsContents(audioId, channels, reqs[..i]);
      var key := DeviceKey(audioId, d.name, d.channel);
      if key in added {
        DuplicateFound(reqs, i);
        duplicate := true;
      } else if duplicate {
        DuplicateKept(reqs, i);
      } else {
        NoDuplicateYet(reqs, i);
      }
      added := added[key := channels[d.name]];
    }
    assert reqs[..|reqs|] == reqs;
  }

  /** After the replacement the configuration has exactly the requested
      devices, each with the map's channel count, and every other
      configuration keeps its devices. */
  lemma ReplacedContents(devices: map<DeviceKey, int>, audioId: int, channels: map<string, int>, reqs: seq<DeviceRequest>)
    requires forall i | 0 <= i < |reqs| :: !Missing(channels, reqs[i])
    ensures DevicesOf(Replaced(devices, audioId, AddedRows(audioId, channels, reqs)), audioId)
      == set d | d in reqs :: DeviceSpec(d.name, d.channel, channels[d.name])
    ensures forall other | other != audioId ::
      DevicesOf(Replaced(devices, audioId, AddedRows(audioId, channels, reqs)), other) == DevicesOf(devices, other)
  {
    var added := AddedRows(audioId, channels, reqs);
    var m := Replaced(devices, audioId, added);
    AddedRowsContents(audioId, channels, reqs);
    var lhs := DevicesOf(m, audioId);
    var rhs := set d | d in reqs :: DeviceSpec(d.name, d.channel, channels[d.name]);
    forall s | s in lhs ensures s in rhs {
      var k := DeviceKey(audioId, s.name, s.channel);
      assert k in added;
      assert DeviceRequest(s.name, s.channel) in reqs;
    }
    forall s | s in rhs ensures s in lhs {
      var d :| d in reqs && s == DeviceSpec(d.name, d.channel, channels[d.name]);
      assert DeviceKey(audioId, d.name, d.channel) in m;
    }
    forall other | other != audioId
      ensures DevicesOf(m, other) == DevicesOf(devices, other)
    {
      forall s | s in DevicesOf(m, other) ensures s in DevicesOf(devices, other) {
        var k := DeviceKey(other, s.name, s.channel);
        assert k !in added;
      }
      forall s | s in DevicesOf(devices, other) ensures s in DevicesOf(m, other) {
        var k := DeviceKey(other, s.name, s.channel);
        assert k in m;
      }
    }
  }

  predicate HasCompany(audios: map<int, string>, company: string) {
    exists id | id in audios :: audios[id] == company
  }

  /** The first half of create_or_update_audio: the Audio row of the
      company, created and committed when there is none. */
  method UpsertCompany(db: Db, company: string) returns (audioId: int)
    requires db.Valid()
    modifies db`audios, db`nextAudioId
    ensures db.Valid()
    ensures audioId in db.audios && db.audios[audioId] == company
    ensures HasCompany(old(db.audios), company) ==> db.audios == old(db.audios) && db.nextAudioId == old(db.nextAudioId)
    ensures !HasCompany(old(db.audios), company) ==>
      audioId == old(db.nextAudioId) && db.audios == old(db.audios)[audioId := company]
      && db.nextAudioId == old(db.nextAudioId) + 1
  {
    var found := FirstWhere(db.audios, db.nextAudioId, (c: string) => c == company);
    if found.Some? {
      audioId := found.value;
    } else {
      audioId := db.nextAudioId;
      assert audioId !in db.audios;
      db.audios := db.audios[audioId := company];
      db.nextAudioId := db.nextAudioId + 1;
      assert UniqueValues(db.audios) by {
        forall a, b | a in db.audios && b in db.audios && db.audios[a] == db.audios[b]
          ensures a == b
        {
        }
      }
    }
  }

  /** create_or_update_audio. The Audio row for the company is committed
      first, so it stays even when the request then fails. The device
      rows of the configuration are deleted and the requested ones
      added; a device the map lacks gives 400, and two equal
      (name, channel) pairs violate the table's key when the session
      commits (500). Both failures roll the device rows back, so the
      400 is decided here before any row is touched. */
  method CreateOrUpdateAudio(db: Db, cache: DeviceCache, infos: seq<PaDevice>, company: string, reqs: seq<DeviceRequest>)
    returns (r: Result<AudioView>, audioId: int)
    requires db.Valid()
    modifies db`audios, db`nextAudioId, db`devices, cache
    ensures db.Valid()
    ensures audioId in db.audios && db.audios[audioId] == company
    ensures HasCompany(old(db.audios), company) ==>
      db.audios == old(db.audios) && db.nextAudioId == old(db.nextAudioId)
    ensures !HasCompany(old(db.audios), company) ==>
      audioId == old(db.nextAudioId) && db.audios == old(db.audios)[audioId := company]
      && db.nextAudioId == old(db.nextAudioId) + 1
    ensures old(cache.devices).Some? ==> cache.devices == old(cache.devices)
    ensures old(cache.devices).None? ==> cache.devices == Some(DeviceMap(infos))
    ensures (exists i | 0 <= i < |reqs| :: Missing(cache.devices.value, reqs[i])) ==>
      r == Err(BadRequest) && db.devices == old(db.devices)
    ensures (forall i | 0 <= i < |reqs| :: !Missing(cache.devices.value, reqs[i])) && HasDuplicateKey(reqs) ==>
      r == Err(ServerError) && db.devices == old(db.devices)
    ensures (forall i | 0 <= i < |reqs| :: !Missing(cache.devices.value, reqs[i])) && !HasDuplicateKey(reqs) ==>
      && db.devices == Replaced(old(db.devices), audioId, AddedRows(audioId, cache.devices.value, reqs))
      && r == GetAudioWithDevices(db, audioId)
  {
    audioId := UpsertCompany(db, company);
    var kept := map k | k in db.devices && k.audioId != audioId :: db.devices[k];
    var channels := GetPyAudioDevices(cache, infos);
    if exists i | 0 <= i < |reqs| :: Missing(channels, reqs[i]) {
      return Err(BadRequest), audioId;
    }
    var added, duplicate := NewRows(audioId, channels, reqs);
    assert kept == map k | k in old(db.devices) && k.audioId != audioId :: old(db.devices)[k];
    if duplicate {
      return Err(ServerError), audioId;
    }
    db.devices := kept + added;
    r := GetAudioWithDevices(db, audioId);
  }

  lemma DuplicateFound(reqs: seq<DeviceRequest>, i: int)
    requires 0 <= i < |reqs|
    requires reqs[i] in reqs[..i]
    ensures HasDuplicateKey(reqs[..i + 1])
  {
    var j :| 0 <= j < i && reqs[..i][j] == reqs[i];
    assert reqs[..i + 1][j] == reqs[..i + 1][i];
  }

  lemma DuplicateKept(reqs: seq<DeviceRequest>, i: int)
    requires 0 <= i < |reqs|
    requires HasDuplicateKey(reqs[..i])
    ensures HasDuplicateKey(reqs[..i + 1])
  {
    var a, b :| 0 <= a < b < i && reqs[..i][a] == reqs[..i][b];
    assert reqs[..i + 1][a] == reqs[..i + 1][b];
  }

  lemma NoDuplicateYet(reqs: seq<DeviceRequest>, i: int)
    requires 0 <= i < |reqs|
    requires !HasDuplicateKey(reqs[..i]) && reqs[i] !in reqs[..i]
    ensures !HasDuplicateKey(reqs[..i + 1])
  {
    var s := reqs[..i + 1];
    forall a, b | 0 <= a < b < |s|
      ensures s[a] != s[b]
    {
      if b < i {
        assert s[a] == reqs[..i][a] && s[b] == reqs[..i][b];
      } else {
        assert s[a] == reqs[..i][a];
      }
    }
  }
}
