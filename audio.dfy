/** The audio configurator: four channels, each saved as a `(Volume, IsMuted)`
    record under its own key. Master drives the audio listener; Music, Voice
    and FX drive one mixer parameter each, which sits at `LOWEST_VOLUME` while
    the channel is muted. */
module Audio {
  import opened Common

  datatype Channel = Master | Music | Voice | FX

  /** The key under which a channel's record is saved. */
  function VolumeType(channel: Channel): string
  {
    match channel
    case Master => "Master"
    case Music => "Music"
    case Voice => "Voice"
    case FX => "Effects"
  }

  /** The mixer parameter a non-master channel drives. */
  function MixerParameter(channel: Channel): string
    requires channel != Master
  {
    match channel
    case Music => "MusicVolume"
    case Voice => "VoiceVolume"
    case FX => "FXVolume"
  }

  /** Distinct channels are saved under distinct keys and drive distinct
      mixer parameters, so an update of one never touches another. */
  lemma ChannelsAreIndependent(a: Channel, b: Channel)
    ensures a != b ==> VolumeType(a) != VolumeType(b)
    ensures a != b && a != Master && b != Master ==> MixerParameter(a) != MixerParameter(b)
  {
  }

  /** The mixer level of a muted channel. */
  const LOWEST_VOLUME: real := -50.0
  /** Declared alongside `LOWEST_VOLUME` but never applied: volumes are not clamped. */
  const HIGHEST_VOLUME: real := 15.0

  datatype SavedVolumeConfiguration = SavedVolumeConfiguration(volume: real, isMuted: bool)

  type VolumeMap = map<string, SavedVolumeConfiguration>

  /** The record of `key` with its volume replaced, as `SaveVolume` stores it. */
  function WithVolume(saved: VolumeMap, key: string, volume: real): (r: VolumeMap)
    requires key in saved
    ensures r.Keys == saved.Keys
    ensures r[key].volume == volume && r[key].isMuted == saved[key].isMuted
    ensures forall k :: k in saved && k != key ==> r[k] == saved[k]
  {
    saved[key := SavedVolumeConfiguration(volume, saved[key].isMuted)]
  }

  /** The record of `key` with its mute flag replaced, as `SaveMuteCondition` stores it. */
  function WithMuted(saved: VolumeMap, key: string, muted: bool): (r: VolumeMap)
    requires key in saved
    ensures r.Keys == saved.Keys
    ensures r[key].isMuted == muted && r[key].volume == saved[key].volume
    ensures forall k :: k in saved && k != key ==> r[k] == saved[k]
  {
    saved[key := SavedVolumeConfiguration(saved[key].volume, muted)]
  }

  /** The level a non-master channel's mixer parameter gets from its record. */
  function MixerLevel(record: SavedVolumeConfiguration): (level: real)
    ensures level == record.volume <==> !record.isMuted || record.volume == LOWEST_VOLUME
    ensures level == LOWEST_VOLUME <==> record.isMuted || record.volume == LOWEST_VOLUME
  {
    if record.isMuted then LOWEST_VOLUME else record.volume
  }

  /** The listener volume the master mute handler sets from the master record. */
  function ListenerLevel(record: SavedVolumeConfiguration): (level: real)
    ensures level == record.volume <==> !record.isMuted || record.volume == 0.0
    ensures level == 0.0 <==> record.isMuted || record.volume == 0.0
  {
    if record.isMuted then 0.0 else record.volume
  }

  /** Saving the value a record already holds leaves the whole map as it was. */
  lemma ResavingIsIdentity(saved: VolumeMap, key: string)
    requires key in saved
    ensures WithVolume(saved, key, saved[key].volume) == saved
    ensures WithMuted(saved, key, saved[key].isMuted) == saved
  {
  }

  /** Muting silences the channel at `LOWEST_VOLUME` whatever its volume;
      unmuting afterwards gives back exactly the stored volume and, for a
      channel that was unmuted, exactly the map before the mute. */
  lemma MuteThenUnmuteRestores(saved: VolumeMap, key: string)
    requires key in saved
    ensures MixerLevel(WithMuted(saved, key, true)[key]) == LOWEST_VOLUME
    ensures ListenerLevel(WithMuted(saved, key, true)[key]) == 0.0
    ensures MixerLevel(WithMuted(WithMuted(saved, key, true), key, false)[key]) == saved[key].volume
    ensures ListenerLevel(WithMuted(WithMuted(saved, key, true), key, false)[key]) == saved[key].volume
    ensures !saved[key].isMuted ==> WithMuted(WithMuted(saved, key, true), key, false) == saved
  {
  }

  /** A volume change on a muted channel is stored, but the channel stays at
      `LOWEST_VOLUME` until it is unmuted, when the new volume takes effect.
      Any real is stored as given: nothing clamps it to `HIGHEST_VOLUME`. */
  lemma VolumeWhileMutedIsDeferred(saved: VolumeMap, key: string, volume: real)
    requires key in saved && saved[key].isMuted
    ensures WithVolume(saved, key, volume)[key].volume == volume
    ensures MixerLevel(WithVolume(saved, key, volume)[key]) == LOWEST_VOLUME
    ensures MixerLevel(WithMuted(WithVolume(saved, key, volume), key, false)[key]) == volume
  {
  }

  /** What a publication delivered: a volume or a mute condition for a channel. */
  datatype AudioEvent = VolumeEvent(channel: Channel, volume: real) | MuteEvent(channel: Channel, mute: bool)

  /** The map holds a record for every channel. */
  predicate AllChannelsSaved(saved: VolumeMap)
  {
    forall c: Channel :: VolumeType(c) in saved
  }

  /** `mixer` with the three channel parameters set as the records say and
      every other entry kept. */
  function SyncedMixer(mixer: map<string, real>, saved: VolumeMap): map<string, real>
    requires AllChannelsSaved(saved)
  {
    mixer[MixerParameter(Music) := MixerLevel(saved[VolumeType(Music)])]
         [MixerParameter(Voice) := MixerLevel(saved[VolumeType(Voice)])]
         [MixerParameter(FX) := MixerLevel(saved[VolumeType(FX)])]
  }

  /** The publications made by loading: the four volumes, then the four mute
      conditions, each half in the order Master, Music, Voice, FX. */
  function LoadEvents(saved: VolumeMap): (events: seq<AudioEvent>)
    requires AllChannelsSaved(saved)
    ensures |events| == 8
    ensures forall i :: 0 <= i < 4 ==> events[i].VolumeEvent?
    ensures forall i :: 4 <= i < 8 ==> events[i].MuteEvent?
  {
    [ VolumeEvent(Master, saved[VolumeType(Master)].volume),
      VolumeEvent(Music, saved[VolumeType(Music)].volume),
      VolumeEvent(Voice, saved[VolumeType(Voice)].volume),
      VolumeEvent(FX, saved[VolumeType(FX)].volume),
      MuteEvent(Master, saved[VolumeType(Master)].isMuted),
      MuteEvent(Music, saved[VolumeType(Music)].isMuted),
      MuteEvent(Voice, saved[VolumeType(Voice)].isMuted),
      MuteEvent(FX, saved[VolumeType(FX)].isMuted) ]
  }

  /** Loading publishes every channel's stored volume before any mute
      condition, and then every channel's stored mute condition. */
  lemma LoadPublishesEveryChannel(saved: VolumeMap, c: Channel)
    requires AllChannelsSaved(saved)
    ensures VolumeEvent(c, saved[VolumeType(c)].volume) in LoadEvents(saved)[..4]
    ensures MuteEvent(c, saved[VolumeType(c)].isMuted) in LoadEvents(saved)[4..]
  {
    var events := LoadEvents(saved);
    match c
    case Master => assert events[..4][0] == events[0] && events[4..][0] == events[4];
    case Music => assert events[..4][1] == events[1] && events[4..][1] == events[5];
    case Voice => assert events[..4][2] == events[2] && events[4..][2] == events[6];
    case FX => assert events[..4][3] == events[3] && events[4..][3] == events[7];
  }

  class AudioConfigurator {
    const file: ConfigFile<VolumeMap>
    /** The records read at load and updated in place by every save; the empty
        map stands for the null dictionary before `Start`. */
    var savedVolumes: VolumeMap
    /** The engine's audio listener volume, the sink of the master channel. */
    var listenerVolume: real
    /** The engine's audio mixer parameters, the sinks of the other channels. */
    var mixer: map<string, real>
    /** Whether `Start` has run, registering the handlers. */
    var started: bool
    /** Every volume and mute publication, in order. */
    ghost var published: seq<AudioEvent>

    /** Every non-master channel that has a record drives its mixer parameter
        at the level its record says. */
    ghost predicate MixerSynced()
      reads this
    {
      forall c: Channel :: c != Master && VolumeType(c) in savedVolumes ==>
        MixerParameter(c) in mixer && mixer[MixerParameter(c)] == MixerLevel(savedVolumes[VolumeType(c)])
    }

    /** Publishing a volume ran the channel's handlers in registration order,
        stopping at the first that threw: for Master, set the listener then
        save; for the others, save then set the mixer parameter, which stays
        at `LOWEST_VOLUME` while the channel is muted. */
    twostate predicate VolumePublished(channel: Channel, volume: real, outcome: Outcome)
      reads this, file
    {
      && published == old(published) + [VolumeEvent(channel, volume)]
      && (outcome.Pass? <==> VolumeType(channel) in old(savedVolumes))
      && (outcome.Fail? ==>
            outcome.error == KeyNotFound && savedVolumes == old(savedVolumes) && file.content == old(file.content))
      && (outcome.Pass? ==>
            savedVolumes == WithVolume(old(savedVolumes), VolumeType(channel), volume) && file.content == savedVolumes)
      && (channel == Master ==> listenerVolume == volume && mixer == old(mixer))
      && (channel != Master ==> listenerVolume == old(listenerVolume))
      && (channel != Master && outcome.Pass? ==>
            mixer == old(mixer)[MixerParameter(channel) := MixerLevel(savedVolumes[VolumeType(channel)])])
      && (channel != Master && outcome.Fail? ==> mixer == old(mixer))
    }

    /** Publishing a mute condition ran the channel's handlers in registration
        order, stopping at the first that threw: for Master, set the listener
        to 0 (without reading the record) or the stored volume, then save; for the others, save, then set
        the mixer parameter to `LOWEST_VOLUME` or the stored volume. */
    twostate predicate MutePublished(channel: Channel, mute: bool, outcome: Outcome)
      reads this, file
    {
      && published == old(published) + [MuteEvent(channel, mute)]
      && (outcome.Pass? <==> VolumeType(channel) in old(savedVolumes))
      && (outcome.Fail? ==>
            && outcome.error == KeyNotFound && savedVolumes == old(savedVolumes) && file.content == old(file.content)
            && listenerVolume == (if channel == Master && mute then 0.0 else old(listenerVolume))
            && mixer == old(mixer))
      && (outcome.Pass? ==>
            savedVolumes == WithMuted(old(savedVolumes), VolumeType(channel), mute) && file.content == savedVolumes)
      && (channel == Master && outcome.Pass? ==>
            listenerVolume == ListenerLevel(savedVolumes[VolumeType(channel)]) && mixer == old(mixer))
      && (channel != Master && outcome.Pass? ==>
            && listenerVolume == old(listenerVolume)
            && mixer == old(mixer)[MixerParameter(channel) := MixerLevel(savedVolumes[VolumeType(channel)])])
    }

    /** The component as the scene creates it; the listener and the mixer keep
        whatever the engine holds. */
    constructor (file: ConfigFile<VolumeMap>, listenerVolume: real, mixer: map<string, real>)
      ensures this.file == file && this.listenerVolume == listenerVolume && this.mixer == mixer
      ensures savedVolumes == map[] && !started && published == []
    {
      this.file := file;
      this.listenerVolume, this.mixer := listenerVolume, mixer;
      savedVolumes := map[];
      started, published := false, [];
    }

    /** Registers the handlers, then loads the saved records. */
    method Start() returns (outcome: Outcome)
      requires !started
      modifies this, file
      ensures started
      ensures LoadedVolumes(old(file.content), outcome)
    {
      started := true;
      outcome := LoadVolumes();
    }

    /** Loading read `saved` and, when every channel has a record, published
        its eight values and left the records as read; the mixer then plays
        every channel as its record says, and so does the listener. A missing
        channel throws before anything is published. */
    twostate predicate LoadedVolumes(saved: VolumeMap, outcome: Outcome)
      reads this, file
    {
      && savedVolumes == saved && file.content == saved
      && (outcome.Pass? <==> AllChannelsSaved(saved))
      && (outcome.Fail? ==>
            && outcome.error == KeyNotFound && published == old(published)
            && listenerVolume == old(listenerVolume) && mixer == old(mixer))
      && (outcome.Pass? ==>
            && published == old(published) + LoadEvents(saved)
            && MixerSynced()
            && mixer == SyncedMixer(old(mixer), saved)
            && listenerVolume == ListenerLevel(saved[VolumeType(Master)]))
    }

    /** Reads the records and publishes each channel's stored volume, then each
        channel's stored mute condition. */
    method LoadVolumes() returns (outcome: Outcome)
      requires started
      modifies this`savedVolumes, this`listenerVolume, this`mixer, this`published, file
      ensures LoadedVolumes(old(file.content), outcome)
    {
      savedVolumes := file.content;
      if !(VolumeType(Master) in savedVolumes && VolumeType(Music) in savedVolumes
           && VolumeType(Voice) in savedVolumes && VolumeType(FX) in savedVolumes) {
        outcome := Fail(KeyNotFound);
        return;
      }
      assert AllChannelsSaved(savedVolumes) by {
        forall c: Channel ensures VolumeType(c) in savedVolumes {
          match c
          case Master =>
          case Music =>
          case Voice =>
          case FX =>
        }
      }
      outcome := Pass;
      PublishStoredVolumes();
      PublishStoredMuteConditions();
    }

    /** The first half of loading: each channel's stored volume is published;
        every save stores the value already held, and the mixer ends up
        playing every channel as its record says. */
    method PublishStoredVolumes()
      requires started && AllChannelsSaved(savedVolumes)
      modifies this`savedVolumes, this`listenerVolume, this`mixer, this`published, file
      ensures savedVolumes == old(savedVolumes) && file.content == savedVolumes
      ensures published == old(published) + LoadEvents(savedVolumes)[..4]
      ensures MixerSynced() && mixer == SyncedMixer(old(mixer), savedVolumes)
      ensures listenerVolume == savedVolumes[VolumeType(Master)].volume
    {
      PublishStored(VolumeEvent(Master, savedVolumes[VolumeType(Master)].volume));
      PublishStored(VolumeEvent(Music, savedVolumes[VolumeType(Music)].volume));
      PublishStored(VolumeEvent(Voice, savedVolumes[VolumeType(Voice)].volume));
      PublishStored(VolumeEvent(FX, savedVolumes[VolumeType(FX)].volume));
      assert MixerSynced() by {
        forall c: Channel | c != Master && VolumeType(c) in savedVolumes
          ensures MixerParameter(c) in mixer && mixer[MixerParameter(c)] == MixerLevel(savedVolumes[VolumeType(c)])
        {
          ChannelsAreIndependent(Music, Voice);
          ChannelsAreIndependent(Music, FX);
          ChannelsAreIndependent(Voice, FX);
        }
      }
    }

    /** The second half of loading: each channel's stored mute condition is
        published; the records stay as read, the mixer stays in step with
        them and the listener follows the master record. */
    method PublishStoredMuteConditions()
      requires started && AllChannelsSaved(savedVolumes) && MixerSynced()
      modifies this`savedVolumes, this`listenerVolume, this`mixer, this`published, file
      ensures savedVolumes == old(savedVolumes) && file.content == savedVolumes
      ensures published == old(published) + LoadEvents(savedVolumes)[4..]
      ensures MixerSynced() && mixer == old(mixer)
      ensures listenerVolume == ListenerLevel(savedVolumes[VolumeType(Master)])
    {
      PublishStored(MuteEvent(Master, savedVolumes[VolumeType(Master)].isMuted));
      PublishStored(MuteEvent(Music, savedVolumes[VolumeType(Music)].isMuted));
      PublishStored(MuteEvent(Voice, savedVolumes[VolumeType(Voice)].isMuted));
      PublishStored(MuteEvent(FX, savedVolumes[VolumeType(FX)].isMuted));
    }

    /** Publishes a value a channel's record already holds: the save leaves
        the records as they were, and the channel's sink is set from its
        record. */
    method PublishStored(event: AudioEvent)
      requires started && VolumeType(event.channel) in savedVolumes
      requires event == VolumeEvent(event.channel, savedVolumes[VolumeType(event.channel)].volume)
            || event == MuteEvent(event.channel, savedVolumes[VolumeType(event.channel)].isMuted)
      modifies this`savedVolumes, this`listenerVolume, this`mixer, this`published, file
      ensures savedVolumes == old(savedVolumes) && file.content == savedVolumes
      ensures published == old(published) + [event]
      ensures old(MixerSynced()) ==> MixerSynced()
      ensures event.channel == Master && event.VolumeEvent? ==> listenerVolume == event.volume
      ensures event.channel == Master && event.MuteEvent? ==> listenerVolume == ListenerLevel(savedVolumes[VolumeType(Master)])
      ensures event.channel == Master ==> mixer == old(mixer)
      ensures event.channel != Master ==> listenerVolume == old(listenerVolume)
      ensures event.channel != Master ==>
        mixer == old(mixer)[MixerParameter(event.channel) := MixerLevel(savedVolumes[VolumeType(event.channel)])]
    {
      ResavingIsIdentity(savedVolumes, VolumeType(event.channel));
      var outcome;
      match event
      case VolumeEvent(channel, volume) => outcome := VolumeChanged(channel, volume);
      case MuteEvent(channel, mute) => outcome := VolumeMuted(channel, mute);
    }

    /** The UI entry point for a channel's volume slider. */
    method UpdateVolume(channel: Channel, newVolume: real) returns (outcome: Outcome)
      requires started
      modifies this`savedVolumes, this`listenerVolume, this`mixer, this`published, file
      ensures VolumePublished(channel, newVolume, outcome)
      ensures old(MixerSynced()) ==> MixerSynced()
    {
      outcome := VolumeChanged(channel, newVolume);
    }

    /** The UI entry point for a channel's mute toggle. */
    method Mute(channel: Channel, newMuteCondition: bool) returns (outcome: Outcome)
      requires started
      modifies this`savedVolumes, this`listenerVolume, this`mixer, this`published, file
      ensures MutePublished(channel, newMuteCondition, outcome)
      ensures old(MixerSynced()) ==> MixerSynced()
    {
      outcome := VolumeMuted(channel, newMuteCondition);
    }

    /** The channel's volume event with its handlers. */
    method VolumeChanged(channel: Channel, volume: real) returns (outcome: Outcome)
      requires started
      modifies this`savedVolumes, this`listenerVolume, this`mixer, this`published, file
      ensures VolumePublished(channel, volume, outcome)
      ensures old(MixerSynced()) ==> MixerSynced()
    {
      published := published + [VolumeEvent(channel, volume)];
      if channel == Master {
        listenerVolume := volume;
        outcome := SaveVolume(VolumeType(channel), volume);
      } else {
        outcome := SaveVolume(VolumeType(channel), volume);
        if outcome.Fail? {
          return;
        }
        mixer := mixer[MixerParameter(channel) := if savedVolumes[VolumeType(channel)].isMuted then LOWEST_VOLUME else volume];
      }
      forall c: Channel | c != Master && c != channel && VolumeType(c) in savedVolumes
        ensures VolumeType(c) != VolumeType(channel)
        ensures channel != Master ==> MixerParameter(c) != MixerParameter(channel)
      {
        ChannelsAreIndependent(c, channel);
      }
    }

    /** The channel's mute event with its handlers. */
    method VolumeMuted(channel: Channel, mute: bool) returns (outcome: Outcome)
      requires started
      modifies this`savedVolumes, this`listenerVolume, this`mixer, this`published, file
      ensures MutePublished(channel, mute, outcome)
      ensures old(MixerSynced()) ==> MixerSynced()
    {
      published := published + [MuteEvent(channel, mute)];
      if channel == Master {
        if !mute && VolumeType(channel) !in savedVolumes {
          outcome := Fail(KeyNotFound);
          return;
        }
        listenerVolume := if mute then 0.0 else savedVolumes[VolumeType(channel)].volume;
        outcome := SaveMuteCondition(VolumeType(channel), mute);
      } else {
        outcome := SaveMuteCondition(VolumeType(channel), mute);
        if outcome.Fail? {
          return;
        }
        mixer := mixer[MixerParameter(channel) := if mute then LOWEST_VOLUME else savedVolumes[VolumeType(channel)].volume];
      }
      forall c: Channel | c != Master && c != channel && VolumeType(c) in savedVolumes
        ensures VolumeType(c) != VolumeType(channel)
        ensures channel != Master ==> MixerParameter(c) != MixerParameter(channel)
      {
        ChannelsAreIndependent(c, channel);
      }
    }

    /** Replaces the volume of one record, keeping its mute flag, and writes
        the whole map; a missing key throws before anything changes. */
    method SaveVolume(volumeType: string, value: real) returns (outcome: Outcome)
      modifies this`savedVolumes, file
      ensures outcome.Pass? <==> volumeType in old(savedVolumes)
      ensures outcome.Fail? ==>
        outcome.error == KeyNotFound && savedVolumes == old(savedVolumes) && file.content == old(file.content)
      ensures outcome.Pass? ==>
        savedVolumes == WithVolume(old(savedVolumes), volumeType, value) && file.content == savedVolumes
    {
      if volumeType !in savedVolumes {
        return Fail(KeyNotFound);
      }
      savedVolumes := savedVolumes[volumeType := SavedVolumeConfiguration(value, savedVolumes[volumeType].isMuted)];
      file.content := savedVolumes;
      outcome := Pass;
    }

    /** Replaces the mute flag of one record, keeping its volume, and writes
        the whole map; a missing key throws before anything changes. */
    method SaveMuteCondition(volumeType: string, newCondition: bool) returns (outcome: Outcome)
      modifies this`savedVolumes, file
      ensures outcome.Pass? <==> volumeType in old(savedVolumes)
      ensures outcome.Fail? ==>
        outcome.error == KeyNotFound && savedVolumes == old(savedVolumes) && file.content == old(file.content)
      ensures outcome.Pass? ==>
        savedVolumes == WithMuted(old(savedVolumes), volumeType, newCondition) && file.content == savedVolumes
    {
      if volumeType !in savedVolumes {
        return Fail(KeyNotFound);
      }
      savedVolumes := savedVolumes[volumeType := SavedVolumeConfiguration(savedVolumes[volumeType].volume, newCondition)];
      file.content := savedVolumes;
      outcome := Pass;
    }
  }
}
