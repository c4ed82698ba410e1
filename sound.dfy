/** The sound dispatcher and sample store of hooks/useSound.ts: two preference
    flags, a lazily created audio context, a dictionary of decoded samples, and
    the choice, on every press, between silence, the custom sample and the
    synthesised double snort. */
module Sound {
  import opened Wrappers

  /** A decoded audio buffer, known only by its identity. */
  datatype Buffer = Buffer(id: nat)

  /** The audio context, known only by its identity: the number of contexts
      created before it. */
  datatype AudioContext = AudioContext(serial: nat)

  /** The outcome of fetching and decoding a data URL. */
  datatype DecodeOutcome = Decoded(buffer: Buffer) | DecodeFailed

  /** The sample name of the user's own sound. */
  const CustomKey: string := "custom_oink"

  /** How long one snort sounds, in seconds. */
  const SnortLength: real := 0.15

  /** The ratio of a snort's final pitch to its initial pitch. */
  const PitchDrop: real := 0.6

  /** One voice as `createSnort` schedules it: it sounds from `start` to `stop`,
      its oscillator glides from `pitchFrom` to `pitchTo` Hz, and its amplitude is
      modulated at `grit` Hz. The filter, gain envelope and waveforms are fixed
      and not part of the model. */
  datatype Snort = Snort(start: real, stop: real, pitchFrom: real, pitchTo: real, grit: real)

  /** `createSnort(ctx, start, pitch, grit)`. */
  function CreateSnort(start: real, pitch: real, grit: real): (r: Snort)
    ensures r.start == start && r.stop == start + SnortLength
    ensures r.pitchFrom == pitch && r.pitchTo == PitchDrop * pitch && r.grit == grit
  {
    Snort(start, start + SnortLength, pitch, pitch * PitchDrop, grit)
  }

  /** `playNative` at context time `now`: two snorts, the second 0.12 s later. */
  function NativeCue(now: real): (r: seq<Snort>)
    ensures |r| == 2
    ensures r[0].start == now && r[0].pitchFrom == 110.0 && r[0].grit == 30.0
    ensures r[1].start == now + 0.12 && r[1].pitchFrom == 90.0 && r[1].grit == 40.0
  {
    [CreateSnort(now, 110.0, 30.0), CreateSnort(now + 0.12, 90.0, 40.0)]
  }

  /** The native cue is a double snort: two voices in order, the second starting
      before the first has stopped, lower and grittier, each falling in pitch. */
  lemma NativeCueIsDoubleSnort(now: real)
    ensures var cue := NativeCue(now);
      |cue| == 2 &&
      cue[0].start == now && cue[1].start == now + 0.12 &&
      cue[0].pitchFrom == 110.0 && cue[0].grit == 30.0 &&
      cue[1].pitchFrom == 90.0 && cue[1].grit == 40.0 &&
      cue[0].pitchTo == 66.0 && cue[1].pitchTo == 54.0 &&
      cue[0].start < cue[1].start < cue[0].stop && cue[1].stop == now + 0.27 &&
      cue[1].pitchFrom < cue[0].pitchFrom && cue[1].grit > cue[0].grit &&
      (forall k :: 0 <= k < 2 ==> cue[k].pitchTo < cue[k].pitchFrom)
  {
  }

  /** What a press makes audible. */
  datatype Cue = Silence | CustomSample(buffer: Buffer) | NativeSnort(voices: seq<Snort>)

  /** `playOink`: nothing when sound is off; the custom sample when preferred and
      loaded; the native double snort otherwise. */
  function Dispatch(soundEnabled: bool, useCustom: bool, samples: map<string, Buffer>, now: real): (r: Cue)
    ensures r == Silence <==> !soundEnabled
    ensures r.CustomSample? <==> soundEnabled && useCustom && CustomKey in samples
    ensures r.CustomSample? ==> r.buffer == samples[CustomKey]
    ensures r.NativeSnort? ==> r.voices == NativeCue(now)
  {
    if !soundEnabled then Silence
    else if useCustom && CustomKey in samples then CustomSample(samples[CustomKey])
    else NativeSnort(NativeCue(now))
  }

  /** With sound off, nothing is scheduled whatever the flags and samples hold. */
  lemma DisabledIsSilent(useCustom: bool, samples: map<string, Buffer>, now: real)
    ensures Dispatch(false, useCustom, samples, now) == Silence
  {
  }

  /** The custom preference alone does not make the custom sample play: until it
      has been decoded the native cue plays. */
  lemma PreferenceWithoutSample(samples: map<string, Buffer>, now: real)
    requires CustomKey !in samples
    ensures Dispatch(true, true, samples, now) == NativeSnort(NativeCue(now))
  {
  }

  /** The sound flag after the mount effect: `stored === 'true'` when a value is
      stored, and otherwise `current`. */
  function RestoredEnabled(stored: Option<string>, current: bool): (r: bool)
    ensures stored.Some? ==> (r <==> stored.value == "true")
    ensures stored.None? ==> r == current
  {
    if stored.Some? then stored.value == "true" else current
  }

  /** The sound state of one app session, with the two storage cells it reads. */
  class SoundEngine {
    var soundEnabled: bool
    var useCustomIfAvailable: bool
    var customSoundData: Option<string>
    var ctx: Option<AudioContext>
    /** How many audio contexts this engine has created. */
    var contextsCreated: nat
    var samples: map<string, Buffer>
    /** Names of the loads whose fetch and decode have not completed yet. */
    var pendingLoads: seq<string>
    /** The storage cell 'app_sound'. */
    var storedSound: Option<string>
    /** The storage cell 'app_custom_oink_data'. */
    var storedCustomData: Option<string>

    /** At most one context is ever created, and it is the one held. */
    ghost predicate Valid()
      reads this`ctx, this`contextsCreated
    {
      contextsCreated <= 1 &&
      (ctx.Some? <==> contextsCreated == 1) &&
      (ctx.Some? ==> ctx.value == AudioContext(0))
    }

    /** The first render: sound on, no custom preference, no context, no samples. */
    constructor (storedSound: Option<string>, storedCustomData: Option<string>)
      ensures Valid()
      ensures soundEnabled && !useCustomIfAvailable && customSoundData == None
      ensures ctx == None && samples == map[] && pendingLoads == []
      ensures this.storedSound == storedSound && this.storedCustomData == storedCustomData
    {
      soundEnabled := true;
      useCustomIfAvailable := false;
      customSoundData := None;
      ctx := None;
      contextsCreated := 0;
      samples := map[];
      pendingLoads := [];
      this.storedSound := storedSound;
      this.storedCustomData := storedCustomData;
    }

    /** The mount effect: adopt the stored sound flag, and turn the custom
        preference on when custom sound data is stored, without loading it. */
    method Restore()
      modifies this`soundEnabled, this`customSoundData, this`useCustomIfAvailable
      ensures soundEnabled == RestoredEnabled(storedSound, old(soundEnabled))
      ensures storedCustomData.Some? && storedCustomData.value != "" ==>
        customSoundData == storedCustomData && useCustomIfAvailable
      ensures !(storedCustomData.Some? && storedCustomData.value != "") ==>
        customSoundData == old(customSoundData) && useCustomIfAvailable == old(useCustomIfAvailable)
    {
      if storedSound.Some? {
        soundEnabled := storedSound.value == "true";
      }
      if storedCustomData.Some? && storedCustomData.value != "" {
        customSoundData := storedCustomData;
        useCustomIfAvailable := true;
      }
    }

    /** `getCtx`: creates the context on first use and returns the same one ever after. */
    method GetCtx() returns (c: AudioContext)
      requires Valid()
      modifies this`ctx, this`contextsCreated
      ensures Valid()
      ensures ctx == Some(c)
      ensures old(ctx).Some? ==> c == old(ctx).value && contextsCreated == old(contextsCreated)
      ensures old(ctx).None? ==> contextsCreated == old(contextsCreated) + 1
    {
      if ctx.None? {
        ctx := Some(AudioContext(contextsCreated));
        contextsCreated := contextsCreated + 1;
      }
      c := ctx.value;
    }

    /** `loadSample(name, dataUrl)`, its synchronous part: an empty data URL does
        nothing; otherwise the context is obtained and a fetch and decode start. */
    method LoadSample(name: string, dataUrl: string) returns (started: bool)
      requires Valid()
      modifies this`ctx, this`contextsCreated, this`pendingLoads
      ensures Valid()
      ensures started <==> dataUrl != ""
      ensures !started ==> ctx == old(ctx) && pendingLoads == old(pendingLoads)
      ensures started ==> ctx.Some? && (old(ctx).Some? ==> ctx == old(ctx))
      ensures started ==> pendingLoads == old(pendingLoads) + [name]
    {
      started := dataUrl != "";
      if started {
        var _ := GetCtx();
        pendingLoads := pendingLoads + [name];
      }
    }

    /** The completion of the `i`-th pending load: a decoded buffer is stored under
        its name, replacing any earlier one; a failure leaves the samples as they were. */
    method SettleLoad(i: nat, outcome: DecodeOutcome)
      requires i < |pendingLoads|
      modifies this`samples, this`pendingLoads
      ensures pendingLoads == old(pendingLoads[..i] + pendingLoads[i + 1..])
      ensures outcome.Decoded? ==> samples == old(samples)[old(pendingLoads[i]) := outcome.buffer]
      ensures outcome.DecodeFailed? ==> samples == old(samples)
    {
      var name := pendingLoads[i];
      pendingLoads := pendingLoads[..i] + pendingLoads[i + 1..];
      if outcome.Decoded? {
        samples := samples[name := outcome.buffer];
      }
    }

    /** `saveCustomSound(data)`: persist the data, turn the preference on, and start
        loading the sample; the preference is on before the sample is there. */
    method SaveCustomSound(data: string)
      requires Valid()
      modifies this`storedCustomData, this`customSoundData, this`useCustomIfAvailable,
        this`ctx, this`contextsCreated, this`pendingLoads
      ensures Valid()
      ensures storedCustomData == Some(data) && customSoundData == Some(data) && useCustomIfAvailable
      ensures data == "" ==> pendingLoads == old(pendingLoads) && ctx == old(ctx)
      ensures data != "" ==> pendingLoads == old(pendingLoads) + [CustomKey] && ctx.Some?
      ensures old(ctx).Some? ==> ctx == old(ctx)
    {
      storedCustomData := Some(data);
      customSoundData := Some(data);
      useCustomIfAvailable := true;
      var _ := LoadSample(CustomKey, data);
    }

    /** `clearCustomSound`: forget the stored data, turn the preference off and
        evict the custom sample, leaving every other sample in place. */
    method ClearCustomSound()
      modifies this`storedCustomData, this`customSoundData, this`useCustomIfAvailable, this`samples
      ensures storedCustomData == None && customSoundData == None && !useCustomIfAvailable
      ensures samples == old(samples) - {CustomKey}
      ensures CustomKey !in samples
      ensures forall k :: k in old(samples) && k != CustomKey ==> k in samples && samples[k] == old(samples)[k]
    {
      storedCustomData := None;
      customSoundData := None;
      useCustomIfAvailable := false;
      samples := samples - {CustomKey};
    }

    /** `playOink` at context time `now`: the cue `Dispatch` chooses; the context
        is obtained only when something plays. */
    method PlayOink(now: real) returns (cue: Cue)
      requires Valid()
      modifies this`ctx, this`contextsCreated
      ensures Valid()
      ensures cue == Dispatch(soundEnabled, useCustomIfAvailable, samples, now)
      ensures !soundEnabled ==> ctx == old(ctx)
      ensures soundEnabled ==> ctx.Some? && (old(ctx).Some? ==> ctx == old(ctx))
    {
      if !soundEnabled {
        return Silence;
      }
      var _ := GetCtx();
      if useCustomIfAvailable && CustomKey in samples {
        cue := CustomSample(samples[CustomKey]);
      } else {
        cue := NativeSnort(NativeCue(now));
      }
    }

    /** `toggleSound`: flips the flag and writes nothing to storage. */
    method ToggleSound()
      modifies this`soundEnabled
      ensures soundEnabled == !old(soundEnabled)
    {
      soundEnabled := !soundEnabled;
    }

    /** `setUseCustomIfAvailable(b)`. */
    method SetUseCustomIfAvailable(b: bool)
      modifies this`useCustomIfAvailable
      ensures useCustomIfAvailable == b
    {
      useCustomIfAvailable := b;
    }
  }

  /** A start with custom data stored turns the preference on without loading the
      sample, so the native cue plays until a load completes. */
  method StartWithSavedSound(data: string, now: real) returns (e: SoundEngine)
    requires data != ""
    ensures e.Valid()
    ensures e.useCustomIfAvailable && CustomKey !in e.samples
    ensures Dispatch(e.soundEnabled, e.useCustomIfAvailable, e.samples, now).NativeSnort?
  {
    e := new SoundEngine(None, Some(data));
    e.Restore();
  }

  /** Clearing the custom sound twice is the same as clearing it once: the four
      cells a clear writes end as one clear leaves them, and nothing else of the
      engine changes. */
  method ClearTwice(e: SoundEngine)
    modifies e`storedCustomData, e`customSoundData, e`useCustomIfAvailable, e`samples
    ensures e.samples == old(e.samples) - {CustomKey} && !e.useCustomIfAvailable
    ensures e.storedCustomData == None && e.customSoundData == None
  {
    e.ClearCustomSound();
    e.ClearCustomSound();
  }

  /** Toggling sound twice restores the flag and never touches 'app_sound'. */
  method ToggleTwice(e: SoundEngine)
    modifies e`soundEnabled
    ensures e.soundEnabled == old(e.soundEnabled) && e.storedSound == old(e.storedSound)
  {
    e.ToggleSound();
    e.ToggleSound();
  }
}
