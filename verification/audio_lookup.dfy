/**
 * find_audio_spec: look up an audio id in the requirements manifest, music
 * tracks first and sound effects second, each list in order.
 */
module AudioLookup {
  import opened Wrappers

  /** One entry of the audio requirements manifest. Only `id` takes part in the lookup. */
  datatype AudioSpec = AudioSpec(
    id: string,
    name: string,
    kind: string,
    duration: real,
    loop: bool,
    prompt: string,
    filename: string)

  /** The manifest: the music tracks and the sound effects, each an ordered list. */
  datatype Requirements = Requirements(music: seq<AudioSpec>, sfx: seq<AudioSpec>)

  /** Some entry of the list carries the id. */
  predicate HasId(entries: seq<AudioSpec>, audioId: string)
  {
    exists i :: 0 <= i < |entries| && entries[i].id == audioId
  }

  /** Entry i carries the id and no earlier entry does. */
  predicate IsFirstMatch(entries: seq<AudioSpec>, audioId: string, i: int)
  {
    && 0 <= i < |entries|
    && entries[i].id == audioId
    && forall j :: 0 <= j < i ==> entries[j].id != audioId
  }

  /**
   * find_audio_spec: the first music track with the id; failing that, the
   * first sound effect with it; failing that, None.
   */
  method FindAudioSpec(audioId: string, requirements: Requirements) returns (spec: Option<AudioSpec>)
    ensures spec.Some? ==> spec.value.id == audioId
    ensures spec.None? <==> !HasId(requirements.music, audioId) && !HasId(requirements.sfx, audioId)
    ensures HasId(requirements.music, audioId) ==>
              exists i :: IsFirstMatch(requirements.music, audioId, i) && spec == Some(requirements.music[i])
    ensures !HasId(requirements.music, audioId) && HasId(requirements.sfx, audioId) ==>
              exists i :: IsFirstMatch(requirements.sfx, audioId, i) && spec == Some(requirements.sfx[i])
  {
    var music := requirements.music;
    for i := 0 to |music|
      invariant forall j :: 0 <= j < i ==> music[j].id != audioId
    {
      if music[i].id == audioId {
        assert IsFirstMatch(music, audioId, i);
        return Some(music[i]);
      }
    }
    var sfx := requirements.sfx;
    for i := 0 to |sfx|
      invariant forall j :: 0 <= j < i ==> sfx[j].id != audioId
    {
      if sfx[i].id == audioId {
        assert IsFirstMatch(sfx, audioId, i);
        return Some(sfx[i]);
      }
    }
    return None;
  }
}
