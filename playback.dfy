/** The exclusive-playback state: at most one track id is "playing" at a time. */
module Playback {
  import opened Wrappers
  import opened Tracks

  /** What the play/pause toggle does to the playing id. The update is optimistic: it does not
      depend on whether the audio engine later rejects the start. */
  function PlayStep(playing: Option<string>, t: Track): (r: Option<string>)
    ensures !HasPreview(t) ==> r == playing
    ensures HasPreview(t) ==> (r.None? <==> playing == Some(t.id))
    ensures HasPreview(t) && r.Some? ==> r.value == t.id
  {
    if !HasPreview(t) then playing
    else if playing == Some(t.id) then None
    else Some(t.id)
  }

  /** Two toggles of the same track give back a playing id that was absent or that track's. */
  lemma PlayTwiceRestores(playing: Option<string>, t: Track)
    requires playing.None? || playing == Some(t.id)
    ensures PlayStep(PlayStep(playing, t), t) == playing
  {
  }

  /** Two toggles of a track while another one plays leave nothing playing: the first toggle
      takes the playing id over, the second pauses it. */
  lemma PlayTwiceFromOther(playing: Option<string>, t: Track)
    requires HasPreview(t) && playing.Some? && playing.value != t.id
    ensures PlayStep(playing, t) == Some(t.id)
    ensures PlayStep(PlayStep(playing, t), t).None?
  {
  }
}
