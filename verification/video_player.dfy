/**
 * The video player component: its clock label and the state its event
 * handlers update.
 *
 * A JavaScript number is `Time`: `NaN`, or a finite real. The `<video>`
 * element itself (loading, playing, pausing) is not modelled; `mounted` says
 * whether the element reference is set, which the handlers check first.
 */
module VideoPlayer {
  import opened Wrappers
  import opened Strings
  import opened Episodes

  datatype Time = NaN | Finite(t: real)

  // ----- the clock label -----

  /** `Math.trunc`. */
  function Trunc(x: real): int {
    if x >= 0.0 then x.Floor else -((-x).Floor)
  }

  /** JavaScript's `x % d` for `d > 0`: the remainder takes the sign of `x`. */
  function JsRem(x: real, d: real): real
    requires d > 0.0
  {
    x - d * (Trunc(x / d) as real)
  }

  /** `${n}` for an integer. */
  function IntToString(n: int): string {
    if n < 0 then "-" + NatToString(-n) else NatToString(n)
  }

  /** `s.padStart(2, '0')`. */
  function PadStart2(s: string): string {
    if |s| >= 2 then s else if |s| == 1 then "0" + s else "00"
  }

  /**
   * `formatTime`: "0:00" for `0` and `NaN` (the falsy numbers); otherwise the
   * whole minutes, a colon, and the whole seconds within the minute padded to
   * two characters.
   */
  function FormatTime(time: Time): string {
    if time.NaN? || time.t == 0.0 then "0:00"
    else IntToString((time.t / 60.0).Floor) + (":" + PadStart2(IntToString(JsRem(time.t, 60.0).Floor)))
  }

  /** Reads an "`m`:`ss`" label back into seconds; `None` unless `ss` is two digits below 60. */
  function ReadClock(text: string): Option<nat> {
    var ms := LeadingDigits(text);
    var rest := text[|ms|..];
    if ms == [] || |rest| != 3 || rest[0] != ':' || !AllDigits(rest[1..]) || ParseDigits(rest[1..]) >= 60 then None
    else Some(ParseDigits(ms) * 60 + ParseDigits(rest[1..]))
  }

  /**
   * For a time that is not negative, the label reads back as the whole
   * seconds elapsed: the seconds field is always two digits from 00 to 59.
   */
  lemma ClockRoundTrip(t: real)
    requires t >= 0.0
    ensures ReadClock(FormatTime(Finite(t))) == Some(t.Floor)
  {
    var n: nat := t.Floor;
    var minutes, seconds := n / 60, n % 60;
    assert minutes * 60 + seconds == n;
    FormatAsFields(t);
    ReadMinutesSeconds(minutes, seconds);
  }

  /** A non-negative time renders as the minutes and seconds of its whole seconds. */
  lemma FormatAsFields(t: real)
    requires t >= 0.0
    ensures FormatTime(Finite(t)) == NatToString(t.Floor / 60) + (":" + PadStart2(NatToString(t.Floor % 60)))
  {
    if t == 0.0 {
      assert NatToString(0) == "0";
    } else {
      FloorParts(t);
    }
  }

  /** `NaN` shows as the start of the video, as does any time under a second. */
  lemma NaNShowsStart(t: real)
    requires 0.0 <= t < 1.0
    ensures FormatTime(NaN) == "0:00"
    ensures ReadClock(FormatTime(Finite(t))) == Some(0)
  {
    ClockRoundTrip(t);
  }

  /** The minutes and seconds fields of a non-negative time are those of its whole seconds. */
  lemma FloorParts(t: real)
    requires t >= 0.0
    ensures (t / 60.0).Floor == t.Floor / 60
    ensures JsRem(t, 60.0).Floor == t.Floor % 60
  {
    var n := t.Floor;
    var q, r := n / 60, n % 60;
    assert n == 60 * q + r;
    assert (n as real) <= t < (n as real) + 1.0;
    assert (q as real) <= t / 60.0 < (q as real) + 1.0;
    assert Trunc(t / 60.0) == q;
    assert JsRem(t, 60.0) == t - 60.0 * (q as real);
    assert (r as real) <= t - 60.0 * (q as real) < (r as real) + 1.0;
  }

  lemma ReadMinutesSeconds(minutes: nat, seconds: nat)
    requires seconds < 60
    ensures ReadClock(NatToString(minutes) + (":" + PadStart2(NatToString(seconds)))) == Some(minutes * 60 + seconds)
  {
    var ss := PadStart2(NatToString(seconds));
    PaddedSeconds(seconds);
    ParseNatToString(minutes);
    ReadAfterMinutes(NatToString(minutes), ":" + ss, minutes, seconds);
  }

  /** A number below 100, padded, is two digits with that value. */
  lemma PaddedSeconds(n: nat)
    requires n < 100
    ensures var r := PadStart2(NatToString(n)); |r| == 2 && AllDigits(r) && ParseDigits(r) == n
  {
    var r := PadStart2(NatToString(n));
    ParseNatToString(n);
    if n < 10 {
      assert r[..1] == "0";
    }
  }

  lemma ReadAfterMinutes(ds: string, rest: string, minutes: nat, seconds: nat)
    requires ds != [] && AllDigits(ds) && ParseDigits(ds) == minutes
    requires |rest| == 3 && rest[0] == ':' && AllDigits(rest[1..]) && ParseDigits(rest[1..]) == seconds < 60
    ensures ReadClock(ds + rest) == Some(minutes * 60 + seconds)
  {
    LeadingDigitsOf(ds, rest);
    assert (ds + rest)[|ds|..] == rest;
  }

  // ----- the component state -----

  /** The state of one `VideoPlayer`, with a counter of `onComplete` calls. */
  class Player {
    var episode: Episode
    var hasOnComplete: bool
    var mounted: bool
    var isPlaying: bool
    var currentTime: real
    var duration: real
    var completions: nat

    /** The first render: paused at the start, with the duration not yet known. */
    constructor (episode: Episode, hasOnComplete: bool, mounted: bool)
      ensures this.episode == episode && this.hasOnComplete == hasOnComplete && this.mounted == mounted
      ensures !isPlaying && currentTime == 0.0 && duration == 0.0 && completions == 0
    {
      this.episode := episode;
      this.hasOnComplete := hasOnComplete;
      this.mounted := mounted;
      isPlaying := false;
      currentTime := 0.0;
      duration := 0.0;
      completions := 0;
    }

    /** The effect on `[episode]`: a new episode stops playback and rewinds to the start. */
    method ChangeEpisode(next: Episode)
      modifies this
      ensures episode == next
      ensures next != old(episode) && mounted ==> !isPlaying && currentTime == 0.0
      ensures next == old(episode) || !mounted ==> isPlaying == old(isPlaying) && currentTime == old(currentTime)
      ensures duration == old(duration) && completions == old(completions)
      ensures mounted == old(mounted) && hasOnComplete == old(hasOnComplete)
    {
      var changed := next != episode;
      episode := next;
      if changed && mounted {
        isPlaying := false;
        currentTime := 0.0;
      }
    }

    /** `handlePlayPause`: flips between playing and paused. */
    method PlayPause()
      modifies this
      ensures isPlaying == (if mounted then !old(isPlaying) else old(isPlaying))
      ensures currentTime == old(currentTime) && duration == old(duration) && completions == old(completions)
      ensures episode == old(episode) && mounted == old(mounted) && hasOnComplete == old(hasOnComplete)
    {
      if mounted {
        isPlaying := !isPlaying;
      }
    }

    /** `handleSeek`: the slider's value becomes the current time. */
    method Seek(time: real)
      modifies this
      ensures currentTime == (if mounted then time else old(currentTime))
      ensures isPlaying == old(isPlaying) && duration == old(duration) && completions == old(completions)
      ensures episode == old(episode) && mounted == old(mounted) && hasOnComplete == old(hasOnComplete)
    {
      if mounted {
        currentTime := time;
      }
    }

    /** `handleTimeUpdate`: the element's playback position becomes the current time. */
    method TimeUpdate(elementTime: real)
      modifies this
      ensures currentTime == (if mounted then elementTime else old(currentTime))
      ensures isPlaying == old(isPlaying) && duration == old(duration) && completions == old(completions)
      ensures episode == old(episode) && mounted == old(mounted) && hasOnComplete == old(hasOnComplete)
    {
      if mounted {
        currentTime := elementTime;
      }
    }

    /** `handleLoadedMetadata`: the element's duration is recorded. */
    method LoadedMetadata(elementDuration: real)
      modifies this
      ensures duration == (if mounted then elementDuration else old(duration))
      ensures isPlaying == old(isPlaying) && currentTime == old(currentTime) && completions == old(completions)
      ensures episode == old(episode) && mounted == old(mounted) && hasOnComplete == old(hasOnComplete)
    {
      if mounted {
        duration := elementDuration;
      }
    }

    /** `handleEnded`: stops, and calls `onComplete` exactly once when it was given. */
    method Ended()
      modifies this
      ensures !isPlaying
      ensures completions == old(completions) + (if hasOnComplete then 1 else 0)
      ensures currentTime == old(currentTime) && duration == old(duration)
      ensures episode == old(episode) && mounted == old(mounted) && hasOnComplete == old(hasOnComplete)
    {
      isPlaying := false;
      if hasOnComplete {
        completions := completions + 1;
      }
    }
  }

  /** Two clicks on play/pause restore the playing state. */
  method PlayPauseTwice(p: Player)
    modifies p
    ensures p.isPlaying == old(p.isPlaying)
  {
    p.PlayPause();
    p.PlayPause();
  }
}
