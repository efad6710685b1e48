/**
 * The beat dots under the metronome
 * (src/components/metronome/MetronomeDots.component.tsx): one dot per beat
 * of the bar, coloured by whether it is the current beat and whether it is
 * accented, sized by the widest screen breakpoint the window reaches.
 *
 * The media queries are booleans passed in; the rendered markup is reduced
 * to the list of dots with their beat index, colour and font size.
 */
module MetronomeDots {

  const ACCENT_COLOR: string := "secondary"
  const INACTIVE_COLOR: string := "default"
  const ACTIVE_COLOR: string := "primary"
  const ACCENT_ACTIVE_COLOR: string := "success"

  /** The dot diameter budget for the whole bar, from the `sm`, `md` and
    * `lg` media queries: the innermost breakpoint reached decides. */
  function CircleSize(matchesSm: bool, matchesMd: bool, matchesLg: bool): (size: int)
    ensures !matchesSm ==> size == 100
    ensures matchesSm && !matchesMd ==> size == 200
    ensures matchesSm && matchesMd && !matchesLg ==> size == 900
    ensures matchesSm && matchesMd && matchesLg ==> size == 1200
  {
    if matchesSm then (if matchesMd then (if matchesLg then 1200 else 900) else 200) else 100
  }

  /** The size the component picks in a window `width` pixels wide, where a
    * breakpoint query matches once the width reaches its threshold. */
  function CircleSizeAtWidth(width: int, sm: int, md: int, lg: int): (size: int)
    ensures width < sm ==> size == 100
    ensures sm <= md <= lg <= width ==> size == 1200
    ensures sm <= md <= lg ==> 100 <= size <= 1200
  {
    CircleSize(width >= sm, width >= md, width >= lg)
  }

  /** With breakpoints in their usual order, a wider window never gets
    * smaller dots. */
  lemma CircleSizeGrowsWithWidth(narrow: int, wide: int, sm: int, md: int, lg: int)
    requires sm <= md <= lg && narrow <= wide
    ensures CircleSizeAtWidth(narrow, sm, md, lg) <= CircleSizeAtWidth(wide, sm, md, lg)
  {
  }

  /** The colour of the dot for `beat`: accented beats are marked whether
    * current or not, and the current beat is marked whether accented or not. */
  function GetColor(beat: int, currentBeatInBar: int, accentBeats: seq<int>): (color: string)
    ensures color == ACCENT_ACTIVE_COLOR <==> beat == currentBeatInBar && beat in accentBeats
    ensures color == ACTIVE_COLOR <==> beat == currentBeatInBar && beat !in accentBeats
    ensures color == ACCENT_COLOR <==> beat != currentBeatInBar && beat in accentBeats
    ensures color == INACTIVE_COLOR <==> beat != currentBeatInBar && beat !in accentBeats
  {
    var isAccent := beat in accentBeats;
    if beat == currentBeatInBar && isAccent then ACCENT_ACTIVE_COLOR
    else if beat == currentBeatInBar then ACTIVE_COLOR
    else if isAccent then ACCENT_COLOR
    else INACTIVE_COLOR
  }

  /** A colour that marks the current beat. */
  predicate IsActiveColor(color: string) {
    color == ACTIVE_COLOR || color == ACCENT_ACTIVE_COLOR
  }

  /** A colour that marks an accented beat. */
  predicate IsAccentColor(color: string) {
    color == ACCENT_COLOR || color == ACCENT_ACTIVE_COLOR
  }

  /** One rendered dot. */
  datatype Dot = Dot(beat: int, color: string, fontSize: real)

  /** The dots of a bar: beats 0 .. beatsPerBar - 1 in order, each with its
    * colour, the bar's size budget shared out evenly between them. */
  function Dots(beatsPerBar: nat, currentBeatInBar: int, accentBeats: seq<int>, circleSize: int): (dots: seq<Dot>)
    ensures |dots| == beatsPerBar
    ensures forall i :: 0 <= i < beatsPerBar ==>
      && dots[i].beat == i
      && dots[i].color == GetColor(i, currentBeatInBar, accentBeats)
      && dots[i].fontSize * beatsPerBar as real == circleSize as real
  {
    seq(beatsPerBar, i requires 0 <= i < beatsPerBar =>
      Dot(i, GetColor(i, currentBeatInBar, accentBeats), circleSize as real / beatsPerBar as real))
  }

  /** The indices of the dots drawn in an active colour. */
  function ActiveDots(dots: seq<Dot>): set<int>
  {
    set i | 0 <= i < |dots| && IsActiveColor(dots[i].color)
  }

  /** Exactly one dot is drawn active when the counter is inside the bar,
    * the one of the current beat; none when it is outside (after the bar
    * was shortened under a running metronome). Each dot shows an accent
    * colour exactly when its beat is accented. */
  lemma OneActiveDot(beatsPerBar: nat, currentBeatInBar: int, accentBeats: seq<int>, circleSize: int)
    ensures var dots := Dots(beatsPerBar, currentBeatInBar, accentBeats, circleSize);
      && ActiveDots(dots) == (if 0 <= currentBeatInBar < beatsPerBar then {currentBeatInBar} else {})
      && |ActiveDots(dots)| == (if 0 <= currentBeatInBar < beatsPerBar then 1 else 0)
      && forall i :: 0 <= i < beatsPerBar ==> (IsAccentColor(dots[i].color) <==> i in accentBeats)
  {
  }
}
