/**
  A choreography spec: a name and a few symbolic beats.  It is all that is ever stored; every
  number is derived from it.
*/
module MotionSpec {
  datatype Direction = Center | Left | Right | Up | Down | UpLeft | UpRight | DownLeft | DownRight
  datatype Energy = Low | Mid | High
  datatype Colour = Pink | Amber | Blue | Green | Violet | White | Red | Off

  datatype Beat = Beat(direction: Direction, energy: Energy, colour: Colour, accent: bool, hold: bool)

  datatype Spec = Spec(name: string, beats: seq<Beat>)

  datatype Kind = Accented | Held | Travel

  /** An accented beat is never held. */
  function KindOf(b: Beat): Kind {
    if b.accent then Accented else if b.hold then Held else Travel
  }

  const MAX_SPEC_BEATS := 6
}
