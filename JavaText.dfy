/**
 * Text as the JVM holds it: a string is a sequence of UTF-16 code units,
 * and `length()`, `charAt` and PSI text offsets all count code units, so a
 * character outside the Basic Multilingual Plane occupies two positions.
 */
module JavaText {

  /** One UTF-16 code unit, the JVM's `Char`. */
  newtype CodeUnit = x: int | 0 <= x < 0x1_0000

  /** A JVM string. */
  type JavaString = seq<CodeUnit>
}
