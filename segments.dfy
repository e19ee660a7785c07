/** The seven-segment encoding table `segmentos[]` of the firmware. Bit 0 to
    bit 6 of an entry drive segments a to g; bit 7 is never used. */
module SevenSegment {
  import opened Bits

  datatype Option<T> = None | Some(value: T)

  /** A decimal digit, an index into the table. */
  type Digit = d: nat | d <= 9

  /** `segmentos[0..9]`, written in hexadecimal. */
  const Segments: seq<bv8> := [0x3F, 0x06, 0x5B, 0x4F, 0x66, 0x6D, 0x7D, 0x07, 0x7F, 0x6F]

  /** The pattern for digit `d`: the table entry, which never sets bit 7. */
  function Encode(d: nat): (p: bv8)
    requires d <= 9
    ensures !Bit(p, 7)
  {
    Segments[d]
  }

  /** The table entries of the digits `ds`, in order. */
  function Patterns(ds: seq<Digit>): seq<bv8>
  {
    seq(|ds|, k requires 0 <= k < |ds| => Encode(ds[k]))
  }

  /** One more digit adds its entry at the end. */
  lemma PatternsSnoc(ds: seq<Digit>, d: Digit)
    ensures Patterns(ds + [d]) == Patterns(ds) + [Encode(d)]
  {
  }

  /** The seven segments of the display, in the order of the pattern's bits. */
  datatype Segment = A | B | C | D | E | F | G

  /** The pattern bit that drives segment `s`. */
  function Line(s: Segment): (i: bv8)
    ensures i < 7
  {
    match s
    case A => 0
    case B => 1
    case C => 2
    case D => 3
    case E => 4
    case F => 5
    case G => 6
  }

  /** The segments that the usual seven-segment shape of digit `d` lights. */
  function Glyph(d: nat): set<Segment>
    requires d <= 9
  {
    match d
    case 0 => {A, B, C, D, E, F}
    case 1 => {B, C}
    case 2 => {A, B, D, E, G}
    case 3 => {A, B, C, D, G}
    case 4 => {B, C, F, G}
    case 5 => {A, C, D, F, G}
    case 6 => {A, C, D, E, F, G}
    case 7 => {A, B, C}
    case 8 => {A, B, C, D, E, F, G}
    case _ => {A, B, C, D, F, G}
  }

  /** The table lights exactly the segments of each digit's shape. */
  lemma EncodeShowsGlyph(d: nat, s: Segment)
    requires d <= 9
    ensures Bit(Encode(d), Line(s)) <==> s in Glyph(d)
  {
  }

  /** Distinct digits have distinct patterns, so the display is unambiguous. */
  lemma EncodeInjective(d: nat, e: nat)
    requires d <= 9 && e <= 9 && d != e
    ensures Encode(d) != Encode(e)
  {
  }

  /** The digit whose pattern is `p`, if any, searching entries `k` onward. */
  function DecodeFrom(p: bv8, k: nat): (r: Option<nat>)
    requires k <= |Segments|
    ensures r.Some? ==> k <= r.value < |Segments| && Segments[r.value] == p
    ensures r.None? ==> forall d | k <= d < |Segments| :: Segments[d] != p
    decreases |Segments| - k
  {
    if k == |Segments| then None
    else if Segments[k] == p then Some(k)
    else DecodeFrom(p, k + 1)
  }

  /** The digit a pattern shows, or None for a pattern no digit has. */
  function Decode(p: bv8): (r: Option<nat>)
    ensures r.Some? ==> r.value <= 9 && Encode(r.value) == p
    ensures r.None? ==> forall d | 0 <= d <= 9 :: Encode(d) != p
  {
    DecodeFrom(p, 0)
  }

  /** Reading back a written digit gives that digit. */
  lemma DecodeEncode(d: nat)
    requires d <= 9
    ensures Decode(Encode(d)) == Some(d)
  {
    var r := Decode(Encode(d));
    if r.value != d {
      EncodeInjective(d, r.value);
    }
  }
}
