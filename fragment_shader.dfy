/**
  The terrain demo's fragment shader: the interpolated vertex height picks
  one of five fixed colours by a ladder of comparisons, and the fragment's
  colour is that colour, modulated by white, with alpha 1. GLSL floats are
  modelled as reals; the ladder only compares, so nothing is rounded.
*/
module FragmentShader {

  /** The five height bands, from the lowest to the highest. */
  datatype Band = Water | Sand | Grass | Rock | Snow

  datatype Rgb = Rgb(r: real, g: real, b: real)

  datatype Rgba = Rgba(r: real, g: real, b: real, a: real)

  /** The ladder: thresholds 0, 0.05, 0.3 and 0.6, each band closed below. */
  function BandOf(height: real): Band
  {
    if height < 0.0 then Water
    else if height < 0.05 then Sand
    else if height < 0.3 then Grass
    else if height < 0.6 then Rock
    else Snow
  }

  /** Position of a band in the ladder, 0 for the lowest. */
  function Rank(b: Band): (r: nat)
    ensures r < 5
  {
    match b
    case Water => 0
    case Sand => 1
    case Grass => 2
    case Rock => 3
    case Snow => 4
  }

  /** The colour each branch of the ladder assigns. */
  function BandColor(b: Band): Rgb
  {
    match b
    case Water => Rgb(0.0, 0.3, 0.6)
    case Sand => Rgb(0.76, 0.70, 0.50)
    case Grass => Rgb(0.1, 0.6, 0.1)
    case Rock => Rgb(0.5, 0.5, 0.5)
    case Snow => Rgb(1.0, 1.0, 1.0)
  }

  /** Component-wise product of two `vec4`s, as GLSL's `*` on vectors. */
  function Modulate(p: Rgba, q: Rgba): Rgba
  {
    Rgba(p.r * q.r, p.g * q.g, p.b * q.b, p.a * q.a)
  }

  /** The shader's `main`: `color` starts as the vertex colour, the ladder
      overwrites it, and the output is white times (color, 1). */
  function Shade(vertexColor: Rgb, height: real): Rgba
  {
    var color := BandColor(BandOf(height));
    Modulate(Rgba(1.0, 1.0, 1.0, 1.0), Rgba(color.r, color.g, color.b, 1.0))
  }

  /** Every height falls into exactly the band whose interval contains it. */
  lemma BandIntervals(height: real)
    ensures BandOf(height) == Water <==> height < 0.0
    ensures BandOf(height) == Sand <==> 0.0 <= height < 0.05
    ensures BandOf(height) == Grass <==> 0.05 <= height < 0.3
    ensures BandOf(height) == Rock <==> 0.3 <= height < 0.6
    ensures BandOf(height) == Snow <==> 0.6 <= height
  {
  }

  /** Higher terrain never gets a lower band. */
  lemma BandMonotone(low: real, high: real)
    requires low <= high
    ensures Rank(BandOf(low)) <= Rank(BandOf(high))
  {
  }

  /** Sample heights, one from each band. */
  lemma BandSamples()
    ensures BandOf(-1.0) == Water && BandOf(0.02) == Sand && BandOf(0.2) == Grass
    ensures BandOf(0.5) == Rock && BandOf(0.9) == Snow
  {
  }

  /** The five bands are told apart by their colours. */
  lemma BandColorsDistinct(b: Band, c: Band)
    requires b != c
    ensures BandColor(b) != BandColor(c)
  {
  }

  /** The fragment colour is the band colour, opaque: the vertex colour never
      shows, and modulating by white changes nothing. */
  lemma ShadeIsBandColor(vertexColor: Rgb, height: real)
    ensures var c := BandColor(BandOf(height));
      Shade(vertexColor, height) == Rgba(c.r, c.g, c.b, 1.0)
  {
  }
}
