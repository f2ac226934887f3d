/**
 * The crate-level definitions of the game: the coarse game state and the
 * screen-resolution table that the luge run reads (src/lib.rs).
 */
module Game {

  /** The coarse states of the game; the engine starts in Loading. */
  datatype GameState = Loading | Playing | Menu | Settings

  const DefaultGameState: GameState := Loading

  /** The four supported window resolutions. */
  datatype Resolution = Sd | Hd | Qhd | Uhd

  const DefaultResolution: Resolution := Hd

  /** Every variant, in the order the game lists them. */
  const Resolutions: seq<Resolution> := [Sd, Hd, Qhd, Uhd]

  /** A two-dimensional size or position, in pixels. */
  datatype Vec2 = Vec2(x: real, y: real)

  /** The sprite scale factor of a resolution. */
  function Scale(r: Resolution): (s: real)
    ensures 2.0 <= s <= 6.0
    ensures s in {2.0, 3.0, 4.0, 6.0}
  {
    match r
    case Sd => 2.0
    case Hd => 3.0
    case Qhd => 4.0
    case Uhd => 6.0
  }

  /** The window size of a resolution. Its height is 360 pixels per unit of scale. */
  function Size(r: Resolution): (v: Vec2)
    ensures v.y == 360.0 * Scale(r)
    ensures 9.0 * v.x == 16.0 * v.y
  {
    match r
    case Sd => Vec2(1280.0, 720.0)
    case Hd => Vec2(1920.0, 1080.0)
    case Qhd => Vec2(2560.0, 1440.0)
    case Uhd => Vec2(3840.0, 2160.0)
  }

  /** The label shown for a resolution in the settings dropdown. */
  function Label(r: Resolution): string
  {
    match r
    case Sd => "720p"
    case Hd => "1080p"
    case Qhd => "1440p"
    case Uhd => "4k"
  }

  /** The x offsets of the left and right lanes: 61 pixels per unit of scale, mirrored about 0. */
  function CalculateLanes(r: Resolution): (lanes: (real, real))
    ensures lanes.0 == -lanes.1
    ensures lanes.0 < 0.0 < lanes.1
    ensures lanes.1 == 61.0 * Scale(r)
  {
    var offset := Scale(r) * 61.0;
    (-offset, offset)
  }

  /** The UI scale: the sprite scale relative to the 1080p layout. */
  function UiScale(r: Resolution): (u: real)
    ensures 3.0 * u == Scale(r)
    ensures u == 1.0 <==> r == Hd
  {
    Scale(r) / 3.0
  }

  /** The table lists each variant exactly once. */
  lemma ResolutionsEnumerateAll(r: Resolution)
    ensures |Resolutions| == 4
    ensures r in Resolutions
    ensures forall i, j :: 0 <= i < j < |Resolutions| ==> Resolutions[i] != Resolutions[j]
  {
  }

  /** The scale grows strictly along the table order. */
  lemma ScaleIncreasesAlongTable(i: nat, j: nat)
    requires i < j < |Resolutions|
    ensures 0.0 < Scale(Resolutions[i]) < Scale(Resolutions[j])
  {
  }

  /** Different resolutions have different labels, so a label names its resolution. */
  lemma LabelInjective(a: Resolution, b: Resolution)
    ensures Label(a) == Label(b) <==> a == b
  {
    if a != b {
      assert Label(a)[1] != Label(b)[1];
    }
  }

  /** Under this table the 1080p lanes sit 183 pixels either side of the centre. */
  lemma DefaultResolutionLayout()
    ensures CalculateLanes(DefaultResolution) == (-183.0, 183.0)
    ensures UiScale(DefaultResolution) == 1.0
    ensures Size(DefaultResolution) == Vec2(1920.0, 1080.0)
  {
  }
}
