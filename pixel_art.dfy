/**
 * The pixel-art drawing tables: while the mouse is held, the tile under it
 * is filled.  The canvas is divided into 18-by-18 tiles and the mouse
 * position is snapped down to the top-left corner of the tile it is in.
 * The jam version also has an eraser, toggled with the E key, that fills
 * tiles with white instead of the chosen colour.
 */
module PixelArt {
  import opened Maybe

  const TileSize: int := 18

  /** A tile, by its top-left corner. */
  datatype Tile = Tile(x: int, y: int)

  /** What a tile is filled with: white, or the colour the picker and the mouse choose. */
  datatype Fill = White | Chosen

  datatype Stroke = Stroke(tile: Tile, fill: Fill)

  /** `floor(m / tileSize) * tileSize`: the corner of the tile row or column holding `m`. */
  function SnapCoord(m: real): (t: int)
    ensures t % TileSize == 0
    ensures t as real <= m < t as real + TileSize as real
  {
    (m / TileSize as real).Floor * TileSize
  }

  /** The snapped coordinate is the only tile boundary within one tile below `m`. */
  lemma SnapUnique(m: real, t: int)
    requires t % TileSize == 0 && t as real <= m < t as real + TileSize as real
    ensures t == SnapCoord(m)
  {
    var s := SnapCoord(m);
    assert (t - s) % TileSize == 0;
    assert -TileSize < t - s < TileSize;
  }

  /** Snapping a tile corner gives it back, and every point of a tile snaps to its corner. */
  lemma SnapWithinTile(t: int, d: real)
    requires t % TileSize == 0 && 0.0 <= d < TileSize as real
    ensures SnapCoord(t as real + d) == t
  {
    SnapUnique(t as real + d, t);
  }

  function Snap(mouseX: real, mouseY: real): (r: Tile)
    ensures r.x % TileSize == 0 && r.y % TileSize == 0
    ensures r.x as real <= mouseX < r.x as real + TileSize as real
    ensures r.y as real <= mouseY < r.y as real + TileSize as real
  {
    Tile(SnapCoord(mouseX), SnapCoord(mouseY))
  }

  /** The jam's `draw`: nothing unless the mouse is pressed, else the tile under it, white while erasing. */
  function Paint(pressed: bool, erasing: bool, mouseX: real, mouseY: real): (r: Option<Stroke>)
    ensures r.None? <==> !pressed
    ensures r.Some? ==> r.value.tile == Snap(mouseX, mouseY) && (r.value.fill == White <==> erasing)
  {
    if pressed then Some(Stroke(Snap(mouseX, mouseY), if erasing then White else Chosen)) else None
  }

  /** The first table's `draw`: it has no eraser, so a pressed mouse always paints the chosen colour. */
  function PaintPlain(pressed: bool, mouseX: real, mouseY: real): (r: Option<Stroke>)
    ensures r.None? <==> !pressed
    ensures r.Some? ==> r.value.tile == Snap(mouseX, mouseY) && r.value.fill == Chosen
  {
    if pressed then Some(Stroke(Snap(mouseX, mouseY), Chosen)) else None
  }

  /** The eraser flag after a key press: the E key, in either case, flips it; other keys leave it. */
  function Toggled(erasing: bool, key: char): (r: bool)
    ensures (key == 'E' || key == 'e') <==> r != erasing
  {
    if key == 'E' || key == 'e' then !erasing else erasing
  }

  /** Pressing the same key twice leaves the eraser as it was. */
  lemma ToggleTwice(erasing: bool, key: char)
    ensures Toggled(Toggled(erasing, key), key) == erasing
  {
  }

  /** The jam's table, whose only state is the eraser flag. */
  class Jam {
    var erasing: bool

    constructor ()
      ensures !erasing
    {
      erasing := false;
    }

    /** `keyPressed`. */
    method KeyPressed(key: char)
      modifies this
      ensures erasing == Toggled(old(erasing), key)
    {
      if key == 'E' || key == 'e' {
        erasing := !erasing;
      }
    }
  }
}
