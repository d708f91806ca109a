/**
 * The occupancy-grid renderable of the 3D panel: the grid dimension check,
 * the fill of the RGBA texture from the grid's cell bytes, the defaults of a
 * partial grid message and the transparency of the material.
 *
 * Colours enter already converted: `minColor` and `maxColor` are the linear
 * 8-bit channels the source derives from the settings strings; the alphas of
 * the settings colours enter as reals in [0, 1].
 */
module FoxgloveGrid {
  import opened Wrappers
  import opened JsValues

  datatype Vector2 = Vector2(x: real, y: real)

  datatype PackedElementField = PackedElementField(name: string, offset: nat, fieldType: nat)

  /** A normalized `foxglove.Grid` message (timestamp and pose left out). */
  datatype Grid = Grid(
    frameId: string,
    rowStride: nat,
    cellStride: nat,
    columnCount: nat,
    cellSize: Vector2,
    fields: seq<PackedElementField>,
    data: seq<byte>)

  /** A grid message as received: every field may be missing. */
  datatype PartialGrid = PartialGrid(
    frameId: Option<string>,
    rowStride: Option<nat>,
    cellStride: Option<nat>,
    columnCount: Option<nat>,
    cellSizeX: Option<real>,
    cellSizeY: Option<real>,
    fields: Option<seq<PartialField>>,
    data: seq<byte>)

  datatype PartialField = PartialField(name: Option<string>, offset: Option<nat>, fieldType: Option<nat>)

  /** normalizePackedElementField. */
  function NormalizeField(f: PartialField): (r: PackedElementField)
    ensures r.name == f.name.GetOr("") && r.offset == f.offset.GetOr(0) && r.fieldType == f.fieldType.GetOr(0)
  {
    PackedElementField(f.name.GetOr(""), f.offset.GetOr(0), f.fieldType.GetOr(0))
  }

  /**
   * normalizeFoxgloveGrid: strides and column count default to 0, cell size
   * to 1 by 1, the frame to "" and the fields to none.
   */
  function NormalizeGrid(m: PartialGrid): (g: Grid)
    ensures m.rowStride.None? ==> g.rowStride == 0
    ensures m.cellStride.None? ==> g.cellStride == 0
    ensures m.columnCount.None? ==> g.columnCount == 0
    ensures m.cellSizeX.None? ==> g.cellSize.x == 1.0
    ensures m.cellSizeY.None? ==> g.cellSize.y == 1.0
    ensures m.frameId.None? ==> g.frameId == ""
    ensures m.fields.None? ==> g.fields == []
    ensures m.fields.Some? ==> |g.fields| == |m.fields.value|
    ensures m.fields.Some? ==> forall i :: 0 <= i < |g.fields| ==> g.fields[i] == NormalizeField(m.fields.value[i])
    ensures m.rowStride.Some? ==> g.rowStride == m.rowStride.value
    ensures m.cellStride.Some? ==> g.cellStride == m.cellStride.value
    ensures m.columnCount.Some? ==> g.columnCount == m.columnCount.value
    ensures m.cellSizeX.Some? ==> g.cellSize.x == m.cellSizeX.value
    ensures m.cellSizeY.Some? ==> g.cellSize.y == m.cellSizeY.value
    ensures m.frameId.Some? ==> g.frameId == m.frameId.value
    ensures g.data == m.data
  {
    Grid(
      m.frameId.GetOr(""),
      m.rowStride.GetOr(0),
      m.cellStride.GetOr(0),
      m.columnCount.GetOr(0),
      Vector2(m.cellSizeX.GetOr(1.0), m.cellSizeY.GetOr(1.0)),
      match m.fields
      case None => []
      case Some(fs) => seq(|fs|, i requires 0 <= i < |fs| => NormalizeField(fs[i])),
      m.data)
  }

  /** The partial message that carries every field of `g`. */
  function AsPartial(g: Grid): PartialGrid {
    PartialGrid(
      Some(g.frameId), Some(g.rowStride), Some(g.cellStride), Some(g.columnCount),
      Some(g.cellSize.x), Some(g.cellSize.y),
      Some(seq(|g.fields|, i requires 0 <= i < |g.fields| =>
        PartialField(Some(g.fields[i].name), Some(g.fields[i].offset), Some(g.fields[i].fieldType)))),
      g.data)
  }

  /** Normalizing a complete message changes nothing. */
  lemma NormalizeComplete(g: Grid)
    ensures NormalizeGrid(AsPartial(g)) == g
  {
    assert NormalizeGrid(AsPartial(g)).fields == g.fields;
  }

  /**
   * getFoxgloveGridDimensions: `cols` is the column count and `rows` the byte
   * length over the row stride, a JavaScript division: None stands for the
   * Infinity or NaN of a zero row stride.
   */
  function Rows(g: Grid): (rows: Option<real>)
    ensures rows.Some? <==> g.rowStride != 0
    ensures rows.Some? ==> rows.value * g.rowStride as real == |g.data| as real
  {
    if g.rowStride == 0 then None else Some(|g.data| as real / g.rowStride as real)
  }

  /**
   * The length check of _updateFoxgloveGridRenderable: the data length must be
   * `cols * rows * cell_stride`. Any product with Infinity or NaN differs from
   * a length, so a zero row stride always fails it.
   */
  predicate SizeMatches(g: Grid) {
    match Rows(g)
    case None => false
    case Some(rows) => |g.data| as real == g.columnCount as real * rows * g.cellStride as real
  }

  /** The check passes exactly for a non-zero row stride that is one row of cells, or for no data. */
  lemma SizeMatchesIff(g: Grid)
    ensures SizeMatches(g) <==>
              g.rowStride != 0 && (|g.data| == 0 || g.rowStride == g.columnCount * g.cellStride)
  {
    if g.rowStride != 0 {
      var l, r, c, s := |g.data| as real, g.rowStride as real, g.columnCount as real, g.cellStride as real;
      var rows := l / r;
      assert rows * r == l;
      if l == c * rows * s && l != 0.0 {
        assert l * r == c * (rows * r) * s;
        assert c * s == r;
        assert (g.columnCount * g.cellStride) as real == c * s;
      }
      if g.rowStride == g.columnCount * g.cellStride {
        assert r == c * s;
        assert c * rows * s == rows * r;
      }
    }
  }

  /** The 8-bit linear colour a texture pixel is filled from. */
  datatype Rgba = Rgba(r: byte, g: byte, b: byte, a: byte) {
    function Channel(ch: nat): byte
      requires ch < 4
    {
      if ch == 0 then r else if ch == 1 then g else if ch == 2 then b else a
    }
  }

  /** The `Uint8ClampedArray` store conversion: clamp to [0, 255], round half to even. */
  function ToUint8Clamp(x: real): (v: byte)
    ensures x <= 0.0 ==> v == 0
    ensures x >= 255.0 ==> v == 255
    ensures 0.0 <= x <= 255.0 ==> x - 0.5 <= v as real <= x + 0.5
  {
    if x <= 0.0 then 0
    else if x >= 255.0 then 255
    else
      var f := x.Floor;
      if (f as real) + 0.5 < x then (f + 1) as byte
      else if x < (f as real) + 0.5 then f as byte
      else if f % 2 == 0 then f as byte
      else (f + 1) as byte
  }

  /** `data[k] | 0`: the byte, or 0 past the end (`undefined | 0`). */
  function ByteAt(data: seq<byte>, k: nat): byte {
    if k < |data| then data[k] else 0
  }

  /**
   * Channel `ch` of the pixel for cell value `v` in [0, 100]: 100 is fully
   * transparent black, anything else the colour `min + (max - min) * v / 100`
   * stored through the clamped conversion.
   */
  function PixelChannel(v: byte, minColor: Rgba, maxColor: Rgba, ch: nat): byte
    requires v <= 100 && ch < 4
  {
    if v == 100 then 0
    else
      var lo, hi := minColor.Channel(ch) as real, maxColor.Channel(ch) as real;
      ToUint8Clamp(lo + (hi - lo) * (v as real / 100.0))
  }

  /** Cell value 0 paints exactly the min colour; 100 paints four zero bytes. */
  lemma PixelEndpoints(minColor: Rgba, maxColor: Rgba, ch: nat)
    requires ch < 4
    ensures PixelChannel(0, minColor, maxColor, ch) == minColor.Channel(ch)
    ensures PixelChannel(100, minColor, maxColor, ch) == 0
  {
    var lo := minColor.Channel(ch);
    assert (lo as int as real).Floor == lo as int;
  }

  /** The number of cells the fill loop visits: the multiples of the stride below the length. */
  function NumCells(len: nat, stride: nat): nat
    requires stride > 0
  {
    (len + stride - 1) / stride
  }

  lemma MulMono(a: nat, b: nat, c: nat)
    requires a <= b
    ensures a * c <= b * c
  {
  }

  /** Cell `m` is visited exactly when its first byte `m * stride` is inside the data. */
  lemma NumCellsSpec(len: nat, stride: nat, m: nat)
    requires stride > 0
    ensures m < NumCells(len, stride) <==> m * stride < len
  {
    var q := NumCells(len, stride);
    var r := (len + stride - 1) % stride;
    assert len + stride - 1 == q * stride + r;
    if m < q {
      MulMono(m, q - 1, stride);
      assert (q - 1) * stride == q * stride - stride;
    } else {
      MulMono(q, m, stride);
    }
  }

  /** The value that colours pixel `k`: the selected field's byte of cell `k`. */
  function CellValue(data: seq<byte>, stride: nat, colorFieldOffset: nat, k: nat): byte {
    ByteAt(data, k * stride + colorFieldOffset)
  }

  /**
   * The texture bytes after updateTexture: byte `j` belongs to pixel `j / 4`;
   * a visited pixel whose cell value is at most 100 gets its colour channel,
   * every other byte keeps its old value.
   */
  function TextureAfter(prev: seq<byte>, data: seq<byte>, stride: nat, colorFieldOffset: nat,
                        minColor: Rgba, maxColor: Rgba): (t: seq<byte>)
    requires stride > 0
    ensures |t| == |prev|
  {
    seq(|prev|, j requires 0 <= j < |prev| =>
      var k := j / 4;
      var v := CellValue(data, stride, colorFieldOffset, k);
      if k < NumCells(|data|, stride) && v <= 100 then PixelChannel(v, minColor, maxColor, j % 4)
      else prev[j])
  }

  /**
   * Byte `j` of the texture after the fill, by the value of the cell of its
   * pixel `j / 4`: untouched past the data or above 100, zero for 100, the
   * min colour's channel for 0.
   */
  lemma TextureAfterPixel(prev: seq<byte>, data: seq<byte>, stride: nat, colorFieldOffset: nat,
                          minColor: Rgba, maxColor: Rgba, j: nat)
    requires stride > 0 && j < |prev|
    ensures var t := TextureAfter(prev, data, stride, colorFieldOffset, minColor, maxColor);
            var v := ByteAt(data, (j / 4) * stride + colorFieldOffset);
            && ((j / 4) * stride >= |data| || v > 100 ==> t[j] == prev[j])
            && ((j / 4) * stride < |data| && v == 100 ==> t[j] == 0)
            && ((j / 4) * stride < |data| && v == 0 ==> t[j] == minColor.Channel(j % 4))
  {
    NumCellsSpec(|data|, stride, j / 4);
    PixelEndpoints(minColor, maxColor, j % 4);
  }

  /**
   * updateTexture: walks the data by the cell stride, one pixel per cell, and
   * writes the four bytes of each pixel whose value is at most 100; writes
   * past the end of the texture are dropped, as typed arrays do.
   */
  method UpdateTexture(rgba: array<byte>, data: seq<byte>, stride: nat, colorFieldOffset: nat,
                       minColor: Rgba, maxColor: Rgba)
    requires stride > 0
    modifies rgba
    ensures rgba[..] == TextureAfter(old(rgba[..]), data, stride, colorFieldOffset, minColor, maxColor)
  {
    var i := 0;
    var imageOffset := 0;
    while i < |data|
      invariant i == imageOffset * stride
      invariant imageOffset <= NumCells(|data|, stride)
      invariant forall j :: 0 <= j < rgba.Length ==>
                  rgba[j] == if j / 4 < imageOffset
                             then TextureAfter(old(rgba[..]), data, stride, colorFieldOffset, minColor, maxColor)[j]
                             else old(rgba[j])
      decreases |data| - i
    {
      NumCellsSpec(|data|, stride, imageOffset);
      var value := ByteAt(data, i + colorFieldOffset);
      if value <= 100 {
        var offset := imageOffset * 4;
        var c := 0;
        while c < 4
          invariant 0 <= c <= 4
          invariant forall j :: 0 <= j < rgba.Length ==>
                      rgba[j] == if j / 4 < imageOffset || (j / 4 == imageOffset && j % 4 < c)
                                 then TextureAfter(old(rgba[..]), data, stride, colorFieldOffset, minColor, maxColor)[j]
                                 else old(rgba[j])
        {
          if offset + c < rgba.Length {
            rgba[offset + c] := PixelChannel(value, minColor, maxColor, c);
          }
          c := c + 1;
        }
      } else {
        forall j | 0 <= j < rgba.Length && j / 4 == imageOffset
          ensures TextureAfter(old(rgba[..]), data, stride, colorFieldOffset, minColor, maxColor)[j] == old(rgba[j])
        {
        }
      }
      i := i + stride;
      imageOffset := imageOffset + 1;
    }
    NumCellsSpec(|data|, stride, imageOffset);
  }

  /** foxgloveGridHasTransparency: the alphas of the min and max settings colours. */
  function HasTransparency(minAlpha: real, maxAlpha: real): (transparent: bool)
    ensures !transparent <==> minAlpha >= 1.0 && maxAlpha >= 1.0
  {
    minAlpha < 1.0 || maxAlpha < 1.0
  }

  /** getGridImageDimensions, as written: the cell size times the columns and rows. */
  function ImageDimensions(g: Grid): (Option<real>, Option<real>) {
    (Some(g.cellSize.x * g.columnCount as real),
     match Rows(g) case None => None case Some(rows) => Some(g.cellSize.y * rows))
  }

  /**
   * The texture check of _updateFoxgloveGridRenderable as written: a new
   * texture is made only when the scaled image dimensions differ from the
   * texture's, although a texture holds one pixel per cell (`cols` by `rows`).
   */
  predicate RegenerateAsWritten(g: Grid, texWidth: real, texHeight: real) {
    var (w, h) := ImageDimensions(g);
    w != Some(texWidth) || h != Some(texHeight)
  }

  /** The corrected check: a new texture whenever the grid's columns or rows differ from the texture's. */
  predicate RegenerateFixed(g: Grid, texWidth: real, texHeight: real) {
    Some(g.columnCount as real) != Some(texWidth) || Rows(g) != Some(texHeight)
  }

  /**
   * A 4 x 4 texture made for a grid of cell size 1 is kept for a 2 x 2 grid of
   * cell size 2: the scaled dimensions match, the cell counts do not.
   */
  lemma RegenerateAsWrittenKeepsWrongTexture(g: Grid)
    requires g.columnCount == 2 && g.cellSize == Vector2(2.0, 2.0)
    requires g.cellStride == 1 && g.rowStride == 2 && |g.data| == 4
    ensures SizeMatches(g)
    ensures !RegenerateAsWritten(g, 4.0, 4.0)
    ensures RegenerateFixed(g, 4.0, 4.0)
  {
    assert Rows(g) == Some(2.0);
  }

  /** With cells of size 1 the scaled dimensions are the cell counts, so both checks agree. */
  lemma UnitCellsAgree(g: Grid, texWidth: real, texHeight: real)
    requires g.cellSize == Vector2(1.0, 1.0)
    ensures RegenerateAsWritten(g, texWidth, texHeight) <==> RegenerateFixed(g, texWidth, texHeight)
  {
  }

  /**
   * With any other cell width the check as written remakes even the texture
   * made for this very grid (one pixel per cell), on every message and every
   * settings change, where the corrected check keeps it.
   */
  lemma RegenerateAsWrittenRemakesOwnTexture(g: Grid)
    requires Rows(g).Some? && g.columnCount != 0 && g.cellSize.x != 1.0
    ensures RegenerateAsWritten(g, g.columnCount as real, Rows(g).value)
    ensures !RegenerateFixed(g, g.columnCount as real, Rows(g).value)
  {
    var c := g.columnCount as real;
    assert g.cellSize.x * c != c by {
      assert (g.cellSize.x * c) / c == g.cellSize.x;
      assert c / c == 1.0;
    }
  }

  /**
   * The layer settings as the texture fill and the material use them: the
   * field to colour by, the min and max colours as linear 8-bit channels, and
   * the alphas of the two settings colours.
   */
  datatype GridSettings = GridSettings(colorField: Option<string>, minColor: Rgba, maxColor: Rgba,
                                       minAlpha: real, maxAlpha: real)

  /** The id under which the renderable's topic records a grid of the wrong length. */
  const InvalidGridKey: string := "INVALID_FOXGLOVE_GRID"

  /** The part of a renderable's state the grid update and the settings update touch. */
  class GridRenderable {
    var grid: Grid
    var settings: GridSettings
    var texture: array<byte>
    var texWidth: real
    var texHeight: real
    /** The material flags: a transparent layer blends and does not write depth. */
    var transparent: bool
    var depthWrite: bool
    /** The errors recorded for the renderable's topic, by error id. */
    var errors: map<string, string>
    var scale: Vector2

    /**
     * The texture holds `texWidth * texHeight` RGBA pixels, one per cell of
     * the grid when the grid passed the length check; the material is
     * transparent exactly when the settings colours are.
     */
    ghost predicate Valid()
      reads this
    {
      && 0.0 <= texWidth && 0.0 <= texHeight && texture.Length == (texWidth * texHeight * 4.0).Floor
      && (SizeMatches(grid) ==> texWidth == grid.columnCount as real && Some(texHeight) == Rows(grid))
      && transparent == HasTransparency(settings.minAlpha, settings.maxAlpha) && depthWrite == !transparent
    }

    /**
     * createTexture and createMaterial: a zeroed RGBA buffer of `cols * rows`
     * pixels, `cols` wide and `rows` high, made before any length check; a
     * material that is transparent, and writes no depth, when a settings
     * colour is.
     */
    constructor (g: Grid, s: GridSettings)
      requires Rows(g).Some?
      ensures Valid() && fresh(texture) && texture[..] == Zeros(texture.Length)
      ensures grid == g && settings == s && errors == map[] && scale == Vector2(1.0, 1.0)
      ensures texWidth == g.columnCount as real && Some(texHeight) == Rows(g)
      ensures transparent == HasTransparency(s.minAlpha, s.maxAlpha) && depthWrite == !transparent
    {
      var rows := Rows(g).value;
      grid := g;
      settings := s;
      texWidth := g.columnCount as real;
      texHeight := rows;
      assert rows >= 0.0 && g.columnCount as real * rows * 4.0 >= 0.0;
      texture := new byte[(g.columnCount as real * rows * 4.0).Floor](_ => 0);
      transparent := HasTransparency(s.minAlpha, s.maxAlpha);
      depthWrite := !HasTransparency(s.minAlpha, s.maxAlpha);
      errors := map[];
      scale := Vector2(1.0, 1.0);
    }

    /**
     * _updateFoxgloveGridRenderable with the corrected texture check: a grid
     * whose length is not `cols * rows * cell_stride` only records an error
     * under its id; otherwise the texture is remade when the cell counts
     * changed, filled from the grid with the settings, and the renderable
     * scaled by the cell size. Settings and material stay.
     */
    method Update(g: Grid)
      requires Valid()
      modifies this, texture
      ensures Valid()
      ensures grid == g
      ensures settings == old(settings) && transparent == old(transparent) && depthWrite == old(depthWrite)
      ensures !SizeMatches(g) ==>
                && errors == old(errors)[InvalidGridKey := InvalidGridMessage]
                && texture == old(texture) && texture[..] == old(texture[..])
                && texWidth == old(texWidth) && texHeight == old(texHeight) && scale == old(scale)
      ensures SizeMatches(g) ==>
                && errors == old(errors)
                && texWidth == g.columnCount as real && Some(texHeight) == Rows(g)
                && scale == g.cellSize
                && (!RegenerateFixed(g, old(texWidth), old(texHeight)) ==> texture == old(texture))
                && (RegenerateFixed(g, old(texWidth), old(texHeight)) ==> fresh(texture))
                && texture[..] == Filled(
                     if RegenerateFixed(g, old(texWidth), old(texHeight)) then Zeros(texture.Length)
                     else old(texture[..]),
                     g, settings)
    {
      grid := g;
      if !SizeMatches(g) {
        errors := errors[InvalidGridKey := InvalidGridMessage];
        return;
      }
      var regenerate := RegenerateFixed(g, texWidth, texHeight);
      texture := FillTexture(texture, g, settings, regenerate);
      texWidth := g.columnCount as real;
      texHeight := Rows(g).value;
      scale := g.cellSize;
    }

    /**
     * The settings update of an existing renderable: the merged settings are
     * stored, the material flags change only when the transparency did, and
     * the current grid is drawn again with the new settings.
     */
    method ApplySettings(s: GridSettings)
      requires Valid()
      modifies this, texture
      ensures Valid() && settings == s && grid == old(grid)
      ensures transparent == HasTransparency(s.minAlpha, s.maxAlpha) && depthWrite == !transparent
      ensures HasTransparency(s.minAlpha, s.maxAlpha) == HasTransparency(old(settings).minAlpha, old(settings).maxAlpha) ==>
                transparent == old(transparent) && depthWrite == old(depthWrite)
      ensures !SizeMatches(grid) ==>
                errors == old(errors)[InvalidGridKey := InvalidGridMessage] && texture[..] == old(texture[..])
      ensures SizeMatches(grid) ==>
                && errors == old(errors) && texture == old(texture)
                && texture[..] == Filled(old(texture[..]), grid, s)
    {
      var prevTransparent := HasTransparency(settings.minAlpha, settings.maxAlpha);
      settings := s;
      var newTransparent := HasTransparency(s.minAlpha, s.maxAlpha);
      if prevTransparent != newTransparent {
        transparent := newTransparent;
        depthWrite := !newTransparent;
      }
      Update(grid);
    }
  }

  /**
   * The texture half of _updateFoxgloveGridRenderable: a new zeroed texture
   * of one pixel per cell when `regenerate`, else `prev`, filled from the grid
   * with the settings.
   */
  method FillTexture(prev: array<byte>, g: Grid, s: GridSettings, regenerate: bool) returns (t: array<byte>)
    requires Rows(g).Some?
    modifies prev
    ensures regenerate ==> fresh(t) && t.Length == (g.columnCount as real * Rows(g).value * 4.0).Floor
    ensures !regenerate ==> t == prev
    ensures t[..] == Filled(if regenerate then Zeros(t.Length) else old(prev[..]), g, s)
  {
    t := prev;
    if regenerate {
      assert Rows(g).value >= 0.0 && g.columnCount as real * Rows(g).value * 4.0 >= 0.0;
      t := new byte[(g.columnCount as real * Rows(g).value * 4.0).Floor](_ => 0);
    }
    ghost var base := t[..];
    assert base == if regenerate then Zeros(t.Length) else old(prev[..]);
    if g.cellStride > 0 {
      UpdateTexture(t, g.data, g.cellStride, ColorFieldOffset(g.fields, s.colorField), s.minColor, s.maxColor);
    }
  }

  /**
   * The first grid of a topic: the renderable is made from it, texture
   * included, and then updated with it; a grid of the wrong length leaves the
   * zeroed texture and an error, any other one the texture filled from it.
   */
  method HandleFirstGrid(g: Grid, s: GridSettings) returns (r: GridRenderable)
    requires Rows(g).Some?
    ensures fresh(r) && r.Valid() && r.grid == g && r.settings == s
    ensures r.texWidth == g.columnCount as real && Some(r.texHeight) == Rows(g)
    ensures !SizeMatches(g) ==>
              && r.errors == map[InvalidGridKey := InvalidGridMessage]
              && r.texture[..] == Zeros(r.texture.Length)
    ensures SizeMatches(g) ==>
              && r.errors == map[] && r.scale == g.cellSize
              && r.texture[..] == Filled(Zeros(r.texture.Length), g, s)
  {
    r := new GridRenderable(g, s);
    r.Update(g);
  }

  /** A zeroed buffer, as a new `Uint8ClampedArray` is. */
  function Zeros(n: nat): (z: seq<byte>)
    ensures |z| == n && forall j :: 0 <= j < n ==> z[j] == 0
  {
    seq(n, _ => 0)
  }

  /**
   * The texture after updateTexture on `g`; a zero cell stride leaves it as
   * it is, which happens only for empty data once the length check passed.
   */
  function Filled(prev: seq<byte>, g: Grid, s: GridSettings): seq<byte> {
    if g.cellStride == 0 then prev
    else TextureAfter(prev, g.data, g.cellStride, ColorFieldOffset(g.fields, s.colorField), s.minColor, s.maxColor)
  }

  /** The error message for a grid whose length does not match its dimensions. */
  const InvalidGridMessage: string := "FoxgloveGrid data length is not equal to cols * rows * cell_stride"

  /** The offset of the first field named `colorField`, or 0 when there is none. */
  function ColorFieldOffset(fields: seq<PackedElementField>, colorField: Option<string>): (off: nat)
    ensures (forall i :: 0 <= i < |fields| ==> Some(fields[i].name) != colorField) ==> off == 0
    ensures forall i :: 0 <= i < |fields| && Some(fields[i].name) == colorField && NoneNamedBefore(fields, i, colorField) ==>
              off == fields[i].offset
  {
    if fields == [] then 0
    else if Some(fields[0].name) == colorField then fields[0].offset
    else
      var off := ColorFieldOffset(fields[1..], colorField);
      assert forall i :: 1 <= i < |fields| && NoneNamedBefore(fields, i, colorField) ==>
               fields[i] == fields[1..][i - 1] && NoneNamedBefore(fields[1..], i - 1, colorField);
      off
  }

  /** Whether no field before index `i` is named `colorField`. */
  predicate NoneNamedBefore(fields: seq<PackedElementField>, i: nat, colorField: Option<string>)
    requires i <= |fields|
  {
    forall j :: 0 <= j < i ==> Some(fields[j].name) != colorField
  }
}
