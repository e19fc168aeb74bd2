/** The tile grid of adaptive shading: the rate and feature surfaces hold one
    texel per shading-rate tile of the render target, and each NAS compute
    pass dispatches enough thread groups to cover that grid. */
module TileGrid {
  import opened Rounding

  /** Dimensions of the rate/feature surface, in tiles. */
  datatype Grid = Grid(width: nat, height: nat)

  /** The rate grid of a `renderWidth` x `renderHeight` target with square
      tiles of `tileSize` pixels (the device's shading-rate image tile size). */
  function GridOf(renderWidth: nat, renderHeight: nat, tileSize: nat): (g: Grid)
    requires tileSize > 0
    ensures g.width * tileSize >= renderWidth && g.width * tileSize < renderWidth + tileSize
    ensures g.height * tileSize >= renderHeight && g.height * tileSize < renderHeight + tileSize
  {
    Grid(CeilDiv(renderWidth, tileSize), CeilDiv(renderHeight, tileSize))
  }

  /** Any grid that covers the target with less than one tile of excess on
      each axis is the grid `GridOf` computes. */
  lemma GridOfUnique(renderWidth: nat, renderHeight: nat, tileSize: nat, g: Grid)
    requires tileSize > 0
    requires g.width * tileSize >= renderWidth && g.width * tileSize < renderWidth + tileSize
    requires g.height * tileSize >= renderHeight && g.height * tileSize < renderHeight + tileSize
    ensures g == GridOf(renderWidth, renderHeight, tileSize)
  {
    CeilDivUnique(renderWidth, tileSize, g.width);
    CeilDivUnique(renderHeight, tileSize, g.height);
  }

  /** Every pixel of the render target falls in a tile of the grid, and every
      tile of the grid holds at least one pixel. */
  lemma GridCoversPixels(renderWidth: nat, renderHeight: nat, tileSize: nat, x: nat, y: nat)
    requires tileSize > 0
    ensures var g := GridOf(renderWidth, renderHeight, tileSize);
      && (x < renderWidth ==> x / tileSize < g.width)
      && (y < renderHeight ==> y / tileSize < g.height)
      && (x < g.width ==> x * tileSize < renderWidth)
      && (y < g.height ==> y * tileSize < renderHeight)
  {
    var g := GridOf(renderWidth, renderHeight, tileSize);
    AxisCovers(renderWidth, tileSize, g.width, x);
    AxisCovers(renderHeight, tileSize, g.height, y);
  }

  lemma AxisCovers(size: nat, tileSize: nat, tiles: nat, p: nat)
    requires tileSize > 0
    requires tiles * tileSize >= size && tiles * tileSize < size + tileSize
    ensures p < size ==> p / tileSize < tiles
    ensures p < tiles ==> p * tileSize < size
  {
    var q := p / tileSize;
    assert p == q * tileSize + p % tileSize;
    assert (p + 1) * tileSize == p * tileSize + tileSize;
    MulMonotone(tiles, q, tileSize);
    MulMonotone(p + 1, tiles, tileSize);
  }

  /** The worked example of a 1920 x 1080 target with 16-pixel tiles. */
  lemma FullHdGrid()
    ensures GridOf(1920, 1080, 16) == Grid(120, 68)
  {
    GridOfUnique(1920, 1080, 16, Grid(120, 68));
  }

  /** The three NAS compute kernels. */
  datatype Kernel = NasData | ShadingRate | SmoothShadingRate

  /** Thread-group counts of one dispatch. */
  datatype Groups = Groups(x: nat, y: nat, z: nat)

  /** Side of the square block of tiles one thread group of the kernel
      handles: the feature and rate kernels run one group per tile, the
      smoothing kernel one group per 16 x 16 tiles. */
  function TilesPerGroup(k: Kernel): nat
  {
    if k == SmoothShadingRate then 16 else 1
  }

  /** The dispatch the host records for kernel `k` over grid `g`. */
  function DispatchSize(k: Kernel, g: Grid): (r: Groups)
  {
    match k
    case NasData => Groups(g.width, g.height, 1)
    case ShadingRate => Groups(g.width, g.height, 1)
    case SmoothShadingRate => Groups((g.width + 15) / 16, (g.height + 15) / 16, 1)
  }

  /** Each dispatch is one layer deep and covers the grid with less than one
      group of excess per axis, so no tile is left out and no group is empty. */
  lemma DispatchCoversGrid(k: Kernel, g: Grid)
    ensures var r := DispatchSize(k, g); var n := TilesPerGroup(k);
      && r.z == 1
      && r.x * n >= g.width && r.x * n < g.width + n
      && r.y * n >= g.height && r.y * n < g.height + n
  {
    if k == SmoothShadingRate {
      assert DispatchSize(k, g) == Groups(CeilDiv(g.width, 16), CeilDiv(g.height, 16), 1);
    }
  }

  /** Tile (tx, ty) of the grid is handled by group (tx / n, ty / n) of the
      dispatch, which the dispatch contains; each group of the dispatch
      starts inside the grid. */
  lemma DispatchReachesEveryTile(k: Kernel, g: Grid, tx: nat, ty: nat)
    ensures var r := DispatchSize(k, g); var n := TilesPerGroup(k);
      && (tx < g.width && ty < g.height ==> tx / n < r.x && ty / n < r.y)
      && (tx < r.x && ty < r.y ==> tx * n < g.width && ty * n < g.height)
  {
    var r := DispatchSize(k, g);
    var n := TilesPerGroup(k);
    DispatchCoversGrid(k, g);
    AxisCovers(g.width, n, r.x, tx);
    AxisCovers(g.height, n, r.y, ty);
  }
}
