/**
 * map/Map.java: a map built from a Reader.  `getTile(x, y)` composes, layer
 * by layer in insertion order, the tile each layer holds at that cell;
 * `getTileById(id)` finds the tileset an id belongs to and cuts the tile out
 * of it.  A composed tile is modelled by the list of tiles drawn into it.
 */
module Maps {
  import opened JavaNum
  import opened Wrappers
  import opened OrderedMaps
  import opened MapReader

  /** A tile cut out of a tileset picture: the square of side `size` at pixel (`x`, `y`). */
  datatype Tile = Tile(tileset: Image, x: Int32, y: Int32, size: Int32)

  /** `getSubimage(x, y, size, size)` does not throw: the square lies inside the picture. */
  predicate Fits(image: Image, x: Int32, y: Int32, size: Int32) {
    0 <= x && 0 <= y && 0 < size && x + size <= image.width && y + size <= image.height
  }

  /** Where the tileset loop of `getTileById` stops: at the first first-index that is not below `id`. */
  function Below(tilesets: seq<(Int32, Option<Image>)>, id: Int32): (n: nat)
    ensures n <= |tilesets|
    ensures forall i :: 0 <= i < n ==> tilesets[i].0 < id
    ensures n < |tilesets| ==> tilesets[n].0 >= id
  {
    if tilesets == [] || tilesets[0].0 >= id then 0 else 1 + Below(tilesets[1..], id)
  }

  /** Column and row of the `index`-th tile of a tileset `cols` tiles wide. */
  function Cell(index: Int32, cols: Int32): (r: (Int32, Int32))
    requires cols != 0
  {
    (Wrap32(JavaRem(index, cols)), Wrap32(JavaDiv(index, cols)))
  }

  /** What the tileset loop leaves behind: `id` minus the chosen first index, and the chosen tileset (None for null). */
  function Chosen(tilesets: seq<(Int32, Option<Image>)>, id: Int32): (r: (Int32, Option<Image>))
    ensures Below(tilesets, id) == 0 ==> r == (0, None)
  {
    var n := Below(tilesets, id);
    if n == 0 then (0, None) else (Wrap32(id - tilesets[n - 1].0), tilesets[n - 1].1)
  }

  /** The arithmetic after the loop: the tileset's width in tiles, the tile's cell and the subimage. */
  function Cut(tileSize: Int32, actualIndex: Int32, tileset: Option<Image>): (r: Result<Option<Tile>, Error>)
    ensures tileset.None? ==> r == Failure(NullPointer)
    ensures tileset.Some? && tileSize == 0 ==> r == Failure(Arithmetic)
    ensures r.Success? && r.value.Some? ==>
              var t := r.value.value;
              Some(t.tileset) == tileset && t.size == tileSize && Fits(t.tileset, t.x, t.y, t.size)
  {
    if tileset.None? then Failure(NullPointer)
    else if tileSize == 0 then Failure(Arithmetic)
    else
      var cols := Wrap32(JavaDiv(tileset.value.width, tileSize));
      if cols == 0 then Failure(Arithmetic)
      else
        var cell := Cell(actualIndex, cols);
        var x, y := Wrap32(cell.0 * tileSize), Wrap32(cell.1 * tileSize);
        if Fits(tileset.value, x, y, tileSize) then Success(Some(Tile(tileset.value, x, y, tileSize)))
        else Success(None)
  }

  /** `getTileById(id)`: the tile, null when it falls outside its tileset, or the exception. */
  function TileById(c: Contents, id: Int32): (r: Result<Option<Tile>, Error>)
    ensures Below(c.tilesets, id) == 0 ==> r == Failure(NullPointer)
    ensures r.Success? && r.value.Some? ==>
              r.value.value.size == c.tileSize && Some(r.value.value.tileset) == c.tilesets[Below(c.tilesets, id) - 1].1
  {
    var chosen := Chosen(c.tilesets, id);
    Cut(c.tileSize, chosen.0, chosen.1)
  }

  /** `y * width + x` in 32-bit arithmetic: the cell's position in a layer, which does not wrap for a cell of a grid below 2^31 cells. */
  function CellIndex(x: Int32, y: Int32, width: Int32): (r: Int32)
    ensures 0 <= x < width && 0 <= y && y * width + x <= MaxInt32 ==> r == y * width + x
  {
    if 0 <= x < width && 0 <= y then MulNonneg(y, width); Wrap32(Wrap32(y * width) + x)
    else Wrap32(Wrap32(y * width) + x)
  }

  /** What one layer draws at position `coordinate`: nothing for id 0 or a null tile, else its tile. */
  function LayerTiles(c: Contents, layer: seq<Int32>, coordinate: Int32): (r: Result<seq<Tile>, Error>)
    ensures !(0 <= coordinate < |layer|) ==> r == Failure(IndexOutOfBounds)
    ensures 0 <= coordinate < |layer| && layer[coordinate] == 0 ==> r == Success([])
    ensures r.Success? ==> |r.value| <= 1
  {
    if !(0 <= coordinate < |layer|) then Failure(IndexOutOfBounds)
    else if layer[coordinate] == 0 then Success([])
    else match TileById(c, layer[coordinate])
      case Failure(e) => Failure(e)
      case Success(None) => Success([])
      case Success(Some(t)) => Success([t])
  }

  /** The tiles the layers draw at position `coordinate`, in layer order. */
  function Compose(c: Contents, layers: seq<seq<Int32>>, coordinate: Int32): (r: Result<seq<Tile>, Error>)
    ensures r.Success? ==> |r.value| <= |layers|
  {
    if layers == [] then Success([])
    else match Compose(c, layers[..|layers| - 1], coordinate)
      case Failure(e) => Failure(e)
      case Success(drawn) =>
        match LayerTiles(c, layers[|layers| - 1], coordinate)
        case Failure(e) => Failure(e)
        case Success(more) => Success(drawn + more)
  }

  /** Inside the map's bounds. */
  predicate OnMap(c: Contents, x: Int32, y: Int32) {
    0 <= x < c.width && 0 <= y < c.height
  }

  /** `getTile(x, y)` on a map whose reader holds `c`: null off the map, else the composed tile or the exception. */
  function TileAt(c: Contents, x: Int32, y: Int32): (r: Result<Option<seq<Tile>>, Error>)
    ensures r == Success(None) <==> !OnMap(c, x, y)
    ensures OnMap(c, x, y) && c.tileSize <= 0 ==> r == Failure(IllegalArgument)
  {
    if !OnMap(c, x, y) then Success(None)
    else if c.tileSize <= 0 then Failure(IllegalArgument)
    else match Compose(c, Values(c.layers), CellIndex(x, y, c.width))
      case Failure(e) => Failure(e)
      case Success(drawn) => Success(Some(drawn))
  }

  /** On a map of at most 2^31 - 1 cells, the cell index is `y * width + x`, inside the grid, and no two cells share it. */
  lemma CellIndexInGrid(c: Contents, x: Int32, y: Int32, x': Int32, y': Int32)
    requires OnMap(c, x, y) && OnMap(c, x', y')
    requires c.width * c.height <= MaxInt32
    ensures CellIndex(x, y, c.width) == y * c.width + x
    ensures 0 <= CellIndex(x, y, c.width) < c.width * c.height
    ensures (x, y) != (x', y') ==> CellIndex(x, y, c.width) != CellIndex(x', y', c.width)
  {
    RowMajor(x, y, c.width, c.height);
    RowMajor(x', y', c.width, c.height);
    if y != y' {
      RowsApart(x, y, x', y', c.width);
    }
  }

  lemma RowMajor(x: int, y: int, width: int, height: int)
    requires 0 <= x < width && 0 <= y < height
    ensures 0 <= y * width + x < width * height
  {
    MulNonneg(y, width);
    RowBelow(y, height, width);
    assert width * height == height * width;
  }

  lemma RowsApart(x: int, y: int, x': int, y': int, width: int)
    requires 0 <= x < width && 0 <= x' < width && 0 <= y && 0 <= y' && y != y'
    ensures y * width + x != y' * width + x'
  {
    if y < y' {
      RowBelow(y, y', width);
    } else {
      RowBelow(y', y, width);
    }
  }

  /** A lower row starts at least a full row further on. */
  lemma RowBelow(y: int, y': int, width: int)
    requires 0 <= y < y' && 0 < width
    ensures y * width + width <= y' * width
  {
    MulNonneg(y' - y - 1, width);
    assert y' * width == y * width + width + (y' - y - 1) * width;
  }

  /** A layer holding 0 at the cell draws nothing there. */
  lemma ZeroDrawsNothing(c: Contents, layers: seq<seq<Int32>>, layer: seq<Int32>, coordinate: Int32)
    requires 0 <= coordinate < |layer| && layer[coordinate] == 0
    ensures Compose(c, layers + [layer], coordinate) == Compose(c, layers, coordinate)
  {
    assert (layers + [layer])[..|layers|] == layers;
    if Compose(c, layers, coordinate).Success? {
      assert Compose(c, layers, coordinate).value + [] == Compose(c, layers, coordinate).value;
    }
  }

  /** Layers are drawn in order: composing two groups of layers puts the first group's tiles first. */
  lemma {:induction false} ComposeAppend(c: Contents, a: seq<seq<Int32>>, b: seq<seq<Int32>>, coordinate: Int32)
    requires Compose(c, a, coordinate).Success? && Compose(c, b, coordinate).Success?
    ensures Compose(c, a + b, coordinate)
         == Success(Compose(c, a, coordinate).value + Compose(c, b, coordinate).value)
    decreases |b|
  {
    if b == [] {
      assert a + b == a;
      assert Compose(c, a, coordinate).value + [] == Compose(c, a, coordinate).value;
    } else {
      var b' := b[..|b| - 1];
      assert (a + b)[..|a + b| - 1] == a + b';
      assert (a + b)[|a + b| - 1] == b[|b| - 1];
      assert Compose(c, b', coordinate).Success? && LayerTiles(c, b[|b| - 1], coordinate).Success?;
      ComposeAppend(c, a, b', coordinate);
      var A, B' := Compose(c, a, coordinate).value, Compose(c, b', coordinate).value;
      var more := LayerTiles(c, b[|b| - 1], coordinate).value;
      assert Compose(c, b, coordinate).value == B' + more;
      assert Compose(c, a + b, coordinate) == Success(A + B' + more);
      assert A + B' + more == A + (B' + more);
    }
  }

  /** With first indices in increasing order, the tileset chosen for `id` is the one with the largest first index below `id`. */
  lemma ChosenTileset(tilesets: seq<(Int32, Option<Image>)>, id: Int32)
    requires forall i, j :: 0 <= i < j < |tilesets| ==> tilesets[i].0 < tilesets[j].0
    ensures var n := Below(tilesets, id);
            forall j :: 0 <= j < |tilesets| ==> (tilesets[j].0 < id <==> j < n)
  {
  }

  /** The cell of a non-negative index in a tileset `cols` wide: its column is below `cols` and row-major order gives the index back. */
  lemma CellRoundTrip(index: Int32, cols: Int32)
    requires 0 <= index && 0 < cols
    ensures 0 <= Cell(index, cols).0 < cols && 0 <= Cell(index, cols).1
    ensures Cell(index, cols).1 * cols + Cell(index, cols).0 == index
  {
    DivAtMost(index, cols);
    assert JavaDiv(index, cols) == index / cols;
  }

  class Map {
    var mapReader: Reader?

    /**
     * `new Map(mapDir)`: a missing `.MAPDATA` file or a file the reader rejects with
     * an IOException leaves the reader null; other exceptions propagate.
     */
    static method New(file: Option<seq<string>>, images: string -> ImageRead) returns (r: Result<Map, Error>)
      ensures file.None? ==> r.Success? && fresh(r.value) && r.value.mapReader == null
      ensures file.Some? && Read(file.value, images).Success? ==>
                r.Success? && fresh(r.value) && r.value.mapReader != null
                && r.value.mapReader.Value() == Read(file.value, images).value
      ensures file.Some? && Read(file.value, images) == Failure(IOException) ==>
                r.Success? && fresh(r.value) && r.value.mapReader == null
      ensures file.Some? && Read(file.value, images).Failure? && Read(file.value, images).error != IOException ==>
                r == Failure(Read(file.value, images).error)
    {
      var read := Reader.Open(file, images);
      if read.Failure? {
        if read.error == IOException {
          var m := new Map;
          m.mapReader := null;
          return Success(m);
        }
        return Failure(read.error);
      }
      var m := new Map;
      m.mapReader := read.value;
      return Success(m);
    }

    /** `getTileById(id)`: the loop over the tilesets in insertion order, then the cut. */
    method GetTileById(id: Int32) returns (r: Result<Option<Tile>, Error>)
      requires mapReader != null
      ensures r == TileById(mapReader.Value(), id)
    {
      var entries := mapReader.tilesets;
      var actualIndex: Int32 := 0;
      var tileset: Option<Image> := None;
      var i := 0;
      while i < |entries|
        invariant 0 <= i <= Below(entries, id)
        invariant i == 0 ==> actualIndex == 0 && tileset == None
        invariant i > 0 ==> actualIndex == Wrap32(id - entries[i - 1].0) && tileset == entries[i - 1].1
      {
        if entries[i].0 < id {
          actualIndex := Wrap32(id - entries[i].0);
          tileset := entries[i].1;
        } else {
          break;
        }
        i := i + 1;
      }
      assert i == Below(entries, id);
      assert (actualIndex, tileset) == Chosen(entries, id);
      return Cut(mapReader.tileSize, actualIndex, tileset);
    }

    /** `getTile(x, y)`: the bounds check, then one drawing per layer with a non-zero id. */
    method GetTile(x: Int32, y: Int32) returns (r: Result<Option<seq<Tile>>, Error>)
      ensures mapReader == null ==> r == Failure(NullPointer)
      ensures mapReader != null ==> r == TileAt(mapReader.Value(), x, y)
    {
      if mapReader == null {
        return Failure(NullPointer);
      }
      if x >= mapReader.width || y >= mapReader.height || x < 0 || y < 0 {
        return Success(None);
      }
      var tileCoordinate := CellIndex(x, y, mapReader.width);
      if mapReader.tileSize <= 0 {
        return Failure(IllegalArgument);
      }
      var drawn := ComposeAt(tileCoordinate);
      if drawn.Failure? {
        return Failure(drawn.error);
      }
      return Success(Some(drawn.value));
    }

    /** The loop of `getTile` over the layers, in insertion order, at one cell position. */
    method ComposeAt(tileCoordinate: Int32) returns (r: Result<seq<Tile>, Error>)
      requires mapReader != null
      ensures r == Compose(mapReader.Value(), Values(mapReader.layers), tileCoordinate)
    {
      var layers := Values(mapReader.layers);
      ghost var c := mapReader.Value();
      var drawn: seq<Tile> := [];
      for k := 0 to |layers|
        invariant Compose(c, layers[..k], tileCoordinate) == Success(drawn)
      {
        var layer := layers[k];
        ComposeStep(c, layers, k, tileCoordinate, drawn);
        if !(0 <= tileCoordinate < |layer|) {
          FirstFailureWins(c, layers, k + 1, tileCoordinate);
          return Failure(IndexOutOfBounds);
        }
        var tileIdForLayer := layer[tileCoordinate];
        if tileIdForLayer != 0 {
          var tile := GetTileById(tileIdForLayer);
          if tile.Failure? {
            FirstFailureWins(c, layers, k + 1, tileCoordinate);
            return Failure(tile.error);
          }
          if tile.value.Some? {
            drawn := drawn + [tile.value.value];
          } else {
            assert drawn + [] == drawn;
          }
        } else {
          assert drawn + [] == drawn;
        }
      }
      assert layers[..|layers|] == layers;
      return Success(drawn);
    }
  }

  /** One more layer: its drawing is appended, or its exception ends the composition. */
  lemma ComposeStep(c: Contents, layers: seq<seq<Int32>>, k: nat, coordinate: Int32, drawn: seq<Tile>)
    requires k < |layers| && Compose(c, layers[..k], coordinate) == Success(drawn)
    ensures Compose(c, layers[..k + 1], coordinate)
         == match LayerTiles(c, layers[k], coordinate)
            case Failure(e) => Failure(e)
            case Success(more) => Success(drawn + more)
  {
    assert layers[..k + 1][..k] == layers[..k];
  }

  /** An exception in a layer ends the composition with that exception. */
  lemma {:induction false} FirstFailureWins(c: Contents, layers: seq<seq<Int32>>, k: nat, coordinate: Int32)
    requires k <= |layers| && Compose(c, layers[..k], coordinate).Failure?
    ensures Compose(c, layers, coordinate) == Compose(c, layers[..k], coordinate)
    decreases |layers| - k
  {
    if k < |layers| {
      assert layers[..k + 1][..k] == layers[..k];
      FirstFailureWins(c, layers, k + 1, coordinate);
    } else {
      assert layers[..k] == layers;
    }
  }
}
