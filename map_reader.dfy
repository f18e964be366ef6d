/**
 * map/Reader.java: reads a `.MAPDATA` file line by line.  Three section
 * headers switch between reading tilesets, constants and layers; each header
 * toggles its bit in a 3-bit flag word, which must end at zero, and the three
 * constants HEIGHT, WIDTH and TILESIZE must have been given.  The file is the
 * list of its lines; reading a tileset image is the parameter `images`.
 */
module MapReader {
  import opened JavaNum
  import opened Wrappers
  import opened JavaStrings
  import opened OrderedMaps

  /** A decoded tileset picture, by its size in pixels. */
  datatype Image = Image(width: Int32, height: Int32)

  /** What `ImageIO.read` does with a file: throws, finds no decoder (null), or decodes. */
  datatype ImageRead = NoFile | NoDecoder | Decoded(image: Image)

  /** The exceptions the reader and the map can raise. */
  datatype Error =
    | IOException
    | NumberFormat
    | IndexOutOfBounds
    | NullPointer
    | Arithmetic
    | IllegalArgument

  const IndexHeader: string := ":INDEX-DATA:"
  const MetaHeader: string := ":META-DATA:"
  const MapHeader: string := ":MAP-DATA:"

  /** `dataflagDic`: the flag of each section header. */
  function Dataflag(line: string): (r: Option<bv3>)
    ensures r.Some? <==> line == IndexHeader || line == MetaHeader || line == MapHeader
    ensures r == Some(1) <==> line == IndexHeader
    ensures r == Some(2) <==> line == MetaHeader
    ensures r == Some(4) <==> line == MapHeader
    ensures r.Some? ==> !IsBlank(line)
  {
    assert !IsWhitespace(':');
    if line == IndexHeader then assert line[0] == ':'; Some(1)
    else if line == MetaHeader then assert line[0] == ':'; Some(2)
    else if line == MapHeader then assert line[0] == ':'; Some(4)
    else None
  }

  /** What a Reader holds: tilesets by first index, layers by name, the constants and the wall layer names. */
  datatype Contents = Contents(
    tilesets: seq<(Int32, Option<Image>)>,
    layers: seq<(string, seq<Int32>)>,
    height: Int32,
    width: Int32,
    tileSize: Int32,
    walls: Option<seq<string>>)

  /** The constructor's state between two lines. */
  datatype Scan = Scan(currentDataflag: int, dataflags: bv3, contents: Contents)

  function Unset(): Contents {
    Contents([], [], -1, -1, -1, None)
  }

  function Start(): Scan {
    Scan(-1, 7, Unset())
  }

  /** `loadTileset`: `<first index> - <file name>`; the index is parsed before the name is looked up. */
  function TilesetEntry(line: string, images: string -> ImageRead): (r: Result<(Int32, Option<Image>), Error>)
    ensures |Split(line, " - ")| == 0 ==> r == Failure(IndexOutOfBounds)
    ensures r.Success? ==> |Split(line, " - ")| >= 2
                           && ParseInt(Split(line, " - ")[0]) == Success(r.value.0)
                           && images(Split(line, " - ")[1]) != NoFile
  {
    var pieces := Split(line, " - ");
    if |pieces| == 0 then Failure(IndexOutOfBounds)
    else match ParseInt(pieces[0])
      case Failure(_) => Failure(NumberFormat)
      case Success(start) =>
        if |pieces| < 2 then Failure(IndexOutOfBounds)
        else match images(pieces[1])
          case NoFile => Failure(IOException)
          case NoDecoder => Success((start, None))
          case Decoded(image) => Success((start, Some(image)))
  }

  /** A META-DATA line `<name> - <value>`: sets one of the constants or the walls; other names are ignored. */
  function Constant(c: Contents, line: string): (r: Result<Contents, Error>)
    ensures |Split(line, " - ")| < 2 ==> r == Failure(IndexOutOfBounds)
    ensures r.Success? ==> r.value.tilesets == c.tilesets && r.value.layers == c.layers
    ensures r.Failure? ==> r.error in {IndexOutOfBounds, NumberFormat}
  {
    var pieces := Split(line, " - ");
    if |pieces| < 2 then Failure(IndexOutOfBounds)
    else
      var name, value := pieces[0], pieces[1];
      if name == "HEIGHT" then
        match ParseInt(value)
        case Failure(_) => Failure(NumberFormat)
        case Success(v) => Success(c.(height := v))
      else if name == "WIDTH" then
        match ParseInt(value)
        case Failure(_) => Failure(NumberFormat)
        case Success(v) => Success(c.(width := v))
      else if name == "TILESIZE" then
        match ParseInt(value)
        case Failure(_) => Failure(NumberFormat)
        case Success(v) => Success(c.(tileSize := v))
      else if name == "WALLS" then Success(c.(walls := Some(Split(value, ","))))
      else Success(c)
  }

  /** `Integer.parseInt` on every piece, in order. */
  function ParseAll(raw: seq<string>): (r: Result<seq<Int32>, Error>)
    ensures r.Failure? <==> exists i :: 0 <= i < |raw| && ParseInt(raw[i]).Failure?
    ensures r.Failure? ==> r.error == NumberFormat
    ensures r.Success? ==> |r.value| == |raw|
                           && forall i :: 0 <= i < |raw| ==> ParseInt(raw[i]) == Success(r.value[i])
  {
    if raw == [] then Success([])
    else
      var init := raw[..|raw| - 1];
      assert forall i :: 0 <= i < |init| ==> init[i] == raw[i];
      match ParseAll(init)
      case Failure(e) => Failure(e)
      case Success(ids) =>
        match ParseInt(raw[|raw| - 1])
        case Failure(_) => Failure(NumberFormat)
        case Success(v) => Success(ids + [v])
  }

  /** `loadTileMap`: `#<name>#` then one char, then the comma-separated tile ids. */
  function Layer(data: string): (r: Result<(string, seq<Int32>), Error>)
    ensures IndexOf(data, '#', 1) == -1 ==> r == Failure(IndexOutOfBounds)
    ensures r.Success? ==> forall i :: 0 <= i < |r.value.0| ==> r.value.0[i] != '#'
  {
    var end := IndexOf(data, '#', 1);
    if end == -1 then Failure(IndexOutOfBounds)
    else if end + 2 > |data| then Failure(IndexOutOfBounds)
    else
      match ParseAll(Split(data[end + 2..], ","))
      case Failure(e) => Failure(e)
      case Success(ids) => Success((data[1..end], ids))
  }

  /**
   * One iteration of the constructor's loop. A blank line changes nothing, a
   * header switches the section and stores nothing, a data line keeps the
   * section and the flags, and a data line before any header is an IOException.
   */
  function Step(s: Scan, line: string, images: string -> ImageRead): (r: Result<Scan, Error>)
    ensures IsBlank(line) ==> r == Success(s)
    ensures Dataflag(line).Some? ==> r.Success? && r.value.contents == s.contents && r.value.currentDataflag in {1, 2, 4}
    ensures r.Success? && Dataflag(line).None? ==>
              r.value.currentDataflag == s.currentDataflag && r.value.dataflags == s.dataflags
    ensures s.currentDataflag == -1 && !IsBlank(line) && Dataflag(line).None? ==> r == Failure(IOException)
  {
    if IsBlank(line) then Success(s)
    else match Dataflag(line)
      case Some(flag) => Success(s.(currentDataflag := flag as int, dataflags := s.dataflags ^ flag))
      case None =>
        if s.currentDataflag == -1 then Failure(IOException)
        else if s.currentDataflag == 1 then
          match TilesetEntry(line, images)
          case Failure(e) => Failure(e)
          case Success(entry) =>
            Success(s.(contents := s.contents.(tilesets := Put(s.contents.tilesets, entry.0, entry.1))))
        else if s.currentDataflag == 2 then
          match Constant(s.contents, line)
          case Failure(e) => Failure(e)
          case Success(c) => Success(s.(contents := c))
        else if s.currentDataflag == 4 then
          match Layer(line)
          case Failure(e) => Failure(e)
          case Success(layer) =>
            Success(s.(contents := s.contents.(layers := Put(s.contents.layers, layer.0, layer.1))))
        else Success(s)
  }

  /**
   * The constructor's loop over the lines read so far. The section is always
   * unset or one of the three headers' flags, and while it is still unset
   * nothing has been stored.
   */
  function Run(lines: seq<string>, images: string -> ImageRead): (r: Result<Scan, Error>)
    ensures r.Success? ==> r.value.currentDataflag in {-1, 1, 2, 4}
    ensures r.Success? && r.value.currentDataflag == -1 ==> r.value == Start()
  {
    if lines == [] then Success(Start())
    else match Run(lines[..|lines| - 1], images)
      case Failure(e) => Failure(e)
      case Success(s) => Step(s, lines[|lines| - 1], images)
  }

  /** `new Reader(mapDir)` on the lines of its `.MAPDATA` file. */
  function Read(lines: seq<string>, images: string -> ImageRead): (r: Result<Contents, Error>)
    ensures r.Success? ==> r.value.height != -1 && r.value.width != -1 && r.value.tileSize != -1
  {
    match Run(lines, images)
    case Failure(e) => Failure(e)
    case Success(s) =>
      var c := s.contents;
      if s.dataflags != 0 || c.height == -1 || c.width == -1 || c.tileSize == -1 then Failure(IOException)
      else Success(c)
  }

  /** Once a line fails, the lines after it are never looked at. */
  lemma {:induction false} FailureSticks(a: seq<string>, c: seq<string>, images: string -> ImageRead)
    requires Run(a, images).Failure?
    ensures Run(a + c, images) == Run(a, images)
    decreases |c|
  {
    if c == [] {
      assert a + c == a;
    } else {
      var c' := c[..|c| - 1];
      assert (a + c)[..|a + c| - 1] == a + c';
      FailureSticks(a, c', images);
    }
  }

  /** A blank line anywhere in the file changes nothing. */
  lemma {:induction false} BlankLineIgnored(a: seq<string>, b: string, c: seq<string>, images: string -> ImageRead)
    requires IsBlank(b)
    ensures Run(a + [b] + c, images) == Run(a + c, images)
    decreases |c|
  {
    if c == [] {
      assert (a + [b])[..|a|] == a;
      assert a + [b] + c == a + [b] && a + c == a;
    } else {
      var c' := c[..|c| - 1];
      assert (a + [b] + c)[..|a + [b] + c| - 1] == a + [b] + c';
      assert (a + c)[..|a + c| - 1] == a + c';
      BlankLineIgnored(a, b, c', images);
    }
  }

  /** A file that starts, after blank lines, with anything but a header is rejected. */
  lemma DataBeforeHeader(lines: seq<string>, k: nat, images: string -> ImageRead)
    requires k < |lines| && !IsBlank(lines[k]) && Dataflag(lines[k]).None?
    requires forall i :: 0 <= i < k ==> IsBlank(lines[i])
    ensures Read(lines, images) == Failure(IOException)
  {
    BlanksKeepStart(lines[..k], images);
    assert lines[..k + 1][..k] == lines[..k];
    FailureSticks(lines[..k + 1], lines[k + 1..], images);
    assert lines[..k + 1] + lines[k + 1..] == lines;
  }

  /** Blank lines alone leave the reader as it started. */
  lemma {:induction false} BlanksKeepStart(lines: seq<string>, images: string -> ImageRead)
    requires forall i :: 0 <= i < |lines| ==> IsBlank(lines[i])
    ensures Run(lines, images) == Success(Start())
  {
    if lines != [] {
      BlanksKeepStart(lines[..|lines| - 1], images);
    }
  }

  /** How often `header` occurs among the lines. */
  function Occurrences(lines: seq<string>, header: string): (n: nat)
    ensures n <= |lines|
  {
    if lines == [] then 0
    else Occurrences(lines[..|lines| - 1], header) + (if lines[|lines| - 1] == header then 1 else 0)
  }

  /** The exclusive or of the flags of all headers among the lines. */
  function Toggles(lines: seq<string>): bv3 {
    if lines == [] then 0
    else
      var flag := Dataflag(lines[|lines| - 1]);
      Toggles(lines[..|lines| - 1]) ^ (if flag.Some? then flag.value else 0)
  }

  /** Each bit of the toggles is the parity of its header's occurrences. */
  lemma TogglesAreParities(lines: seq<string>)
    ensures (Toggles(lines) & 1 == 1) <==> Occurrences(lines, IndexHeader) % 2 == 1
    ensures (Toggles(lines) & 2 == 2) <==> Occurrences(lines, MetaHeader) % 2 == 1
    ensures (Toggles(lines) & 4 == 4) <==> Occurrences(lines, MapHeader) % 2 == 1
  {
    ToggleBitParity(lines, IndexHeader, 1);
    ToggleBitParity(lines, MetaHeader, 2);
    ToggleBitParity(lines, MapHeader, 4);
  }

  /** The bit of one header is the parity of that header's occurrences. */
  lemma {:induction false} ToggleBitParity(lines: seq<string>, header: string, bit: bv3)
    requires (header, bit) == (IndexHeader, 1) || (header, bit) == (MetaHeader, 2) || (header, bit) == (MapHeader, 4)
    ensures (Toggles(lines) & bit == bit) <==> Occurrences(lines, header) % 2 == 1
  {
    if lines != [] {
      var init, last := lines[..|lines| - 1], lines[|lines| - 1];
      ToggleBitParity(init, header, bit);
      var flag := Dataflag(last);
      var f: bv3 := if flag.Some? then flag.value else 0;
      assert (f & bit == bit) <==> last == header;
      assert Toggles(lines) == Toggles(init) ^ f;
    }
  }

  /** The flag word is the starting `0b111` with every header's bit toggled. */
  lemma {:induction false} RunTracksToggles(lines: seq<string>, images: string -> ImageRead)
    requires Run(lines, images).Success?
    ensures Run(lines, images).value.dataflags == 7 ^ Toggles(lines)
  {
    if lines != [] {
      var init := lines[..|lines| - 1];
      RunTracksToggles(init, images);
    }
  }

  /** A file is accepted only if each of the three headers occurs an odd number of times. */
  lemma ReadNeedsOddHeaders(lines: seq<string>, images: string -> ImageRead)
    requires Read(lines, images).Success?
    ensures Occurrences(lines, IndexHeader) % 2 == 1
    ensures Occurrences(lines, MetaHeader) % 2 == 1
    ensures Occurrences(lines, MapHeader) % 2 == 1
  {
    RunTracksToggles(lines, images);
    TogglesAreParities(lines);
  }

  /** A constant written as `<NAME> - <int>` is read back; a META-DATA value of -1 counts as never given. */
  lemma ConstantRoundTrip(c: Contents, v: Int32)
    ensures Constant(c, "HEIGHT" + " - " + IntToString(v)) == Success(c.(height := v))
    ensures Constant(c, "WIDTH" + " - " + IntToString(v)) == Success(c.(width := v))
    ensures Constant(c, "TILESIZE" + " - " + IntToString(v)) == Success(c.(tileSize := v))
  {
    ConstantLine(c, "HEIGHT", v);
    ConstantLine(c, "WIDTH", v);
    ConstantLine(c, "TILESIZE", v);
  }

  /** The line `<name> - <v>` for one of the three integer constants. */
  lemma ConstantLine(c: Contents, name: string, v: Int32)
    requires name == "HEIGHT" || name == "WIDTH" || name == "TILESIZE"
    ensures Constant(c, name + " - " + IntToString(v))
         == Success(if name == "HEIGHT" then c.(height := v) else if name == "WIDTH" then c.(width := v) else c.(tileSize := v))
  {
    var value := IntToString(v);
    ParseIntOfToString(v);
    SplitPair(name, " - ", value);
    assert Split(name + " - " + value, " - ") == [name, value];
  }

  /** A tileset line `<int> - <name>` names the file to read and the first index. */
  lemma TilesetRoundTrip(start: Int32, name: string, images: string -> ImageRead)
    requires name != [] && forall i :: 0 <= i < |name| ==> name[i] != ' '
    requires images(name) != NoFile
    ensures TilesetEntry(IntToString(start) + " - " + name, images)
         == Success((start, if images(name).Decoded? then Some(images(name).image) else None))
  {
    ParseIntOfToString(start);
    SplitPair(IntToString(start), " - ", name);
  }

  /** The ids written in decimal. */
  function Rendered(ids: seq<Int32>): (r: seq<string>)
    ensures |r| == |ids| && forall i :: 0 <= i < |ids| ==> r[i] == IntToString(ids[i])
  {
    seq(|ids|, i requires 0 <= i < |ids| => IntToString(ids[i]))
  }

  /** A layer line `#<name># <id>,<id>,...` is read back as the name and the ids. */
  lemma LayerRoundTrip(name: string, sep: char, ids: seq<Int32>)
    requires forall i :: 0 <= i < |name| ==> name[i] != '#'
    requires |ids| >= 1
    ensures Layer("#" + name + "#" + [sep] + Join(Rendered(ids), ",")) == Success((name, ids))
  {
    LayerLineParts(name, sep, Join(Rendered(ids), ","));
    SplitJoin(Rendered(ids), ',');
    ParseAllRendered(ids);
  }

  /** Ids written in decimal parse back to themselves. */
  lemma ParseAllRendered(ids: seq<Int32>)
    ensures ParseAll(Rendered(ids)) == Success(ids)
  {
    var pieces := Rendered(ids);
    forall i | 0 <= i < |ids|
      ensures ParseInt(pieces[i]) == Success(ids[i])
    {
      ParseIntOfToString(ids[i]);
    }
    var r := ParseAll(pieces);
    assert r.Success?;
    assert r.value == ids;
  }

  /** Where the name of a layer line ends, and what follows it. */
  lemma LayerLineParts(name: string, sep: char, body: string)
    requires forall i :: 0 <= i < |name| ==> name[i] != '#'
    ensures var data := "#" + name + "#" + [sep] + body;
            IndexOf(data, '#', 1) == 1 + |name| && data[1..1 + |name|] == name && data[|name| + 3..] == body
  {
    var data := "#" + name + "#" + [sep] + body;
    assert data[1 + |name|] == '#';
    assert forall i :: 1 <= i < 1 + |name| ==> data[i] == name[i - 1];
  }

  /** A layer read again under the same name replaces the earlier one; the other layers keep theirs. */
  lemma LayerReplaced(s: Scan, line: string, images: string -> ImageRead, other: string)
    requires s.currentDataflag == 4 && !IsBlank(line) && Dataflag(line).None? && Layer(line).Success?
    ensures Step(s, line, images).Success?
    ensures Get(Step(s, line, images).value.contents.layers, Layer(line).value.0) == Some(Layer(line).value.1)
    ensures other != Layer(line).value.0
            ==> Get(Step(s, line, images).value.contents.layers, other) == Get(s.contents.layers, other)
  {
    var (name, ids) := Layer(line).value;
    var layers := Put(s.contents.layers, name, ids);
    assert Step(s, line, images) == Success(s.(contents := s.contents.(layers := layers)));
    GetPut(s.contents.layers, name, ids, name);
    GetPut(s.contents.layers, name, ids, other);
  }

  /** A failure at line `k` is the outcome of the whole file. */
  lemma Abandon(lines: seq<string>, k: nat, images: string -> ImageRead)
    requires k < |lines| && Run(lines[..k + 1], images).Failure?
    ensures Run(lines, images) == Run(lines[..k + 1], images)
  {
    FailureSticks(lines[..k + 1], lines[k + 1..], images);
    assert lines[..k + 1] + lines[k + 1..] == lines;
  }

  class Reader {
    var tilesets: seq<(Int32, Option<Image>)>
    var layers: seq<(string, seq<Int32>)>
    var height: Int32
    var width: Int32
    var tileSize: Int32
    var walls: Option<seq<string>>

    function Value(): Contents
      reads this
    {
      Contents(tilesets, layers, height, width, tileSize, walls)
    }

    /** The field initialisations at the top of the constructor. */
    constructor Empty()
      ensures Value() == Unset()
    {
      tilesets, layers := [], [];
      height, width, tileSize := -1, -1, -1;
      walls := None;
    }

    /** `loadTileset(mapDir, line)`. */
    method LoadTileset(line: string, images: string -> ImageRead) returns (err: Option<Error>)
      modifies this
      ensures TilesetEntry(line, images).Failure? ==> err == Some(TilesetEntry(line, images).error)
      ensures TilesetEntry(line, images).Success? ==>
                var entry := TilesetEntry(line, images).value;
                err == None && Value() == old(Value()).(tilesets := Put(old(tilesets), entry.0, entry.1))
    {
      var entry := TilesetEntry(line, images);
      if entry.Failure? {
        return Some(entry.error);
      }
      tilesets := Put(tilesets, entry.value.0, entry.value.1);
      return None;
    }

    /** The constructor's META-DATA branch. */
    method ReadConstant(line: string) returns (err: Option<Error>)
      modifies this
      ensures Constant(old(Value()), line).Failure? ==> err == Some(Constant(old(Value()), line).error)
      ensures Constant(old(Value()), line).Success? ==> err == None && Value() == Constant(old(Value()), line).value
    {
      var pieces := Split(line, " - ");
      if |pieces| < 2 {
        return Some(IndexOutOfBounds);
      }
      var name, value := pieces[0], pieces[1];
      if name == "HEIGHT" {
        var v := ParseInt(value);
        if v.Failure? {
          return Some(NumberFormat);
        }
        height := v.value;
      } else if name == "WIDTH" {
        var v := ParseInt(value);
        if v.Failure? {
          return Some(NumberFormat);
        }
        width := v.value;
      } else if name == "TILESIZE" {
        var v := ParseInt(value);
        if v.Failure? {
          return Some(NumberFormat);
        }
        tileSize := v.value;
      } else if name == "WALLS" {
        walls := Some(Split(value, ","));
      }
      return None;
    }

    /** `loadTileMap(data)`: parses the ids into a new array and stores it under the layer name. */
    method LoadTileMap(data: string) returns (err: Option<Error>)
      modifies this
      ensures Layer(data).Failure? ==> err == Some(Layer(data).error)
      ensures Layer(data).Success? ==>
                err == None && Value() == old(Value()).(layers := Put(old(layers), Layer(data).value.0, Layer(data).value.1))
    {
      var parsed := ParseLayer(data);
      if parsed.Failure? {
        return Some(parsed.error);
      }
      layers := Put(layers, parsed.value.0, parsed.value.1);
      return None;
    }

    /** The reading part of `loadTileMap`: the layer name and its ids, or the exception thrown. */
    static method ParseLayer(data: string) returns (r: Result<(string, seq<Int32>), Error>)
      ensures r == Layer(data)
    {
      var identifierEnd := IndexOf(data, '#', 1);
      if identifierEnd == -1 {
        return Failure(IndexOutOfBounds);
      }
      var identifier := data[1..identifierEnd];
      if identifierEnd + 2 > |data| {
        return Failure(IndexOutOfBounds);
      }
      var raw := Split(data[identifierEnd + 2..], ",");
      var processed := ParseTiles(raw);
      if processed == null {
        return Failure(NumberFormat);
      }
      return Success((identifier, processed[..]));
    }

    /** The loop of `loadTileMap`: a new array of the parsed ids, null where `parseInt` throws. */
    static method ParseTiles(raw: seq<string>) returns (processed: array?<Int32>)
      ensures processed == null <==> ParseAll(raw).Failure?
      ensures processed != null ==> fresh(processed) && processed[..] == ParseAll(raw).value
    {
      var tiles := new Int32[|raw|];
      for i := 0 to |raw|
        invariant ParseAll(raw[..i]) == Success(tiles[..i])
      {
        assert raw[..i + 1][..i] == raw[..i];
        var v := ParseInt(raw[i]);
        if v.Failure? {
          return null;
        }
        tiles[i] := v.value;
        assert tiles[..i + 1] == tiles[..i] + [v.value];
      }
      assert raw[..|raw|] == raw && tiles[..|raw|] == tiles[..];
      return tiles;
    }

    /**
     * `new Reader(mapDir)`: opening the `.MAPDATA` file, the loop over its lines,
     * then the final validation. A missing file (`None`) makes the `FileReader`
     * throw a `FileNotFoundException`, which is an IOException.
     */
    static method Open(file: Option<seq<string>>, images: string -> ImageRead) returns (r: Result<Reader, Error>)
      ensures file.None? ==> r == Failure(IOException)
      ensures file.Some? && r.Success? ==> fresh(r.value) && Read(file.value, images) == Success(r.value.Value())
      ensures file.Some? && r.Failure? ==> Read(file.value, images) == Failure(r.error)
    {
      if file.None? {
        return Failure(IOException);
      }
      r := ReadLines(file.value, images);
    }

    /** The loop over the lines of an opened `.MAPDATA` file, then the final validation. */
    static method ReadLines(lines: seq<string>, images: string -> ImageRead) returns (r: Result<Reader, Error>)
      ensures r.Success? ==> fresh(r.value) && Read(lines, images) == Success(r.value.Value())
      ensures r.Failure? ==> Read(lines, images) == Failure(r.error)
    {
      var reader := new Reader.Empty();
      var currentDataflag := -1;
      var dataflags: bv3 := 7;
      for k := 0 to |lines|
        invariant Run(lines[..k], images) == Success(Scan(currentDataflag, dataflags, reader.Value()))
      {
        var line := lines[k];
        assert lines[..k + 1][..k] == lines[..k];
        if IsBlank(line) {
          continue;
        }
        var flag := Dataflag(line);
        if flag.Some? {
          currentDataflag := flag.value as int;
          dataflags := dataflags ^ flag.value;
          continue;
        }
        if currentDataflag == -1 {
          Abandon(lines, k, images);
          return Failure(IOException);
        }
        if currentDataflag == 1 {
          var err := reader.LoadTileset(line, images);
          if err.Some? {
            Abandon(lines, k, images);
            return Failure(err.value);
          }
        }
        if currentDataflag == 2 {
          var err := reader.ReadConstant(line);
          if err.Some? {
            Abandon(lines, k, images);
            return Failure(err.value);
          }
        }
        if currentDataflag == 4 {
          var err := reader.LoadTileMap(line);
          if err.Some? {
            Abandon(lines, k, images);
            return Failure(err.value);
          }
        }
      }
      assert lines[..|lines|] == lines;
      if dataflags != 0 || reader.height == -1 || reader.width == -1 || reader.tileSize == -1 {
        return Failure(IOException);
      }
      return Success(reader);
    }
  }
}
