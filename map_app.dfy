/** The map screen: the two mutually exclusive side panels and the search bar, the search text
    box, the base-layer table, click dispatch, and loading a base layer into the pixel image.
    The state machine is given first as functions on a value view (MapState); class Map then
    keeps the screen's fields and proves every method against those functions. */
module MapApp {
  import opened Ui
  import TextEntry

  // ---------------------------------------------------------------------------------------
  // Base layers and their datasets
  // ---------------------------------------------------------------------------------------

  /** The base layers, in declaration order. */
  datatype BaseLayer = Satellite | Streetmap | Terrain | Topographic

  function LayerOrdinal(l: BaseLayer): (i: nat)
    ensures i < 4
  {
    match l
    case Satellite => 0
    case Streetmap => 1
    case Terrain => 2
    case Topographic => 3
  }

  /** static_cast<BaseLayer>(i): base-layer button i names the layer with ordinal i. */
  function LayerOfOrdinal(i: nat): (l: BaseLayer)
    requires i < 4
    ensures LayerOrdinal(l) == i
  {
    if i == 0 then Satellite else if i == 1 then Streetmap else if i == 2 then Terrain else Topographic
  }

  /** The dataset file of each base layer. */
  function DatasetPath(l: BaseLayer): (path: string)
    ensures 20 < |path| && path[..15] == "resources/maps/" && path[|path| - 5..] == ".gpkg"
    ensures l == Streetmap ==> path == InitialMapPath
  {
    match l
    case Satellite => "resources/maps/satellite.gpkg"
    case Streetmap => "resources/maps/streetmap.gpkg"
    case Terrain => "resources/maps/terrain.gpkg"
    case Topographic => "resources/maps/topographic.gpkg"
  }

  /** The file the constructor loads before any layer is chosen. */
  const InitialMapPath := "resources/maps/streetmap.gpkg"

  /** Every base layer has its own dataset file. */
  lemma DatasetPathsDistinct(a: BaseLayer, b: BaseLayer)
    ensures DatasetPath(a) == DatasetPath(b) <==> a == b
  {
    if a != b {
      // the file names differ in their first letter or, for the two starting with 's', in their
      // second
      var i := if {a, b} == {Satellite, Streetmap} || {a, b} == {Terrain, Topographic} then 16 else 15;
      assert DatasetPath(a)[i] != DatasetPath(b)[i];
    }
  }

  /** An opened dataset as the map sees it: its raster size and its bands, each band a
      row-major grid of width * height values. */
  datatype Dataset = Dataset(width: nat, height: nat, bands: seq<seq<real>>)

  /** What GDALOpen finds at each path: the files present when the screen runs. */
  type Files = map<string, Dataset>

  function Open(files: Files, path: string): (r: Option<Dataset>)
    ensures r.Some? <==> path in files
  {
    if path in files then Some(files[path]) else None
  }

  /** Value of band b at row-major position k; zero where the dataset holds nothing. */
  function BandValue(ds: Dataset, b: nat, k: nat): real
  {
    if b < |ds.bands| && k < |ds.bands[b]| then ds.bands[b][k] else 0.0
  }

  // ---------------------------------------------------------------------------------------
  // The raster buffer and the pixel loop
  // ---------------------------------------------------------------------------------------

  /** RasterIO of three bands into a buffer of width * height * 3 floats, pixel-interleaved:
      the three values of pixel k sit at 3k, 3k+1, 3k+2. With fewer than three bands the read
      fails and the zero-initialised buffer stays as it was. */
  function RasterRead(ds: Dataset): (data: seq<real>)
    ensures |data| == ds.width * ds.height * 3
  {
    seq(ds.width * ds.height * 3, k requires 0 <= k => if |ds.bands| >= 3 then BandValue(ds, k % 3, k / 3) else 0.0)
  }

  /** The same RasterIO call as the source passes it: with every spacing argument 0 GDAL fills
      the buffer band-sequentially (all of band 1, then band 2, then band 3). */
  function RasterReadAsWritten(ds: Dataset): (data: seq<real>)
    ensures |data| == ds.width * ds.height * 3
  {
    var n := ds.width * ds.height;
    seq(n * 3, k requires 0 <= k < n * 3 => if |ds.bands| >= 3 then BandValue(ds, k / n, k % n) else 0.0)
  }

  /** With the pixel-interleaved read, the loop's index (y*w+x)*3 + c picks band c of pixel (x, y). */
  lemma InterleavedReadPicksBand(ds: Dataset, x: nat, y: nat, c: nat)
    requires x < ds.width && y < ds.height && c < 3 && |ds.bands| >= 3
    ensures (y * ds.width + x) * 3 + c < |RasterRead(ds)|
    ensures RasterRead(ds)[(y * ds.width + x) * 3 + c] == BandValue(ds, c, y * ds.width + x)
  {
    PixelIndexInBounds(ds.width, ds.height, x, y);
    var k := (y * ds.width + x) * 3 + c;
    assert k % 3 == c && k / 3 == y * ds.width + x;
  }

  /** As written, the green channel of the first pixel is the red band's second value. */
  lemma AsWrittenGreenIsRedOfNextPixel(ds: Dataset)
    requires |ds.bands| >= 3 && ds.width * ds.height >= 2
    ensures RasterReadAsWritten(ds)[1] == BandValue(ds, 0, 1)
  {
  }

  /** A concrete raster on which the as-written read shows a colour no band holds: the first
      pixel is black in all three bands and still comes out with full green. */
  lemma AsWrittenMixesBands()
    ensures var ds := Dataset(2, 1, [[0.0, 1.0], [0.0, 0.0], [0.0, 0.0]]);
      BandValue(ds, 1, 0) == 0.0 && RasterReadAsWritten(ds)[1] == 1.0 && RasterRead(ds)[1] == 0.0
  {
    var ds := Dataset(2, 1, [[0.0, 1.0], [0.0, 0.0], [0.0, 0.0]]);
    AsWrittenGreenIsRedOfNextPixel(ds);
    assert RasterRead(ds)[1] == BandValue(ds, 1, 0);
  }

  /** static_cast<sf::Uint8>(v * 255). The cast is undefined outside 0..255; that case is
      given the value 0 here and nothing below depends on this body. */
  function ChannelByte(v: real): Byte
  {
    var s := v * 255.0;
    if 0.0 <= s < 256.0 then s.Floor else 0
  }

  /** The colour the pixel loop builds for image slot k from data[3k], data[3k+1], data[3k+2]. */
  function SlotColour(data: seq<real>, k: nat): Colour
    requires 3 * k + 2 < |data|
  {
    Colour(ChannelByte(data[3 * k]), ChannelByte(data[3 * k + 1]), ChannelByte(data[3 * k + 2]))
  }

  /** The image renderMap leaves: width * height pixels, row-major (pixel (x, y) at y*w+x),
      each built from the three values the loop reads in the buffer the RasterIO call fills. */
  function Rendered(ds: Dataset): (pixels: seq<Colour>)
    ensures |pixels| == ds.width * ds.height
  {
    var data := RasterReadAsWritten(ds);
    seq(ds.width * ds.height, k requires 0 <= k < ds.width * ds.height => SlotColour(data, k))
  }

  /** The image the loop would paint from the pixel-interleaved read. */
  function RenderedIntended(ds: Dataset): (pixels: seq<Colour>)
    ensures |pixels| == ds.width * ds.height
  {
    var data := RasterRead(ds);
    seq(ds.width * ds.height, k requires 0 <= k < ds.width * ds.height => SlotColour(data, k))
  }

  /** With the pixel-interleaved read, pixel (x, y) shows bands 1, 2, 3 of that pixel as red,
      green and blue. */
  lemma IntendedPixelShowsBands(ds: Dataset, x: nat, y: nat)
    requires x < ds.width && y < ds.height && |ds.bands| >= 3
    ensures y * ds.width + x < |RenderedIntended(ds)|
    ensures var k := y * ds.width + x;
      RenderedIntended(ds)[k] ==
        Colour(ChannelByte(BandValue(ds, 0, k)), ChannelByte(BandValue(ds, 1, k)), ChannelByte(BandValue(ds, 2, k)))
  {
    PixelIndexInBounds(ds.width, ds.height, x, y);
    InterleavedReadPicksBand(ds, x, y, 0);
    InterleavedReadPicksBand(ds, x, y, 1);
    InterleavedReadPicksBand(ds, x, y, 2);
  }

  /** On the 2 x 1 raster whose three bands are black at pixel 0, the screen paints pixel 0
      full green, where the interleaved read paints it black. */
  lemma AsWrittenPaintsGreen()
    ensures var ds := Dataset(2, 1, [[0.0, 1.0], [0.0, 0.0], [0.0, 0.0]]);
      Rendered(ds)[0] == Colour(0, 255, 0) && RenderedIntended(ds)[0] == Colour(0, 0, 0)
  {
    var ds := Dataset(2, 1, [[0.0, 1.0], [0.0, 0.0], [0.0, 0.0]]);
    AsWrittenMixesBands();
    assert RasterReadAsWritten(ds)[0] == 0.0 && RasterReadAsWritten(ds)[2] == 0.0;
    assert RasterRead(ds)[0] == 0.0 && RasterRead(ds)[2] == 0.0;
  }

  /** What the screen shows as written: channel c of pixel k is the value at buffer index
      3k + c, which the band-sequential read takes from band (3k + c) / n at position
      (3k + c) % n, where n = width * height is the number of pixels. */
  lemma AsWrittenPixelReads(ds: Dataset, n: nat, k: nat)
    requires n == ds.width * ds.height && k < n && |ds.bands| >= 3
    ensures k < |Rendered(ds)|
    ensures Rendered(ds)[k] == Colour(ChannelByte(BandValue(ds, (3 * k) / n, (3 * k) % n)),
                                      ChannelByte(BandValue(ds, (3 * k + 1) / n, (3 * k + 1) % n)),
                                      ChannelByte(BandValue(ds, (3 * k + 2) / n, (3 * k + 2) % n)))
  {
    var data := RasterReadAsWritten(ds);
    assert |data| == n * 3;
    assert Rendered(ds)[k] == SlotColour(data, k);
  }

  /** For every pixel of a w x h raster the three indices the loop reads lie in the w*h*3 buffer. */
  lemma PixelIndexInBounds(w: nat, h: nat, x: nat, y: nat)
    requires x < w && y < h
    ensures y * w + x < w * h
    ensures 0 <= (y * w + x) * 3 && (y * w + x) * 3 + 2 < w * h * 3
  {
    assert y * w + x < y * w + w == (y + 1) * w;
    assert (y + 1) * w <= h * w by { MulMonotone(y + 1, h, w); }
  }

  lemma MulMonotone(a: nat, b: nat, c: nat)
    requires a <= b
    ensures a * c <= b * c
  {
  }

  /** The slot after the last pixel of row y starts row y + 1 and lies within the image. */
  lemma NextRow(w: nat, h: nat, y: nat)
    requires y < h
    ensures y * w + w == (y + 1) * w <= w * h
  {
    MulMonotone(y + 1, h, w);
  }

  // ---------------------------------------------------------------------------------------
  // Screen geometry
  // ---------------------------------------------------------------------------------------

  /** Width of either side panel: a fifth of the window's width. */
  function PanelWidth(width: nat): real { width as real * 0.2 }

  /** A window size less 60, computed in 32-bit unsigned arithmetic as getSize() - 60 is: a
      size below 60 wraps to just under 2^32. */
  function Less60(n: nat): (r: real)
    ensures 60 <= n < 0x1_0000_0000 ==> r == n as real - 60.0
    ensures n < 60 ==> r == (0x1_0000_0000 + n - 60) as real
  {
    ((n - 60) % 0x1_0000_0000) as real
  }

  function LayersButton(width: nat, height: nat): Rect { Rect(Less60(width), Less60(height), 50.0, 50.0) }

  function SearchButton(height: nat): Rect { Rect(10.0, Less60(height), 50.0, 50.0) }

  const ExitButton := Rect(10.0, 10.0, 50.0, 50.0)

  /** The base-layer buttons, built once from the layers panel's position at construction
      (its closed position, x = width) and never moved afterwards. */
  function BaseLayerButtons(width: nat): (rects: seq<Rect>)
    ensures |rects| == 4
  {
    seq(4, i => Rect(width as real + 10.0, 10.0 + i as real * 50.0, PanelWidth(width) - 20.0, 40.0))
  }

  /** The secondary-layer buttons, built from the secondary panel's closed position x = -panel width. */
  function SecondaryLayerButtons(width: nat): (rects: seq<Rect>)
    ensures |rects| == 2
  {
    seq(2, i => Rect(-PanelWidth(width) + 10.0, 10.0 + i as real * 50.0, PanelWidth(width) - 20.0, 40.0))
  }

  /** x of the layers panel: flush with the right edge when open, just past it when closed. */
  function LayersPanelX(width: nat, open: bool): real { if open then width as real - PanelWidth(width) else width as real }

  /** x of the secondary panel: at the left edge when open, just before it when closed. */
  function SecondaryPanelX(width: nat, open: bool): real { if open then 0.0 else -PanelWidth(width) }

  function SearchBarY(active: bool): real { if active then 0.0 else -50.0 }

  function SearchTextAt(active: bool): Point { if active then Point(10.0, 10.0) else Point(10.0, -40.0) }

  /** The three fixed controls of the screen, in the order a click tests them. */
  datatype MapControl = LayersControl | SearchControl | ExitControl | NoControl

  function ControlAt(width: nat, height: nat, p: Point): MapControl
  {
    if LayersButton(width, height).Contains(p) then LayersControl
    else if SearchButton(height).Contains(p) then SearchControl
    else if ExitButton.Contains(p) then ExitControl
    else NoControl
  }

  /** In a window at least 120 x 120 the three controls do not overlap, so the control a click
      selects is exactly the one whose rectangle holds the pointer. */
  lemma ControlsDisjoint(width: nat, height: nat, p: Point)
    requires 120 <= width < 0x1_0000_0000 && 120 <= height < 0x1_0000_0000
    ensures ControlAt(width, height, p) == LayersControl <==> LayersButton(width, height).Contains(p)
    ensures ControlAt(width, height, p) == SearchControl <==> SearchButton(height).Contains(p)
    ensures ControlAt(width, height, p) == ExitControl <==> ExitButton.Contains(p)
  {
  }

  /** In a window narrower or lower than 60 the unsigned subtraction wraps, and the layers
      button lands far beyond the window: no click inside the window reaches it. */
  lemma SmallWindowLosesLayersButton(width: nat, height: nat, p: Point)
    requires (width < 60 && p.x < width as real) || (height < 60 && p.y < height as real)
    ensures !LayersButton(width, height).Contains(p)
    ensures height < 60 && p.y < height as real ==> !SearchButton(height).Contains(p)
  {
  }

  /** In a window at least 50 wide no point left of the right edge is on a base-layer button:
      the buttons stay where the closed panel put them. */
  lemma BaseLayerButtonsOffWindow(width: nat, p: Point)
    requires width >= 50 && p.x < width as real
    ensures FirstHit(BaseLayerButtons(width), p) == None
  {
    var rects := BaseLayerButtons(width);
    forall j | 0 <= j < 4 ensures !rects[j].Contains(p) {
      assert rects[j].left == width as real + 10.0;
    }
  }

  /** Likewise no point right of the left edge is on a secondary-layer button. */
  lemma SecondaryLayerButtonsOffWindow(width: nat, p: Point)
    requires width >= 50 && p.x >= 0.0
    ensures FirstHit(SecondaryLayerButtons(width), p) == None
  {
    var rects := SecondaryLayerButtons(width);
    forall j | 0 <= j < 2 ensures !rects[j].Contains(p) {
      assert rects[j].left == -PanelWidth(width) + 10.0;
    }
  }

  /** Buttons of one row are 50 apart and 40 high, so a point is on at most one of them. */
  lemma ButtonRowsDisjoint(width: nat, p: Point, i: nat, j: nat)
    requires i < j < 4
    ensures !(BaseLayerButtons(width)[i].Contains(p) && BaseLayerButtons(width)[j].Contains(p))
    ensures j < 2 ==> !(SecondaryLayerButtons(width)[i].Contains(p) && SecondaryLayerButtons(width)[j].Contains(p))
  {
    assert BaseLayerButtons(width)[i].top == 10.0 + i as real * 50.0;
    assert BaseLayerButtons(width)[j].top == 10.0 + j as real * 50.0;
    if j < 2 {
      assert SecondaryLayerButtons(width)[i].top == 10.0 + i as real * 50.0;
      assert SecondaryLayerButtons(width)[j].top == 10.0 + j as real * 50.0;
    }
  }

  // ---------------------------------------------------------------------------------------
  // The state machine on values
  // ---------------------------------------------------------------------------------------

  /** The observable state of the map screen. Panel and search-bar positions are functions of
      the three flags (LayersPanelX, SecondaryPanelX, SearchBarY, SearchTextAt); `log` is what
      the screen writes to the console. */
  datatype MapState = MapState(
    layersOpen: bool,
    secondaryOpen: bool,
    searchActive: bool,
    searchText: string,
    currentLayer: BaseLayer,
    dataset: Option<Dataset>,
    imageWidth: nat,
    imageHeight: nat,
    pixels: seq<Colour>,
    log: seq<string>)

  /** What the screen keeps true: the side panels are never open together, a closed search bar
      holds no text, and an open dataset is the current layer's file and is what the image shows. */
  predicate Inv(s: MapState, files: Files)
  {
    && !(s.layersOpen && s.secondaryOpen)
    && (!s.searchActive ==> s.searchText == [])
    && |s.pixels| == s.imageWidth * s.imageHeight
    && (s.dataset.Some? ==>
          && s.dataset == Open(files, DatasetPath(s.currentLayer))
          && s.imageWidth == s.dataset.value.width
          && s.imageHeight == s.dataset.value.height
          && s.pixels == Rendered(s.dataset.value))
  }

  /** The layers panel flips; opening it closes the secondary panel; search is untouched. */
  function LayersToggled(s: MapState): (r: MapState)
    ensures r.layersOpen == !s.layersOpen
    ensures r.layersOpen ==> !r.secondaryOpen
    ensures !r.layersOpen ==> r.secondaryOpen == s.secondaryOpen
    ensures r.searchActive == s.searchActive && r.searchText == s.searchText && r.log == s.log
  {
    if s.layersOpen then s.(layersOpen := false) else s.(layersOpen := true, secondaryOpen := false)
  }

  /** The secondary panel flips; opening it closes the layers panel; search is untouched. */
  function SecondaryToggled(s: MapState): (r: MapState)
    ensures r.secondaryOpen == !s.secondaryOpen
    ensures r.secondaryOpen ==> !r.layersOpen
    ensures !r.secondaryOpen ==> r.layersOpen == s.layersOpen
    ensures r.searchActive == s.searchActive && r.searchText == s.searchText && r.log == s.log
  {
    if s.secondaryOpen then s.(secondaryOpen := false) else s.(secondaryOpen := true, layersOpen := false)
  }

  /** The search bar flips; closing it discards its text; the panels are untouched. */
  function SearchToggled(s: MapState): (r: MapState)
    ensures r.searchActive == !s.searchActive
    ensures !r.searchActive ==> r.searchText == []
    ensures r.searchActive ==> r.searchText == s.searchText
    ensures r.layersOpen == s.layersOpen && r.secondaryOpen == s.secondaryOpen && r.log == s.log
  {
    if s.searchActive then s.(searchActive := false, searchText := []) else s.(searchActive := true)
  }

  /** handleSearch: log the query, then close the search bar. */
  function Searched(s: MapState): (r: MapState)
    ensures r.log == s.log + ["Searching for: " + s.searchText]
    ensures s.searchActive ==> !r.searchActive && r.searchText == []
    ensures r.layersOpen == s.layersOpen && r.secondaryOpen == s.secondaryOpen
  {
    SearchToggled(s.(log := s.log + ["Searching for: " + s.searchText]))
  }

  /** loadMapData: open the file; on failure the dataset handle is reset and the old image stays. */
  function Loaded(s: MapState, files: Files, path: string): (r: MapState)
    ensures r.dataset == Open(files, path) && r.currentLayer == s.currentLayer
    ensures path !in files ==> r.pixels == s.pixels && r.log == s.log + ["Failed to open " + path]
    ensures path in files ==>
      r.pixels == Rendered(files[path]) && r.imageWidth == files[path].width && r.log == s.log
  {
    match Open(files, path)
    case None => s.(dataset := None, log := s.log + ["Failed to open " + path])
    case Some(ds) =>
      s.(dataset := Some(ds), imageWidth := ds.width, imageHeight := ds.height, pixels := Rendered(ds))
  }

  /** changeBaseLayer: record the layer, then load its file. */
  function BaseLayerChanged(s: MapState, files: Files, l: BaseLayer): MapState
  {
    Loaded(s.(currentLayer := l), files, DatasetPath(l))
  }

  function SecondaryLayerAdded(s: MapState, name: string): MapState
  {
    s.(log := s.log + ["Adding secondary layer: " + name])
  }

  /** The effect of the control a click selects. */
  function ControlApplied(s: MapState, c: MapControl): MapState
  {
    match c
    case LayersControl => LayersToggled(s)
    case SearchControl => SearchToggled(s)
    case _ => s
  }

  /** The effect of the base-layer button found by the button loop, if any. */
  function BaseLayerHit(s: MapState, files: Files, hit: Option<nat>): MapState
    requires hit.Some? ==> hit.value < 4
  {
    match hit
    case Some(i) => BaseLayerChanged(s, files, LayerOfOrdinal(i))
    case None => s
  }

  /** The effect of the secondary-layer button found by the button loop, if any. */
  function SecondaryHit(s: MapState, hit: Option<nat>): MapState
  {
    match hit
    case Some(i) => SecondaryLayerAdded(s, "Layer" + NatToString(i + 1))
    case None => s
  }

  /** A left click: at most one of the three controls, then the first base-layer button under
      the pointer, then the first secondary-layer button under it. */
  function Click(s: MapState, files: Files, width: nat, height: nat, p: Point): MapState
  {
    var s1 := ControlApplied(s, ControlAt(width, height, p));
    var s2 := BaseLayerHit(s1, files, FirstHit(BaseLayerButtons(width), p));
    SecondaryHit(s2, FirstHit(SecondaryLayerButtons(width), p))
  }

  /** A TextEntered event: ignored unless the search bar is open; Enter searches. */
  function TypeCode(s: MapState, code: nat): (r: MapState)
    ensures !s.searchActive ==> r == s
    ensures s.searchActive && code == TextEntry.EnterKey ==> !r.searchActive && r.searchText == []
    ensures r.layersOpen == s.layersOpen && r.secondaryOpen == s.secondaryOpen
    ensures r.currentLayer == s.currentLayer && r.pixels == s.pixels
  {
    if !s.searchActive then s
    else if code == TextEntry.EnterKey then Searched(s)
    else s.(searchText := TextEntry.Edit(s.searchText, code))
  }

  /** Map::handleEvent. */
  function MapStep(s: MapState, files: Files, width: nat, height: nat, ev: Event): (r: MapState)
    ensures ev.OtherEvent? || (ev.MousePressed? && ev.button != LeftButton) ==> r == s
    ensures ev.TextEntered? ==> r.currentLayer == s.currentLayer && r.layersOpen == s.layersOpen
  {
    match ev
    case MousePressed(button, p) => if button == LeftButton then Click(s, files, width, height, p) else s
    case TextEntered(code) => TypeCode(s, code)
    case OtherEvent => s
  }

  /** The state the constructor leaves: everything closed, Streetmap, initial file loaded into
      an image that starts empty. */
  function Initial(files: Files): MapState
  {
    Loaded(MapState(false, false, false, [], Streetmap, None, 0, 0, [], []), files, InitialMapPath)
  }

  /** The events of a session, handled in order. */
  function Run(s: MapState, files: Files, width: nat, height: nat, evs: seq<Event>): MapState
    decreases |evs|
  {
    if |evs| == 0 then s else Run(MapStep(s, files, width, height, evs[0]), files, width, height, evs[1..])
  }

  // ---------------------------------------------------------------------------------------
  // Properties of the state machine
  // ---------------------------------------------------------------------------------------

  /** The constructor's state: both panels closed, search closed and empty, Streetmap current,
      and the file loaded is the Streetmap entry of the table. */
  lemma InitialState(files: Files)
    ensures var s := Initial(files);
      !s.layersOpen && !s.secondaryOpen && !s.searchActive && s.searchText == [] && s.currentLayer == Streetmap
    ensures Initial(files) == BaseLayerChanged(MapState(false, false, false, [], Streetmap, None, 0, 0, [], []), files, Streetmap)
    ensures Inv(Initial(files), files)
  {
  }

  /** Opening one side panel closes the other; closing one leaves the other as it was; search
      is untouched either way. */
  lemma PanelToggles(s: MapState)
    ensures LayersToggled(s).layersOpen == !s.layersOpen && SecondaryToggled(s).secondaryOpen == !s.secondaryOpen
    ensures LayersToggled(s).layersOpen ==> !LayersToggled(s).secondaryOpen
    ensures SecondaryToggled(s).secondaryOpen ==> !SecondaryToggled(s).layersOpen
    ensures !s.layersOpen ==> SecondaryToggled(s).layersOpen == false
    ensures s.layersOpen ==> LayersToggled(s).secondaryOpen == s.secondaryOpen
    ensures s.secondaryOpen ==> SecondaryToggled(s).layersOpen == s.layersOpen
    ensures LayersToggled(s).(layersOpen := s.layersOpen, secondaryOpen := s.secondaryOpen) == s
    ensures SecondaryToggled(s).(layersOpen := s.layersOpen, secondaryOpen := s.secondaryOpen) == s
  {
  }

  /** toggleSearch flips only the search flag; closing empties the text; toggling twice from a
      closed bar changes nothing. */
  lemma SearchToggle(s: MapState)
    ensures SearchToggled(s).searchActive == !s.searchActive
    ensures SearchToggled(s).(searchActive := s.searchActive, searchText := s.searchText) == s
    ensures s.searchActive ==> SearchToggled(s).searchText == []
    ensures !s.searchActive ==> SearchToggled(s).searchText == s.searchText
    ensures !s.searchActive && s.searchText == [] ==> SearchToggled(SearchToggled(s)) == s
  {
  }

  /** Text events: nothing happens with the bar closed; Enter logs the query and closes the
      bar, emptying it; any other code edits the text by the shared rule. */
  lemma TextEvents(s: MapState, code: nat)
    ensures !s.searchActive ==> TypeCode(s, code) == s
    ensures s.searchActive && code == TextEntry.EnterKey ==>
      TypeCode(s, code) == s.(searchActive := false, searchText := [], log := s.log + ["Searching for: " + s.searchText])
    ensures s.searchActive && code != TextEntry.EnterKey ==>
      TypeCode(s, code) == s.(searchText := TextEntry.Edit(s.searchText, code))
  {
  }

  /** changeBaseLayer records the layer whether or not its file opens; on success the image
      shows that file, on failure the handle is reset and the image is kept. */
  lemma ChangeBaseLayerOutcome(s: MapState, files: Files, l: BaseLayer)
    ensures BaseLayerChanged(s, files, l).currentLayer == l
    ensures BaseLayerChanged(s, files, l).dataset == Open(files, DatasetPath(l))
    ensures DatasetPath(l) in files ==> BaseLayerChanged(s, files, l).pixels == Rendered(files[DatasetPath(l)])
    ensures DatasetPath(l) !in files ==>
      BaseLayerChanged(s, files, l) == s.(currentLayer := l, dataset := None, log := s.log + ["Failed to open " + DatasetPath(l)])
  {
  }

  /** A click on base-layer button i selects the layer with ordinal i (first match wins); a
      click on no button of either row leaves layer, dataset and image alone. */
  lemma ClickSelectsLayer(s: MapState, files: Files, width: nat, height: nat, p: Point)
    ensures FirstHit(BaseLayerButtons(width), p).Some? ==>
      Click(s, files, width, height, p).currentLayer == LayerOfOrdinal(FirstHit(BaseLayerButtons(width), p).value)
    ensures FirstHit(BaseLayerButtons(width), p).None? ==>
      var r := Click(s, files, width, height, p);
      r.currentLayer == s.currentLayer && r.dataset == s.dataset && r.pixels == s.pixels
  {
  }

  lemma TogglesKeepInv(s: MapState, files: Files)
    requires Inv(s, files)
    ensures Inv(LayersToggled(s), files) && Inv(SecondaryToggled(s), files)
    ensures Inv(SearchToggled(s), files) && Inv(Searched(s), files)
  {
  }

  lemma BaseLayerChangedKeepsInv(s: MapState, files: Files, l: BaseLayer)
    requires Inv(s, files)
    ensures Inv(BaseLayerChanged(s, files, l), files)
  {
    var r := Open(files, DatasetPath(l));
    if r.Some? {
      var ds := r.value;
      assert BaseLayerChanged(s, files, l) == s.(currentLayer := l, dataset := r, imageWidth := ds.width,
        imageHeight := ds.height, pixels := Rendered(ds));
    } else {
      assert BaseLayerChanged(s, files, l).dataset.None?;
    }
  }

  lemma ClickKeepsInv(s: MapState, files: Files, width: nat, height: nat, p: Point)
    requires Inv(s, files)
    ensures Inv(Click(s, files, width, height, p), files)
  {
    var s1 := ControlApplied(s, ControlAt(width, height, p));
    ControlKeepsInv(s, files, ControlAt(width, height, p));
    var s2 := BaseLayerHit(s1, files, FirstHit(BaseLayerButtons(width), p));
    BaseLayerHitKeepsInv(s1, files, FirstHit(BaseLayerButtons(width), p));
    SecondaryHitKeepsInv(s2, files, FirstHit(SecondaryLayerButtons(width), p));
  }

  lemma ControlKeepsInv(s: MapState, files: Files, c: MapControl)
    requires Inv(s, files)
    ensures Inv(ControlApplied(s, c), files)
  {
    TogglesKeepInv(s, files);
  }

  lemma BaseLayerHitKeepsInv(s: MapState, files: Files, hit: Option<nat>)
    requires Inv(s, files) && (hit.Some? ==> hit.value < 4)
    ensures Inv(BaseLayerHit(s, files, hit), files)
  {
    if hit.Some? {
      BaseLayerChangedKeepsInv(s, files, LayerOfOrdinal(hit.value));
    }
  }

  lemma SecondaryHitKeepsInv(s: MapState, files: Files, hit: Option<nat>)
    requires Inv(s, files)
    ensures Inv(SecondaryHit(s, hit), files)
  {
    assert SecondaryHit(s, hit) == s.(log := SecondaryHit(s, hit).log);
  }

  lemma StepKeepsInv(s: MapState, files: Files, width: nat, height: nat, ev: Event)
    requires Inv(s, files)
    ensures Inv(MapStep(s, files, width, height, ev), files)
  {
    match ev
    case MousePressed(button, p) =>
      ClickKeepsInv(s, files, width, height, p);
    case TextEntered(code) =>
      TogglesKeepInv(s, files);
    case OtherEvent =>
  }

  /** Every state a session reaches from the constructor keeps the invariant. */
  lemma {:induction false} RunKeepsInv(s: MapState, files: Files, width: nat, height: nat, evs: seq<Event>)
    requires Inv(s, files)
    ensures Inv(Run(s, files, width, height, evs), files)
    decreases |evs|
  {
    if |evs| > 0 {
      StepKeepsInv(s, files, width, height, evs[0]);
      RunKeepsInv(MapStep(s, files, width, height, evs[0]), files, width, height, evs[1..]);
    }
  }

  /** In particular the two side panels are never open together in any session. */
  lemma PanelsNeverBothOpen(files: Files, width: nat, height: nat, evs: seq<Event>)
    ensures var s := Run(Initial(files), files, width, height, evs); !(s.layersOpen && s.secondaryOpen)
  {
    InitialState(files);
    RunKeepsInv(Initial(files), files, width, height, evs);
  }

  // ---------------------------------------------------------------------------------------
  // The screen object
  // ---------------------------------------------------------------------------------------

  /** One pass of the inner loop: the w pixels of the row starting at slot row are painted
      in order, the slots after them are still untouched. */
  method PaintRow(img: array<Colour>, data: seq<real>, row: nat, w: nat)
    requires |data| == img.Length * 3 && row + w <= img.Length
    requires forall k :: 0 <= k < row ==> img[k] == SlotColour(data, k)
    requires forall k :: row <= k < img.Length ==> img[k] == White
    modifies img
    ensures forall k :: 0 <= k < row + w ==> img[k] == SlotColour(data, k)
    ensures forall k :: row + w <= k < img.Length ==> img[k] == White
  {
    var x := 0;
    while x < w
      invariant 0 <= x <= w
      invariant forall k :: 0 <= k < row + x ==> img[k] == SlotColour(data, k)
      invariant forall k :: row + x <= k < img.Length ==> img[k] == White
    {
      var index := (row + x) * 3;
      var colour := Colour(ChannelByte(data[index]), ChannelByte(data[index + 1]), ChannelByte(data[index + 2]));
      img[row + x] := colour;
      x := x + 1;
    }
  }

  /** The pixel loop of renderMap: a fresh white w x h image, then for y and for x the colour
      built from data[(y*w+x)*3 .. +2] goes to pixel (x, y). Every pixel ends up holding the
      colour of its own three buffer values. */
  method Paint(data: seq<real>, w: nat, h: nat) returns (img: array<Colour>)
    requires |data| == w * h * 3
    ensures fresh(img) && img.Length == w * h
    ensures forall k :: 0 <= k < w * h ==> img[k] == SlotColour(data, k)
  {
    var n := w * h;
    img := new Colour[n](_ => White);
    var y, row := 0, 0;
    while y < h
      invariant 0 <= y <= h && row == y * w && row <= n
      invariant forall k :: 0 <= k < row ==> img[k] == SlotColour(data, k)
      invariant forall k :: row <= k < n ==> img[k] == White
    {
      NextRow(w, h, y);
      PaintRow(img, data, row, w);
      y, row := y + 1, row + w;
    }
  }

  class Map {
    const width: nat
    const height: nat
    const files: Files

    var layersOpen: bool
    var secondaryOpen: bool
    var searchActive: bool
    var layersPanelX: real
    var secondaryPanelX: real
    var searchBarY: real
    var searchTextAt: Point
    var searchText: string
    var currentLayer: BaseLayer
    var dataset: Option<Dataset>
    var image: array<Colour>
    var imageWidth: nat
    var imageHeight: nat
    var log: seq<string>

    function State(): MapState
      reads this, image
    {
      MapState(layersOpen, secondaryOpen, searchActive, searchText, currentLayer, dataset,
               imageWidth, imageHeight, image[..], log)
    }

    /** The panels and the search bar sit where their flags say, and the state keeps Inv. */
    ghost predicate Placed()
      reads this
    {
      && layersPanelX == LayersPanelX(width, layersOpen)
      && secondaryPanelX == SecondaryPanelX(width, secondaryOpen)
      && searchBarY == SearchBarY(searchActive)
      && searchTextAt == SearchTextAt(searchActive)
    }

    ghost predicate Valid()
      reads this, image
    {
      Placed() && Inv(State(), files)
    }

    constructor (width: nat, height: nat, files: Files)
      ensures Valid() && State() == Initial(files)
      ensures this.width == width && this.height == height && this.files == files
    {
      this.width, this.height, this.files := width, height, files;
      layersOpen, secondaryOpen, searchActive := false, false, false;
      layersPanelX, secondaryPanelX := width as real, -PanelWidth(width);
      searchBarY, searchTextAt, searchText := -50.0, Point(10.0, -40.0), [];
      currentLayer, dataset := Streetmap, None;
      image, imageWidth, imageHeight := new Colour[0], 0, 0;
      log := [];
      new;
      assert State() == MapState(false, false, false, [], Streetmap, None, 0, 0, [], []);
      LoadMapData(InitialMapPath);
      InitialState(files);
    }

    method ToggleLayersPanel()
      requires Valid()
      modifies this
      ensures Valid() && State() == LayersToggled(old(State())) && image == old(image)
    {
      layersOpen := !layersOpen;
      if layersOpen {
        layersPanelX := width as real - PanelWidth(width);
        secondaryOpen := false;
        secondaryPanelX := -PanelWidth(width);
      } else {
        layersPanelX := width as real;
      }
    }

    method ToggleSecondaryPanel()
      requires Valid()
      modifies this
      ensures Valid() && State() == SecondaryToggled(old(State())) && image == old(image)
    {
      secondaryOpen := !secondaryOpen;
      if secondaryOpen {
        secondaryPanelX := 0.0;
        layersOpen := false;
        layersPanelX := width as real;
      } else {
        secondaryPanelX := -PanelWidth(width);
      }
    }

    method ToggleSearch()
      requires Valid()
      modifies this
      ensures Valid() && State() == SearchToggled(old(State())) && image == old(image)
    {
      searchActive := !searchActive;
      if searchActive {
        searchBarY := 0.0;
        searchTextAt := Point(10.0, 10.0);
      } else {
        searchBarY := -50.0;
        searchTextAt := Point(10.0, -40.0);
        searchText := [];
      }
    }

    method HandleSearch()
      requires Valid()
      modifies this
      ensures Valid() && State() == Searched(old(State())) && image == old(image)
    {
      var query := searchText;
      log := log + ["Searching for: " + query];
      ToggleSearch();
    }

    /** renderMap: the pixel image becomes the dataset's raster, painted by Paint. Fitting
        the sprite to the window is left out. */
    method RenderMap(ds: Dataset)
      modifies this
      ensures fresh(image)
      ensures State() == old(State()).(imageWidth := ds.width, imageHeight := ds.height, pixels := Rendered(ds))
      ensures Placed() == old(Placed())
    {
      var width, height := ds.width, ds.height;
      var img := Paint(RasterReadAsWritten(ds), width, height);
      assert img[..] == Rendered(ds);
      image, imageWidth, imageHeight := img, width, height;
    }

    method LoadMapData(path: string)
      modifies this
      ensures State() == Loaded(old(State()), files, path)
      ensures Placed() == old(Placed())
      ensures image == old(image) || fresh(image)
    {
      dataset := Open(files, path);
      if dataset.None? {
        log := log + ["Failed to open " + path];
        return;
      }
      RenderMap(dataset.value);
    }

    method ChangeBaseLayer(layer: BaseLayer)
      requires Valid()
      modifies this
      ensures Valid() && State() == BaseLayerChanged(old(State()), files, layer)
      ensures image == old(image) || fresh(image)
    {
      ghost var s0 := State();
      BaseLayerChangedKeepsInv(s0, files, layer);
      currentLayer := layer;
      var filename := DatasetPath(layer);
      LoadMapData(filename);
    }

    method AddSecondaryLayer(name: string)
      requires Valid()
      modifies this
      ensures Valid() && State() == SecondaryLayerAdded(old(State()), name) && image == old(image)
    {
      log := log + ["Adding secondary layer: " + name];
    }

    /** The first part of a left click: layers, search and exit buttons, first match only. */
    method PressControls(p: Point)
      requires Valid()
      modifies this
      ensures Valid() && State() == ControlApplied(old(State()), ControlAt(width, height, p)) && image == old(image)
    {
      if LayersButton(width, height).Contains(p) {
        ToggleLayersPanel();
      } else if SearchButton(height).Contains(p) {
        ToggleSearch();
      } else if ExitButton.Contains(p) {
        // the exit button has no effect on this screen
      }
    }

    /** The second part of a left click: the first base-layer button under the pointer. */
    method PressBaseLayerButton(p: Point)
      requires Valid()
      modifies this
      ensures Valid() && State() == BaseLayerHit(old(State()), files, FirstHit(BaseLayerButtons(width), p))
      ensures image == old(image) || fresh(image)
    {
      var hit := FindButton(BaseLayerButtons(width), p);
      if hit.Some? {
        ChangeBaseLayer(LayerOfOrdinal(hit.value));
      }
    }

    /** The last part of a left click: the first secondary-layer button under the pointer. */
    method PressSecondaryLayerButton(p: Point)
      requires Valid()
      modifies this
      ensures Valid() && State() == SecondaryHit(old(State()), FirstHit(SecondaryLayerButtons(width), p))
      ensures image == old(image)
    {
      var hit := FindButton(SecondaryLayerButtons(width), p);
      if hit.Some? {
        AddSecondaryLayer("Layer" + NatToString(hit.value + 1));
      }
    }

    /** The left-click branch of handleEvent. */
    method HandleClick(p: Point)
      requires Valid()
      modifies this
      ensures Valid() && State() == Click(old(State()), files, width, height, p)
      ensures image == old(image) || fresh(image)
    {
      PressControls(p);
      PressBaseLayerButton(p);
      PressSecondaryLayerButton(p);
    }

    /** The TextEntered branch of handleEvent. */
    method HandleText(code: nat)
      requires Valid()
      modifies this
      ensures Valid() && State() == TypeCode(old(State()), code) && image == old(image)
    {
      if searchActive {
        if code == TextEntry.EnterKey {
          HandleSearch();
        } else if code == TextEntry.BackspaceKey {
          if |searchText| > 0 {
            searchText := searchText[..|searchText| - 1];
          }
        } else if code < 128 {
          searchText := searchText + [code as char];
        }
      }
    }

    method HandleEvent(ev: Event)
      requires Valid()
      modifies this
      ensures Valid() && State() == MapStep(old(State()), files, width, height, ev)
      ensures image == old(image) || fresh(image)
    {
      match ev {
        case MousePressed(button, p) =>
          if button == LeftButton {
            HandleClick(p);
          }
        case TextEntered(code) =>
          HandleText(code);
        case OtherEvent =>
      }
    }
  }
}
