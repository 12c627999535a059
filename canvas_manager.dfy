/** The data-scanning and bookkeeping parts of `CanvasManager`: the colour
    scan and bounding rectangle over RGBA pixel data, the size a canvas is
    cropped to, the option handling of canvasToImage, the 2D context cache
    and the start/stop/mute state of CanvasRenderer. Drawing, image
    encoding and timers are outside the model: pixel data is the byte
    sequence `getImageData(...).data` returns, and timer ids are inputs. */
module CanvasManager {
  import opened Options

  // ---------------------------------------------------------------------
  // Pixel data

  /** `data[i]`, where reading past the end gives `undefined` (falsy, here 0). */
  function At(data: seq<int>, i: int): int {
    if 0 <= i < |data| then data[i] else 0
  }

  /** The number of steps of a loop `for (i = 0; i < data.length; i += 4)`. */
  function PixelCount(data: seq<int>): nat {
    (|data| + 3) / 4
  }

  /** Which channels count as colour. */
  datatype Channels = Channels(r: bool, g: bool, b: bool, a: bool)

  /** The options canvasHasColorData uses when given none: red, green and
      blue, but not alpha. */
  const DefaultChannels := Channels(true, true, true, false)

  /** Pixel `p` has a non-zero byte in an enabled channel. */
  predicate PixelHasColor(data: seq<int>, p: int, o: Channels) {
    || (o.r && At(data, 4 * p) != 0)
    || (o.g && At(data, 4 * p + 1) != 0)
    || (o.b && At(data, 4 * p + 2) != 0)
    || (o.a && At(data, 4 * p + 3) != 0)
  }

  /** Some pixel has colour in an enabled channel. */
  predicate HasColorData(data: seq<int>, o: Channels) {
    exists p :: 0 <= p < PixelCount(data) && PixelHasColor(data, p, o)
  }

  /** CanvasManager.canvasHasColorData over the canvas's pixel data. */
  method CanvasHasColorData(data: seq<int>, options: Option<Channels>) returns (r: bool)
    ensures r <==> HasColorData(data, options.GetOr(DefaultChannels))
    ensures data == [] ==> !r
  {
    var o := if options.None? then DefaultChannels else options.value;
    var i := 0;
    while i < |data|
      invariant i % 4 == 0 && 0 <= i / 4 <= PixelCount(data)
      invariant forall p :: 0 <= p < i / 4 ==> !PixelHasColor(data, p, o)
    {
      var p := i / 4;
      assert 4 * p == i;
      if o.r && At(data, i + 0) != 0 { assert PixelHasColor(data, p, o); return true; }
      if o.g && At(data, i + 1) != 0 { assert PixelHasColor(data, p, o); return true; }
      if o.b && At(data, i + 2) != 0 { assert PixelHasColor(data, p, o); return true; }
      if o.a && At(data, i + 3) != 0 { assert PixelHasColor(data, p, o); return true; }
      i := i + 4;
    }
    return false;
  }

  /** With the default options, a pixel with only an alpha value is no
      colour, while an options object enabling `a` does count it. */
  lemma AlphaOnlyPixelIgnoredByDefault()
    ensures !HasColorData([0, 0, 0, 255], DefaultChannels)
    ensures HasColorData([0, 0, 0, 255], Channels(false, false, false, true))
  {
    assert PixelHasColor([0, 0, 0, 255], 0, Channels(false, false, false, true));
  }

  // ---------------------------------------------------------------------
  // Bounding rectangle

  /** CanvasManager.BoundingRect; `None` is `null`. */
  datatype BoundingRect = BoundingRect(top: Option<int>, bottom: Option<int>,
                                       left: Option<int>, right: Option<int>)

  const EmptyRect := BoundingRect(None, None, None, None)

  /** `data[i+0] || data[i+1] || data[i+2]`: pixel `p` has a colour value. */
  predicate Coloured(data: seq<int>, p: int) {
    PixelHasColor(data, p, DefaultChannels)
  }

  /** The rectangle the scan computes when pixel `p` is placed at row
      `p / width` and column `p % modulus`: null everywhere when no pixel is
      coloured, and otherwise the extreme rows and columns of coloured pixels. */
  ghost predicate IsBoundingRect(rect: BoundingRect, data: seq<int>, width: nat, modulus: nat)
    requires width > 0 && modulus > 0
  {
    var n := PixelCount(data);
    && ((forall p :: 0 <= p < n ==> !Coloured(data, p)) <==> rect == EmptyRect)
    && (rect.top.Some? <==> rect.bottom.Some?)
    && (rect.top.Some? <==> rect.left.Some?)
    && (rect.top.Some? <==> rect.right.Some?)
    && (rect.top.Some? ==>
         && (forall p :: 0 <= p < n && Coloured(data, p) ==>
               && rect.top.value <= p / width <= rect.bottom.value
               && rect.left.value <= p % modulus <= rect.right.value)
         && (exists p :: 0 <= p < n && Coloured(data, p) && p / width == rect.top.value)
         && (exists p :: 0 <= p < n && Coloured(data, p) && p / width == rect.bottom.value)
         && (exists p :: 0 <= p < n && Coloured(data, p) && p % modulus == rect.left.value)
         && (exists p :: 0 <= p < n && Coloured(data, p) && p % modulus == rect.right.value))
  }

  /** The pixel loop of getContextBoundingRect, with the divisor of the
      column computation as a parameter. */
  method ScanBoundingRect(data: seq<int>, width: nat, modulus: nat) returns (rect: BoundingRect)
    requires width > 0 && modulus > 0
    ensures IsBoundingRect(rect, data, width, modulus)
  {
    rect := EmptyRect;
    ghost var tp, bp, lp, rp := 0, 0, 0, 0;
    var i := 0;
    while i < |data|
      invariant i % 4 == 0 && 0 <= i / 4 <= PixelCount(data)
      invariant (forall p :: 0 <= p < i / 4 ==> !Coloured(data, p)) <==> rect == EmptyRect
      invariant rect.top.Some? <==> rect.bottom.Some?
      invariant rect.top.Some? <==> rect.left.Some?
      invariant rect.top.Some? <==> rect.right.Some?
      invariant rect.top.Some? ==>
                  forall p :: 0 <= p < i / 4 && Coloured(data, p) ==>
                    && rect.top.value <= p / width <= rect.bottom.value
                    && rect.left.value <= p % modulus <= rect.right.value
      invariant rect.top.Some? ==>
                  && 0 <= tp < i / 4 && Coloured(data, tp) && tp / width == rect.top.value
                  && 0 <= bp < i / 4 && Coloured(data, bp) && bp / width == rect.bottom.value
                  && 0 <= lp < i / 4 && Coloured(data, lp) && lp % modulus == rect.left.value
                  && 0 <= rp < i / 4 && Coloured(data, rp) && rp % modulus == rect.right.value
    {
      var index := i / 4;
      assert 4 * index == i;
      if At(data, i + 0) != 0 || At(data, i + 1) != 0 || At(data, i + 2) != 0 {
        var x := index % modulus;
        var y := index / width;
        if rect.top.None? || y < rect.top.value { rect := rect.(top := Some(y)); tp := index; }
        if rect.bottom.None? || y > rect.bottom.value { rect := rect.(bottom := Some(y)); bp := index; }
        if rect.left.None? || x < rect.left.value { rect := rect.(left := Some(x)); lp := index; }
        if rect.right.None? || x > rect.right.value { rect := rect.(right := Some(x)); rp := index; }
        assert Coloured(data, index);
      } else {
        assert !Coloured(data, index);
      }
      i := i + 4;
    }
  }

  /** CanvasManager.getContextBoundingRect AS WRITTEN: the column of pixel
      `index` is computed as `index % cHeight`. */
  method GetContextBoundingRect(data: seq<int>, width: nat, height: nat) returns (rect: BoundingRect)
    requires |data| == 4 * width * height
    ensures width > 0 && height > 0 ==> IsBoundingRect(rect, data, width, height)
    ensures rect == EmptyRect <==> !HasColorData(data, DefaultChannels)
    ensures rect.top.Some? ==> rect.top.value <= rect.bottom.value && rect.left.value <= rect.right.value
  {
    if data == [] {
      return EmptyRect;
    }
    NonEmptyCanvas(width, height);
    rect := ScanBoundingRect(data, width, height);
    RectAgreesWithColorScan(rect, data, width, height);
  }

  /** The bounding rectangle with the column computed as `index % cWidth`,
      which is what makes the columns those of the canvas. */
  method GetContextBoundingRectIntended(data: seq<int>, width: nat, height: nat) returns (rect: BoundingRect)
    requires |data| == 4 * width * height
    ensures width > 0 && height > 0 ==> IsBoundingRect(rect, data, width, width)
    ensures rect == EmptyRect <==> !HasColorData(data, DefaultChannels)
    ensures rect.top.Some? ==>
              && 0 <= rect.left.value <= rect.right.value < width
              && 0 <= rect.top.value <= rect.bottom.value < height
    ensures forall p :: 0 <= p < width * height && Coloured(data, p) ==>
              && rect.top.Some?
              && rect.left.value <= p % width <= rect.right.value
              && rect.top.value <= p / width <= rect.bottom.value
  {
    if data == [] {
      return EmptyRect;
    }
    NonEmptyCanvas(width, height);
    rect := ScanBoundingRect(data, width, width);
    RectAgreesWithColorScan(rect, data, width, width);
    if rect.top.Some? {
      IntendedRectInsideCanvas(rect, data, width, height);
    }
  }

  lemma NonEmptyCanvas(width: nat, height: nat)
    requires 4 * width * height > 0
    ensures width > 0 && height > 0
  {
  }

  /** The rectangle is empty exactly when canvasHasColorData (with its
      default options) finds no colour. */
  lemma RectAgreesWithColorScan(rect: BoundingRect, data: seq<int>, width: nat, modulus: nat)
    requires width > 0 && modulus > 0 && IsBoundingRect(rect, data, width, modulus)
    ensures rect == EmptyRect <==> !HasColorData(data, DefaultChannels)
    ensures rect.top.Some? ==> rect.top.value <= rect.bottom.value && rect.left.value <= rect.right.value
  {
    if rect.top.Some? {
      var p :| 0 <= p < PixelCount(data) && Coloured(data, p) && p / width == rect.top.value;
      assert rect.top.value <= p / width <= rect.bottom.value;
      assert rect.left.value <= p % modulus <= rect.right.value;
    } else if HasColorData(data, DefaultChannels) {
      var p :| 0 <= p < PixelCount(data) && PixelHasColor(data, p, DefaultChannels);
      assert Coloured(data, p);
    }
  }

  /** With the column taken modulo the width, every edge of the rectangle
      lies on the canvas. */
  lemma IntendedRectInsideCanvas(rect: BoundingRect, data: seq<int>, width: nat, height: nat)
    requires width > 0 && height > 0 && |data| == 4 * width * height
    requires IsBoundingRect(rect, data, width, width) && rect.top.Some?
    ensures 0 <= rect.left.value <= rect.right.value < width
    ensures 0 <= rect.top.value <= rect.bottom.value < height
  {
    var n := PixelCount(data);
    PixelsOfCanvas(data, width, height);
    var tp :| 0 <= tp < n && Coloured(data, tp) && tp / width == rect.top.value;
    var bp :| 0 <= bp < n && Coloured(data, bp) && bp / width == rect.bottom.value;
    var lp :| 0 <= lp < n && Coloured(data, lp) && lp % width == rect.left.value;
    var rp :| 0 <= rp < n && Coloured(data, rp) && rp % width == rect.right.value;
    assert rect.top.value <= bp / width && rect.left.value <= rp % width;
    PixelOnCanvas(tp, width, height);
    PixelOnCanvas(bp, width, height);
    PixelOnCanvas(lp, width, height);
    PixelOnCanvas(rp, width, height);
  }

  lemma PixelOnCanvas(p: int, width: nat, height: nat)
    requires width > 0 && 0 <= p < width * height
    ensures 0 <= p / width < height && 0 <= p % width < width
  {
    RowBelowHeight(p, width, height);
  }

  lemma PixelsOfCanvas(data: seq<int>, width: nat, height: nat)
    requires |data| == 4 * width * height
    ensures PixelCount(data) == width * height
  {
    var k := width * height;
    assert |data| == 4 * k;
    QuarterRoundsUp(k);
  }

  lemma QuarterRoundsUp(k: nat)
    ensures (4 * k + 3) / 4 == k
  {
  }

  lemma RowBelowHeight(p: int, width: nat, height: nat)
    requires width > 0 && 0 <= p < width * height
    ensures 0 <= p / width < height
  {
  }

  /** The column as written can miss a pixel: on a 3x1 canvas whose only
      coloured pixel is the third, `index % cHeight` places it in column 0,
      so the rectangle it reports leaves out the pixel's real column 2. */
  lemma AsWrittenRectMissesColumn(rect: BoundingRect)
    requires IsBoundingRect(rect, [0, 0, 0, 0, 0, 0, 0, 0, 9, 0, 0, 0], 3, 1)
    ensures rect == BoundingRect(Some(0), Some(0), Some(0), Some(0))
    ensures Coloured([0, 0, 0, 0, 0, 0, 0, 0, 9, 0, 0, 0], 2) && !(rect.right.value >= 2 % 3)
  {
    var data := [0, 0, 0, 0, 0, 0, 0, 0, 9, 0, 0, 0];
    assert PixelCount(data) == 3;
    assert Coloured(data, 2);
    assert !Coloured(data, 0) && !Coloured(data, 1);
    var p :| 0 <= p < 3 && Coloured(data, p) && p % 1 == rect.right.value;
    var q :| 0 <= q < 3 && Coloured(data, q) && q / 3 == rect.top.value;
    var s :| 0 <= s < 3 && Coloured(data, s) && s / 3 == rect.bottom.value;
    var t :| 0 <= t < 3 && Coloured(data, t) && t % 1 == rect.left.value;
  }

  // ---------------------------------------------------------------------
  // Fitting a canvas to a rectangle

  /** `x - y` for JavaScript values where `null` converts to 0. */
  function NumberOf(v: Option<int>): int {
    v.GetOr(0)
  }

  /** The size fitCanvasToBoundingRect gives the canvas AS WRITTEN:
      `right - left` by `bottom - top`. */
  function FitDimensions(rect: BoundingRect): (int, int) {
    (NumberOf(rect.right) - NumberOf(rect.left), NumberOf(rect.bottom) - NumberOf(rect.top))
  }

  /** The size that holds every row and column of the rectangle, edges
      included; an empty rectangle gives an empty canvas. */
  function FitDimensionsIntended(rect: BoundingRect): (d: (int, int))
    ensures rect.top.None? ==> d == (0, 0)
  {
    if rect.top.None? || rect.bottom.None? || rect.left.None? || rect.right.None? then (0, 0)
    else (rect.right.value - rect.left.value + 1, rect.bottom.value - rect.top.value + 1)
  }

  /** As written, a canvas whose only coloured pixel is the first is cropped
      to 0 by 0 pixels, losing that pixel. */
  lemma FitAsWrittenDropsLastColumnAndRow(rect: BoundingRect)
    requires IsBoundingRect(rect, [9, 0, 0, 0], 1, 1)
    ensures FitDimensions(rect) == (0, 0)
    ensures Coloured([9, 0, 0, 0], 0)
  {
    var data := [9, 0, 0, 0];
    assert PixelCount(data) == 1 && Coloured(data, 0);
    var p :| 0 <= p < 1 && Coloured(data, p) && p % 1 == rect.right.value;
    var q :| 0 <= q < 1 && Coloured(data, q) && q / 1 == rect.top.value;
    var s :| 0 <= s < 1 && Coloured(data, s) && s / 1 == rect.bottom.value;
    var t :| 0 <= t < 1 && Coloured(data, t) && t % 1 == rect.left.value;
  }

  /** With the intended size, every coloured pixel lands inside the cropped
      canvas: its offset from the rectangle's top-left corner is within the
      new width and height. */
  lemma FitIntendedKeepsColouredPixels(rect: BoundingRect, data: seq<int>, width: nat, p: int)
    requires width > 0 && IsBoundingRect(rect, data, width, width)
    requires 0 <= p < PixelCount(data) && Coloured(data, p)
    ensures rect.top.Some?
    ensures 0 <= p % width - rect.left.value < FitDimensionsIntended(rect).0
    ensures 0 <= p / width - rect.top.value < FitDimensionsIntended(rect).1
  {
  }

  /** A canvas: its size, its cached 2D context (`_context`) and what the
      browser's `getContext("2d")` hands out (null when the canvas already
      has a context of another kind). */
  class Canvas {
    var width: int
    var height: int
    var context: Option<nat>
    const native2d: Option<nat>
    ghost var nativeCalls: nat

    constructor (width: int, height: int, native2d: Option<nat>)
      ensures this.width == width && this.height == height && this.native2d == native2d
      ensures context.None? && nativeCalls == 0
    {
      this.width, this.height, this.native2d := width, height, native2d;
      context := None;
      nativeCalls := 0;
    }

    /** The browser's `canvas.getContext("2d")`. */
    method GetNative2d() returns (ctx: Option<nat>)
      modifies this`nativeCalls
      ensures ctx == native2d && nativeCalls == old(nativeCalls) + 1
    {
      ctx := native2d;
      nativeCalls := nativeCalls + 1;
    }
  }

  /** CanvasManager.getContext: the first call asks the browser and caches
      the context; later calls return the cache without asking again. */
  method GetContext(canvas: Canvas) returns (ctx: Option<nat>)
    modifies canvas`context, canvas`nativeCalls
    ensures old(canvas.context).Some? ==>
              ctx == old(canvas.context) && canvas.context == old(canvas.context)
              && canvas.nativeCalls == old(canvas.nativeCalls)
    ensures old(canvas.context).None? ==>
              ctx == canvas.native2d && canvas.context == canvas.native2d
              && canvas.nativeCalls == old(canvas.nativeCalls) + 1
  {
    if canvas.context.None? {
      canvas.context := canvas.GetNative2d();
    }
    ctx := canvas.context;
  }

  /** CanvasManager.fitCanvasToBoundingRect's effect on the canvas size (the
      redrawing is not modelled). */
  method FitCanvasToBoundingRect(canvas: Canvas, rect: BoundingRect)
    modifies canvas`width, canvas`height
    ensures (canvas.width, canvas.height) == FitDimensions(rect)
  {
    var w := NumberOf(rect.right) - NumberOf(rect.left);
    var h := NumberOf(rect.bottom) - NumberOf(rect.top);
    canvas.width := w;
    canvas.height := h;
  }

  /** Cropping to the rectangle of a real scan never gives a negative size. */
  lemma FitDimensionsNonNegative(rect: BoundingRect, data: seq<int>, width: nat, modulus: nat)
    requires width > 0 && modulus > 0 && IsBoundingRect(rect, data, width, modulus)
    ensures FitDimensions(rect).0 >= 0 && FitDimensions(rect).1 >= 0
  {
    RectAgreesWithColorScan(rect, data, width, modulus);
  }

  // ---------------------------------------------------------------------
  // canvasToImage

  /** An option value: a string, a callback, some other object, or a falsy
      non-string (`null`, `undefined`, `false`, 0). */
  datatype OptionValue = Text(s: string) | Callback(id: nat) | Object(id: nat) | Falsy

  predicate Truthy(v: OptionValue) {
    !(v.Falsy? || v == Text(""))
  }

  datatype ImageOptions = ImageOptions(format: OptionValue, serialization: OptionValue,
                                       onLoad: OptionValue, conversionOptions: OptionValue)

  /** The value a key sets, or the default when the options lack it. */
  function OptionOr(options: map<string, OptionValue>, key: string, default: OptionValue): OptionValue {
    if key in options then options[key] else default
  }

  /** The option loop of canvasToImage: `format` defaults to png and
      `serialization` to image; only the four known keys override anything. */
  method ParseImageOptions(options: Option<map<string, OptionValue>>) returns (parsed: ImageOptions)
    ensures var o := options.GetOr(map[]);
            parsed == ImageOptions(OptionOr(o, "format", Text("png")),
                                   OptionOr(o, "serialization", Text("image")),
                                   OptionOr(o, "on_load", Falsy),
                                   OptionOr(o, "conversion_options", Falsy))
  {
    var o := if options.None? then map[] else options.value;
    parsed := ImageOptions(Text("png"), Text("image"), Falsy, Falsy);
    var keys := o.Keys;
    while keys != {}
      invariant keys <= o.Keys
      invariant parsed.format == OptionOr(o - keys, "format", Text("png"))
      invariant parsed.serialization == OptionOr(o - keys, "serialization", Text("image"))
      invariant parsed.onLoad == OptionOr(o - keys, "on_load", Falsy)
      invariant parsed.conversionOptions == OptionOr(o - keys, "conversion_options", Falsy)
      decreases keys
    {
      var key :| key in keys;
      if key == "format" { parsed := parsed.(format := o[key]); }
      if key == "serialization" { parsed := parsed.(serialization := o[key]); }
      if key == "on_load" { parsed := parsed.(onLoad := o[key]); }
      if key == "conversion_options" { parsed := parsed.(conversionOptions := o[key]); }
      keys := keys - {key};
    }
    assert o - keys == o;
  }

  /** What canvasToImage returns: a data URL, an Image loading one, or
      `undefined` for an unknown serialization. */
  datatype ImageResult = DataUrl(format: OptionValue, conversionOptions: OptionValue)
                       | ImageFile(format: OptionValue, conversionOptions: OptionValue, onLoad: OptionValue)
                       | Undefined

  /** CanvasManager.canvasToImage: dispatches on the serialization; for a
      data URL the `on_load` value, when truthy, is called with it at once,
      which throws (`threw`) when that value is not a function. */
  method CanvasToImage(options: Option<map<string, OptionValue>>) returns (r: ImageResult, onLoadCalled: bool, threw: bool)
    ensures var o := options.GetOr(map[]);
            var s := OptionOr(o, "serialization", Text("image"));
            var f := OptionOr(o, "format", Text("png"));
            var c := OptionOr(o, "conversion_options", Falsy);
            var l := OptionOr(o, "on_load", Falsy);
            && (s == Text("data_url") ==>
                  && (threw <==> Truthy(l) && !l.Callback?)
                  && (!threw ==> r == DataUrl(f, c) && onLoadCalled == Truthy(l)))
            && (s == Text("image") ==> r == ImageFile(f, c, l) && !onLoadCalled && !threw)
            && (s != Text("data_url") && s != Text("image") ==> r == Undefined && !onLoadCalled && !threw)
  {
    var parsed := ParseImageOptions(options);
    onLoadCalled := false;
    threw := false;
    if parsed.serialization == Text("data_url") {
      r := DataUrl(parsed.format, parsed.conversionOptions);
      if Truthy(parsed.onLoad) {
        if parsed.onLoad.Callback? {
          onLoadCalled := true;
        } else {
          threw := true;
          r := Undefined;
        }
      }
    } else if parsed.serialization == Text("image") {
      r := ImageFile(parsed.format, parsed.conversionOptions, parsed.onLoad);
    } else {
      r := Undefined;
    }
  }

  /** With no options at all, canvasToImage makes a png Image, with no
      conversion options and no load handler, and calls nothing. */
  method CanvasToImageDefaults() returns (r: ImageResult, onLoadCalled: bool, threw: bool)
    ensures r == ImageFile(Text("png"), Falsy, Falsy) && !onLoadCalled && !threw
  {
    r, onLoadCalled, threw := CanvasToImage(None);
  }

  // ---------------------------------------------------------------------
  // CanvasRenderer

  /** What the renderer's `mute`/`unmute` property holds: the method, or
      the boolean a call of mute/unmute wrote over it. */
  datatype MuteMember = MuteMethod | Overwritten(b: bool)

  /** The settings a renderer is created with; each present key overrides. */
  datatype RendererSettings = RendererSettings(rate: Option<int>, interval: Option<int>, muted: Option<bool>)

  /** CanvasManager.CanvasRenderer. */
  class CanvasRenderer {
    var rate: int
    var interval: Option<int>
    var muted: bool
    var mute: MuteMember

    /** The renderer with its defaults (20 frames per second, stopped,
        not muted), then `setup(settings)`. */
    constructor (settings: RendererSettings)
      ensures rate == settings.rate.GetOr(1000 / 20)
      ensures interval == settings.interval && muted == settings.muted.GetOr(false)
      ensures mute == MuteMethod
    {
      rate := settings.rate.GetOr(1000 / 20);
      interval := settings.interval;
      muted := settings.muted.GetOr(false);
      mute := MuteMethod;
    }

    /** `if (cRenderer.interval)`: a timer id other than 0 is set. */
    predicate Running()
      reads this
    {
      interval.Some? && interval.value != 0
    }

    /** CanvasRenderer.start: refused while a timer is set; otherwise stores
        the id `setInterval` returned (always positive). */
    method Start(timerId: int) returns (refused: bool)
      requires timerId > 0
      modifies this`interval
      ensures refused == old(Running())
      ensures refused ==> interval == old(interval)
      ensures !refused ==> interval == Some(timerId) && Running()
    {
      if interval.Some? && interval.value != 0 {
        return true;
      }
      interval := Some(timerId);
      refused := false;
    }

    /** CanvasRenderer.stop: clears the timer and resets `interval` to null. */
    method Stop()
      modifies this`interval
      ensures interval.None? && !Running()
    {
      interval := None;
    }

    /** CanvasRenderer.mute AS WRITTEN: it assigns `cRenderer.mute = true`,
        replacing the method by a boolean and leaving `muted` alone; calling
        it once it has been replaced is a TypeError (`ok` false). */
    method Mute() returns (ok: bool)
      modifies this`mute
      ensures ok == (old(mute) == MuteMethod)
      ensures ok ==> mute == Overwritten(true)
      ensures !ok ==> mute == old(mute)
    {
      if mute != MuteMethod {
        return false;
      }
      mute := Overwritten(true);
      ok := true;
    }

    /** CanvasRenderer.unmute AS WRITTEN: assigns `cRenderer.mute = false`. */
    method Unmute()
      modifies this`mute
      ensures mute == Overwritten(false)
    {
      mute := Overwritten(false);
    }

    /** Muting as the `muted` flag and render intend it. */
    method MuteIntended()
      modifies this`muted
      ensures muted
    {
      muted := true;
    }

    method UnmuteIntended()
      modifies this`muted
      ensures !muted
    {
      muted := false;
    }

    /** CanvasRenderer.render: does nothing (returns false) while muted. */
    method Render() returns (skipped: bool)
      ensures skipped == muted
    {
      skipped := muted;
    }
  }

  /** A renderer muted through `mute()` still renders, and a second `mute()`
      fails because the method has been overwritten. */
  method MutedRendererStillRenders() returns (skipped: bool, secondMuteOk: bool)
    ensures !skipped && !secondMuteOk
  {
    var renderer := new CanvasRenderer(RendererSettings(None, None, None));
    var ok := renderer.Mute();
    skipped := renderer.Render();
    secondMuteOk := renderer.Mute();
  }

  /** Muting through the `muted` flag stops rendering, and unmuting resumes it. */
  method IntendedMuteSilences() returns (skippedWhileMuted: bool, skippedAfter: bool)
    ensures skippedWhileMuted && !skippedAfter
  {
    var renderer := new CanvasRenderer(RendererSettings(None, None, None));
    renderer.MuteIntended();
    skippedWhileMuted := renderer.Render();
    renderer.UnmuteIntended();
    skippedAfter := renderer.Render();
  }

  /** start, start, stop, start: the second start is refused and a start
      after stop succeeds. */
  method StartStopCycle(first: int, second: int, third: int) returns (r1: bool, r2: bool, r3: bool)
    requires first > 0 && second > 0 && third > 0
    ensures !r1 && r2 && !r3
  {
    var renderer := new CanvasRenderer(RendererSettings(None, None, None));
    r1 := renderer.Start(first);
    r2 := renderer.Start(second);
    renderer.Stop();
    r3 := renderer.Start(third);
  }
}
