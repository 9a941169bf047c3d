/** The photo editor page: a preset filter and four continuous adjustments
    (brightness, contrast, saturation, blur) plus a rotation are combined
    into one canvas draw of the cropped image, and saving hands the result
    back to the customisation page with the configuration it came with. */
module PhotoEditor {
  import opened Text
  import opened Filters
  import opened Common
  import opened CustomizePhoto

  datatype Preset = Preset(name: string, filter: Filter)

  /** The preset table; "Normal" is the keyword `none`. */
  const Presets: seq<Preset> := [
    Preset("Normal", []),
    Preset("B&N", [Term("grayscale", 100.0, Percent)]),
    Preset("Sepia", [Term("sepia", 100.0, Percent)]),
    Preset("Vintage", [Term("sepia", 50.0, Percent), Term("contrast", 85.0, Percent), Term("brightness", 95.0, Percent)]),
    Preset("Fr\U{ED}o", [Term("brightness", 110.0, Percent), Term("contrast", 90.0, Percent),
                       Term("saturate", 110.0, Percent), Term("hue-rotate", 180.0, Deg)])
  ]

  function Named(name: string): Preset -> bool {
    (p: Preset) => p.name == name
  }

  /** `filters.find(f => f.name === name)?.filter || "none"` */
  function PresetFilter(name: string): (r: Filter)
    ensures forall i :: FirstMatch(Presets, Named(name), i) ==> r == Presets[i].filter
    ensures (forall i :: 0 <= i < |Presets| ==> Presets[i].name != name) ==> r == []
  {
    match Find(Presets, Named(name))
    case Some(p) => p.filter
    case None => []
  }

  /** The four continuous adjustments, always in this order. */
  function Adjustments(brightness: real, contrast: real, saturation: real, blur: real): Filter {
    [ Term("brightness", brightness, Percent),
      Term("contrast", contrast, Percent),
      Term("saturate", saturation, Percent),
      Term("blur", blur, Px) ]
  }

  /** The filter the editor draws with: the preset's terms, then the four
      adjustments. */
  function Composed(preset: string, brightness: real, contrast: real, saturation: real, blur: real): (r: Filter)
    ensures |r| == |PresetFilter(preset)| + 4
    ensures r[..|r| - 4] == PresetFilter(preset)
    ensures r[|r| - 4..] == Adjustments(brightness, contrast, saturation, blur)
  {
    PresetFilter(preset) + Adjustments(brightness, contrast, saturation, blur)
  }

  /** The text `brightness(b%) contrast(c%) saturate(s%) blur(bpx)` as the
      page writes it: the rendering of the four adjustments. */
  function CustomFiltersText(brightness: real, contrast: real, saturation: real, blur: real,
                             show: real -> string): (r: string)
    ensures r == Render(Adjustments(brightness, contrast, saturation, blur), show)
  {
    AdjustmentsText(brightness, contrast, saturation, blur, show);
    "brightness(" + show(brightness) + "%) contrast(" + show(contrast) + "%) saturate("
      + show(saturation) + "%) blur(" + show(blur) + "px)"
  }

  /** The page's final filter text: the adjustments alone after the keyword
      `none`, otherwise the preset's text, a space and the adjustments. */
  function FinalFilterText(filterValue: string, customFilters: string): (r: string)
    ensures |r| >= |customFilters| && r[|r| - |customFilters|..] == customFilters
    ensures |r| == |customFilters| <==> filterValue == "none"
    ensures filterValue != "none" ==> r == filterValue + " " + customFilters
  {
    if filterValue == "none" then customFilters else filterValue + " " + customFilters
  }

  // ---------------------------------------------------------------------
  // Navigation state

  datatype Entry = Show(source: Image, settings: Settings) | Leave(route: Route)

  /** The guard on entry: without a cropped image in the navigation state
      the page renders nothing and goes back. */
  function EnterEditor(state: Option<Staging>): (r: Entry)
    ensures r.Leave? <==> !(state.Some? && state.value.CropStaging?)
    ensures r.Leave? ==> r.route == Back
    ensures r.Show? ==> r.source == state.value.croppedImage && r.settings == state.value.settings
  {
    match state
    case Some(CropStaging(image, settings)) => Show(image, settings)
    case _ => Leave(Back)
  }

  /** The route segment of the customisation page: the selected format with
      every white-space character replaced by `-`. */
  function RouteSegment(selectedFormat: string): (r: string)
    ensures |r| == |selectedFormat| && NoWhitespace(r)
    ensures forall i :: 0 <= i < |r| && !IsWhitespace(selectedFormat[i]) ==> r[i] == selectedFormat[i]
    ensures forall i :: 0 <= i < |r| && IsWhitespace(selectedFormat[i]) ==> r[i] == '-'
  {
    ReplaceWhitespace(selectedFormat, '-')
  }

  datatype Slider = Brightness | Contrast | Saturation | Rotation | Blur

  /** The least value a slider delivers. */
  function Lo(s: Slider): real {
    match s
    case Rotation => -180.0
    case _ => 0.0
  }

  /** The greatest value a slider delivers. */
  function Hi(s: Slider): real {
    match s
    case Rotation => 180.0
    case Blur => 10.0
    case _ => 200.0
  }

  class Editor {
    const source: Image
    const settings: Settings
    var selectedFilter: string
    var brightness: real
    var contrast: real
    var saturation: real
    var rotation: real
    var blur: real
    /** What the output canvas holds. */
    var canvas: Image

    /** Every adjustment lies in its slider's range. */
    ghost predicate Valid()
      reads this
    {
      && Lo(Brightness) <= brightness <= Hi(Brightness)
      && Lo(Contrast) <= contrast <= Hi(Contrast)
      && Lo(Saturation) <= saturation <= Hi(Saturation)
      && Lo(Rotation) <= rotation <= Hi(Rotation)
      && Lo(Blur) <= blur <= Hi(Blur)
    }

    /** The adjustments are neutral. */
    predicate Neutral()
      reads this
    {
      && selectedFilter == "Normal"
      && brightness == 100.0 && contrast == 100.0 && saturation == 100.0
      && rotation == 0.0 && blur == 0.0
    }

    /** The page as it first renders, for a navigation state that passed
        `EnterEditor`. */
    constructor (source: Image, settings: Settings)
      ensures this.source == source && this.settings == settings
      ensures Neutral() && Valid() && canvas == Blank
    {
      this.source := source;
      this.settings := settings;
      selectedFilter := "Normal";
      brightness, contrast, saturation := 100.0, 100.0, 100.0;
      rotation, blur := 0.0, 0.0;
      canvas := Blank;
    }

    /** The filter the next draw uses. */
    function CurrentFilter(): (f: Filter)
      reads this
      ensures |f| >= 4
      ensures f[|f| - 4..] == Adjustments(brightness, contrast, saturation, blur)
    {
      Composed(selectedFilter, brightness, contrast, saturation, blur)
    }

    /** A click on a preset button. */
    method SelectFilter(name: string)
      requires Valid()
      modifies this
      ensures Valid()
      ensures selectedFilter == name
      ensures brightness == old(brightness) && contrast == old(contrast) && saturation == old(saturation)
      ensures rotation == old(rotation) && blur == old(blur) && canvas == old(canvas)
    {
      selectedFilter := name;
    }

    /** A slider's `onValueChange`, with a value in the slider's range. */
    method SetSlider(s: Slider, v: real)
      requires Valid() && Lo(s) <= v <= Hi(s)
      modifies this
      ensures Valid()
      ensures brightness == (if s == Brightness then v else old(brightness))
      ensures contrast == (if s == Contrast then v else old(contrast))
      ensures saturation == (if s == Saturation then v else old(saturation))
      ensures rotation == (if s == Rotation then v else old(rotation))
      ensures blur == (if s == Blur then v else old(blur))
      ensures selectedFilter == old(selectedFilter) && canvas == old(canvas)
    {
      match s
      case Brightness => brightness := v;
      case Contrast => contrast := v;
      case Saturation => saturation := v;
      case Rotation => rotation := v;
      case Blur => blur := v;
    }

    /** `resetFilters`: back to the neutral adjustments. */
    method ResetFilters()
      modifies this
      ensures Neutral() && Valid()
      ensures canvas == old(canvas)
    {
      selectedFilter := "Normal";
      brightness, contrast, saturation := 100.0, 100.0, 100.0;
      rotation, blur := 0.0, 0.0;
    }

    /** `applyFilters`: when the image has loaded (with natural size
        `natural`) and the canvas has a 2D context, the canvas takes the
        image's natural size and holds one draw of the image, rotated and
        filtered by the current state; otherwise nothing is drawn. */
    method ApplyFilters(natural: Option<(real, real)>, hasContext: bool)
      modifies this`canvas
      ensures natural.Some? && hasContext ==>
                canvas == Edited(source, natural.value.0, natural.value.1, rotation, CurrentFilter())
      ensures !(natural.Some? && hasContext) ==> canvas == old(canvas)
    {
      if natural.None? || !hasContext {
        return;
      }
      canvas := Edited(source, natural.value.0, natural.value.1, rotation, CurrentFilter());
    }

    /** `handleSaveChanges`: with a mounted canvas, goes back to the
        customisation page carrying the canvas's image and the incoming
        configuration unchanged. */
    method SaveChanges(canvasMounted: bool) returns (r: Option<(Route, Staging)>)
      ensures !canvasMounted ==> r == None
      ensures canvasMounted ==>
                r == Some((Customize(RouteSegment(settings.selectedFormat)), EditStaging(canvas, settings)))
    {
      if !canvasMounted {
        return None;
      }
      r := Some((Customize(RouteSegment(settings.selectedFormat)), EditStaging(canvas, settings)));
    }
  }

  // ---------------------------------------------------------------------
  // Properties

  /** "Normal" and every name outside the table give the keyword `none`;
      a table name gives its own terms. */
  lemma PresetLookup(name: string)
    ensures name == "Normal" ==> PresetFilter(name) == []
    ensures name == "Sepia" ==> PresetFilter(name) == [Term("sepia", 100.0, Percent)]
    ensures (forall i :: 0 <= i < |Presets| ==> Presets[i].name != name) ==> PresetFilter(name) == []
  {
    if name == "Normal" {
      assert FirstMatch(Presets, Named(name), 0);
    } else if name == "Sepia" {
      assert Presets[0].name != name && Presets[1].name != name;
      assert FirstMatch(Presets, Named(name), 2);
    }
  }

  /** The text the page builds is the rendering of the composed filter:
      preset first, then brightness, contrast, saturate and blur. */
  lemma FinalFilterIsComposed(preset: string, brightness: real, contrast: real, saturation: real,
                              blur: real, show: real -> string)
    ensures FinalFilterText(Render(PresetFilter(preset), show),
                            CustomFiltersText(brightness, contrast, saturation, blur, show))
         == Render(Composed(preset, brightness, contrast, saturation, blur), show)
  {
    var adj := Adjustments(brightness, contrast, saturation, blur);
    RenderAppend(PresetFilter(preset), adj, show);
  }

  /** The four adjustments render as the page's adjustment template. */
  lemma AdjustmentsText(brightness: real, contrast: real, saturation: real, blur: real, show: real -> string)
    ensures Render(Adjustments(brightness, contrast, saturation, blur), show)
         == "brightness(" + show(brightness) + "%) contrast(" + show(contrast) + "%) saturate("
              + show(saturation) + "%) blur(" + show(blur) + "px)"
  {
    var adj := Adjustments(brightness, contrast, saturation, blur);
    var t1, t2 := TermText(adj[0], show), TermText(adj[1], show);
    var t3, t4 := TermText(adj[2], show), TermText(adj[3], show);
    assert adj[1..][1..][1..] == [adj[3]];
    assert Join(adj[1..][1..], show) == t3 + " " + t4;
    assert Join(adj[1..], show) == t2 + " " + (t3 + " " + t4);
    assert Join(adj, show) == t1 + " " + (t2 + " " + (t3 + " " + t4));
    var sb, sc, ss, sl := show(brightness), show(contrast), show(saturation), show(blur);
    assert t1 + " " == "brightness(" + sb + "%) ";
    assert t2 + " " == "contrast(" + sc + "%) ";
    assert t3 + " " == "saturate(" + ss + "%) ";
    assert t4 == "blur(" + sl + "px)";
    assert Join(adj, show) == (t1 + " ") + (t2 + " ") + (t3 + " ") + t4;
    TemplatePieces(sb, sc, ss, sl);
  }

  /** The adjustment template, cut at the spaces between its terms. */
  lemma TemplatePieces(sb: string, sc: string, ss: string, sl: string)
    ensures "brightness(" + sb + "%) contrast(" + sc + "%) saturate(" + ss + "%) blur(" + sl + "px)"
         == ("brightness(" + sb + "%) ") + ("contrast(" + sc + "%) ") + ("saturate(" + ss + "%) ") + ("blur(" + sl + "px)")
  {
    assert "%) contrast(" == "%) " + "contrast(";
    assert "%) saturate(" == "%) " + "saturate(";
    assert "%) blur(" == "%) " + "blur(";
  }

  /** With the preset `none` the final text is exactly the adjustments;
      otherwise it is the preset's text, one space, then the adjustments. */
  lemma FinalFilterShape(preset: string, brightness: real, contrast: real, saturation: real,
                         blur: real, show: real -> string)
    ensures var custom := CustomFiltersText(brightness, contrast, saturation, blur, show);
            var text := Render(Composed(preset, brightness, contrast, saturation, blur), show);
            && (PresetFilter(preset) == [] ==> text == custom)
            && (PresetFilter(preset) != [] ==> text == Render(PresetFilter(preset), show) + " " + custom)
  {
    FinalFilterIsComposed(preset, brightness, contrast, saturation, blur, show);
    RenderNone(PresetFilter(preset), show);
  }

  /** Each adjustment appears exactly once among the last four terms, in
      the order brightness, contrast, saturate, blur. */
  lemma AdjustmentOrder(preset: string, brightness: real, contrast: real, saturation: real, blur: real)
    ensures var f := Composed(preset, brightness, contrast, saturation, blur);
            var n := |f|;
            && f[n - 4] == Term("brightness", brightness, Percent)
            && f[n - 3] == Term("contrast", contrast, Percent)
            && f[n - 2] == Term("saturate", saturation, Percent)
            && f[n - 1] == Term("blur", blur, Px)
  {
    var f := Composed(preset, brightness, contrast, saturation, blur);
    assert f[|f| - 4..][0] == f[|f| - 4];
    assert f[|f| - 4..][3] == f[|f| - 1];
  }

  /** Two draws of the same image with the same preset agree only when
      every adjustment and the rotation agree: no setting is lost on the
      way to the canvas. */
  lemma {:induction false} DrawsDistinguishSettings(src: Image, w: real, h: real, preset: string,
                                 b1: real, c1: real, s1: real, l1: real, r1: real,
                                 b2: real, c2: real, s2: real, l2: real, r2: real)
    requires Edited(src, w, h, r1, Composed(preset, b1, c1, s1, l1))
          == Edited(src, w, h, r2, Composed(preset, b2, c2, s2, l2))
    ensures b1 == b2 && c1 == c2 && s1 == s2 && l1 == l2 && r1 == r2
  {
    AdjustmentOrder(preset, b1, c1, s1, l1);
    AdjustmentOrder(preset, b2, c2, s2, l2);
  }

  /** The round trip through the editor: a cropped image and a
      configuration enter the editor, the canvas is saved, and the
      customisation page mounted on the route the editor navigates to holds
      the saved canvas and exactly the configuration that entered. The route
      segment is the format with its white space replaced, and the
      customisation page reads that segment as its product id, so a line
      item added there carries the format in place of the product id. */
  method EditorRoundTrip(cropped: Image, s: Settings, natural: Option<(real, real)>, hasContext: bool)
      returns (editor: Editor, view: CustomizeView, route: Route)
    ensures EnterEditor(Some(CropStaging(cropped, s))) == Show(cropped, s)
    ensures editor.source == cropped && editor.settings == s
    ensures natural.Some? && hasContext ==> editor.canvas.Edited? && editor.canvas.source == cropped
    ensures route == Customize(RouteSegment(s.selectedFormat))
    ensures view.settings == s && view.croppedImage == Some(editor.canvas)
    ensures view.uploadedImage == None
    ensures var item := LineItemFor(Some(route.segment), view.croppedImage, view.settings);
            item.Added? ==> item.item.productId == RouteSegment(s.selectedFormat)
  {
    var entry := EnterEditor(Some(CropStaging(cropped, s)));
    editor := new Editor(entry.source, entry.settings);
    editor.ApplyFilters(natural, hasContext);
    var saved := editor.SaveChanges(true);
    route := saved.value.0;
    view := new CustomizeView();
    view.ReturnFromEditor(Some(saved.value.1));
  }
}
