/** The photo customisation page: an interactive crop box over the uploaded
    photo, the print format that fixes the box's aspect ratio, the export of
    the boxed region at the photo's native resolution, and the rules that
    turn the result into a cart line item. Geometry is exact (`real`). */
module CustomizePhoto {
  import opened Text
  import opened Common
  import opened Store

  /** The drag handler clamps the box to a fixed 440 x 440 pixel area. */
  const ContainerSize: real := 440.0
  /** Every format change sets the box to this width. */
  const AnchorWidth: real := 200.0

  datatype Point = Point(x: real, y: real)

  /** The crop box in display pixels. */
  datatype CropBox = CropBox(x: real, y: real, width: real, height: real)

  /** The rendered `<img>`: its displayed size and its natural size. */
  datatype ImageElement = ImageElement(width: real, height: real, naturalWidth: real, naturalHeight: real)

  datatype FormatOption = FormatOption(size: string, price: real, width: real, height: real)

  const FormatOptions: seq<FormatOption> := [
    FormatOption("9x13 cm", 0.70, 9.0, 13.0),
    FormatOption("10x15 cm", 0.75, 10.0, 15.0),
    FormatOption("11x15 cm", 0.80, 11.0, 15.0),
    FormatOption("13x13 cm", 0.85, 13.0, 13.0),
    FormatOption("13x18 cm", 0.90, 13.0, 18.0),
    FormatOption("15x15 cm", 0.95, 15.0, 15.0),
    FormatOption("15x20 cm", 1.00, 15.0, 20.0),
    FormatOption("20x20 cm", 1.20, 20.0, 20.0)
  ]

  /** The price used when the selected format is not in the catalogue. */
  const CustomPrice: real := 1.50

  const InitialSettings := Settings("11x15 cm", "", "", "mate", "")
  const InitialBox := CropBox(50.0, 50.0, 200.0, 200.0)

  function HasSize(size: string): FormatOption -> bool {
    (f: FormatOption) => f.size == size
  }

  /** `formatOptions.find(f => f.size === size)` */
  function FindFormat(size: string): (r: Option<FormatOption>)
    ensures r.Some? ==> r.value.size == size && r.value in FormatOptions
    ensures r.Some? ==> r.value.price > 0.0 && r.value.width > 0.0 && r.value.height > 0.0
    ensures r.Some? ==> AnchorWidth / Ratio(r.value.width, r.value.height) <= ContainerSize
    ensures r.None? <==> forall i :: 0 <= i < |FormatOptions| ==> FormatOptions[i].size != size
  {
    CatalogueFacts();
    Find(FormatOptions, HasSize(size))
  }

  /** Every catalogue entry has a positive price and dimensions, and a box
      200 wide in its ratio is at most 440 high. */
  lemma CatalogueFacts()
    ensures forall f :: f in FormatOptions ==>
      && f.price > 0.0 && f.width > 0.0 && f.height > 0.0
      && AnchorWidth / Ratio(f.width, f.height) <= ContainerSize
  {
  }

  // ---------------------------------------------------------------------
  // Geometry

  function Max(a: real, b: real): real { if a >= b then a else b }
  function Min(a: real, b: real): real { if a <= b then a else b }

  /** `Math.max(0, Math.min(v, 440 - size))`: one coordinate of a dragged box. */
  function ClampAxis(v: real, size: real): (r: real)
    ensures size <= ContainerSize ==> 0.0 <= r && r + size <= ContainerSize
    ensures size > ContainerSize ==> r == 0.0
    ensures 0.0 <= v && v + size <= ContainerSize ==> r == v
    ensures v < 0.0 ==> r == 0.0
    ensures size <= ContainerSize && v + size > ContainerSize ==> r == ContainerSize - size
  {
    Max(0.0, Min(v, ContainerSize - size))
  }

  /** The box lies inside the 440 x 440 area. */
  predicate InContainer(b: CropBox) {
    0.0 <= b.x && b.x + b.width <= ContainerSize && 0.0 <= b.y && b.y + b.height <= ContainerSize
  }

  /** The box after the pointer moves to `p` during a drag that grabbed the
      box at offset `start` from its origin. */
  function DragTo(b: CropBox, p: Point, start: Point): (r: CropBox)
    ensures r.width == b.width && r.height == b.height
    ensures b.width <= ContainerSize && b.height <= ContainerSize ==> InContainer(r)
    ensures InContainer(b.(x := p.x - start.x, y := p.y - start.y)) ==> r == b.(x := p.x - start.x, y := p.y - start.y)
  {
    b.(x := ClampAxis(p.x - start.x, b.width), y := ClampAxis(p.y - start.y, b.height))
  }

  /** `w / h` for positive sides. */
  function Ratio(w: real, h: real): (r: real)
    requires w > 0.0 && h > 0.0
    ensures r > 0.0 && r * h == w
  {
    w / h
  }

  /** The box resized for an aspect ratio `ratio` = width / height: the
      width is anchored at 200 and the height follows; the origin stays. */
  function Resize(b: CropBox, ratio: real): (r: CropBox)
    requires ratio > 0.0
    ensures r.x == b.x && r.y == b.y
    ensures r.width == AnchorWidth && r.height * ratio == AnchorWidth
    ensures r.height > 0.0
  {
    b.(width := AnchorWidth, height := AnchorWidth / ratio)
  }

  /** The crop box mapped from display pixels to the photo's native pixels:
      each coordinate is scaled by natural / displayed size on its axis. */
  function ToNative(b: CropBox, el: ImageElement): (r: Rect)
    requires el.width > 0.0 && el.height > 0.0
    ensures r.x * el.width == b.x * el.naturalWidth
    ensures r.y * el.height == b.y * el.naturalHeight
    ensures r.width * el.width == b.width * el.naturalWidth
    ensures r.height * el.height == b.height * el.naturalHeight
  {
    var scaleX := el.naturalWidth / el.width;
    var scaleY := el.naturalHeight / el.height;
    Rect(b.x * scaleX, b.y * scaleY, b.width * scaleX, b.height * scaleY)
  }

  /** `cropImage`: without a 2D drawing context the source image comes back
      unchanged; otherwise a canvas the size of the native rectangle holds
      that rectangle of the source. */
  function CropImage(src: Image, b: CropBox, el: ImageElement, hasContext: bool): (r: Image)
    requires el.width > 0.0 && el.height > 0.0
    ensures !hasContext ==> r == src
    ensures hasContext ==> r.Cropped? && r.source == src && r.region == ToNative(b, el)
                           && r.width == r.region.width && r.height == r.region.height
  {
    if !hasContext then src
    else
      var region := ToNative(b, el);
      Cropped(src, region, region.width, region.height)
  }

  // ---------------------------------------------------------------------
  // The line item

  datatype AddError = NoCrop | NoProjectName

  datatype AddOutcome = Rejected(reason: AddError) | Added(item: LineItem)

  /** The format label: the custom dimensions when both are filled in,
      otherwise the selected catalogue format. */
  function FormatLabel(s: Settings): string {
    if s.customWidth != "" && s.customHeight != "" then s.customWidth + "x" + s.customHeight + " cm"
    else s.selectedFormat
  }

  /** `formatOptions.find(f => f.size === selected)?.price || 1.50` */
  function PriceOf(selected: string): real {
    match FindFormat(selected)
    case Some(f) => if f.price != 0.0 then f.price else CustomPrice
    case None => CustomPrice
  }

  function PaperLabel(paperType: string): string {
    if paperType == "mate" then "Mate" else "Brillante"
  }

  /** What "add to cart" does with the page's state: it refuses without a
      cropped image or with a blank project name, and otherwise builds the
      line item. */
  function LineItemFor(productId: Option<string>, cropped: Option<Image>, s: Settings): (r: AddOutcome)
    ensures r.Rejected? <==> cropped.None? || AllWhitespace(s.projectName)
    ensures cropped.None? ==> r == Rejected(NoCrop)
    ensures r.Added? ==>
      var item := r.item;
      && item.image == cropped.value
      && item.productId == productId.GetOr("")
      && item.productName == "Marco Personalizado"
      && item.projectName == s.projectName
      && (s.customWidth != "" && s.customHeight != "" ==> item.format == s.customWidth + "x" + s.customHeight + " cm")
      && (s.customWidth == "" || s.customHeight == "" ==> item.format == s.selectedFormat)
      && (FindFormat(s.selectedFormat).Some? ==> item.price == FindFormat(s.selectedFormat).value.price)
      && (FindFormat(s.selectedFormat).None? ==> item.price == CustomPrice)
      && (item.paperType == "Mate" <==> s.paperType == "mate")
      && (item.paperType == "Brillante" <==> s.paperType != "mate")
  {
    if cropped.None? then Rejected(NoCrop)
    else if Trim(s.projectName) == [] then Rejected(NoProjectName)
    else
      Added(LineItem(
        productId.GetOr(""),
        "Marco Personalizado",
        cropped.value,
        FormatLabel(s),
        PaperLabel(s.paperType),
        s.projectName,
        PriceOf(s.selectedFormat)))
  }

  // ---------------------------------------------------------------------
  // The page

  /** The input fields of the page whose `onChange` stores the typed text. */
  datatype DetailField = CustomWidth | CustomHeight | PaperType | ProjectName

  function SetDetail(s: Settings, f: DetailField, v: string): Settings {
    match f
    case CustomWidth => s.(customWidth := v)
    case CustomHeight => s.(customHeight := v)
    case PaperType => s.(paperType := v)
    case ProjectName => s.(projectName := v)
  }

  class CustomizeView {
    var uploadedImage: Option<Image>
    var croppedImage: Option<Image>
    var settings: Settings
    var cropBox: CropBox
    var isDragging: bool
    var dragStart: Point

    /** Every change of size anchors the width at 200 and keeps a positive height. */
    ghost predicate Valid()
      reads this
    {
      cropBox.width == AnchorWidth && cropBox.height > 0.0
    }

    constructor ()
      ensures Valid()
      ensures uploadedImage == None && croppedImage == None
      ensures settings == InitialSettings && cropBox == InitialBox
      ensures !isDragging && dragStart == Point(0.0, 0.0)
    {
      uploadedImage := None;
      croppedImage := None;
      settings := InitialSettings;
      cropBox := InitialBox;
      isDragging := false;
      dragStart := Point(0.0, 0.0);
    }

    /** The file reader has produced `image`. */
    method Upload(image: Image)
      modifies this
      ensures uploadedImage == Some(image)
      ensures croppedImage == old(croppedImage) && settings == old(settings)
      ensures cropBox == old(cropBox) && isDragging == old(isDragging) && dragStart == old(dragStart)
    {
      uploadedImage := Some(image);
    }

    /** `handleFormatChange`: records the choice and, for a catalogue format,
        resizes the box to its aspect ratio; any other choice (the custom
        entry "personalizado") leaves the box as it is. */
    method SelectFormat(format: string)
      requires Valid()
      modifies this
      ensures Valid()
      ensures settings == old(settings).(selectedFormat := format)
      ensures FindFormat(format).Some? ==>
                var f := FindFormat(format).value;
                cropBox == Resize(old(cropBox), Ratio(f.width, f.height))
      ensures FindFormat(format).None? ==> cropBox == old(cropBox)
      ensures uploadedImage == old(uploadedImage) && croppedImage == old(croppedImage)
      ensures isDragging == old(isDragging) && dragStart == old(dragStart)
    {
      settings := settings.(selectedFormat := format);
      var selected := FindFormat(format);
      if selected.Some? {
        var ratio := Ratio(selected.value.width, selected.value.height);
        cropBox := Resize(cropBox, ratio);
      }
    }

    /** An `onChange` of one of the text or paper inputs. */
    method SetField(f: DetailField, v: string)
      modifies this
      ensures settings == SetDetail(old(settings), f, v)
      ensures uploadedImage == old(uploadedImage) && croppedImage == old(croppedImage)
      ensures cropBox == old(cropBox) && isDragging == old(isDragging) && dragStart == old(dragStart)
    {
      settings := SetDetail(settings, f, v);
    }

    /** `handleCustomDimensions`: both custom dimensions are parsed (by
        `parseFloat`, `None` standing for NaN); when both are positive the
        box takes their aspect ratio, otherwise it is left as it is. */
    method ApplyCustomDimensions(parseFloat: string -> Option<real>)
      requires Valid()
      modifies this
      ensures Valid()
      ensures var w, h := parseFloat(settings.customWidth), parseFloat(settings.customHeight);
              if w.Some? && h.Some? && w.value > 0.0 && h.value > 0.0
              then cropBox == Resize(old(cropBox), Ratio(w.value, h.value))
              else cropBox == old(cropBox)
      ensures settings == old(settings)
      ensures uploadedImage == old(uploadedImage) && croppedImage == old(croppedImage)
      ensures isDragging == old(isDragging) && dragStart == old(dragStart)
    {
      var width := parseFloat(settings.customWidth);
      var height := parseFloat(settings.customHeight);
      if width.Some? && height.Some? && width.value > 0.0 && height.value > 0.0 {
        cropBox := Resize(cropBox, Ratio(width.value, height.value));
      }
    }

    /** `handleMouseDown` on the crop box: starts a drag and remembers where
        the pointer grabbed the box. */
    method MouseDown(p: Point)
      modifies this
      ensures isDragging
      ensures dragStart == Point(p.x - cropBox.x, p.y - cropBox.y)
      ensures cropBox == old(cropBox) && settings == old(settings)
      ensures uploadedImage == old(uploadedImage) && croppedImage == old(croppedImage)
    {
      isDragging := true;
      dragStart := Point(p.x - cropBox.x, p.y - cropBox.y);
    }

    /** `handleMouseMove`: while dragging, the box follows the pointer,
        clamped to the 440 x 440 area; otherwise nothing happens. */
    method MouseMove(p: Point)
      requires Valid()
      modifies this
      ensures Valid()
      ensures old(isDragging) ==> cropBox == DragTo(old(cropBox), p, dragStart)
      ensures !old(isDragging) ==> cropBox == old(cropBox)
      ensures isDragging && cropBox.height <= ContainerSize ==> InContainer(cropBox)
      ensures isDragging == old(isDragging) && dragStart == old(dragStart) && settings == old(settings)
      ensures uploadedImage == old(uploadedImage) && croppedImage == old(croppedImage)
    {
      if isDragging {
        cropBox := DragTo(cropBox, p, dragStart);
      }
    }

    /** `handleMouseUp`, also bound to mouse-leave: ends the drag. */
    method MouseUp()
      modifies this
      ensures !isDragging
      ensures cropBox == old(cropBox) && dragStart == old(dragStart) && settings == old(settings)
      ensures uploadedImage == old(uploadedImage) && croppedImage == old(croppedImage)
    {
      isDragging := false;
    }

    /** `handleApplyCrop`: with an uploaded photo and a rendered image
        element the box is exported through `cropImage`; otherwise it fails
        and nothing changes. `drawable` says whether drawing the image into
        the canvas and exporting it succeed; when a 2D context exists and
        they throw, the promise rejects, the error is caught and the cropped
        image is kept as it was. */
    method ApplyCrop(el: Option<ImageElement>, hasContext: bool, drawable: bool) returns (ok: bool)
      requires el.Some? ==> el.value.width > 0.0 && el.value.height > 0.0
      modifies this
      ensures uploadedImage == old(uploadedImage) && settings == old(settings)
      ensures ok <==> uploadedImage.Some? && el.Some? && (!hasContext || drawable)
      ensures ok ==> croppedImage == Some(CropImage(uploadedImage.value, cropBox, el.value, hasContext))
      ensures !ok ==> croppedImage == old(croppedImage)
      ensures cropBox == old(cropBox) && isDragging == old(isDragging) && dragStart == old(dragStart)
    {
      if uploadedImage.None? || el.None? {
        return false;
      }
      if hasContext && !drawable {
        return false;
      }
      croppedImage := Some(CropImage(uploadedImage.value, cropBox, el.value, hasContext));
      ok := true;
    }

    /** "Hacer Nuevo Recorte": drops the cropped image so the box is
        editable again. */
    method NewCrop()
      modifies this
      ensures croppedImage == None
      ensures uploadedImage == old(uploadedImage) && settings == old(settings)
      ensures cropBox == old(cropBox) && isDragging == old(isDragging) && dragStart == old(dragStart)
    {
      croppedImage := None;
    }

    /** "Editar Foto" (shown only once there is a cropped image): opens the
        editor with the cropped image and the configuration. */
    method OpenEditor() returns (route: Route, state: Staging)
      requires croppedImage.Some?
      ensures route == EditPhoto
      ensures state.CropStaging? && state.croppedImage == croppedImage.value && state.settings == settings
    {
      route := EditPhoto;
      state := CropStaging(croppedImage.value, settings);
    }

    /** The effect run when the page is entered: navigation state carrying
        an edited image replaces the cropped image and the configuration;
        anything else leaves the page as it is. */
    method ReturnFromEditor(state: Option<Staging>)
      modifies this
      ensures state.Some? && state.value.EditStaging? ==>
                croppedImage == Some(state.value.editedImage) && settings == state.value.settings
      ensures !(state.Some? && state.value.EditStaging?) ==>
                croppedImage == old(croppedImage) && settings == old(settings)
      ensures uploadedImage == old(uploadedImage)
      ensures cropBox == old(cropBox) && isDragging == old(isDragging) && dragStart == old(dragStart)
    {
      if state.Some? && state.value.EditStaging? {
        croppedImage := Some(state.value.editedImage);
        settings := state.value.settings;
      }
    }

    /** `handleAddToCart`: adds the line item to the cart, or refuses and
        leaves the cart alone. */
    method AddToCart(productId: Option<string>, cart: Cart) returns (r: AddOutcome, route: Option<Route>)
      modifies cart
      ensures r == LineItemFor(productId, croppedImage, settings)
      ensures r.Added? ==> cart.items == old(cart.items) + [r.item] && route == Some(CartView)
      ensures r.Rejected? ==> cart.items == old(cart.items) && route == None
    {
      r := LineItemFor(productId, croppedImage, settings);
      if r.Added? {
        cart.Add(r.item);
        route := Some(CartView);
      } else {
        route := None;
      }
    }
  }

  // ---------------------------------------------------------------------
  // Properties

  /** A drag that does not move the pointer keeps the box where it is. */
  lemma GrabAndHold(b: CropBox, p: Point)
    requires InContainer(b)
    ensures DragTo(b, p, Point(p.x - b.x, p.y - b.y)) == b
  {
  }

  /** Every catalogue format gives a box that fits the 440 x 440 area, so
      the next drag brings it fully inside. */
  lemma CatalogueBoxesFit(b: CropBox, format: string)
    requires FindFormat(format).Some?
    ensures var f := FindFormat(format).value;
            var r := Resize(b, Ratio(f.width, f.height));
            r.width <= ContainerSize && r.height <= ContainerSize
  {
  }

  /** A format change does not re-clamp the box: a box at the bottom of
      the area overflows it once a taller format is chosen. */
  lemma FormatChangeCanOverflow()
    ensures var b := CropBox(50.0, 240.0, 200.0, 200.0);
            var f := FindFormat("9x13 cm");
            && InContainer(b) && f.Some?
            && !InContainer(Resize(b, Ratio(f.value.width, f.value.height)))
  {
    var f := FindFormat("9x13 cm");
    assert FirstMatch(FormatOptions, HasSize("9x13 cm"), 0);
    assert f.value == FormatOptions[0];
  }

  /** The native rectangle of an example: a 400 x 400 display of a
      1600 x 1200 photo maps the box (50, 50, 200, 200) to (200, 150, 800, 600). */
  lemma NativeExample()
    ensures ToNative(CropBox(50.0, 50.0, 200.0, 200.0), ImageElement(400.0, 400.0, 1600.0, 1200.0))
         == Rect(200.0, 150.0, 800.0, 600.0)
  {
  }
}
