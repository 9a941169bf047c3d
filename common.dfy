/** Vocabulary shared by the pages: optional values, `Array.prototype.find`,
    images, the records handed from one page to the next, and the routes a
    page navigates to. */
module Common {
  import opened Filters

  datatype Option<T> = None | Some(value: T) {
    function GetOr(default: T): T {
      match this
      case Some(v) => v
      case None => default
    }
  }

  /** `i` is the first index of `s` whose element satisfies `p`. */
  ghost predicate FirstMatch<T>(s: seq<T>, p: T -> bool, i: int) {
    0 <= i < |s| && p(s[i]) && forall j :: 0 <= j < i ==> !p(s[j])
  }

  /** The index of the first element satisfying `p`, if any. */
  function FindIndex<T>(s: seq<T>, p: T -> bool): (r: Option<nat>)
    ensures r.Some? ==> FirstMatch(s, p, r.value)
    ensures r.None? <==> forall j :: 0 <= j < |s| ==> !p(s[j])
  {
    if s == [] then None
    else if p(s[0]) then Some(0)
    else match FindIndex(s[1..], p)
      case None => None
      case Some(i) => Some(i + 1)
  }

  /** `s.find(p)`: the first element satisfying `p`, if any. */
  function Find<T>(s: seq<T>, p: T -> bool): (r: Option<T>)
    ensures r.None? <==> forall j :: 0 <= j < |s| ==> !p(s[j])
    ensures r.Some? ==> p(r.value) && exists i :: FirstMatch(s, p, i) && s[i] == r.value
  {
    match FindIndex(s, p)
    case None => None
    case Some(i) => Some(s[i])
  }

  /** An axis-aligned rectangle in pixels. */
  datatype Rect = Rect(x: real, y: real, width: real, height: real)

  /** An encoded image, identified by how it was produced. The encoding
      itself (a data URL) is not modelled. */
  datatype Image =
    | Uploaded(file: string)
      /** A canvas of `width` x `height` holding the part `region` of `source`. */
    | Cropped(source: Image, region: Rect, width: real, height: real)
      /** A canvas of `width` x `height` holding `source`, rotated and filtered. */
    | Edited(source: Image, width: real, height: real, rotation: real, filter: Filter)
      /** A canvas nothing has been drawn on. */
    | Blank

  /** The print configuration chosen on the customisation page. */
  datatype Settings = Settings(
    selectedFormat: string,
    customWidth: string,
    customHeight: string,
    paperType: string,
    projectName: string)

  /** The navigation state handed between the customisation page and the
      editor: the cropped image on the way out, the edited image on the way
      back, each with the configuration it belongs to. */
  datatype Staging =
    | CropStaging(croppedImage: Image, settings: Settings)
    | EditStaging(editedImage: Image, settings: Settings)

  datatype Route =
    | CartView               // "/carrito"
    | EditPhoto              // "/editar-foto"
    | Customize(segment: string)   // "/personalizar/<segment>"
    | PaymentView            // "/pago"
    | OrderView(id: string)  // "/pedido/<id>"
    | Back                   // navigate(-1)

  /** What a page's guard decides on rendering: show the page, or render
      nothing and navigate away. */
  datatype Gate = Open | Redirect(to: Route)
}
