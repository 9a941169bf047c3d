# arte-ideas storefront: the photo-print order flow, in Dafny

This project models the order flow of the arte-ideas storefront, a React
shop for printed photos. It covers five parts of the shop:

- **Customisation page** (`CustomizePhoto`). The customer uploads a photo and drags a crop box over it inside a 440 x 440 area. They pick a print format from an eight-entry catalogue, or type their own dimensions, and the format fixes the box's aspect ratio. Applying the crop exports the boxed region at the photo's native resolution. "Add to cart" checks the project name and builds the cart line item with its format label, paper label and price.
- **Photo editor** (`PhotoEditor`). The editor combines a preset filter (Normal, B&N, Sepia, Vintage, Frío), four sliders (brightness, contrast, saturation, blur) and a rotation into one canvas draw of the cropped image. Saving goes back to the customisation page with the edited image and the configuration it came with.
- **Checkout page** (`Checkout`). It collects the customer's details and the choice of home delivery or pick-up, and computes shipping and the total. It validates the form. A valid form is stored in browser storage under `checkoutData`.
- **Payment page** (`Payment`). It formats card input as the customer types: the number is grouped in blocks of four digits, the expiry date gets a slash, and the CVV and length caps are applied. Submitting turns the cart and the stored checkout record into an order. It then empties the cart and removes the stored record.
- **Orders context** (`Orders`). Placed orders are kept newest first. Each order has an id taken from the clock and an order number of the form `#ABC0123` built from random draws. Orders are looked up by id.

Supporting modules:

- `Text`: the JavaScript string operations the pages use. These are white-space stripping and `trim` (on the JavaScript `\s` set), digit filtering, decimal printing and `padStart`.
- `Filters`: CSS filter expressions as lists of terms, and their rendering.
- `Common`: `Option`, `Array.prototype.find`, images, the navigation state passed between the pages, and routes.
- `Store`: the cart as a list of line items.

Modelling choices:

- **Images.** An image is a value that records how it was produced: uploaded, cropped (with the source region), edited (with the rotation and filter), or a blank canvas. Pixel contents are not modelled.
- **Navigation.** Navigating is a returned `Route` value. Navigation state is a `Staging` value. A page's render guard is a `Gate` value.
- **Browser storage.** Browser storage is a `Storage` object holding a map.
- **Outside inputs are parameters.** These are the clock (`now` in milliseconds, `today` as a calendar day number), the four `Math.random()` draws (`Draws`, each a real in [0, 1)), `parseFloat` (`string -> Option<real>`, with `None` for NaN) and JavaScript's number-to-string conversion (`show: real -> string`).

Some behaviours the code has that the model states outright:

- A format change resizes the crop box without re-clamping it. A box near the bottom of the area can end up partly outside it, until the next drag pulls it back (`FormatChangeCanOverflow`).
- On the payment page, deleting the slash of `MM/` puts it straight back (`ExpirySlashReturns`).
- After a successful payment the cart is empty and the checkout record is gone. The page's own render guard then sends the customer to the cart page. The navigation to the order page comes later, from a timer (`Payment.PaymentView.Submit`).
- Crop mapping scales each axis on its own. For a 400 x 400 display of a 1600 x 1200 photo, the box `{50, 50, 200, 200}` has its y scaled by 1200/400 = 3, which gives y = 150 (`NativeExample`).
- Saving in the editor navigates to `/personalizar/<format>`, with the format's white space replaced by `-`. The customisation page mounts afresh on that route and reads the segment as its product id. A line item added after editing therefore carries the format segment as its product id (`PhotoEditor.EditorRoundTrip`).

## Model

| member | source | states |
|---|---|---|
| Common.Find | src/contexts/OrdersContext.tsx:59 | `find` returns nothing exactly when no element matches; otherwise it returns the first matching element |
| Text.Trim | src/pages/CustomizePhoto.tsx:186 | `trim` leaves no white space at either end; the result is empty exactly when the input is all white space |
| Text.TrimKeepsContent | src/pages/Payment.tsx:42 | `trim` removes only white space |
| Filters.RenderNone | src/pages/PhotoEditor.tsx:71-73 | a filter renders as the keyword `none` exactly when it has no terms |
| Filters.RenderAppend | src/pages/PhotoEditor.tsx:73 | rendering two filters joined is the first's text, a space, then the second's, unless the first is `none` |
| Store.Cart.Add | src/pages/CustomizePhoto.tsx:197-205 | adding a line item appends it to the cart's items |
| Store.Cart.Clear | src/pages/Payment.tsx:101 | clearing the cart leaves no items |
| CustomizePhoto.FindFormat | src/pages/CustomizePhoto.tsx:52-61 | a catalogue lookup finds the entry with that size, if any; every entry has a positive price and sides, and a 200-wide box in its ratio is at most 440 high |
| CustomizePhoto.CatalogueFacts | src/pages/CustomizePhoto.tsx:52-61 | every catalogue entry has a positive price and dimensions, and its 200-wide box fits the 440 area |
| CustomizePhoto.ClampAxis | src/pages/CustomizePhoto.tsx:147-148 | a dragged coordinate stays in [0, 440 - size]; it is left unchanged when already inside; it becomes 0 below the area and 440 - size beyond it |
| CustomizePhoto.DragTo | src/pages/CustomizePhoto.tsx:143-151 | a drag keeps the box's size, keeps a box no larger than the area inside it, and follows the pointer exactly while that fits |
| CustomizePhoto.Ratio | src/pages/CustomizePhoto.tsx:113 | the aspect ratio of positive sides is positive, and ratio x height = width |
| CustomizePhoto.Resize | src/pages/CustomizePhoto.tsx:114-118 | after a resize the box is 200 wide, its height x ratio = 200, its height is positive and its origin is unchanged |
| CustomizePhoto.ToNative | src/pages/CustomizePhoto.tsx:27-41 | every side and coordinate of the box is scaled by natural / displayed size on its own axis |
| CustomizePhoto.CropImage | src/pages/CustomizePhoto.tsx:13-50 | without a 2D context the source comes back unchanged; otherwise the result is a canvas of the native rectangle's size holding that rectangle of the source |
| CustomizePhoto.LineItemFor | src/pages/CustomizePhoto.tsx:181-205 | adding is refused exactly when there is no crop or the project name is blank; otherwise the item carries the image, the id or "", the custom or catalogue format label, the catalogue price or 1.50, and "Mate" exactly for paper "mate" |
| CustomizePhoto.CustomizeView.constructor | src/pages/CustomizePhoto.tsx:74-83 | the page starts with no image, format "11x15 cm", paper "mate", box (50, 50, 200, 200) and no drag |
| CustomizePhoto.CustomizeView.Upload | src/pages/CustomizePhoto.tsx:98-107 | the read file becomes the uploaded image and nothing else changes |
| CustomizePhoto.CustomizeView.SelectFormat | src/pages/CustomizePhoto.tsx:109-120 | the format is recorded; a catalogue format resizes the box to its ratio; any other choice leaves the box alone |
| CustomizePhoto.CustomizeView.SetField | src/pages/CustomizePhoto.tsx:363-411 | an input's change sets exactly its own field of the configuration |
| CustomizePhoto.CustomizeView.ApplyCustomDimensions | src/pages/CustomizePhoto.tsx:122-133 | when both parsed dimensions are positive numbers the box takes their ratio; otherwise nothing changes |
| CustomizePhoto.CustomizeView.MouseDown | src/pages/CustomizePhoto.tsx:135-141 | a drag starts and the grab offset is pointer minus box origin |
| CustomizePhoto.CustomizeView.MouseMove | src/pages/CustomizePhoto.tsx:143-151 | during a drag the box moves to the clamped pointer position (inside the area when it fits); otherwise nothing changes |
| CustomizePhoto.CustomizeView.MouseUp | src/pages/CustomizePhoto.tsx:153-155 | the drag ends (also on mouse-leave) and nothing else changes |
| CustomizePhoto.CustomizeView.ApplyCrop | src/pages/CustomizePhoto.tsx:157-179 | the crop succeeds exactly when there is an uploaded image, a rendered image element, and either no 2D context or a draw and export that do not throw; then the cropped image is the crop of the current box, otherwise it is kept |
| CustomizePhoto.CustomizeView.NewCrop | src/pages/CustomizePhoto.tsx:295-298 | the cropped image is dropped and everything else is kept |
| CustomizePhoto.CustomizeView.OpenEditor | src/pages/CustomizePhoto.tsx:306-316 | goes to the editor carrying the cropped image and the whole configuration |
| CustomizePhoto.CustomizeView.ReturnFromEditor | src/pages/CustomizePhoto.tsx:86-96 | navigation state with an edited image replaces the cropped image and the configuration; other state changes nothing |
| CustomizePhoto.CustomizeView.AddToCart | src/pages/CustomizePhoto.tsx:181-209 | an accepted item is appended to the cart and the page goes to the cart; a refusal leaves the cart and the page as they were |
| CustomizePhoto.GrabAndHold | src/pages/CustomizePhoto.tsx:135-151 | grabbing a box and moving to the same point leaves the box where it was |
| CustomizePhoto.CatalogueBoxesFit | src/pages/CustomizePhoto.tsx:109-120 | every catalogue format gives a box no larger than the area |
| CustomizePhoto.FormatChangeCanOverflow | src/pages/CustomizePhoto.tsx:109-120 | a box inside the area can overflow it after a format change, since the resize does not clamp |
| CustomizePhoto.NativeExample | src/pages/CustomizePhoto.tsx:27-41 | a 400 x 400 display of a 1600 x 1200 photo maps (50, 50, 200, 200) to (200, 150, 800, 600) |
| PhotoEditor.PresetFilter | src/pages/PhotoEditor.tsx:71 | the preset name's first table entry gives its filter; an unknown name gives `none` |
| PhotoEditor.PresetLookup | src/pages/PhotoEditor.tsx:19-25 | "Normal" and unknown names give `none`, and "Sepia" gives `sepia(100%)` |
| PhotoEditor.Composed | src/pages/PhotoEditor.tsx:71-73 | the drawn filter is the preset's terms followed by the four adjustments |
| PhotoEditor.AdjustmentsText | src/pages/PhotoEditor.tsx:72 | the adjustment template is the rendering of brightness, contrast, saturate and blur terms |
| PhotoEditor.CustomFiltersText | src/pages/PhotoEditor.tsx:72 | the page's adjustment text is the rendering of the four adjustment terms, in order |
| PhotoEditor.FinalFilterText | src/pages/PhotoEditor.tsx:73 | the final text always ends with the adjustment text; it is exactly that text only after the keyword `none`, and otherwise it is the preset's text, a space and the adjustment text |
| PhotoEditor.FinalFilterIsComposed | src/pages/PhotoEditor.tsx:71-73 | the page's final filter text is exactly the rendering of the composed filter |
| PhotoEditor.FinalFilterShape | src/pages/PhotoEditor.tsx:73 | with preset `none` the text is the adjustments alone; otherwise it is the preset's text, a space and the adjustments |
| PhotoEditor.AdjustmentOrder | src/pages/PhotoEditor.tsx:72 | the last four terms are brightness, contrast, saturate and blur, with their values and units |
| PhotoEditor.DrawsDistinguishSettings | src/pages/PhotoEditor.tsx:64-78 | two draws with the same preset coincide only if every adjustment and the rotation coincide |
| PhotoEditor.EnterEditor | src/pages/PhotoEditor.tsx:41-46 | without a cropped image in the navigation state the page goes back; otherwise it shows that image with its configuration |
| PhotoEditor.RouteSegment | src/pages/PhotoEditor.tsx:102 | the route segment is the format with each white-space character replaced by `-`, and nothing else changed |
| PhotoEditor.Editor.constructor | src/pages/PhotoEditor.tsx:34-39 | the editor starts at preset Normal, 100/100/100, rotation 0, blur 0 |
| PhotoEditor.Editor.CurrentFilter | src/pages/PhotoEditor.tsx:70-73 | the next draw's filter ends with the current four adjustments |
| PhotoEditor.Editor.SelectFilter | src/pages/PhotoEditor.tsx:180 | choosing a preset changes only the selected preset |
| PhotoEditor.Editor.SetSlider | src/pages/PhotoEditor.tsx:198-270 | a slider sets only its own value, which stays within that slider's range |
| PhotoEditor.Editor.ResetFilters | src/pages/PhotoEditor.tsx:114-121 | reset restores preset Normal, 100/100/100, rotation 0 and blur 0 |
| PhotoEditor.Editor.ApplyFilters | src/pages/PhotoEditor.tsx:48-81 | with a loaded image and a context, the canvas takes the natural size and holds one rotated, filtered draw; otherwise it is untouched |
| PhotoEditor.Editor.SaveChanges | src/pages/PhotoEditor.tsx:93-112 | with a canvas, the editor returns to the format's route carrying the canvas image and the unchanged configuration |
| PhotoEditor.EditorRoundTrip | src/pages/PhotoEditor.tsx:93-112 | a crop sent to the editor and saved lands on a freshly mounted customisation page holding the saved canvas and exactly the configuration sent, on the format's route; a line item added there takes that route segment as its product id |
| Orders.RandomIndex | src/contexts/OrdersContext.tsx:41 | `Math.floor(r * n)` is the floor of r x n and lies below n |
| Orders.OrderNumber | src/contexts/OrdersContext.tsx:38-45 | an order number has eight characters: `#`, the three drawn letters, then four digits whose value is the number drawn below 10000 |
| Orders.LettersAreAlphabet | src/contexts/OrdersContext.tsx:39 | the letter table is A to Z in order |
| Orders.OrderNumberDecodes | src/contexts/OrdersContext.tsx:38-45 | the order number gives back each letter index and the number drawn |
| Orders.NewOrder | src/contexts/OrdersContext.tsx:47-53 | a new order's id is the clock's decimal digits (they read back as the time), it keeps the data given, and `createdAt` is the clock |
| Orders.FindById | src/contexts/OrdersContext.tsx:58-60 | lookup by id gives the first order with that id, or nothing exactly when none has it |
| Orders.OrderStore.constructor | src/contexts/OrdersContext.tsx:36 | the store starts empty |
| Orders.OrderStore.AddOrder | src/contexts/OrdersContext.tsx:47-56 | the new order goes first, its id is returned, and looking that id up finds it |
| Orders.OrderStore.GetOrderById | src/contexts/OrdersContext.tsx:58-60 | a found order has the id and is in the store; nothing is found exactly when no order has the id |
| Orders.FindAfterPrepend | src/contexts/OrdersContext.tsx:54-59 | a just-added order shadows any older order with the same id |
| Orders.FindOtherAfterPrepend | src/contexts/OrdersContext.tsx:54-60 | adding an order leaves lookups of other ids as they were |
| Checkout.Set | src/pages/Checkout.tsx:34-41 | an input change sets its own field and keeps every other field |
| Checkout.ShippingCost | src/pages/Checkout.tsx:31 | shipping is 5.0 exactly for home delivery and 0 exactly for pick-up |
| Checkout.Total | src/pages/Checkout.tsx:32 | the total is the cart total plus 5.0 for delivery, and the cart total for pick-up |
| Checkout.Validate | src/pages/Checkout.tsx:46-55 | a blank name, phone or DNI is reported first; for delivery, a blank address or city is reported next; otherwise the form passes |
| Checkout.CheckoutEntry | src/pages/Checkout.tsx:67-70 | an empty cart redirects to the cart page, and only an empty cart does |
| Checkout.Storage.SetItem | src/pages/Checkout.tsx:58-62 | storing sets exactly that key |
| Checkout.Storage.RemoveItem | src/pages/Payment.tsx:102 | removing drops exactly that key |
| Checkout.CheckoutView.constructor | src/pages/Checkout.tsx:19-29 | the form starts blank, with home delivery selected |
| Checkout.CheckoutView.InputChange | src/pages/Checkout.tsx:34-41 | the form changes in the named field only |
| Checkout.CheckoutView.SetDeliveryType | src/pages/Checkout.tsx:90-98 | the radio group sets the delivery type and keeps the form |
| Checkout.CheckoutView.Submit | src/pages/Checkout.tsx:43-65 | a filled-in e-mail address the browser rejects blocks the submit and nothing is stored; otherwise an invalid form is reported and storage is unchanged, and a valid one stores form, delivery type and total under `checkoutData` and goes to payment |
| Checkout.BrowserCatchesEmail | src/pages/Checkout.tsx:168-172 | a pick-up form with name, phone and DNI and the address "ana" passes the handler's checks, and only the browser's e-mail check stops it |
| Checkout.PickupNeedsNoAddress | src/pages/Checkout.tsx:52-55 | for pick-up, the address fields never block submission |
| Checkout.DeliveryStricterThanPickup | src/pages/Checkout.tsx:46-55 | every form accepted for delivery is accepted for pick-up, but not the other way round |
| Checkout.SetThenRestore | src/pages/Checkout.tsx:37-40 | writing a field's old value back undoes an edit |
| Text.StripWhitespace | src/pages/Payment.tsx:42 | `replace(/\s/g, "")` leaves no white space, and changes nothing in text without white space |
| Text.KeepDigits | src/pages/Payment.tsx:48 | `replace(/\D/g, "")` leaves only digits, and changes nothing in text of digits |
| Text.DecimalString | src/contexts/OrdersContext.tsx:50 | `toString` of a whole number gives a non-empty digit string without a leading zero (unless the number is 0) |
| Text.PadStart | src/contexts/OrdersContext.tsx:43 | `padStart` gives at least the width, ends with the original text, and fills the front with the pad character |
| Payment.GroupDigits | src/pages/Payment.tsx:42 | `/(\d{4})/g -> "$1 "` never shortens the text |
| Payment.GroupedLayout | src/pages/Payment.tsx:42 | in the grouped form every fifth character is a space, the rest are the digits in order, and the length is n + (n - 1) / 4 |
| Payment.GroupedEnds | src/pages/Payment.tsx:42 | the grouped form of digits neither starts nor ends with white space |
| Payment.GroupDigitsOfDigits | src/pages/Payment.tsx:42 | on digits, the replacement gives the grouped form, plus one trailing space when the last block is full |
| Payment.ShortRun | src/pages/Payment.tsx:42 | fewer than four characters are left unchanged |
| Payment.GroupDigitsKeepsContent | src/pages/Payment.tsx:42 | the replacement only inserts white space |
| Payment.FormatCardNumber | src/pages/Payment.tsx:42 | the shown card number never starts or ends with white space, and is empty exactly when only white space was typed |
| Payment.CardNumberKeepsContent | src/pages/Payment.tsx:42 | formatting keeps all non-white-space characters, in order |
| Payment.CardNumberIdempotent | src/pages/Payment.tsx:42 | formatting a formatted card number changes nothing |
| Payment.CardNumberOfDigits | src/pages/Payment.tsx:42 | a number typed as digits (white space aside) is shown in groups of four separated by single spaces |
| Payment.CardNumberCap | src/pages/Payment.tsx:42-43 | with digits only, the 19-character cap admits exactly the numbers of at most 16 digits |
| Payment.FormatExpiry | src/pages/Payment.tsx:47-52 | the expiry date keeps at most the first four digits typed; with two or more it is `MM/` followed by the next up to two digits, one longer than the digits kept; it is never longer than 5, so the length check never drops it |
| Payment.ExpiryIdempotent | src/pages/Payment.tsx:47-52 | formatting a formatted expiry date changes nothing |
| Payment.ExpirySlashReturns | src/pages/Payment.tsx:49-50 | two digits always come back with a slash |
| Payment.Formatted | src/pages/Payment.tsx:40-56 | the card number is formatted and dropped when over 19 characters; the expiry is formatted; a CVV over 3 characters is dropped; the name is kept as typed |
| Payment.SetCard | src/pages/Payment.tsx:58-61 | an accepted change sets its own card field and keeps every other field |
| Payment.Incomplete | src/pages/Payment.tsx:67 | submission is blocked exactly when some card field is blank |
| Payment.PaymentEntry | src/pages/Payment.tsx:28-32 | without a stored checkout record or with an empty cart the page redirects to the cart, and only then |
| Payment.OrderFor | src/pages/Payment.tsx:80-98 | the order carries the cart's items, the stored details and total, the cart total as subtotal, 5.0 shipping for delivery only, status processing, and a delivery day seven days on |
| Payment.PaymentView.constructor | src/pages/Payment.tsx:20-25 | the card fields start empty |
| Payment.PaymentView.InputChange | src/pages/Payment.tsx:36-62 | a change stores the formatted value in its own field, or is dropped; the length caps always hold |
| Payment.PaymentView.Submit | src/pages/Payment.tsx:28-108 | on a rendered page (checkout record stored, cart not empty), a blank card field stops submission with nothing changed; otherwise the order built from the cart and the stored checkout record is added first, the cart emptied, the record removed, the order page targeted, and the page's guard now redirects to the cart |
| Payment.TotalsAgree | src/pages/Payment.tsx:93-95 | with the cart total unchanged since checkout, the order's total is its subtotal plus its shipping |
| Payment.CheckoutOpensPayment | src/pages/Payment.tsx:28-32 | once a checkout record is stored and the cart is not empty, the payment page opens |

## Left out

- Rendering (JSX, layout, view modes), toasts and console output are not modelled. The one part of rendering that changes what the state becomes is the browser's constraint validation of forms; the lines below say how far it is covered.
- Canvas pixel work is not modelled: drawing, clearing, `translate`/`rotate` with `Math.PI`, the meaning of each CSS filter and `toDataURL` encoding as JPEG at quality 0.95. An image is identified by how it was produced.
- CustomizePhoto.CropImage: canvas `width`/`height` are integers in the browser, so a fractional native size is truncated; the model keeps exact reals.
- CustomizePhoto.CropImage: requires a positive displayed size; the code would divide by zero.
- CustomizePhoto.CustomizeView.ApplyCrop: the check on the container element is folded into the image element's presence. Why a draw or export throws (a tainted canvas, for one) is not modelled; the parameter `drawable` says whether it does.
- CustomizePhoto.CustomizeView.Upload: `FileReader` and data URLs are left out; the method receives the read image.
- CustomizePhoto.CustomizeView.ReturnFromEditor: React's effect scheduling (when and how often the effect runs) is not modelled; the method is one run of the effect.
- PhotoEditor.Editor.SetSlider: slider steps (1, and 0.1 for blur) are not modelled, only the ranges.
- PhotoEditor.Editor.ApplyFilters: the re-run of the draw after every state change (an effect) is left to the caller.
- Number-to-string conversion in filter text is the parameter `show`. `parseFloat` is a parameter too, so partial-prefix parsing is not modelled.
- CustomizePhoto.Resize: the code computes with IEEE double-precision numbers and the model with exact reals. So `200 / ratio`, `440 - size` in the clamps and the native scaling are exact here. Equalities such as height x ratio = 200 in `Resize`, and the sums in `InContainer`, can be off by rounding in the browser.
- Checkout.Total: `totalPrice + 5.0` is an exact sum here and a double in the code, so the stored total can differ from it by rounding.
- Payment.Formatted: JavaScript's `.length` counts UTF-16 code units and the model counts characters. The 19-, 5- and 3-character caps therefore differ for input outside the Basic Multilingual Plane, such as emoji.
- Orders.NewOrder: `Date.now()` and `new Date()` are one clock reading here; in the code they are two calls.
- Orders.OrderData: dates are numbers (milliseconds, or a calendar day for the delivery estimate). Time zones and time of day are not modelled.
- Checkout.CheckoutView.Submit: what counts as a valid e-mail address is the parameter `validEmail`. The `required` attributes also make the browser refuse a blank name, phone or DNI (and, for delivery, a blank address or city) before `handleSubmit` runs. The model reports that case through `Validate` instead. The state is the same either way: nothing is stored and the page stays; only the message differs.
- Payment.PaymentView.Submit: the four card inputs are `required`, so the browser refuses a blank one before `handleSubmit` runs. The model reports it as `Rejected`, which leaves the same state.
- CustomizePhoto.CustomizeView.SetField: the two custom-dimension inputs are `type="number"`, so the browser sanitises their values. The method receives the value the browser reports.
- Checkout.Storage: browser storage holds the record itself, not its JSON text. The JSON round trip and malformed stored data are not modelled.
- Payment.PaymentView.Submit: the 1.5-second timer before the order page opens is represented only by the returned route.
- Store.Cart: the cart context's own bookkeeping is not part of this model: item ids, quantities and `totalPrice`. The cart total is a parameter of checkout and payment.
- The other pages and components (cart page, product pages, order confirmation, header, routing table) are not part of this model.
