# Photography studio website: page logic in Dafny

This project models the logic behind the React pages of a photography studio's website,
together with the pure helpers of its hosted-backend client, and proves properties of
that logic. The parts modelled are:

- **the booking wizard** (`BookNow`). A three-step state machine over `step` and a record
  of twelve string keys (`bookingData`). It offers service cards, a Change Service
  button, ten date buttons drawn from the next thirty days without Sundays, nine time
  slots, and a form whose submit clears everything. It also draws a step indicator and a
  progress bar.
- **the digital-product shop** (`PSDFilesPage`). The category filter over six products,
  the cart (append, remove by id, clear, total of the discounted prices), the category
  name shown in the details view (no name for the two "templates" products) and the
  preview count.
- **the home page's portfolio rendering** (`HomePage-Coder`). The image chosen for a
  portfolio document: the first of five id fields, else a stock photo chosen by keywords
  in the title. It also covers the 100-character card description with its "...", four
  cards and at most eight gallery tiles.
- **the backend client's pure part** (`appwrite.js`). The storage preview and view URLs,
  and the shaping of a collection listing into a status record.
- **the course page** (`CourseSalesPage`). The category filter over six courses, whose
  four non-'all' buttons split the catalogue between them.
- **the contact form** (`Contact`). Four controlled inputs, a change handler for one
  named key, and a submit that resets the record.

There is one module per source file, plus `Common`. `Common` holds `Option`, `filter`
(`Keep`), `find` (`FindFirst`), `slice(0, n)` (`Take`), and ASCII `toLowerCase` and
`includes`. Stateful components are classes whose fields the handlers replace. Each
handler is tied by its `ensures` to a pure transition function. The lemmas are stated
about those functions: reachable-state invariants, frame conditions, round-trips and
partitions.

Conventions:

- A string field a document lacks, or a JavaScript `undefined`/`null` string, is the
  empty string. Both are falsy in the same way.
- A calendar day is an integer counted from 1970-01-01, a Thursday. `Weekday` follows
  `getDay` (0 is Sunday).
- The environment variables of the backend endpoint, project and bucket are the
  parameter `Storage.Env`.

The booking page has no month grouping or month paging of its dates. Its time buttons
are drawn only once a date is set (`Booking.Offered`), and nothing else refuses a time
without a date.

## Model

| member | source | states |
|---|---|---|
| Common.Keep | src/components/PSDFilesPage.jsx:312-314 | `filter` keeps exactly the elements passing the test and is never longer than its input |
| Common.KeepCounts | src/components/PSDFilesPage.jsx:312-314 | a filter keeps each passing element with its original multiplicity and drops every other element entirely |
| Common.KeepAppend | src/components/PSDFilesPage.jsx:408-410 | filtering a concatenation concatenates the filtered parts, so a filter keeps the original order |
| Common.KeepAll | src/components/CourseSalesPage.jsx:241-243 | a filter every element passes returns its input unchanged |
| Common.KeepNone | src/components/PSDFilesPage.jsx:408-410 | a filter no element passes returns the empty list |
| Common.FindFirst | src/components/PSDFilesPage.jsx:937 | `find` returns none exactly when no element matches, otherwise a matching element with no match before it |
| Common.FindFirstAt | src/components/PSDFilesPage.jsx:937 | an element that matches with no match before it is the one `find` returns |
| Common.LowerChar | src/components/HomePage-Coder.jsx:74-82 | an ASCII capital becomes the lower-case letter of the same place in the alphabet; every other character is kept |
| Common.Includes | src/components/HomePage-Coder.jsx:74-82 | a string can include only a needle no longer than itself |
| Common.Take | src/components/HomePage-Coder.jsx:346 | `slice(0, n)` is a prefix of length min(n, length) |
| Common.ToLower | src/components/HomePage-Coder.jsx:74-82 | lower-casing keeps the length and maps each character through the ASCII lower-case map |
| Common.IncludesAt | src/components/HomePage-Coder.jsx:74-82 | `includes` holds exactly when the needle occurs at some position of the string |
| Common.ToLowerIdempotent | src/components/HomePage-Coder.jsx:74-82 | lower-casing an already lower-cased string changes nothing |
| Common.IncludesSome | src/components/HomePage-Coder.jsx:74-82 | a string that includes a needle has an occurrence of it at some position |
| Common.OccursIncludes | src/components/HomePage-Coder.jsx:74-82 | an occurrence at any position makes `includes` hold |
| Common.IncludesPrefix | src/components/HomePage-Coder.jsx:74-82 | a string that includes a word includes every prefix of it |
| Storage.FileBase | src/appwrite.js:132 | every storage URL of a file starts with the endpoint and has the length of its parts |
| Storage.GetFilePreviewUrl | src/appwrite.js:126-133 | null exactly for a falsy id; otherwise the file's base followed by `preview`, the project and the fixed 800x600 size |
| Storage.GetFileViewUrl | src/appwrite.js:136-143 | null exactly for a falsy id; otherwise the file's base followed by `view` and the project |
| Storage.PreviewAndViewShareBase | src/appwrite.js:126-143 | for an id that is set, both URLs exist, share the file's base, and differ in the character right after it |
| Storage.CheckCollectionStatus | src/appwrite.js:161-181 | `exists` is true exactly when the listing succeeded; then `count` is the total and `hasDocuments` holds iff the page is non-empty; otherwise `error` is the thrown message |
| Portfolio.ResolveImageId | src/components/HomePage-Coder.jsx:60 | the id is empty exactly when all five id fields are empty; otherwise it is the first non-empty one in `||` order |
| Portfolio.FallbackTitle | src/components/HomePage-Coder.jsx:72 | the title, or the service name when the title is empty |
| Portfolio.FallbackImage | src/components/HomePage-Coder.jsx:72-87 | the fallback is always one of the four stock images, each a URL of the stock photo host |
| Portfolio.GetImageUrl | src/components/HomePage-Coder.jsx:58-88 | never empty; with an id it is that id's storage view URL; without one it is the stock image of the fallback title |
| Portfolio.FallbackImageIgnoresCase | src/components/HomePage-Coder.jsx:74-87 | the keyword tests ignore case: a title and its lower-cased form get the same stock image |
| Portfolio.FallbackImageByKeyword | src/components/HomePage-Coder.jsx:72-87 | "photography" and "videography" are never decisive: "photo" in the title selects the photo image, else "video" the video image, else design/graphic or the default |
| Portfolio.FallbackImageClassified | src/components/HomePage-Coder.jsx:72-87 | each stock image is chosen exactly under its own keyword condition, in the order of the tests |
| Portfolio.CardDescription | src/components/HomePage-Coder.jsx:373-374 | the short description when set, otherwise the first 100 characters of the description; "..." exactly when the description is longer than 100 |
| Portfolio.CardDescriptionShowsDescription | src/components/HomePage-Coder.jsx:373-374 | without a short description the card shows the whole description when it is at most 100 characters, else its first 100 followed by "..." |
| Portfolio.Cards | src/components/HomePage-Coder.jsx:346 | the cards are the first four documents in order, or all when there are fewer |
| Portfolio.GalleryFrom | src/components/HomePage-Coder.jsx:397-404 | from index i on, the gallery draws no more tiles than there are documents left, each a document from there on with a non-empty image URL |
| Portfolio.Gallery | src/components/HomePage-Coder.jsx:397-404 | the gallery draws no more tiles than documents, and only documents of the list |
| Portfolio.GalleryEnd | src/components/HomePage-Coder.jsx:397-404 | the gallery's end index is the number of documents or eight, whichever is smaller |
| Portfolio.GalleryFromIsWindow | src/components/HomePage-Coder.jsx:397-404 | when no image URL is empty, the gallery draws, from index i on, exactly the documents at indices i to 7 |
| Portfolio.GalleryIsFirstEight | src/components/HomePage-Coder.jsx:397-404 | since every document has a non-empty image URL, the gallery is exactly the first eight documents |
| Booking.BookingData.Set | src/components/BookNow.jsx:151-157 | the spread update gives the named key the value and leaves the other eleven keys unchanged |
| Booking.EmptyBookingIsBlank | src/components/BookNow.jsx:10-23 | every key of the initial booking record is the empty string |
| Booking.FindIn | src/components/BookNow.jsx:160 | the service lookup is none exactly when no card has the id; otherwise it is a card with that id |
| Booking.CatalogueValid | src/components/BookNow.jsx:31-87 | the page's six services have distinct, non-empty ids |
| Booking.FindInUnique | src/components/BookNow.jsx:160 | with unique ids, looking up a card's id finds that card |
| Booking.RequiredFilled | src/components/BookNow.jsx:410-459 | the form can be submitted only when each of the four `required` text inputs (first name, last name, email, phone) holds a value |
| Booking.InputChange | src/components/BookNow.jsx:151-157 | handleInputChange changes exactly the named key and keeps the step |
| Booking.SelectService | src/components/BookNow.jsx:159-167 | handleServiceSelect records the id and that service's duration, moves to step 2 and changes no other key |
| Booking.SelectDate | src/components/BookNow.jsx:169-174 | handleDateSelect changes only the date and keeps the step |
| Booking.SelectTime | src/components/BookNow.jsx:176-182 | handleTimeSelect records the slot, moves to step 3 and changes no other key |
| Booking.ChangeService | src/components/BookNow.jsx:281-283 | Change Service returns to step 1 and keeps every recorded choice |
| Booking.Submit | src/components/BookNow.jsx:184-206 | handleSubmit clears all twelve keys and returns to step 1: the initial state, whatever came before |
| Booking.Offered | src/components/BookNow.jsx:208-547 | a control is drawn only at a valid step; a time button only once a date is set; the submit only with the required inputs filled |
| Booking.ApplyConsistent | src/components/BookNow.jsx:208-547 | each control the page draws in a state keeps the reachable-state invariant |
| Booking.RunConsistent | src/components/BookNow.jsx:208-547 | any run of offered controls keeps the reachable-state invariant |
| Booking.ReachableStatesConsistent | src/components/BookNow.jsx:9-23 | from the initial state the step stays in 1..3, and step 3 is only shown with a date and an offered time slot chosen |
| Booking.BookNow.constructor | src/components/BookNow.jsx:9-23 | the page starts at step 1 with the empty record and its own valid catalogue |
| Booking.BookNow.HandleInputChange | src/components/BookNow.jsx:151-157 | the new state is InputChange of the old one |
| Booking.BookNow.HandleServiceSelect | src/components/BookNow.jsx:159-167 | the new state is SelectService of the old one |
| Booking.BookNow.HandleDateSelect | src/components/BookNow.jsx:169-174 | the new state is SelectDate of the old one |
| Booking.BookNow.HandleTimeSelect | src/components/BookNow.jsx:176-182 | the new state is SelectTime of the old one |
| Booking.BookNow.HandleChangeService | src/components/BookNow.jsx:281-283 | the new state is ChangeService of the old one |
| Booking.BookNow.HandleSubmit | src/components/BookNow.jsx:184-206 | the new state is Submit of the old one |
| Booking.Weekday | src/components/BookNow.jsx:101 | the weekday is in 0..6 |
| Booking.Window | src/components/BookNow.jsx:95-104 | the first n offsets give at most n dates, each strictly after today and at most n days away |
| Booking.GenerateAvailableDates | src/components/BookNow.jsx:95-106 | the loop yields exactly the non-Sunday days 1 to 30 days after today, strictly ascending, 25 or 26 of them |
| Booking.WindowMembers | src/components/BookNow.jsx:98-104 | the first n offsets hold exactly the non-Sunday days after today up to offset n |
| Booking.WindowAscending | src/components/BookNow.jsx:98-104 | the generated dates are strictly ascending, hence without repeats |
| Booking.WindowGrows | src/components/BookNow.jsx:98-104 | one more offset adds one date, unless that day is a Sunday |
| Booking.WeekdayShift | src/components/BookNow.jsx:100-101 | the weekday k days later is k places further round the week, modulo 7 |
| Booking.OneSundayPerWeek | src/components/BookNow.jsx:101 | any seven consecutive days hold six bookable days |
| Booking.WindowWeek | src/components/BookNow.jsx:98-104 | seven more offsets add exactly six dates |
| Booking.WindowLength | src/components/BookNow.jsx:98-104 | thirty days give 25 or 26 dates |
| Booking.DateChoicesAreFirstTen | src/components/BookNow.jsx:295 | there are always ten date buttons: the ten earliest bookable days |
| Booking.StepBadge | src/components/BookNow.jsx:576-587 | a label's badge is a check mark exactly before the current step, highlighted exactly at it, grey exactly after it |
| Booking.LabelLit | src/components/BookNow.jsx:587-589 | a step label is drawn white exactly when its badge is not the grey upcoming one |
| Booking.StepIndicatorAgrees | src/components/BookNow.jsx:576-593 | a label is lit exactly when its badge is not upcoming; exactly one label is current, and all before it are completed |
| Booking.ProgressWidth | src/components/BookNow.jsx:600 | the bar width equals ((step - 1) / 2) * 100 percent, within 0..100 for a valid step |
| Booking.ProgressWidthValues | src/components/BookNow.jsx:600 | the bar is at 0, 50 and 100 percent at steps 1, 2 and 3 |
| PsdShop.FilteredProducts | src/components/PSDFilesPage.jsx:312-314 | under 'all' the whole list; otherwise exactly the products of that category, with their multiplicities, never longer |
| PsdShop.FilteredProductsKeepsOrder | src/components/PSDFilesPage.jsx:312-314 | the product filter keeps catalogue order |
| PsdShop.CategoryName | src/components/PSDFilesPage.jsx:937 | the name is undefined exactly when no button has the id; otherwise it is the name of a button with that id |
| PsdShop.UnlistedCategoryOnlyUnderAll | src/components/PSDFilesPage.jsx:312-314 | a product whose category no button carries is shown by no button other than 'all', while 'all' shows every product |
| PsdShop.NoTemplatesButton | src/components/PSDFilesPage.jsx:33-50 | no category button has the id "templates" |
| PsdShop.TemplatesHaveNoButton | src/components/PSDFilesPage.jsx:53-285 | the third and sixth products are "templates", and their details view names no category |
| PsdShop.TemplatesOnlyUnderAll | src/components/PSDFilesPage.jsx:312-314 | the two "templates" products are listed under 'all' and under no other category button |
| PsdShop.OtherProductCategories | src/components/PSDFilesPage.jsx:53-250 | the other four products are presets, actions, lut and brushes |
| PsdShop.ButtonName | src/components/PSDFilesPage.jsx:33-50 | the buttons 1 to 4 are presets, actions, lut and brushes, and looking up a button's id gives its name |
| PsdShop.CartTotal | src/components/PSDFilesPage.jsx:426-428 | the total of the empty cart is 0 |
| PsdShop.CartTotalConcat | src/components/PSDFilesPage.jsx:426-428 | the total of two lists put together is the sum of their totals |
| PsdShop.CartTotalAdd | src/components/PSDFilesPage.jsx:402-403 | adding a product raises the total by its discount price |
| PsdShop.WithoutId | src/components/PSDFilesPage.jsx:408-410 | removal drops every entry with the id and keeps every other entry with its multiplicity |
| PsdShop.WithoutIdKeepsOrder | src/components/PSDFilesPage.jsx:408-410 | removal keeps the order of the remaining entries |
| PsdShop.WithoutIdFacts | src/components/PSDFilesPage.jsx:402-410 | removing an id twice is removing it once; removing the id of a product just added also removes its earlier copies |
| PsdShop.CartTotalRemove | src/components/PSDFilesPage.jsx:408-410 | removing an id lowers the total by exactly the prices of the removed entries |
| PsdShop.Cart.constructor | src/components/PSDFilesPage.jsx:21 | the cart starts empty |
| PsdShop.Cart.AddToCart | src/components/PSDFilesPage.jsx:402-403 | the product goes last, the earlier entries stay, and the total rises by its discount price |
| PsdShop.Cart.RemoveFromCart | src/components/PSDFilesPage.jsx:408-410 | the cart loses every entry with the id, and the total drops by their prices |
| PsdShop.Cart.Total | src/components/PSDFilesPage.jsx:426-428 | the total is 0 for the empty cart, otherwise the first entry's discount price plus the total of the rest |
| PsdShop.Cart.ClearCart | src/components/PSDFilesPage.jsx:451 | the cart is empty and its total is 0 |
| PsdShop.OptionalLength | src/components/PSDFilesPage.jsx:959-960 | `list?.length \|\| 0` is 0 for a missing list and the length otherwise |
| PsdShop.ImageSlides | src/components/PSDFilesPage.jsx:770-780 | one image slide per product image, in order, showing that image |
| PsdShop.CompareSlides | src/components/PSDFilesPage.jsx:782-812 | no slides for a missing before/after list; otherwise one compare slide per pair, in order, showing its before and after images |
| PsdShop.LayerSlides | src/components/PSDFilesPage.jsx:814-826 | no slides for a missing layer list; otherwise one layer slide per layer preview, in order |
| PsdShop.Slides | src/components/PSDFilesPage.jsx:770-826 | the details carousel shows the image slides first, then the before/after slides, then the layer slides |
| PsdShop.PreviewCount | src/components/PSDFilesPage.jsx:958-960 | the advertised preview count is at least the number of images; its exact value is fixed by `PreviewCountIsSlideCount` |
| PsdShop.PreviewCountIsSlideCount | src/components/PSDFilesPage.jsx:770-960 | the advertised preview count equals the number of slides the carousel shows |
| PsdShop.CataloguePreviewCounts | src/components/PSDFilesPage.jsx:53-285 | the six products show 8, 7, 7, 5, 5 and 8 previews |
| Courses.FilteredCourses | src/components/CourseSalesPage.jsx:241-243 | under 'all' the whole list; otherwise exactly the courses of that category, with their multiplicities, never longer |
| Courses.FilteredCoursesKeepsOrder | src/components/CourseSalesPage.jsx:241-243 | the course filter keeps catalogue order |
| Courses.FilterIds | src/components/CourseSalesPage.jsx:56-62 | the filter ids are exactly the button ids other than 'all' |
| Courses.HitsOnce | src/components/CourseSalesPage.jsx:56-62 | among distinct ids, an id that is one of them matches exactly once |
| Courses.HitsNone | src/components/CourseSalesPage.jsx:56-62 | an id that is none of them matches none |
| Courses.ShownOverCons | src/components/CourseSalesPage.jsx:243 | one more course adds, over all filters, the number of filters it passes |
| Courses.FiltersPartition | src/components/CourseSalesPage.jsx:241-243 | when every course's category is one of distinct non-'all' ids, those filters show each course exactly once, and their lengths add up to the list's |
| Courses.FiltersCount | src/components/CourseSalesPage.jsx:241-243 | under the same conditions, the lengths of the filters add up to the length of the list |
| Courses.ShownNothing | src/components/CourseSalesPage.jsx:241-243 | the filters of an empty list show nothing |
| Courses.CatalogueFilterIds | src/components/CourseSalesPage.jsx:56-62 | the page's filter ids are photography, editing, business and advanced |
| Courses.CataloguePartitioned | src/components/CourseSalesPage.jsx:56-155 | every course is in one of the four button categories, so the four filters together show the six courses once each |
| Courses.CatalogueFilterNonEmpty | src/components/CourseSalesPage.jsx:56-155 | each of the four non-'all' buttons shows at least one course |
| Contact.ContactData.Set | src/components/Contact.jsx:63-68 | the spread update gives the named key the value and leaves the other three unchanged |
| Contact.InitialFormIsBlank | src/components/Contact.jsx:14-19 | name, email, subject and message start as the empty string |
| Contact.Change | src/components/Contact.jsx:63-68 | handleChange sets exactly the named key to the typed value |
| Contact.Submit | src/components/Contact.jsx:75-80 | handleSubmit clears all four keys |
| Contact.SameFields | src/components/Contact.jsx:14-19 | two records agreeing on every key are equal |
| Contact.ChangeFacts | src/components/Contact.jsx:63-68 | edits of different inputs commute, a later edit of the same input wins, and retyping a value changes nothing |
| Contact.SubmitResets | src/components/Contact.jsx:75-80 | after submit the record is the initial one, a second submit changes nothing, and earlier edits leave no trace |
| Contact.ContactForm.constructor | src/components/Contact.jsx:14-19 | the form starts as the initial record |
| Contact.ContactForm.HandleChange | src/components/Contact.jsx:63-68 | the new record is Change of the old one |
| Contact.ContactForm.HandleSubmit | src/components/Contact.jsx:75-80 | the new record is the initial one |

## Left out

- Animations, scroll triggers, galleries, modal open/close, the `document.body` overflow
  style and the icons: visual effects with no bearing on the state modelled.
- The cart popup (`setIsCartOpen` and its three-second timer) after an add: a timer and
  a visual flag.
- The ISO rendering of dates (`toISOString().split('T')[0]`) and the
  `toLocaleDateString` labels. Days are integers, and the date strings of the buttons
  are the parameter `dateChoices` of `Booking.Offered`.
- Booking.WindowMembers: "no Sunday, never today" holds for the integer local days, not
  for the strings the page stores.
  - The page keeps the clock time of `new Date()` on each date (`BookNow.jsx` lines
    97-102). It tests the local `getDay()` but stores the UTC day.
  - So each day, for as many hours as the visitor's UTC offset, every stored string is
    one day off.
  - East of UTC, in the first hours after local midnight, a string can name today, and a
    local Monday is stored as the Sunday before.
  - West of UTC, in the last hours before local midnight, every string is one day late,
    and a local Saturday is stored as a Sunday.
- The clock: `new Date()` is the parameter `today` of `Booking.GenerateAvailableDates`.
- The browser's `required` validation of the four text inputs is modelled as
  `Booking.RequiredFilled`, the `SubmitForm` condition of `Booking.Offered`.
- The terms checkbox (`BookNow.jsx` lines 530-535): an uncontrolled `required` input
  outside `bookingData`. The model holds no state for it, so `Booking.Offered` allows a
  submit whether or not the box is ticked.
- The "% Off" badge, `Math.round(discountPrice / price * 100)`: floating-point rounding.
- The backend SDK calls (list, get, create, update, delete, upload) and the asynchronous
  loading and error flow of the home page: network I/O. Only the URL builders and the
  result mapping of the collection check are modelled.
- The alert and the console log of the contact and booking submits: output only.
- Descriptions, feature lists, instructors, ratings and student counts of the
  catalogues, the courses' `image` and the products' `previewImage`: display data that no
  modelled operation reads.
- Common.ToLower: lower-cases ASCII letters only, not the full Unicode case mapping of
  `toLowerCase`.
- Portfolio.CardDescription: counts Dafny characters where JavaScript counts UTF-16 code
  units, so text outside the Basic Multilingual Plane is cut differently.
- Storage.GetFilePreviewUrl: an unset environment variable is rendered by JavaScript as
  "undefined"; the model takes every environment value as a given string.
- Contact.ContactForm.HandleChange: reads the current record, as the source's
  `{...formData}` does within one render; two changes batched in one render (a stale
  closure) are not modelled.
- Booking.RequiredFilled: checks only that the four `required` text inputs are non-empty.
  The browser also refuses a submit whose email input (`type="email"`) does not hold
  an e-mail address, or whose guest count (`type="number" min="1"`) is below 1. The
  model has no address syntax and keeps the guest count as a string, so `Booking.Offered`
  allows some submits the browser blocks.
- Booking.RunConsistent: the date buttons `dateChoices` are one fixed list for a whole
  run, so a run is taken to fall within one calendar day. The page recomputes the list
  from `new Date()` on every render, so after midnight a chosen date can drop out of the
  buttons.
- Booking.BookNow.HandleServiceSelect: requires a catalogue id. For any other id the
  source throws on `selectedService.duration`, and the page only calls it with the id
  of a card.
