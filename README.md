# Garage admin: form logic of the page, product and appointment screens

This project models the state logic of the admin interface of a garage's web
site, and proves properties of that model. The interface has three kinds of
screen.

- **The page editor.** A page is an ordered list of sections, and each section
  holds ordered lists of subsections and custom blocks. The editor's handlers
  insert, remove and edit these. Removing a subsection that already exists on
  the server records its id. On submit, the tree is flattened into a multipart
  payload with bracketed keys such as `sections[i][subsections][j][title]` and
  `deleted_subsections[]`. The screen also tracks which section is in view.
- **The product forms** (creation and edition). They cover:
  - the type select, which clears the spare-part and vehicle details;
  - the main fields, with prices shown grouped by thousands and stored as digits only;
  - the detail objects and the promo-code rows;
  - an image picker holding at most five images of at most 5 MiB each;
  - on edition, tracking of stored images that were removed;
  - the mandatory-field check of the creation form;
  - the payloads of both requests.
- **The lists and the appointment views.** These are:
  - search boxes;
  - the grouping of products by type and of categories by the slug of their type;
  - a delete flow that drops a row only when the server answers `status === "deleted"`;
  - the per-page counts and the last-update line of the page cards;
  - appointments grouped by day with the days sorted, or shown as calendar events found back by id;
  - the list of services an appointment asks for.

Each screen is a module:

| Module | Screen |
|---|---|
| `EditPage` | page editor |
| `SectionFocus` | active-section tracking |
| `Pages` | page list |
| `ProductForm` | what both product forms share |
| `ProductUpdate` | product edition |
| `AddProduct` | product creation |
| `ImageUpload` | image picker |
| `ProductsList` | product list |
| `RdvList` | appointment list |
| `RdvContainer` | planning view |
| `FullCalendar` | calendar view |

Three modules hold shared definitions:

- `Appointments`: the appointment record and the services;
- `ListViews`: the confirmation-and-delete flow;
- `Grouping`: the "create the list if missing, then push" dictionary loop, with its reference definition.

`Js` models the JavaScript values the forms hold: truthiness, `||`, `??`,
`String(v)`, `toLowerCase().includes`, and `filter`. It also models a
multipart payload as an ordered sequence of entries, each a path key and a
value. `WithKey(payload, key)` reads back the entries under one key, and
most payload properties are stated in terms of it.

Handlers that the source writes as spread/filter updaters are functions of
the state they start from. Each screen whose state the source changes in
place or appends to is a class: `EditPage.PageEditor`,
`ProductUpdate.ProductEditor` and `AddProduct.ProductCreator`. Each handler
of those classes is a method stated against those functions. Loops the
source runs are methods with loop invariants, each proved equal to a
reference function:

- the `forEach` loops that append to a `FormData`;
- the grouping `forEach`/`reduce`;
- the removed-images filter;
- the preview mapping;
- the scroll handler.

Where the source and its description differ, the model follows the source:

- `removeSection` neither renumbers the remaining sections nor records a tombstone.
- The guard on spare-part properties in the edition payload is always true, so every property is sent, empty ones included.
- The edition payload sends neither `type_id` nor `categorie_id`.
- The planning sorts its days in ascending order, although its comment says "most recent first".

## Model

| member | source | states |
|---|---|---|
| EditPage.PageFieldSet | src/pages/makePage/EditPage.js:61-67 | a checkbox stores `checked`, any other input its value; no other page field and no section changes |
| EditPage.SpliceStart | src/pages/makePage/EditPage.js:89 | where `splice` starts: a negative index counts from the end, and the start never passes the length |
| EditPage.InsertPosition | src/pages/makePage/EditPage.js:88-92 | without an index the section goes last; an index within the list is where it goes |
| EditPage.SectionInserted | src/pages/makePage/EditPage.js:70-100 | one more section; the new default section sits at the insert position; the others keep their relative order; every section's `order` is its index + 1 |
| EditPage.SectionRemoved | src/pages/makePage/EditPage.js:102-106 | an index in the list removes exactly that section and the rest keep their order and stored values; any other index leaves the list as it is |
| EditPage.RemoveSectionLeavesGap | src/pages/makePage/EditPage.js:102-106 | removing a section other than the last from a renumbered list leaves an order that no longer matches its index |
| EditPage.SectionFieldSet | src/pages/makePage/EditPage.js:108-112 | exactly one field of one section changes; the length, the other sections and that section's nested lists stay |
| EditPage.SubsectionAdded | src/pages/makePage/EditPage.js:115-130 | one empty subsection with `order` = previous length + 1 goes last in that section; other sections are untouched |
| EditPage.SubsectionRemoved | src/pages/makePage/EditPage.js:132-143 | the section's subsection list loses exactly entry `j`, keeping the others in order; nothing else changes |
| EditPage.Tombstoned | src/pages/makePage/EditPage.js:136-139 | the removed subsection's id is recorded if and only if it is truthy |
| EditPage.SubsectionFieldSet | src/pages/makePage/EditPage.js:145-149 | exactly one field of one subsection changes; all lengths stay |
| EditPage.TypeChanged | src/pages/makePage/EditPage.js:606-621 | the type is the new one; the variant is kept when the new type offers it, otherwise becomes that type's first variant; so the variant is always one the type offers |
| EditPage.CanSubmit | src/pages/makePage/EditPage.js:1042 | submit is enabled if and only if not loading and both title and template are truthy |
| EditPage.SubsectionBlocks | src/pages/makePage/EditPage.js:299-363 | one block of appends per subsection, in order |
| EditPage.CustomBlockBlocks | src/pages/makePage/EditPage.js:366-375 | one block of appends per custom block, in order |
| EditPage.SectionBlocks | src/pages/makePage/EditPage.js:239-376 | one block of appends per section, in order |
| EditPage.Tombstones | src/pages/makePage/EditPage.js:379-381 | one `deleted_subsections[]` entry per recorded id, in order |
| EditPage.PageFieldLookup | src/pages/makePage/EditPage.js:224-228 | each page field is sent exactly once under its own name |
| EditPage.TopLevelLookup | src/pages/makePage/EditPage.js:221-381 | a top-level key holds only the page's own appends: the sections and tombstones never use one |
| EditPage.PayloadPageFields | src/pages/makePage/EditPage.js:224-228 | the payload holds title as is, subtitle defaulting to "", template defaulting to "default", and `is_active` as "1" or "0", each once |
| EditPage.SectionFieldLookup | src/pages/makePage/EditPage.js:240-280 | the key of a section field holds exactly that field's append when it is made, and nothing otherwise |
| EditPage.SubsectionFieldLookup | src/pages/makePage/EditPage.js:300-355 | the key of a subsection field holds exactly that field's append when it is made, and nothing otherwise |
| EditPage.PayloadSectionField | src/pages/makePage/EditPage.js:240-280 | a section's field is sent once under `sections[i][f]` when its condition holds, and is absent otherwise |
| EditPage.PayloadSubsectionField | src/pages/makePage/EditPage.js:300-355 | a subsection's field is sent once under `sections[i][subsections][j][f]` when its condition holds, and is absent otherwise |
| EditPage.PayloadSectionId | src/pages/makePage/EditPage.js:240-242 | `sections[i][id]` is present if and only if the section has a truthy id |
| EditPage.PayloadSectionImages | src/pages/makePage/EditPage.js:266-280 | `[image]` and `[image_mobile]` are sent only for new files; `[delete_image]` and `[delete_image_mobile]` are sent as "1" only when their flag is set |
| EditPage.PayloadSectionOrder | src/pages/makePage/EditPage.js:260 | a section's order is sent from its stored value, 1 when that is falsy, not from its index |
| EditPage.PayloadSubsection | src/pages/makePage/EditPage.js:300-355 | a subsection sends its id only when truthy, `prix` defaulting to "" only when nullish, its image only when a new file, and `delete_image` as "1" only when set |
| EditPage.SectionsOnlyLookup | src/pages/makePage/EditPage.js:239-376 | the sections loop appends nothing outside the `sections` root |
| EditPage.PayloadTombstones | src/pages/makePage/EditPage.js:379-381 | the payload's `deleted_subsections[]` entries are exactly the recorded ids, in recording order |
| EditPage.PageEditor.constructor | src/pages/makePage/EditPage.js:15-29 | the editor starts with the default page and no recorded ids |
| EditPage.PageEditor.HandlePageChange | src/pages/makePage/EditPage.js:61-67 | the page becomes `PageFieldSet` of the old page; the recorded ids stay |
| EditPage.PageEditor.AddSection | src/pages/makePage/EditPage.js:70-100 | the sections become `SectionInserted` of the old ones; the recorded ids stay |
| EditPage.PageEditor.RemoveSection | src/pages/makePage/EditPage.js:102-106 | the sections become `SectionRemoved` of the old ones; no id is recorded |
| EditPage.PageEditor.HandleSectionChange | src/pages/makePage/EditPage.js:108-112 | the sections become `SectionFieldSet` of the old ones |
| EditPage.PageEditor.AddSubsection | src/pages/makePage/EditPage.js:115-130 | the sections become `SubsectionAdded` of the old ones |
| EditPage.PageEditor.RemoveSubsection | src/pages/makePage/EditPage.js:132-143 | the subsection is removed and its id is recorded exactly when it is truthy |
| EditPage.PageEditor.HandleSubsectionChange | src/pages/makePage/EditPage.js:145-149 | the sections become `SubsectionFieldSet` of the old ones |
| EditPage.PageEditor.ChangeSectionType | src/pages/makePage/EditPage.js:606-621 | the two in-place changes of the type select give `TypeChanged` of the old sections |
| EditPage.PageEditor.BuildPayload | src/pages/makePage/EditPage.js:221-381 | the appended entries are the page payload of the current page and recorded ids |
| EditPage.PageHeadPass | src/pages/makePage/EditPage.js:224-228 | the four appends are the page's own fields |
| EditPage.SectionsPass | src/pages/makePage/EditPage.js:239-376 | the sections loop appends the section blocks in order |
| EditPage.AppendSection | src/pages/makePage/EditPage.js:240-375 | one pass of the sections loop appends the section's fields, then its subsections, then its custom blocks |
| EditPage.SubsectionsPass | src/pages/makePage/EditPage.js:299-363 | the subsections loop appends the subsection blocks in order |
| EditPage.CustomBlocksPass | src/pages/makePage/EditPage.js:366-375 | the custom-blocks loop appends the block entries in order |
| EditPage.TombstonesPass | src/pages/makePage/EditPage.js:379-381 | the tombstone loop appends one entry per id |
| EditPage.SubmitSendsOrder | src/pages/makePage/EditPage.js:260 | a section numbered by its position sends `order` as the text of index + 1 |
| EditPage.AddSectionThenSubmit | src/pages/makePage/EditPage.js:94-97 | after an insertion, every section `i` sends `order` = i + 1 |
| EditPage.RemoveSubsectionThenSubmit | src/pages/makePage/EditPage.js:137-138 | after a persisted subsection is removed, the next payload's last `deleted_subsections[]` entry is its id |
| SectionFocus.ResizeRefs | src/pages/makePage/useSectionFocus.js:8-12 | the ref array has the new length; surviving indices keep their refs; new indices get fresh unattached refs |
| SectionFocus.ResizeRoundTrip | src/pages/makePage/useSectionFocus.js:8-12 | growing the ref array and shrinking it back gives the original refs |
| SectionFocus.ResizeTwice | src/pages/makePage/useSectionFocus.js:8-12 | two resizes of which the first loses no ref equal one resize to the final length |
| SectionFocus.IsClosestUnique | src/pages/makePage/useSectionFocus.js:22-30 | the closest-section rule names one section only |
| SectionFocus.HandleScroll | src/pages/makePage/useSectionFocus.js:15-35 | the index is 0 or valid; with no eligible section it is 0; otherwise it is an eligible section at the least distance from 120px, the first on ties |
| Pages.FilteredPages | src/pages/makePage/Pages.js:121-123 | a page is shown if and only if its title contains the query case-insensitively; the order is kept |
| Pages.EmptySearchKeepsAll | src/pages/makePage/Pages.js:121-123 | an empty query shows every page, in order |
| Pages.HandleDelete | src/pages/makePage/Pages.js:63-89 | no selection changes nothing; otherwise the modal closes and the selection clears; on "deleted" exactly the pages with the selected id go; otherwise the list stays |
| Pages.SectionCount | src/pages/makePage/Pages.js:192 | the number of sections, 0 without a sections array |
| Pages.TotalSubsectionsCons | src/pages/makePage/Pages.js:197-201 | the reference sum splits off its first section |
| Pages.ReduceIsSum | src/pages/makePage/Pages.js:197-201 | the left-to-right reduce from an accumulator equals the accumulator plus the reference sum |
| Pages.SubsectionCount | src/pages/makePage/Pages.js:197-201 | the sum of the sections' subsection lengths, a missing array counting 0, and 0 without sections |
| Pages.LastUpdateOf | src/pages/makePage/Pages.js:215-217 | dashes exactly when creation and update dates are equal, otherwise the update date |
| ListViews.OpenModal | src/pages/rdv/RdvList.js:52-55 | the modal shows with the row selected; the list stays |
| ListViews.CloseModal | src/pages/rdv/RdvList.js:58-61 | the modal hides with no selection; the list stays |
| ListViews.HandleDelete | src/pages/rdv/RdvList.js:64-90 | no selection changes nothing; otherwise the modal closes; on "deleted" exactly the rows with the selected id go, the rest in order; otherwise the list stays |
| ListViews.OpenThenDelete | src/pages/rdv/RdvList.js:52-90 | opening the modal on a row and confirming removes exactly that row's id on "deleted" and leaves the screen closed either way |
| ListViews.DeleteTwiceIsDeleteOnce | src/pages/rdv/RdvList.js:65 | a second confirmation finds no selection and changes nothing |
| RdvList.FilteredRdvs | src/pages/rdv/RdvList.js:122-124 | an appointment is shown if and only if it has a plate containing the query case-insensitively; order kept |
| RdvList.EmptySearchKeepsPlated | src/pages/rdv/RdvList.js:122-124 | an empty query shows exactly the appointments that have a plate |
| RdvList.HandleDelete | src/pages/rdv/RdvList.js:64-90 | the shared delete rule with the appointment id |
| ProductsList.TypeKey | src/pages/ecom/ProductsList.js:50 | the group of a product is its type label, "Autre" when that is falsy |
| ProductsList.GroupingSource | src/pages/ecom/ProductsList.js:49 | grouping reads the sorted list when it is non-empty, the fetched list otherwise |
| ProductsList.GroupByType | src/pages/ecom/ProductsList.js:47-55 | the groups are a grouping of the source list by type key, each group in input order |
| ProductsList.EachProductInOneGroup | src/pages/ecom/ProductsList.js:47-55 | each product is in the group of its own type and in no other group |
| ProductsList.FilteredProducts | src/pages/ecom/ProductsList.js:88-93 | a product is shown if and only if its label or reference contains the query case-insensitively; order kept |
| ProductsList.EmptySearch | src/pages/ecom/ProductsList.js:88-93 | an empty query shows exactly the products with a text label or reference |
| ProductsList.HandleDelete | src/pages/ecom/ProductsList.js:66-85 | the shared delete rule with the product id |
| Grouping.IndexOfKey | src/pages/ecom/ProductsList.js:51 | the position of a key in the dictionary, or -1 exactly when no group has it |
| Grouping.PushKeepsGrouping | src/pages/ecom/ProductsList.js:50-52 | one step of the grouping loop keeps the dictionary a grouping of the items seen so far |
| Grouping.PushNewKey | src/pages/ecom/ProductsList.js:51-52 | a push under a new key appends its one-item group |
| Grouping.PushExistingKey | src/pages/ecom/ProductsList.js:52 | a push under a known key extends that key's group only |
| Grouping.GroupedIsGrouping | src/pages/ecom/ProductsList.js:47-55 | the dictionary built by the loop has each key once and each group is exactly the matching items in input order |
| Grouping.MatchingHasItem | src/pages/ecom/ProductsList.js:52 | every item is in the group of its own key |
| Grouping.MatchingMembers | src/pages/ecom/ProductsList.js:52 | a group holds only items of its key |
| Grouping.MatchingFirst | src/pages/rdv/RdvContainer.js:30 | the first item of a group is the first input item with that key |
| Grouping.EachItemInOneGroup | src/pages/ecom/AddProduct.js:73-82 | each item's key has exactly one group, and every group comes from some item |
| Grouping.GroupInto | src/pages/ecom/AddProduct.js:73-82 | the grouping loop builds the reference grouping |
| ProductForm.IndexOfName | src/pages/ecom/ProductUpdate.js:266 | where a property is in an object, or -1 exactly when it has none |
| ProductForm.DictSet | src/pages/ecom/ProductUpdate.js:173-176 | the property takes the value and no other property changes; an existing one is overwritten in place and a new one goes last |
| ProductForm.TypeChanged | src/pages/ecom/ProductUpdate.js:130-138 | `type_id` becomes the option's id, "" without one; both detail objects are emptied; nothing else changes |
| ProductForm.FieldSet | src/pages/ecom/AddProduct.js:108-111 | one scalar field takes the value; nothing else changes |
| ProductForm.DetailChanged | src/pages/ecom/ProductUpdate.js:170-178 | only the named property of the named detail object changes |
| ProductForm.FindType | src/pages/ecom/AddProduct.js:444-447 | a type is found only for a parsed id equal to its id; none exactly when no type has that id or the choice is empty |
| ProductForm.DetailPass | src/pages/ecom/ProductUpdate.js:266-270 | the `Object.entries` loop appends one entry per property under `root[k]` |
| ProductForm.DetailLookup | src/pages/ecom/ProductUpdate.js:266-284 | the key `root[n]` carries the append of property `n` when it is made, and nothing for a missing property |
| ProductForm.PromoAdded | src/pages/ecom/ProductUpdate.js:181-189 | one row with every field empty goes last; the others stay |
| ProductForm.PromoAddThenRemove | src/pages/ecom/ProductUpdate.js:181-196 | removing the row just added gives back the rows as they were |
| ProductForm.PromoFieldSet | src/pages/ecom/ProductUpdate.js:198-204 | one field of one row changes; the length and every other row stay |
| ProductForm.PromosPass | src/pages/ecom/ProductUpdate.js:288-299 | the promo-code loop appends the rows' entries in order |
| ProductForm.PromoRowLookup | src/pages/ecom/ProductUpdate.js:288-299 | a `codes_promo[i][f]` key carries row `i`'s append, and nothing past the last row |
| ProductForm.PromoPayloadFields | src/pages/ecom/ProductUpdate.js:289-298 | each row sends its code even when empty, and reduction, discount and expiry only when truthy |
| ProductForm.NewPromoSendsOnlyCode | src/pages/ecom/ProductUpdate.js:181-189 | a row just added sends only its empty code |
| ProductForm.CategoryKey | src/pages/ecom/ProductUpdate.js:75 | a category goes under the slug of its type, "autre" when that is falsy |
| ProductForm.GroupCategories | src/pages/ecom/ProductUpdate.js:73-82 | the categories loop builds a grouping by type slug, in fetch order |
| ProductForm.OfferedAreOfSelectedType | src/pages/ecom/AddProduct.js:472-477 | no category is offered before a type is chosen; then exactly that type's categories, in fetch order |
| ProductForm.EachCategoryUnderItsType | src/pages/ecom/AddProduct.js:73-82 | each category is offered under its own type's slug and no other |
| ProductUpdate.DigitRun | src/pages/ecom/ProductUpdate.js:140 | the length of the digit run starting at a position |
| ProductUpdate.Unformat | src/pages/ecom/ProductUpdate.js:143-145 | the result holds no whitespace |
| ProductUpdate.UnformatAppend | src/pages/ecom/ProductUpdate.js:143-145 | unformatting distributes over concatenation |
| ProductUpdate.UnformatFormat | src/pages/ecom/ProductUpdate.js:139-145 | unformatting a formatted text without whitespace gives it back |
| ProductUpdate.DigitsGroupedByThousands | src/pages/ecom/ProductUpdate.js:139-141 | in a digit string a space goes before position `p` if and only if `p` is not 0 and a positive multiple of three digits follows |
| ProductUpdate.FieldChanged | src/pages/ecom/ProductUpdate.js:148-166 | a checkbox stores `checked`; a price stores its digits without whitespace, and changes nothing when they are not all digits; other fields store the text; no other field changes |
| ProductUpdate.PricesStayDigits | src/pages/ecom/ProductUpdate.js:155-158 | typing never leaves anything but digits in a price |
| ProductUpdate.PriceRoundTrip | src/pages/ecom/ProductUpdate.js:139-166 | typing back what a price input shows stores the digits already there |
| ProductUpdate.LoadedPriceRoundTrip | src/pages/ecom/ProductUpdate.js:642 | a price loaded as a number shows as its digits and typing that back stores them as text, a zero price as "" |
| ProductUpdate.BeforeT | src/pages/ecom/ProductUpdate.js:421 | the text before the first "T", with no "T" in it |
| ProductUpdate.FormatDate | src/pages/ecom/ProductUpdate.js:419-422 | a prefix of the input without "T": the whole text when it has none, else up to its first "T" |
| ProductUpdate.FormatDateIdempotent | src/pages/ecom/ProductUpdate.js:419-422 | formatting a formatted date changes nothing |
| ProductUpdate.Removed | src/pages/ecom/ProductUpdate.js:214-219 | exactly the stored paths of the old list that the new list lacks and that are not already marked |
| ProductUpdate.RemovedInOrder | src/pages/ecom/ProductUpdate.js:214-219 | the removed paths are the stored paths of the old list that pass the test, in that list's order and as often as listed, so a subsequence of them |
| ProductUpdate.NoStoredImageLost | src/pages/ecom/ProductUpdate.js:207-224 | after a change every stored image of the old list is still listed or marked, and only stored images of the old list get marked |
| ProductUpdate.RemoveStoredMarksIt | src/pages/ecom/ProductUpdate.js:207-224 | removing a stored image listed once marks its path |
| ProductUpdate.Uploads | src/pages/ecom/ProductUpdate.js:245-249 | the new files of the list, in order |
| ProductUpdate.StoredPaths | src/pages/ecom/ProductUpdate.js:252-254 | the stored paths of the list, in order |
| ProductUpdate.EachImageSentOnce | src/pages/ecom/ProductUpdate.js:244-257 | every image goes to exactly one of `images[]` and `existing_images[]` |
| ProductUpdate.PieceGuardAlwaysHolds | src/pages/ecom/ProductUpdate.js:267 | the spare-part guard holds for every value |
| ProductUpdate.HeadFieldSent | src/pages/ecom/ProductUpdate.js:235-242 | a top-level field is sent exactly when its append is made, once |
| ProductUpdate.PayloadLabelAndPrice | src/pages/ecom/ProductUpdate.js:235-239 | the label and the price are sent once, as they are |
| ProductUpdate.PayloadPromoPrice | src/pages/ecom/ProductUpdate.js:240 | the promotional price is sent only when truthy |
| ProductUpdate.PayloadDescriptionAndActif | src/pages/ecom/ProductUpdate.js:241-242 | the description defaults to "", and `actif` is sent as 1 or 0 |
| ProductUpdate.PayloadNeverTypeOrCategory | src/pages/ecom/ProductUpdate.js:233-234 | the edition never sends `type_id` or `categorie_id` |
| ProductUpdate.PayloadUploads | src/pages/ecom/ProductUpdate.js:245-249 | `images[]` carries exactly the new files, in order |
| ProductUpdate.PayloadExisting | src/pages/ecom/ProductUpdate.js:252-257 | `existing_images[]` carries exactly the stored paths, in order |
| ProductUpdate.PayloadDeleted | src/pages/ecom/ProductUpdate.js:260-262 | `deleted_images[]` carries exactly the marked paths, in order |
| ProductUpdate.PayloadPiece | src/pages/ecom/ProductUpdate.js:265-271 | with the spare-part type every property of `piece` is sent, the empty ones included; otherwise none |
| ProductUpdate.PayloadVehicule | src/pages/ecom/ProductUpdate.js:272-285 | with the vehicle type a property is sent unless "", null or undefined, booleans as "1"/"0" and arrays joined with ","; otherwise none |
| ProductUpdate.PayloadPromos | src/pages/ecom/ProductUpdate.js:288-299 | the promo-code keys carry exactly the rows' appends |
| ProductUpdate.TypeChangeClearsDetails | src/pages/ecom/ProductUpdate.js:130-138 | after a type change no detail is sent |
| ProductUpdate.DetailChangeThenSubmit | src/pages/ecom/ProductUpdate.js:170-178 | a vehicle detail filled in is what the next payload sends under its name |
| ProductUpdate.ProductEditor.constructor | src/pages/ecom/ProductUpdate.js:90-115 | the editor holds the loaded product and type, nothing marked for deletion |
| ProductUpdate.ProductEditor.HandleTypeChange | src/pages/ecom/ProductUpdate.js:130-138 | the type is the option and the product is `TypeChanged` of the old one |
| ProductUpdate.ProductEditor.HandleChange | src/pages/ecom/ProductUpdate.js:148-166 | the product is `FieldChanged` of the old one |
| ProductUpdate.ProductEditor.HandleDetailChange | src/pages/ecom/ProductUpdate.js:170-178 | the product is `DetailChanged` of the old one |
| ProductUpdate.ProductEditor.AddCodePromo | src/pages/ecom/ProductUpdate.js:181-189 | the rows are `PromoAdded` of the old rows |
| ProductUpdate.ProductEditor.RemoveCodePromo | src/pages/ecom/ProductUpdate.js:191-196 | the rows lose exactly index `idx`, in order, and nothing is marked |
| ProductUpdate.ProductEditor.HandleCodePromoChange | src/pages/ecom/ProductUpdate.js:198-204 | the rows are `PromoFieldSet` of the old rows |
| ProductUpdate.ProductEditor.HandleImagesChange | src/pages/ecom/ProductUpdate.js:207-224 | the images are the new list and the marked paths grow by exactly `Removed` of the old and new lists |
| ProductUpdate.ProductEditor.BuildPayload | src/pages/ecom/ProductUpdate.js:232-299 | the appends are the edition payload of the current product, type and marked paths |
| ProductUpdate.HeadPass | src/pages/ecom/ProductUpdate.js:235-242 | the top-level appends, in order |
| ProductUpdate.LeadPass | src/pages/ecom/ProductUpdate.js:235-239 | the five appends before the promotional price |
| ProductUpdate.BodyPass | src/pages/ecom/ProductUpdate.js:244-299 | the loops' appends, part after part |
| ProductUpdate.UploadsPass | src/pages/ecom/ProductUpdate.js:245-249 | the image loop appends one `images[]` entry per new file |
| ProductUpdate.ExistingPass | src/pages/ecom/ProductUpdate.js:252-257 | the existing-images loop appends one entry per stored path |
| ProductUpdate.DeletedPass | src/pages/ecom/ProductUpdate.js:260-262 | the deleted-images loop appends one entry per marked path |
| ImageUpload.PickerOpens | src/pages/ecom/ImageUploadWithPreview.js:33-39 | the picker opens, and the "+" tile shows, if and only if fewer than five images are listed |
| ImageUpload.ImageAdded | src/pages/ecom/ImageUploadWithPreview.js:42-58 | no file, a file over 5 MiB or a full list leaves the list as it is; otherwise the file goes last |
| ImageUpload.AddThenRemove | src/pages/ecom/ImageUploadWithPreview.js:51-63 | removing the image just added gives back the list |
| ImageUpload.NeverAboveLimit | src/pages/ecom/ImageUploadWithPreview.js:7 | a list within the limit stays within five images whatever adds and removes follow |
| ImageUpload.Previews | src/pages/ecom/ImageUploadWithPreview.js:15-23 | one preview per image: storage base + "/" + path for a stored one, an object URL for a file |
| ImageUpload.RevokedArePreviews | src/pages/ecom/ImageUploadWithPreview.js:27-29 | every URL the cleanup revokes is the preview of a new file |
| ImageUpload.BuildPreviews | src/pages/ecom/ImageUploadWithPreview.js:11-30 | the effect's loop yields the previews and the object URLs it created, in order |
| AddProduct.FallbackTypesNeverChosen | src/pages/ecom/AddProduct.js:10-13 | the fallback types have no id, so the type select never finds one |
| AddProduct.TypesAfter | src/pages/ecom/AddProduct.js:41-62 | a thrown request gives the fallback types, an ok answer its types, an error answer keeps the list |
| AddProduct.FieldChanged | src/pages/ecom/AddProduct.js:106-112 | a checkbox stores `checked`, any other input its text, with no digit check; nothing else changes |
| AddProduct.ParsedId | src/pages/ecom/AddProduct.js:466 | the parsed category is truthy if and only if a nonzero id was chosen |
| AddProduct.CategoryChosen | src/pages/ecom/AddProduct.js:463-468 | only `categorie_id` changes, to the parsed id |
| AddProduct.ImageBlocks | src/pages/ecom/AddProduct.js:180-182 | image `i` is appended under `images[i]` |
| AddProduct.Submit | src/pages/ecom/AddProduct.js:155-164 | a payload is built if and only if type, category, label and price are all truthy; otherwise the fixed message |
| AddProduct.PayloadIds | src/pages/ecom/AddProduct.js:168-169 | the type and the category are sent once each, as they are |
| AddProduct.SameFieldsAsUpdate | src/pages/ecom/AddProduct.js:170-177 | every other top-level key carries what the edition payload carries under it |
| AddProduct.PayloadImage | src/pages/ecom/AddProduct.js:180-182 | `images[i]` carries image `i` for each listed image, and nothing past the last |
| AddProduct.PayloadPiece | src/pages/ecom/AddProduct.js:185-189 | with the spare-part type a property is sent unless ""; otherwise none |
| AddProduct.PayloadVehicule | src/pages/ecom/AddProduct.js:190-201 | with the vehicle type a property is sent unless "", null or undefined, booleans as "1"/"0", other values as they are |
| AddProduct.VehiculeSameInBothFlows | src/pages/ecom/AddProduct.js:190-201 | the vehicle appends of the creation send the same text as those of the edition |
| AddProduct.PayloadPromos | src/pages/ecom/AddProduct.js:204-215 | the promo-code keys carry exactly the rows' appends |
| AddProduct.EnabledButtonSends | src/pages/ecom/AddProduct.js:724-731 | when the submit button is enabled, the submission is sent |
| AddProduct.InitialIsRejected | src/pages/ecom/AddProduct.js:24-38 | the empty form is refused |
| AddProduct.FallbackTypesBlockSubmit | src/pages/ecom/AddProduct.js:57-59 | with the fallback types no product can be created |
| AddProduct.EmptyCategoryIsRejected | src/pages/ecom/AddProduct.js:462-467 | picking the empty category refuses the submission |
| AddProduct.TypedLabelIsSent | src/pages/ecom/AddProduct.js:106-112 | a label typed into a complete form is what the request sends under `libelle` |
| AddProduct.ProductCreator.constructor | src/pages/ecom/AddProduct.js:16-38 | the empty product, no type, no types, no error |
| AddProduct.ProductCreator.TypesLoaded | src/pages/ecom/AddProduct.js:41-62 | the types become `TypesAfter` of the old ones; nothing else changes |
| AddProduct.ProductCreator.HandleTypeChange | src/pages/ecom/AddProduct.js:95-103 | the type is the option and the product is `TypeChanged` of the old one |
| AddProduct.ProductCreator.SelectType | src/pages/ecom/AddProduct.js:442-448 | the type is the one `FindType` finds, and the product follows it |
| AddProduct.ProductCreator.SelectCategory | src/pages/ecom/AddProduct.js:463-468 | the product is `CategoryChosen` of the old one |
| AddProduct.ProductCreator.HandleChange | src/pages/ecom/AddProduct.js:106-112 | the product is `FieldChanged` of the old one |
| AddProduct.ProductCreator.HandleDetailChange | src/pages/ecom/AddProduct.js:115-123 | the product is `DetailChanged` of the old one |
| AddProduct.ProductCreator.AddCodePromo | src/pages/ecom/AddProduct.js:126-134 | the rows are `PromoAdded` of the old rows |
| AddProduct.ProductCreator.RemoveCodePromo | src/pages/ecom/AddProduct.js:136-141 | the rows lose exactly index `idx`, in order |
| AddProduct.ProductCreator.HandleCodePromoChange | src/pages/ecom/AddProduct.js:143-149 | the rows are `PromoFieldSet` of the old rows |
| AddProduct.ProductCreator.SetImages | src/pages/ecom/AddProduct.js:590-597 | the images are the new list; no deletion is tracked |
| AddProduct.ProductCreator.HandleSubmit | src/pages/ecom/AddProduct.js:152-215 | the result is `Submit` of the current state; the error shows the message of a refusal and is cleared otherwise |
| AddProduct.HeadPass | src/pages/ecom/AddProduct.js:168-177 | the type and the category, then the edition's top-level appends |
| AddProduct.BodyPass | src/pages/ecom/AddProduct.js:180-215 | the loops' appends, part after part |
| AddProduct.ImagesPass | src/pages/ecom/AddProduct.js:180-182 | the image loop appends one `images[i]` entry per image |
| Appointments.RequestedServices | src/pages/rdv/RdvContainer.js:41-43 | nothing without a selection; otherwise exactly the services whose flag is the number 1, in list order |
| Appointments.DetailOnlyForRequested | src/pages/rdv/RdvContainer.js:159-175 | a detail line is shown only for a service listed as requested |
| Appointments.StringFlagNotRequested | src/pages/rdv/RdvContainer.js:42 | a flag holding the text "1" does not list the service |
| RdvContainer.DayGroups | src/pages/rdv/RdvContainer.js:21-33 | one group per day in first-seen order, each holding that day's appointments and captioned by its first one |
| RdvContainer.IndexOfDay | src/pages/rdv/RdvContainer.js:30 | the position of a day in the accumulator, or -1 exactly when absent |
| RdvContainer.DayIndex | src/pages/rdv/RdvContainer.js:30 | looking a day up in the accumulator finds its group's position in the grouping |
| RdvContainer.MirrorsPush | src/pages/rdv/RdvContainer.js:30-31 | one step of the reduce matches one push of the grouping |
| RdvContainer.GroupByDay | src/pages/rdv/RdvContainer.js:21-33 | the reduce builds `DayGroups` |
| RdvContainer.DayKeys | src/pages/rdv/RdvContainer.js:36 | the days in first-seen order |
| RdvContainer.Insert | src/pages/rdv/RdvContainer.js:36-38 | inserting into an increasing list keeps it increasing, adding exactly that day |
| RdvContainer.SortAscending | src/pages/rdv/RdvContainer.js:36-38 | the sorted days are increasing and a permutation of the input |
| RdvContainer.SortedDates | src/pages/rdv/RdvContainer.js:36-38 | every day of the planning exactly once, earliest first |
| RdvContainer.DayGroupsDistinct | src/pages/rdv/RdvContainer.js:30 | the accumulator never holds a day twice |
| RdvContainer.PlanningIsByDay | src/pages/rdv/RdvContainer.js:21-33 | each appointment is listed under its own day in input order, and the day's caption comes from its first appointment |
| FullCalendar.EventOf | src/pages/rdv/FullCalendar.js:11-16 | the event's id is the text of the appointment id, its start the appointment date, its title names the client and plate, and it is not all-day |
| FullCalendar.Events | src/pages/rdv/FullCalendar.js:11-16 | one event per appointment, in order |
| FullCalendar.FindById | src/pages/rdv/FullCalendar.js:19 | the first appointment whose id text is the event id; none exactly when no id matches |
| FullCalendar.HandleEventClick | src/pages/rdv/FullCalendar.js:18-23 | a found appointment becomes the selection; an unknown id keeps the selection |
| FullCalendar.ClickSelectsItsAppointment | src/pages/rdv/FullCalendar.js:11-23 | clicking the event of an appointment selects one with the same id, that very appointment when ids are distinct |
| FullCalendar.ModalDelete | src/pages/rdv/FullCalendar.js:150-153 | the selection clears and the selected appointment is handed on |
| Js.Flag | src/pages/makePage/EditPage.js:228 | 1 exactly for a truthy value, 0 otherwise |
| Js.Filter | src/pages/makePage/Pages.js:121-123 | exactly the elements satisfying the test, as an order-preserving subsequence |
| Js.WithoutIndex | src/pages/ecom/ImageUploadWithPreview.js:61-63 | an index in range removes exactly that element, keeping the others in order; any other index keeps the list |
| Js.PushThenRemove | src/pages/ecom/ImageUploadWithPreview.js:54-62 | removing the element just pushed gives back the list |
| Js.NatToStringInjective | src/pages/rdv/FullCalendar.js:12 | different numbers have different decimal texts |
| Js.IntToStringInjective | src/pages/rdv/FullCalendar.js:19 | different integers have different texts, so an id text finds one id |
| Js.PathKeyInjective | src/pages/makePage/EditPage.js:302 | different bracketed paths give different key texts, so looking up a path key finds only that path's entries |

## Left out

- Network calls: the GET, POST and DELETE requests, the 401 redirect, the parallel loading of the edition form and its liveness flag. Server answers (`status`, `res.ok`, a thrown request) are inputs.
- The wire encoding of the multipart body. A payload is the ordered list of its entries, and a file is an opaque handle with a size.
- Rendering, `alert`, navigation after a request, the confirmation modals' markup, and the loading and error flags around requests. The one exception is the creation form's error text, which is modelled.
- The normalisation applied when the edition forms load their data: `|| ""`, `parseInt` of the prices, `!!` of the vehicle booleans. The loaded product is an input of `ProductUpdate.ProductEditor.constructor`, and `EditPage.PageEditor` starts from the default page.
- The form-control `disabled` guard of the edition submit button. It is not one of the modelled operations.
- `JSON.stringify` of a custom block's configuration. It is an opaque text.
- Floating-point numbers: `parseFloat`, `toLocaleString` price displays, and fractional prices. Numbers are integers or `NaN`.
- Dates:
  - `formatDistanceToNow` and its abbreviations are not modelled; the last-update line is "relative to the update date".
  - `toLocaleDateString` and `toISOString` are not modelled; the planning takes an appointment's day and caption as given functions.
  - `ProductUpdate.FormatDate` is modelled on strings only. A non-string date in the source would throw.
- `URL.createObjectURL` is a given function from files to texts. The revocation of object URLs is modelled only as the list of URLs to revoke.
- `getBoundingClientRect` is not modelled: element boxes are integer inputs. Attaching a ref to an element is not modelled either.
- Unicode case folding: `toLowerCase` is ASCII-only here.
- Object key order: the detail objects keep insertion order. `Object.entries` lists integer-like keys first; property names here are field names, never integers.
- RdvList.FilteredRdvs: a plate that is neither a string nor nullish makes the source throw, because the optional chain guards only `null` and `undefined`; the model treats such an appointment as not matching and hides it.
- Pages.FilteredPages: a page title is a string in the model, so a null, missing or non-string title, on which the source throws, is not represented.
- ProductsList.FilteredProducts: a label or reference that is neither a string nor nullish makes the source throw; the model treats it as not matching.
- ProductUpdate.ProductEditor.HandleCodePromoChange and AddProduct.ProductCreator.HandleCodePromoChange: the source assigns into the row object shared with the previous state. The model builds a new row, so this aliasing is not captured.
- EditPage.PageEditor: the source mutates section and subsection objects shared with the previous render. The model replaces them, so this aliasing is not captured.
- `TypeOption` labels: the fallback types of the creation form carry `label`, not `libelle`. The model keeps only the fields the screens read.
- Unmounting while a request is pending, and React's double invocation of updaters in development mode.
