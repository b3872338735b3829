# Guangda City rental records — a Dafny model

Guangda City is a small rent-collection system. Tenants register, submit monthly rent and utility payments and upload proof-of-payment images. An administrator confirms payments, manages tenants and the landlord's bank account, and browses paginated, filterable lists. This project models three parts of it in Dafny and proves properties of the model:

- The Express backend (`backend/server.js`). It keeps all records in one in-memory object, `sharedData`, which holds the tenants, payments, images and bank account. The model is the class `RecordStore.Store`, with one field per collection and one method per request handler that reads or changes it. The caller's decoded token, the clock, the random file-name part and the uploaded files are method parameters. The `checkAdmin` middleware is the `Forbidden` error path of the admin-only methods. Pure computations inside the handlers are Dafny functions with lemmas:
  - the fee arithmetic of a new payment;
  - the multer file filter;
  - the filters, sort, JavaScript `slice` window and `Math.ceil` page count of the two paginated queries;
  - the dashboard's counts and its ten newest records.
- The browser's image list in localStorage (`src/utils/storage.js`). This is one dictionary from room number to a list of images. The model is the class `LocalImages.ImageStorage`, whose field `all` is the dictionary. Its methods are specified by the functions `WithImage` and `WithoutImage`.
- `validateForm` of the registration page (`src/components/Register.jsx`). This is the method `RegisterForm.ValidateForm`, which fills in the error record field by field, in the page's order.

Modules, in dependency order:

- `Common` — `Option`, `Result`, `Failure`, record ids (`Id`: number or string) and the caller identity.
- `Text` — `toLowerCase`, `includes`, `trim`-blankness, UTF-16 `length`, `path.extname`, `String(n)` and loose `==`.
- `Seqs` — filtering, removing an element and summing.
- `Sorting` — sorting by an integer key.
- `Paging` — the page window and page count.
- `Records` — the four record kinds.
- `Ledger` — creating payments and changing their status.
- `Uploads` — multer and the names of stored files.
- `Ranking` — sorted windows and the newest-n selection.
- `Query` — the two paginated admin queries.
- `Listing` — the role-scoped lists and the dashboard.
- `RecordStore` — the store and its handlers.
- `LocalImages` and `RegisterForm` — the two browser-side parts.

## Model

| member | source | states |
|---|---|---|
| Text.ContainsIffOccurs | backend/server.js:1039-1040 | `includes` holds exactly when the needle occurs at some index of the text |
| Text.Utf16Length | src/components/Register.jsx:57 | `length` counts UTF-16 code units: between one and two per character, and zero only for the empty string |
| Text.BaseNameFacts | backend/server.js:39 | the last path component has no '/' and is a suffix of the path |
| Text.Extname | backend/server.js:646 | a non-empty extension starts with its only '.', has no '/' and is a suffix of the file name |
| Text.DotGivesExtension | backend/server.js:646 | a dot after the first character of the last path component (other than "..") gives a non-empty extension starting at that dot or a later one, so the extension is the component from its last dot on |
| Text.NoDotNoExtension | backend/server.js:39 | a name without a dot has no extension |
| Text.DecimalStringRoundTrip | backend/server.js:1033 | reading back `String(n)` as a number gives `n` |
| Text.LooseEqualsOwnText | backend/server.js:1033 | a record id is loosely equal to its own text, so the `tenant_id` filter finds it |
| Seqs.FindIndex | backend/server.js:564 | `findIndex` gives the first index that satisfies the test, or none when no element does |
| Seqs.RemoveAt | backend/server.js:829 | `splice(k, 1)` removes one element and keeps the others in order |
| Seqs.RemoveAtMultiset | backend/server.js:915 | after the splice, the removed element together with what is left is exactly the old collection |
| Sorting.SortBy | backend/server.js:488 | the sorted list is a permutation of the input, ordered by the key in the requested direction |
| Sorting.SortByMembers | backend/server.js:1048-1057 | sorting neither adds nor loses any record |
| Paging.SliceBound | backend/server.js:1060 | a non-negative `slice` bound is clamped to the length; a negative one counts back from the end, clamped at 0 |
| Paging.SliceFrom | backend/server.js:1060 | a slice from a non-negative start is the records from there, at most `limit` of them, and empty past the end |
| Paging.PageWindow | backend/server.js:1022-1060 | for page ≥ 1 and limit ≥ 1, the page is the records from `(page-1)*limit` on, at most `limit` of them, and empty past the end |
| Paging.TotalPagesBounds | backend/server.js:1082 | `ceil(total/limit)` pages are the fewest that hold every record, and there are none only when there are no records |
| Paging.PageBetweenEnds | backend/server.js:1022-1060 | page k is the slice between the ends of pages k − 1 and k, clamped to the list |
| Paging.PageCount | backend/server.js:1082 | with a positive limit, `total_pages` is a natural number |
| Paging.PagesUpToPrefix | backend/server.js:1059-1060 | pages 1 to n, read in order, are the first n·limit records |
| Paging.AllPagesReassemble | backend/server.js:1059-1082 | reading every reported page in order gives back the whole list |
| Paging.SecondPageOfTwentyFive | backend/server.js:1022-1082 | with 25 records and 10 per page, page 2 holds records 11 to 20 and there are 3 pages |
| Paging.NegativePageFromEnd | backend/server.js:1011-1060 | an unparsed negative `page` gives a window counted from the end, from `n + (page-1)·limit` to `n + page·limit`, each clamped at 0 |
| Paging.PageMinusOneOfTwentyFive | backend/server.js:1011-1060 | with 25 records and 10 per page, `page=-1` is `slice(-20, -10)`, records 6 to 15 |
| Paging.PageZeroIsEmpty | backend/server.js:1022 | `page=0` gives `slice(-limit, 0)`, which is empty |
| Ranking.WindowFacts | backend/server.js:1048-1060 | a page of the sorted records has at most `limit` of them, all from the input, still in order, and none past the end |
| Ranking.AllWindowsCoverInput | backend/server.js:1044-1082 | all pages of the sorted records together hold each input record exactly as often as the input does |
| Ranking.ConcatWindows | backend/server.js:1059-1060 | pages that are each the window of the same sorted list concatenate to the successive windows |
| Ranking.PagesCoverInput | backend/server.js:1044-1082 | any pages that are each their window, read from page 1 to page `ceil(n/limit)`, are the whole sorted input in order, and so hold each input record exactly as often as the input does |
| Ranking.Newest | backend/server.js:949-957 | `[...s].sort(newest first).slice(0, n)`; its contract is `NewestFacts` |
| Ranking.NewestFacts | backend/server.js:950-957 | the n newest are min(n, count) records of the input, none more often than the input holds it, newest first, and no record left out is newer than one kept |
| Query.FirstTenantFound | backend/server.js:982 | `find` by strict id stops at the first tenant with the owner's numeric id, and finds nothing when no tenant has it |
| Query.RoomOf | backend/server.js:1068-1074 | the room of the first tenant whose id is strictly the owner's, or "--" when there is none |
| Query.FilterPayments | backend/server.js:1028-1042 | the three optional filter stages in the handler's order; its contract is `FilterPaymentsSpec` |
| Query.FilterPaymentsSpec | backend/server.js:1028-1042 | the three optional filter stages keep exactly the payments that match the status, the tenant and the search condition, in store order |
| Query.DefaultPaymentQueryKeepsAll | backend/server.js:1012-1042 | with the default query every payment is kept |
| Query.PaymentsPage | backend/server.js:1022-1086 | the response body of the paginated payment query; its contracts are `PaymentsPageCounts`, `PaymentsPageStatistics`, `PaymentsPageRows` and `PaymentPageIsWindow` |
| Query.PaymentRowsKeepPage | backend/server.js:1068-1074 | adding room numbers changes neither the page's payments nor their order |
| Query.PaymentsPageCounts | backend/server.js:1044-1086 | `total_records` and `total_payments` count the matching payments; `total_pages` is `ceil(matches/limit)`; the current page and limit are echoed |
| Query.PaymentsPageStatistics | backend/server.js:1062-1065 | the pending and confirmed counts and the amount total cover all matching payments, not just the page; pending + confirmed ≤ total |
| Query.PaymentsPageRows | backend/server.js:1047-1074 | every row is a stored matching payment with its owner's room; there are at most `limit` rows, in the requested order, and none past the last match |
| Query.PaymentPageIsWindow | backend/server.js:1047-1074 | the payments of one page, room column aside, are the page's window of the matches sorted as requested |
| Query.PaymentPagesAreWindows | backend/server.js:1047-1074 | for every page number, the payments the server lists on that page are its window of the sorted matches |
| Query.PaymentPagesCoverMatches | backend/server.js:1044-1083 | paging through pages 1 to `total_pages` shows all matching payments in the requested order, so each exactly as often as it is stored, and nothing else |
| Query.FilterImagesSpec | backend/server.js:1119-1129 | the two optional image filter stages keep exactly the images that match the tenant and the case-insensitive search |
| Query.DefaultImageQueryKeepsAll | backend/server.js:1104-1129 | with the default query every image is kept |
| Query.ImagesPage | backend/server.js:1113-1164 | the response body of the paginated image query; its contracts are `ImagesPageCounts`, `ImagesPageRows` and `ImagePageIsWindow` |
| Query.ImageRowsKeepPage | backend/server.js:1150-1156 | adding room numbers keeps the page's images and their order |
| Query.ImagesPageCounts | backend/server.js:1132-1166 | `total_records` counts the matching images and `total_pages` is `ceil(matches/limit)` |
| Query.ImagesPageRows | backend/server.js:1134-1156 | every row is a stored matching image with its owner's room; there are at most `limit` rows, in order, and none past the end |
| Query.ImagePageIsWindow | backend/server.js:1134-1156 | the images of one page, room column aside, are the page's window of the matches sorted as requested |
| Query.ImagePagesAreWindows | backend/server.js:1134-1156 | for every page number, the images the server lists on that page are its window of the sorted matches |
| Query.ImagePagesCoverMatches | backend/server.js:1132-1164 | pages 1 to `total_pages` together show all matching images in the requested order, so each exactly as often as it is stored, and nothing else |
| Ledger.NewPayment | backend/server.js:517-539 | the record POST /api/payments appends; its contract is `NewPaymentFields` |
| Ledger.NewPaymentFields | backend/server.js:517-539 | a new payment is pending and belongs to the caller; usage = current − previous meter and fee = usage × rate; the total is rent + water + electricity unless a non-zero total was supplied |
| Ledger.WorkedExample | backend/server.js:517-534 | rent 15000, water 200, rate 5 and meters 100 to 150 give 50 units, a fee of 250 and a total of 15450 |
| Ledger.StatusChangeKeepsFees | backend/server.js:574-575 | changing the status keeps the fee fields consistent and the total unchanged |
| Ledger.SetStatusTwice | backend/server.js:574-575 | setting a status twice equals setting it once, at the second time |
| Uploads.FileFilter | backend/server.js:36-47 | multer's `fileFilter`: the lower-cased extension and the MIME type must both match the pattern; its contracts are `MatchesAllowedTypeIff`, `NameWithoutDotRejected` and `UnanchoredExtensionAccepted` |
| Uploads.MatchesAllowedTypeIff | backend/server.js:38-40 | the unanchored pattern matches exactly when one of jpeg/jpg/png/gif/pdf occurs in the text |
| Uploads.NameWithoutDotRejected | backend/server.js:36-47 | a file name without a dot has no extension, and the filter refuses the file |
| Uploads.UnanchoredExtensionAccepted | backend/server.js:36-47 | "a.jpgx" with type image/png passes, because the pattern is not anchored |
| Uploads.ExtnameOfSample | backend/server.js:39 | the extension of "a.jpgx" is ".jpgx" |
| Uploads.PublicUrl | backend/server.js:654 | every stored file's URL starts with `/uploads/` |
| Uploads.UploadedImageFields | backend/server.js:643-666 | an uploaded file's record has the given id and belongs to the caller; its URL lies under `/uploads/` and ends with the original extension |
| Listing.PaymentListing | backend/server.js:475-488 | the payments GET /api/payments returns; its contract is `PaymentListingSpec` |
| Listing.PaymentListingSpec | backend/server.js:475-488 | an admin sees every payment and a tenant exactly their own, each as often as stored, newest payment date first |
| Listing.ImageListing | backend/server.js:595-608 | the images GET /api/images returns; its contract is `ImageListingSpec` |
| Listing.ImageListingSpec | backend/server.js:595-608 | an admin sees every image and a tenant exactly their own, newest upload first |
| Listing.DashboardOf | backend/server.js:942-964 | the dashboard body; its contracts are `DashboardCounts`, `DashboardRecentPayments` and `DashboardRecentImages` |
| Listing.DashboardCounts | backend/server.js:944-947 | the dashboard counts every record; the pending count plus the count of all other payments is the payment count |
| Listing.DashboardRecentPayments | backend/server.js:949-952 | the recent payments are the min(10, n) newest by creation time, none shown more often than stored, newest first, and none left out is newer |
| Listing.DashboardRecentImages | backend/server.js:954-957 | the recent images are the min(10, n) newest by upload time, none shown more often than stored, newest first, and none left out is newer |
| RecordStore.UsernameInUse | backend/server.js:368 | `some` holds exactly when a tenant has that username |
| RecordStore.RegisterKeepsUsernamesUnique | backend/server.js:368-392 | appending a tenant whose username is free keeps usernames unique |
| RecordStore.RemoveKeepsUsernamesUnique | backend/server.js:915 | removing a tenant keeps usernames unique |
| RecordStore.UploadBatch | backend/server.js:710-739 | the records the upload-multiple loop appends; its contract is `UploadBatchFields` |
| RecordStore.UploadBatchFields | backend/server.js:710-739 | a batch has one record per file, consecutive ids after the current count, the caller as owner and each file's own name, size, type and time |
| RecordStore.CascadeImages | backend/server.js:887-909 | the cascade keeps exactly the images of other owners, as often as before; kept plus removed equals the old count |
| RecordStore.CascadePayments | backend/server.js:890-912 | the cascade keeps exactly the payments of other owners; kept plus removed equals the old count |
| RecordStore.IdsCanRepeat | backend/server.js:658 | ids are count + 1, so deleting image 1 of 2 and uploading again reuses id 2 |
| RecordStore.Store.constructor | backend/server.js:130-172 | a fresh store has no payments or images, only the seeded test tenant (id 2), and the default bank account |
| RecordStore.Store.Register | backend/server.js:368-392 | a taken username is refused and nothing changes; otherwise the new tenant is appended and returned without its password, and usernames stay unique |
| RecordStore.Store.GetBankInfo | backend/server.js:428-433 | returns the stored bank account |
| RecordStore.Store.UpdateBankInfo | backend/server.js:444-455 | non-admins are refused; an admin replaces the whole account with the form, stamped now; nothing else changes |
| RecordStore.Store.ListPayments | backend/server.js:475-488 | returns the caller's scoped, sorted listing; for an admin the stored array is reordered in place (same multiset), otherwise left alone |
| RecordStore.Store.ListImages | backend/server.js:595-608 | the same for images, sorted by upload time |
| RecordStore.Store.CreatePayment | backend/server.js:504-541 | appends the derived payment, numbered count + 1, and changes nothing else |
| RecordStore.Store.UpdatePaymentStatus | backend/server.js:559-581 | non-admins are refused; an unknown id gives NotFound; otherwise only the first payment with that id gets the new status and time |
| RecordStore.Store.UpdatePaymentStatusChecked | backend/server.js:1199-1222 | as above, but a status other than pending/confirmed is refused before the lookup |
| RecordStore.Store.UploadImage | backend/server.js:624-669 | a file multer refuses, or no file at all, changes nothing; otherwise one record numbered count + 1 is appended and returned |
| RecordStore.Store.UploadImages | backend/server.js:690-739 | a batch multer refuses, or an empty batch, changes nothing; otherwise the whole batch is appended in order and returned |
| RecordStore.Store.AppendBatch | backend/server.js:710-739 | the loop appends each file's record, numbered from the count at that moment, and returns exactly the appended records |
| RecordStore.Store.SaveImage | backend/server.js:761-775 | appends a record of the given URL, name and size without a file type, owned by the caller |
| RecordStore.Store.DeleteImage | backend/server.js:793-829 | an unknown id gives NotFound; someone who is neither admin nor owner is refused; otherwise the first image with that id is removed |
| RecordStore.Store.ListTenants | backend/server.js:848-858 | non-admins are refused; an admin gets every tenant, in order, without passwords |
| RecordStore.Store.DeleteTenant | backend/server.js:870-931 | non-admins are refused and an unknown id gives NotFound, with nothing changed; otherwise the tenant and all their images and payments go, and the reported counts are what was removed |
| RecordStore.Store.Dashboard | backend/server.js:942-968 | non-admins are refused; an admin gets the counts and newest-ten lists of the store |
| RecordStore.Store.Profile | backend/server.js:980-997 | the first tenant whose id is strictly the caller's, without the password, or NotFound |
| RecordStore.Store.PaginatedPayments | backend/server.js:1010-1091 | non-admins are refused; an admin gets the page, pagination and statistics of the query |
| RecordStore.Store.PaginatedImages | backend/server.js:1102-1167 | non-admins are refused; an admin gets the page and pagination of the image query |
| LocalImages.WithImage | src/utils/storage.js:17-22 | the dictionary `addImageToLocal` writes back; its contract is `WithImageSpec` |
| LocalImages.WithoutImage | src/utils/storage.js:24-29 | the dictionary `deleteImageFromLocal` writes back; its contracts are `WithoutImageSpec`, `WithoutImageIdempotent` and `AddThenDelete` |
| LocalImages.WithImageSpec | src/utils/storage.js:17-22 | adding appends to the room's list, creating it if needed, and leaves every other room alone |
| LocalImages.WithoutImageSpec | src/utils/storage.js:24-29 | deleting removes every image of the room with that id and keeps each other image as often as before; other rooms are untouched; an unknown room is a no-op |
| LocalImages.WithoutImageIdempotent | src/utils/storage.js:24-29 | deleting an id twice is the same as deleting it once |
| LocalImages.AddThenDelete | src/utils/storage.js:17-29 | deleting the id of an image just added (with a fresh id) restores the room's list |
| LocalImages.ImageStorage.constructor | src/utils/storage.js:13 | an empty key reads as the empty dictionary |
| LocalImages.ImageStorage.GetImagesFromLocal | src/utils/storage.js:12-15 | the room's list, or the empty list for a room never stored |
| LocalImages.ImageStorage.AddImageToLocal | src/utils/storage.js:17-22 | the dictionary becomes `WithImage` of the old one |
| LocalImages.ImageStorage.DeleteImageFromLocal | src/utils/storage.js:24-29 | the dictionary becomes `WithoutImage` of the old one |
| RegisterForm.TenDigitsNotBlank | src/components/Register.jsx:47-51 | a ten-digit phone is never blank, so the format message only reaches non-blank phones |
| RegisterForm.KeyCount | src/components/Register.jsx:68 | `Object.keys(newErrors).length` is zero exactly when no key was set, and at most five |
| RegisterForm.ExpectedErrors | src/components/Register.jsx:42-66 | the message each key holds after the checks; its contracts are `ExpectedErrorsKeys` and `NoErrorsIffAcceptable` |
| RegisterForm.ExpectedErrorsKeys | src/components/Register.jsx:42-66 | each key is present exactly when its check fails: the phone key for a blank, malformed or registered phone, the password key for fewer than six UTF-16 units; the format message only reaches non-blank phones |
| RegisterForm.NoErrorsIffAcceptable | src/components/Register.jsx:42-68 | no key is set exactly when the name and room are non-blank, the phone is ten digits and unregistered, and the password has six units and is confirmed |
| RegisterForm.ValidateForm | src/components/Register.jsx:42-69 | the checks run in the page's order and leave each key holding the message of its last failing check, so a registered phone overrides the other phone messages; the form is accepted exactly when no key is set, i.e. when every check passes |

## Left out

- Login, JWT issue and verification (`authenticateToken`) and the bcrypt import: the caller reaches each handler as an already decoded `Identity`.
- Loading and saving `data.json` (`loadData`/`saveData`), the upload directory, writing and unlinking files, and `express.static`: these are file-system effects. A fresh start without a data file is the constructor; an existing file's contents are not modelled.
- The MySQL and S3 clients, the email server, the HTML page routes and the health routes: these are I/O or read-only status and hold no model state.
- GET /api/admin/tenant-options: it is the same password-free projection as `ListTenants`.
- The React components other than `validateForm`, and `src/services/api.js`: these are UI and HTTP plumbing.
- The `useAPI` switch and the `...ViaAPI` functions of storage.js: they only forward to the HTTP client.
- The JSON round-trip of the localStorage dictionary: it is modelled as the dictionary itself. Room keys that name `Object.prototype` members (`constructor`, `__proto__`) are not modelled.
- RegisterForm.ValidateForm: storage.js exports no `getUsers` (nor `addUser`), so the phone numbers of existing users are a parameter.
- Numbers from text: `parseFloat` results and NaN are not modelled. The form's numbers arrive already read (`real` amounts, `int` meters). A non-numeric `:id` parameter (NaN, which matches nothing) is not modelled; ids are integers. Query-string `page` and `limit` arrive as integers. A numeric text is read as an optional '-' and digits only (no spaces, exponents or hex).
- Missing body fields (`undefined`) are not modelled: every text field is a string, and `file_size` of POST /api/images/save is an integer, stored as sent. Among other effects, an image saved without `image_url` makes the later `startsWith` test throw.
- Ledger.NewPaymentFields: meter readings are integers in the model. The handler computes usage and fee from the readings as sent but stores `parseInt` of each reading, so for fractional readings (100.2 to 150.7) it stores a usage of 50.5 beside meters whose difference is 50; `FeesConsistent` (usage = current − previous) holds of the source only for whole readings.
- Text.LowerChar: only ASCII letters are lower-cased; Unicode case mapping is not modelled.
- Text.Extname: names ending in '/' and other corner cases of Node's `path.extname` are not modelled.
- Query.PaymentKey: only the sort fields `created_at`, `updated_at`, `payment_date` and `id` are modelled, and only `uploaded_at`, `id` and `file_size` for images. Dates are millisecond integers, so invalid dates (NaN in the comparator) are not modelled.
- Sorting.SortBy: records with equal keys come out in the order the model's insertion sort gives them; agreement with V8's stable sort among equal keys is not proved. RecordStore.Store.ListPayments, ListImages and the paginated methods inherit this.
- Multer's own error responses are all the one `UploadRejected` failure. This includes "Unexpected field" for a wrong field name or more than five files.
- Id uniqueness: payment and image ids are count + 1 and can repeat after a delete (`IdsCanRepeat`), so no uniqueness invariant is kept. Lookups act on the first record with the id, as `findIndex` does.
- RecordStore.Store.AppendBatch: the upload-multiple loop is its own method; the handler calls it after the checks.
- Concurrency between requests is not modelled; each handler runs to completion on its own.
