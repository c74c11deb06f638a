# Share-Bloom backend: route decisions

This project models the decision logic of the Share-Bloom donation platform's
Express backend, and proves properties of that model. The platform has four kinds
of record: donations offered by donors, requests posted by recipients, donation
drives organised by admins, and user accounts.

The route handlers act on one in-memory store (`Db.Store`). The store has a table
from document id to record for each collection, and the id the next inserted
document receives.

- **State-changing handlers.** Each one (create, update, delete, match, join a
  drive, change a role, remove a user) is a method. It takes an `Actor` (the
  id and role that the token middleware attaches) and returns a `Response`:
  `Ok`, `Created`, `BadRequest` with its messages, `Forbidden`, `NotFound`, or
  `ServerError` when the schema's validators refuse the document.
  - Its `ensures` give the order in which the errors are checked.
  - They also give the whole new state of the store as a function of the old one.
  - Every stored donation and request satisfies its schema's validators, and every
    drive has its required strings. This is the invariant `Db.Store.Valid` that
    every such method keeps.
- **List handlers and the admin report.** These are functions over the documents
  of a table (`Db.Rows`, ascending id order):
  - filter on the query parameters;
  - sort with a stable insertion sort on a key triple;
  - skip `(page - 1) * limit`, take `limit`, and report `totalPages = ceil(total / limit)`.
- **Schemas.** The three Mongoose schemas (`Request`, `Donation`, `DonationDrive`)
  are datatypes with their enums, defaults and a validity predicate.
- **Request bodies.** An update body is a patch whose present fields override the
  stored ones. A create body keeps the validated fields as sent: strings that the
  express-validator chain trims and checks, and whose failures are reported in
  chain order with the chain's messages.

Modules follow the source files:

| module | source |
|---|---|
| `Common` | shared identifiers, roles, actor, response, validator errors |
| `Items` | item category, delivery status and feedback, shared by requests and donations |
| `Text` | `trim()`, the case-insensitive substring test of `new RegExp(q, 'i')`, string order |
| `Listing` | filter, sort, skip/limit, page count |
| `RequestModel`, `DonationModel`, `DriveModel` | `models/Request.js`, `models/Donation.js`, `models/DonationDrive.js` |
| `UserModel` | the account record and the password-free view |
| `Db` | the store |
| `RequestRoutes`, `DonationRoutes`, `DriveRoutes`, `UserRoutes` | `routes/requests.js`, `routes/donations.js`, `routes/drives.js`, `routes/users.js` |
| `AdminController` | `controllers/adminController.js`, behind the admin-only guard of `routes/admin.js` |

Behaviour a reader might not expect:

- A match has no precondition on the request's status, and it neither reads nor
  changes the donation.
- Requests are listed by the priority and urgency strings in alphabetical order
  (high < low < medium < urgent; critical < emergency < normal), not by severity.
- Only the user routes' delete refuses an admin's own account; the admin
  controller's `removeUser` does not.
- Drive creation does not compare `endDate` with `startDate`
  (`DriveRoutes.EndBeforeStartAccepted`).
- The admin user search returns full account records, password hash included. It
  uses `.lean()` without `select('-password')`, unlike the user routes.

## Model

| member | source | states |
|---|---|---|
| Common.ParseRole | donor/donor/backend/controllers/adminController.js:33 | a string is accepted exactly when it names one of the four roles, and then yields that role |
| Common.RoleNameRoundTrip | donor/donor/backend/controllers/adminController.js:33 | every role's name is accepted and parses back to the same role |
| Items.ParseCategory | donor/donor/backend/models/Request.js:18-22 | a string is accepted exactly when it is one of the six category names, and then yields that category |
| Items.CategoryNameRoundTrip | donor/donor/backend/models/Donation.js:18-22 | every category's name parses back to that category |
| Text.Trim | donor/donor/backend/routes/requests.js:62-63 | the result has no white space at either end, and is a slice of the input with only white space around it |
| Text.TrimmedIsFixed | donor/donor/backend/models/Request.js:9-13 | the schema's `trim` leaves an already sanitized title unchanged |
| Text.TrimIdempotent | donor/donor/backend/routes/requests.js:62 | trimming twice is trimming once |
| Text.ContainsIgnoringCaseOfLower | donor/donor/backend/routes/donations.js:16 | lower-casing the searched text never changes a case-insensitive match |
| Listing.Filter | donor/donor/backend/routes/requests.js:13-19 | keeps exactly the documents that satisfy the filter, with their multiplicities |
| Listing.FilterAppend | donor/donor/backend/routes/requests.js:13-19 | filtering keeps order: the matches of a concatenation are the matches of its first part followed by those of its second |
| Listing.FilterNone | donor/donor/backend/routes/users.js:118 | a filter nothing satisfies selects nothing |
| Listing.FilterAll | donor/donor/backend/controllers/adminController.js:12-14 | a filter everything satisfies selects every document in order |
| Listing.Insert | donor/donor/backend/routes/requests.js:23 | inserting adds exactly one occurrence of the element |
| Listing.InsertSorted | donor/donor/backend/routes/requests.js:23 | inserting into a sorted sequence keeps it sorted |
| Listing.SortBy | donor/donor/backend/routes/requests.js:23 | the result is sorted by the key and is a permutation of the input |
| Listing.SortedMembers | donor/donor/backend/routes/requests.js:23 | sorting neither adds nor loses a document |
| Listing.Take | donor/donor/backend/controllers/adminController.js:76 | `.limit(n)` keeps the first `min(n, length)` elements |
| Listing.Newest | donor/donor/backend/controllers/adminController.js:76 | `.sort(key).limit(n)` keeps `min(n, length)` of the documents, no document more often than stored, in key order, and every document left out sorts no earlier than every one kept |
| Listing.Paginate | donor/donor/backend/routes/requests.js:24-25 | a page holds at most `limit` elements: exactly those at positions `(page-1)*limit` onwards, as many as remain up to `limit` |
| Listing.TotalPagesIsCeiling | donor/donor/backend/routes/requests.js:31 | the page count is the least number of `limit`-sized pages that hold `total` documents, and zero only for zero documents |
| Listing.DocumentOnItsPage | donor/donor/backend/routes/requests.js:24-31 | element `k` is at position `k mod limit` of page `k / limit + 1`, which is within the page count |
| Listing.PaginateSorted | donor/donor/backend/routes/requests.js:23-25 | a page of a sorted sequence is sorted and holds only its elements |
| Listing.EveryElementOnSomePage | donor/donor/backend/routes/requests.js:24-31 | every element is on some page within the page count |
| Listing.Listed | donor/donor/backend/routes/requests.js:19-34 | the page holds only matching documents, is sorted and is at most `limit` long; `total` counts every match |
| Listing.ListedComplete | donor/donor/backend/routes/requests.js:24-31 | every matching document is listed on some page within the page count |
| RequestModel.ParsePriority | donor/donor/backend/models/Request.js:36-40 | accepts exactly the four priority names |
| RequestModel.ParseUrgency | donor/donor/backend/models/Request.js:41-45 | accepts exactly the three urgency names |
| RequestModel.NewRequest | donor/donor/backend/models/Request.js:36-98 | defaults: priority medium, urgency normal, status pending; no matched donation, drive or logistics; delivery pending; not an emergency |
| RequestModel.ApplyPatch | donor/donor/backend/routes/requests.js:107-111 | an update keeps the id and creation time, stamps `updatedAt`, and keeps the recipient and the status unless the body sets them |
| RequestModel.PatchPaths | donor/donor/backend/routes/requests.js:107-111 | path by path, a path the body sets takes the body's value (the title trimmed), and a path it leaves out keeps the stored value |
| RequestModel.PatchValidity | donor/donor/backend/routes/requests.js:107-111 | on a valid stored request, the updated request is valid exactly when the set paths pass the validators |
| RequestModel.PatchDecouplesStatus | donor/donor/backend/routes/requests.js:107-111 | the generic update can mark a request matched while it has no matched donation |
| RequestModel.MatchTo | donor/donor/backend/routes/requests.js:180-184 | a match sets the matched donation, status `matched` and the logistics agent, stamps `updatedAt`, and changes nothing else |
| RequestModel.MatchValidity | donor/donor/backend/routes/requests.js:184 | the `save()` after a match succeeds exactly when the stored request was valid |
| RequestModel.EmptyPatch | donor/donor/backend/routes/requests.js:107-111 | an empty body only refreshes `updatedAt` |
| DonationModel.ParseCondition | donor/donor/backend/models/Donation.js:36-40 | accepts exactly the five condition names |
| DonationModel.NewDonation | donor/donor/backend/models/Donation.js:55-93 | defaults: status available; no drive, recipient or logistics; delivery pending; not an emergency; no images |
| DonationModel.ApplyPatch | donor/donor/backend/routes/donations.js:104-108 | an update keeps the id and creation time, stamps `updatedAt`, and keeps the donor and the status unless the body sets them |
| DonationModel.PatchPaths | donor/donor/backend/routes/donations.js:104-108 | path by path, a path the body sets takes the body's value (the title trimmed), and a path it leaves out keeps the stored value |
| DonationModel.PatchValidity | donor/donor/backend/routes/donations.js:104-108 | on a valid stored donation, the updated donation is valid exactly when the set paths pass the validators |
| DonationModel.EmptyPatch | donor/donor/backend/routes/donations.js:104-108 | an empty body only refreshes `updatedAt` |
| DriveModel.ParseCategory | donor/donor/backend/models/DonationDrive.js:18-22 | accepts exactly the six drive category names, `mixed` included |
| DriveModel.NewDrive | donor/donor/backend/models/DonationDrive.js:48-115 | defaults: status upcoming, not an emergency, no emergency type, zero targets and progress, no volunteers, minimum age 0, public |
| DriveModel.ApplyPatch | donor/donor/backend/routes/drives.js:94-98 | an update keeps the id and creation time, stamps `updatedAt`, and keeps the volunteers unless the body sets them |
| DriveModel.PatchPaths | donor/donor/backend/routes/drives.js:94-98 | path by path, a path the body sets takes the body's value (the title trimmed), and a path it leaves out keeps the stored value |
| DriveModel.SchemaValidHasRequired | donor/donor/backend/models/DonationDrive.js:4-12 | a drive that passes the schema has its required strings |
| DriveModel.PatchValidity | donor/donor/backend/routes/drives.js:94-98 | on a stored drive, the update keeps the required strings exactly when the set paths pass the validators |
| DriveModel.PatchCanBreakEmergencyRule | donor/donor/backend/models/DonationDrive.js:53-63 | an update setting `isEmergency` passes the update validators yet leaves a drive that the schema refuses |
| DriveModel.RoleLabel | donor/donor/backend/routes/drives.js:150 | the label is the body's role when it is non-empty, and `volunteer` otherwise |
| DriveModel.Join | donor/donor/backend/routes/drives.js:148-151 | exactly one entry for the user, stamped now, is appended; earlier entries and every other field except `updatedAt` are unchanged |
| DriveModel.JoinKeepsDistinct | donor/donor/backend/routes/drives.js:140-151 | joining a user who is absent keeps the volunteers' user ids distinct |
| DriveModel.JoinRegisters | donor/donor/backend/routes/drives.js:148-151 | after joining, the user is among the volunteers |
| DriveModel.JoinValidity | donor/donor/backend/routes/drives.js:153 | the volunteer list plays no part in the schema's verdict |
| UserModel.View | donor/donor/backend/routes/users.js:16 | the view carries every field of the account except the password |
| UserModel.ViewHidesPassword | donor/donor/backend/routes/users.js:16 | accounts differing only in their password have the same view |
| UserModel.Views | donor/donor/backend/routes/users.js:15-16 | each account in order is replaced by its view |
| UserModel.Strip | donor/donor/backend/routes/users.js:69-71 | the patch loses its password, role and verification flag, and keeps every other field |
| UserModel.StripIdempotent | donor/donor/backend/routes/users.js:69-71 | stripping twice is stripping once |
| UserModel.StrippedPatchKeepsSensitive | donor/donor/backend/routes/users.js:68-77 | a stripped patch keeps the password, role, verification flag, id and creation time, and sets everything else as the body says |
| Db.Store.constructor | donor/donor/backend/routes/requests.js:19 | a store opened on valid contents |
| Db.Store.AddRequest | donor/donor/backend/routes/requests.js:80 | inserts one valid request under the next id and keeps the store valid |
| Db.Store.PutRequest | donor/donor/backend/routes/requests.js:107-111 | replaces one request by a valid one; nothing else changes |
| Db.Store.RemoveRequest | donor/donor/backend/routes/requests.js:137 | removes one request; nothing else changes |
| Db.Store.AddDonation | donor/donor/backend/routes/donations.js:77 | inserts one valid donation under the next id and keeps the store valid |
| Db.Store.PutDonation | donor/donor/backend/routes/donations.js:104-108 | replaces one donation by a valid one; nothing else changes |
| Db.Store.RemoveDonation | donor/donor/backend/routes/donations.js:134 | removes one donation; nothing else changes |
| Db.Store.AddDrive | donor/donor/backend/routes/drives.js:78 | inserts one drive under the next id and keeps the store valid |
| Db.Store.PutDrive | donor/donor/backend/routes/drives.js:94-98 | replaces one drive; nothing else changes |
| Db.Store.RemoveDrive | donor/donor/backend/routes/drives.js:117 | removes one drive; nothing else changes |
| Db.Store.PutUser | donor/donor/backend/routes/users.js:73-77 | replaces one account; nothing else changes |
| Db.Store.RemoveUser | donor/donor/backend/routes/users.js:103 | removes one account; nothing else changes |
| Db.RowsMembers | donor/donor/backend/routes/requests.js:19 | a document is listed exactly when it is stored under some key |
| RequestRoutes.PriorityRankIsStringOrder | donor/donor/backend/routes/requests.js:23 | the sort rank of priorities agrees with the string order of their names |
| RequestRoutes.UrgencyRankIsStringOrder | donor/donor/backend/routes/requests.js:23 | the sort rank of urgencies agrees with the string order of their names |
| RequestRoutes.List | donor/donor/backend/routes/requests.js:9-34 | a page (default 1) of at most `limit` (default 10) requests, each matching category, status, priority and urgency exactly when given, in list order; `total` and `totalPages` count every match |
| RequestRoutes.ListComplete | donor/donor/backend/routes/requests.js:24-31 | every matching request is on some page within `totalPages` |
| RequestRoutes.ListedByPriority | donor/donor/backend/routes/requests.js:23 | in a listing, a request whose priority string is smaller comes first |
| RequestRoutes.ListedByUrgency | donor/donor/backend/routes/requests.js:23 | among equal priorities, a smaller urgency string comes first |
| RequestRoutes.ListedNewestFirst | donor/donor/backend/routes/requests.js:23 | among equal priority and urgency, the newer request comes first |
| RequestRoutes.Get | donor/donor/backend/routes/requests.js:42-51 | the stored request, or 404 exactly when the id is missing |
| RequestRoutes.MyRequests | donor/donor/backend/routes/requests.js:147-152 | exactly the actor's requests, each as often as stored, newest first |
| RequestRoutes.Sanitize | donor/donor/backend/routes/requests.js:62-63 | the title and the description are trimmed, and nothing else changes |
| RequestRoutes.CreateErrors | donor/donor/backend/routes/requests.js:62-73 | no error exactly when every check passes; at most one error per check |
| RequestRoutes.Report | donor/donor/backend/routes/requests.js:62-67 | empty exactly when no check fails; at most six errors |
| RequestRoutes.ReportNames | donor/donor/backend/routes/requests.js:62-64 | the title, description and category errors appear exactly when their checks fail |
| RequestRoutes.ReportNamesRest | donor/donor/backend/routes/requests.js:65-67 | the quantity, priority and urgency errors appear exactly when their checks fail |
| RequestRoutes.CreateErrorsNameFailures | donor/donor/backend/routes/requests.js:62-73 | each of the six errors is reported exactly when its own check fails |
| RequestRoutes.Build | donor/donor/backend/routes/requests.js:75-78 | the new request has the actor as recipient, the sanitized title and description, the parsed category, quantity, priority and urgency (or their defaults); `createdAt` is the body's when it sends one, else now, and `updatedAt` equals it |
| RequestRoutes.BuildIgnoresBodyRecipient | donor/donor/backend/routes/requests.js:75-78 | a recipient named in the body has no effect |
| RequestRoutes.SaveSucceeds | donor/donor/backend/routes/requests.js:80 | an accepted body is stored exactly when it also supplies a subcategory and a unit (and a rating in range, if any) |
| RequestRoutes.Create | donor/donor/backend/routes/requests.js:61-84 | 403 unless recipient, then 400 with the failing checks' messages, then 500 when `save()` fails, else 201 and exactly that request is added |
| RequestRoutes.Update | donor/donor/backend/routes/requests.js:94-113 | 404, then 403 unless owner or admin, then 500 when a set path fails its validator, else that one request is replaced by the patched one |
| RequestRoutes.Delete | donor/donor/backend/routes/requests.js:124-139 | 404, then 403 unless owner or admin, else only that request is removed |
| RequestRoutes.Match | donor/donor/backend/routes/requests.js:162-187 | 400 without a donation id, then 404, then 403 unless admin or logistics, else only the three match fields of that request change; the donation is untouched |
| DonationRoutes.LocationIgnoresCase | donor/donor/backend/routes/donations.js:16 | the case of the location parameter does not change the selection |
| DonationRoutes.CityContainingLocationMatches | donor/donor/backend/routes/donations.js:16 | a donation whose city contains the location parameter is selected |
| DonationRoutes.List | donor/donor/backend/routes/donations.js:9-32 | a page (default 1) of at most `limit` (default 10) donations matching category, status and city, newest first; `total` and `totalPages` count every match |
| DonationRoutes.ListComplete | donor/donor/backend/routes/donations.js:21-29 | every matching donation is on some page within `totalPages` |
| DonationRoutes.Get | donor/donor/backend/routes/donations.js:40-51 | the stored donation, or 404 exactly when the id is missing |
| DonationRoutes.MyDonations | donor/donor/backend/routes/donations.js:144-151 | exactly the actor's donations, each as often as stored, newest first |
| DonationRoutes.Sanitize | donor/donor/backend/routes/donations.js:60-61 | the title and the description are trimmed, and nothing else changes |
| DonationRoutes.CreateErrors | donor/donor/backend/routes/donations.js:60-70 | no error exactly when every check passes; at most one error per check |
| DonationRoutes.Report | donor/donor/backend/routes/donations.js:60-64 | empty exactly when no check fails; at most five errors |
| DonationRoutes.ReportNames | donor/donor/backend/routes/donations.js:60-64 | each error appears exactly when its check fails |
| DonationRoutes.CreateErrorsNameFailures | donor/donor/backend/routes/donations.js:60-70 | each of the five errors is reported exactly when its own check fails |
| DonationRoutes.Build | donor/donor/backend/routes/donations.js:72-75 | the new donation has the actor as donor, the sanitized title and description, and the parsed category, quantity and condition; `createdAt` is the body's when it sends one, else now, and `updatedAt` equals it |
| DonationRoutes.BuildIgnoresBodyDonor | donor/donor/backend/routes/donations.js:72-75 | a donor named in the body has no effect |
| DonationRoutes.SaveSucceeds | donor/donor/backend/routes/donations.js:77 | an accepted body is stored exactly when it also supplies a subcategory, a unit, non-empty image URIs and a rating in range, if any |
| DonationRoutes.Create | donor/donor/backend/routes/donations.js:59-83 | 403 unless donor, then 400 with the failing checks' messages, then 500 when `save()` fails, else 201 and exactly that donation is added |
| DonationRoutes.Update | donor/donor/backend/routes/donations.js:91-113 | 404, then 403 unless owner or admin, then 500 when a set path fails its validator, else that one donation is replaced by the patched one |
| DonationRoutes.Delete | donor/donor/backend/routes/donations.js:121-136 | 404, then 403 unless owner or admin, else only that donation is removed |
| DriveRoutes.EmergencyFlagIsExact | donor/donor/backend/routes/drives.js:16 | a present `isEmergency` parameter selects emergencies exactly when it is "true" |
| DriveRoutes.List | donor/donor/backend/routes/drives.js:9-32 | a page (default 1) of at most `limit` (default 10) drives matching status, category and the emergency flag, newest first; `total` and `totalPages` count every match |
| DriveRoutes.ListComplete | donor/donor/backend/routes/drives.js:21-29 | every matching drive is on some page within `totalPages` |
| DriveRoutes.Get | donor/donor/backend/routes/drives.js:40-52 | the stored drive, or 404 exactly when the id is missing |
| DriveRoutes.Sanitize | donor/donor/backend/routes/drives.js:61-62 | the title and the description are trimmed, and nothing else changes |
| DriveRoutes.CreateErrors | donor/donor/backend/routes/drives.js:61-71 | no error exactly when every check passes; at most one error per check |
| DriveRoutes.Report | donor/donor/backend/routes/drives.js:61-65 | empty exactly when no check fails; at most five errors |
| DriveRoutes.ReportNames | donor/donor/backend/routes/drives.js:61-65 | each error appears exactly when its check fails |
| DriveRoutes.CreateErrorsNameFailures | donor/donor/backend/routes/drives.js:61-71 | each of the five errors is reported exactly when its own check fails |
| DriveRoutes.Build | donor/donor/backend/routes/drives.js:73-76 | the new drive has the actor as organizer, the sanitized title and description, the parsed category and both dates; `createdAt` is the body's when it sends one, else now, and `updatedAt` equals it |
| DriveRoutes.BuildIgnoresBodyOrganizer | donor/donor/backend/routes/drives.js:73-76 | an organizer named in the body has no effect |
| DriveRoutes.SaveSucceeds | donor/donor/backend/routes/drives.js:78 | an accepted body is stored exactly when an emergency drive names its emergency type |
| DriveRoutes.EndBeforeStartAccepted | donor/donor/backend/routes/drives.js:60-78 | a drive ending before it starts passes the checks and the schema |
| DriveRoutes.Create | donor/donor/backend/routes/drives.js:60-84 | 403 unless admin, then 400 with the failing checks' messages, then 500 when `save()` fails, else 201 and exactly that drive is added |
| DriveRoutes.Update | donor/donor/backend/routes/drives.js:92-107 | 403 unless admin, then 500 when a set path fails its validator, then 404, else that one drive is replaced by the patched one |
| DriveRoutes.Delete | donor/donor/backend/routes/drives.js:115-123 | 403 unless admin, then 404, else only that drive is removed |
| DriveRoutes.FindVolunteer | donor/donor/backend/routes/drives.js:140-142 | finds an entry exactly when the user is among the volunteers, and then the first one |
| DriveRoutes.Volunteer | donor/donor/backend/routes/drives.js:131-155 | 404, then 400 for a user already listed, then 500 when the drive fails the schema, else exactly the joined drive replaces it |
| DriveRoutes.VolunteerKeepsDistinct | donor/donor/backend/routes/drives.js:140-151 | a successful join registers the actor and keeps the volunteer ids distinct |
| UserRoutes.ViewsSorted | donor/donor/backend/routes/users.js:17 | taking views keeps the newest-first order |
| UserRoutes.List | donor/donor/backend/routes/users.js:8-28 | 403 unless admin, else a page (default 1) of at most `limit` (default 10) password-free accounts of the given role, newest first; `total` and `totalPages` count every match |
| UserRoutes.ListByRole | donor/donor/backend/routes/users.js:113-131 | for any actor, the views of page `page` (default 1, `limit` default 10) of the accounts whose role is the path's, newest first; `total` and `totalPages` count every such account |
| UserRoutes.ListByRoleComplete | donor/donor/backend/routes/users.js:118-124 | every account of the path's role is listed, as its view, on some page within `totalPages` |
| UserRoutes.ListByRoleOfUnknownRole | donor/donor/backend/routes/users.js:118-124 | a path naming no role lists nobody |
| UserRoutes.Get | donor/donor/backend/routes/users.js:36-49 | 404 first, then 403 unless the actor is that user or an admin, else the password-free view |
| UserRoutes.Updates.constructor | donor/donor/backend/routes/users.js:66 | the body object the handler edits |
| UserRoutes.Updates.DeleteSensitive | donor/donor/backend/routes/users.js:69-71 | the body loses exactly its password, role and verification flag |
| UserRoutes.Update | donor/donor/backend/routes/users.js:57-82 | 403 unless self or admin; a missing account gives no user and no change; else the stripped body is applied to that one account |
| UserRoutes.UpdateKeepsSensitive | donor/donor/backend/routes/users.js:68-77 | an update never changes the password, the role or the verification flag |
| UserRoutes.Delete | donor/donor/backend/routes/users.js:90-105 | 403 unless admin, then 404, then 400 for the admin's own account, else only that account is removed |
| AdminController.GetUsers | donor/donor/backend/controllers/adminController.js:7-21 | 403 unless admin, else page (default 1) of at most `perPage` (default 20) accounts whose name or email contains the term ignoring case (every account for an empty term), newest first, and the total |
| AdminController.EmptySearchCountsAll | donor/donor/backend/controllers/adminController.js:9-18 | without a term, the total is the number of accounts |
| AdminController.ChangeRole | donor/donor/backend/controllers/adminController.js:28-40 | 403 unless admin, then 400 unless the body names a role, then 404, else only that account's role changes |
| AdminController.RemoveUser | donor/donor/backend/controllers/adminController.js:47-52 | 403 unless admin, then 404, else the account is removed, the admin's own included |
| AdminController.RoleCountsSum | donor/donor/backend/controllers/adminController.js:61-67 | the four per-role counts add up to the number of accounts |
| AdminController.Group | donor/donor/backend/controllers/adminController.js:61-63 | at most one group for a role, present exactly when someone has it, with its count |
| AdminController.Groups | donor/donor/backend/controllers/adminController.js:61-63 | one group per listed role that someone has, with its count, no role twice |
| AdminController.AllRolesListed | donor/donor/backend/controllers/adminController.js:61-63 | the role list holds every role |
| AdminController.Aggregate | donor/donor/backend/controllers/adminController.js:61-63 | one group per role that someone has, with its count, no role twice |
| AdminController.Totals | donor/donor/backend/controllers/adminController.js:65-66 | a key for each role that occurs among the groups, holding the count of its last group |
| AdminController.RoleTotals | donor/donor/backend/controllers/adminController.js:61-66 | a key exactly for each role someone has, holding the number of accounts with it |
| AdminController.Summaries | donor/donor/backend/controllers/adminController.js:76 | each drive is reduced to its id, title and dates |
| AdminController.RecentDrives | donor/donor/backend/controllers/adminController.js:76 | at most five drives, none listed more often than it is stored, newest first; every drive left out is no newer than any listed |
| AdminController.GetStats | donor/donor/backend/controllers/adminController.js:59-83 | 403 unless admin, else the per-role counts, the collection totals, the active-or-upcoming drives, the pending requests, the available donations and the recent drives |
| AdminController.DonationEntries | donor/donor/backend/controllers/adminController.js:98 | each donation becomes a `donation` entry with its date, title and description |
| AdminController.RequestEntries | donor/donor/backend/controllers/adminController.js:99 | each request becomes a `request` entry with its date, title and description |
| AdminController.Merged | donor/donor/backend/controllers/adminController.js:93-99 | position by position, the entries of the 20 newest donations followed by those of the 20 newest requests (`Listing.Newest`), at most 40 |
| AdminController.GetReports | donor/donor/backend/controllers/adminController.js:90-102 | 403 unless admin, else a permutation of the merge, newest first, at most 40 long, so the cap of 100 never cuts |
| AdminController.ReportedDonationsAreStored | donor/donor/backend/controllers/adminController.js:93-98 | every donation entry of the merge is built from a stored donation |
| AdminController.ReportedRequestsAreStored | donor/donor/backend/controllers/adminController.js:94-99 | every request entry of the merge is built from a stored request |
| AdminController.UnreportedDonationsAreOlder | donor/donor/backend/controllers/adminController.js:93-98 | a donation whose entry is missing from the merge is no newer than any donation entry in it |
| AdminController.UnreportedRequestsAreOlder | donor/donor/backend/controllers/adminController.js:94-99 | a request whose entry is missing from the merge is no newer than any request entry in it |

## Left out

- `populate`, `select` on populated documents, and `.lean()`: references stay ids, and a
  returned record is the stored one. `select('-password')` is modelled as `UserModel.View`.
- The `catch` blocks' 500 answers for database or cast failures, such as a malformed
  ObjectId. Ids are naturals. `ServerError` stands only for a document that the schema's
  validators refuse.
- Concurrency. Each handler runs on its own, with no read-then-save race; atomicity is
  not claimed.
- The coordinates in locations, because they are floating point and no handler reads them.
- Regular-expression metacharacters in the search terms, and case folding beyond ASCII
  letters. `new RegExp(q, 'i')` is a case-insensitive substring test.
- ISO 8601 parsing: a date in the body is already `IsoDate(instant)` or `NotIsoDate`.
- Query strings are already coerced: page and limit are positive integers, and repeated
  or array-valued parameters do not occur.
- Request bodies are already cast to the schema's types. A value outside an enum, in a
  field no route validator checks, cannot be written, so the 500 it would cause is not
  modelled. A patch cannot set a field to null or unset it.
- Numbers are `int`. The update routes run no `isInt` check, so a `PUT` can store a
  fractional `quantity` (Request.js, Donation.js: `min: 1` only) or a fractional
  `feedback.rating`; the model cannot represent either value.
- `models/User.js` and `middleware/auth.js` are not part of this model. The account
  record holds the fields the routes read. `isAdmin`, `isDonor` and `isRecipient` are
  role-equality tests that answer 403. The validators the user update runs with
  `runValidators` are not modelled, so that update never answers 500.
- Accounts are created by the registration route, which is not part of this model. The store
  starts from given contents (`Db.Store.constructor`).
- UserRoutes.Updates.DeleteSensitive: the in-place `delete` on the body object is an
  assignment of the stripped patch value (`UserModel.Strip`).
- Listing.SortBy: ties between equal keys keep their input order. MongoDB leaves that
  order unspecified. Stability is not stated as a property. Natural (unsorted) order is
  ascending id order (`Db.Rows`).
- AdminController.Aggregate: the `$group` output is produced in role order, which MongoDB
  leaves unspecified. `AdminController.Totals` does not depend on it, because no role
  occurs twice.
- AdminController.GetStats: the counts are stated over the documents listed below the
  next id (`Db.Rows`), not over the size of each table's map.
- DriveRoutes.Update: validators that Mongoose's update validation runs on paths other
  than the set ones (the conditional `emergencyType` rule among them) are not run.
  `DriveModel.PatchCanBreakEmergencyRule` shows the consequence.
- RequestRoutes.Build, DonationRoutes.Build, DriveRoutes.Build: a body `_id` is ignored and
  the new document takes the store's next id, though the spread `...req.body` would keep a
  valid ObjectId sent by the client; ids are naturals here and must stay unique keys.
- The timestamps plugin's `updatedAt` is an input `now` of each handler. Users have no
  `updatedAt`, because their schema is not part of this model.
