# Admin dashboard bookkeeping, modelled in Dafny

The dashboard is a React front end over two REST back ends: a WooCommerce shop
and an ERPNext instance. Three pieces of client-side bookkeeping sit between
the views and those back ends, and this project models all three:

- **The WooCommerce connection registry** (`woocommerce.dfy`, module
  `WooCommerce`). It is an ordered list of server profiles kept under one
  browser-storage key, and at most one profile is meant to be active.
  - Operations: add, update, delete and set-active.
  - A probe maps one server's answer to a status.
  - A sequential loop probes every stored profile and stamps the result into it.
  - The stored list is the `servers` field of the class `Registry`. Its methods
    rewrite that field the way the service rewrites the stored array.
- **Paged list synchronisation** (`paging.dfy`, `all_orders.dfy`,
  `user_search.dfy`, `all_products.dfy`). The orders, products and customers
  views fetch pages of 20 records and merge each page into the list
  accumulated so far, by id.
  - `hasMore` stays true only after a full page.
  - The customers view replaces its list on a new search.
  - The orders view attaches each order's notes, then filters by order number
    and sorts by id or date on the client.
  - The customers view filters on five fields, ignoring letter case.
  - Each view is a class whose fields are the component's state. Each handler
    is a method.
- **The ERPNext session helpers** (`erpnext.dfy`, module `ERPNext`):
  - URL normalisation;
  - the choice of error message;
  - the token exchange;
  - the connection self-test, which reports failure as data;
  - the four resource fetches, with their filter triples and error prefixes.

  Every helper is a function. It returns an `Exchange`: the requests it sent,
  in order, and its result.

Modelling conventions:
- Every HTTP call is a parameter, a function from the request the code builds
  to an `Outcome` (`Ok(value)` or `Err(thrown)`). Contracts can therefore name
  the exact URL, credentials, page number and filters that were sent.
- A thrown value is one of the following:
  - an axios error, with the response body's `message` when there is one;
  - a plain `Error`;
  - something that is not an `Error`.
- `common.dfy` holds the shared pieces:
  - this outcome type;
  - the JavaScript string tests (`startsWith`, `endsWith`, `includes`);
  - `Array.filter`;
  - the message a view shows for a caught value.

URL normalisation is not idempotent: it removes at most one trailing slash,
and a bare `https://` normalises to `https:/`, which has no scheme, so a
second pass gives `https://https:`.
- `ERPNext.NormalizeNotIdempotent` and `ERPNext.NormalizeBareScheme` exhibit
  the difference.
- `ERPNext.NormalizeFixedPoint` and `ERPNext.NormalizeStable` prove the
  fixed-point property that does hold.

## Model

| member | source | states |
|---|---|---|
| Common.ErrorText | src/components/AllOrders.tsx:89-91 | A caught `Error` shows its own message; any other thrown value shows "An unexpected error occurred". |
| Common.Includes | src/components/AllOrders.tsx:113 | `includes` holds exactly when the term occurs at some position of the string. |
| Common.IncludesPrefix | src/components/UserSearch.tsx:91-95 | A string that includes `a + b` includes `a`. |
| Common.Filter | src/components/AllOrders.tsx:112-114 | `Array.filter` keeps only elements that satisfy the predicate, keeps every element that does, and never grows the list. |
| Common.FilterSplit | src/components/AllOrders.tsx:112-114 | Filtering a concatenation concatenates the filtered parts, so relative order is kept. |
| Common.FilterKeepsAll | src/components/AllOrders.tsx:112-114 | When every element passes, the filter returns the list unchanged. |
| WooCommerce.FirstActive | src/services/woocommerce.ts:24-27 | `find(isActive)`: none exactly when no profile is active; otherwise an active stored profile with no active profile before it. |
| WooCommerce.IndexOfId | src/services/woocommerce.ts:45 | `findIndex`: -1 exactly when the id is absent; otherwise the first index that holds the id. |
| WooCommerce.WithoutId | src/services/woocommerce.ts:54 | The survivors of the delete filter are exactly the profiles with another id. |
| WooCommerce.WithoutIdSplit | src/services/woocommerce.ts:54 | The delete filter keeps the survivors' relative order: it distributes over concatenation. |
| WooCommerce.Updated | src/services/woocommerce.ts:43-51 | An update keeps the list's length, and an unknown id leaves the list unchanged. |
| WooCommerce.UpdatedAt | src/services/woocommerce.ts:45-48 | With a known id, only the first index holding it changes: to the old profile, with each key present in the update overriding. |
| WooCommerce.ApplyUpdateLaws | src/services/woocommerce.ts:48 | The spread `{ ...server, ...updates }`: an empty update changes nothing, spreading the same update twice equals spreading it once, and two updates in a row equal one update in which the later keys win. |
| WooCommerce.ActivateOnly | src/services/woocommerce.ts:66-68 | Same length; a profile is active exactly when it holds the id, with every other field kept. No profile is active exactly when no profile holds the id. |
| WooCommerce.NewProfile | src/services/woocommerce.ts:31-36 | The new profile has the given id, status offline and the given active flag. Every field of the input is carried over unchanged. |
| WooCommerce.Added | src/services/woocommerce.ts:30-38 | The list grows by one at the end with the old list as its prefix. The new last profile has the fresh id and status offline, and is active exactly when the list was empty. |
| WooCommerce.AfterDelete | src/services/woocommerce.ts:53-62 | The result is as long as the filtered list and holds no profile with the deleted id. A non-empty result always has an active profile. |
| WooCommerce.CheckServerStatus | src/services/woocommerce.ts:85-94 | Online exactly when the probe answered 200, and then there is no message. Otherwise the status is error with a message: "Server returned unexpected status" for another status code, a thrown `Error`'s own message, or "Unknown error occurred" for anything else thrown. |
| WooCommerce.ProbeFor | src/services/woocommerce.ts:77-83 | The probe goes to the profile URL followed by `/wp-json/wc/v3/system_status`, with the key pair as basic-auth user and password. |
| WooCommerce.StampUpdate | src/services/woocommerce.ts:102-106 | Applied to any profile, the loop's update keeps its id, name, URL, keys and active flag, and sets `lastChecked` to the reading, `status` to the report's status and `errorMessage` to the report's message. |
| WooCommerce.StampIsUpdate | src/services/woocommerce.ts:102-106 | The update the loop writes sets `lastChecked`, `status` and `errorMessage` and nothing else. |
| WooCommerce.Registry.constructor | src/services/woocommerce.ts:19-22 | An empty storage key reads as the empty list. |
| WooCommerce.Registry.GetActiveServer | src/services/woocommerce.ts:24-27 | Null exactly when no stored profile is active; otherwise a stored active profile, the first one. |
| WooCommerce.Registry.AddServer | src/services/woocommerce.ts:29-41 | Appends exactly one profile at the end; earlier profiles are unchanged. The new profile has the fresh id and status offline, and is active exactly when the list was empty. |
| WooCommerce.Registry.UpdateServer | src/services/woocommerce.ts:43-51 | The stored list becomes the list with the first profile holding the id overridden (see `Updated`, `UpdatedAt`). |
| WooCommerce.Registry.DeleteServer | src/services/woocommerce.ts:53-62 | The stored list becomes the filtered list. When that list is non-empty with nothing active, the first survivor's id is activated. |
| WooCommerce.Registry.SetActiveServer | src/services/woocommerce.ts:64-70 | The loop sets every profile's flag to "its id equals the argument"; length, order and every other field are kept. |
| WooCommerce.Registry.CheckAllServersStatus | src/services/woocommerce.ts:97-108 | The loop over the snapshot applies, in order, one status update per profile read at the start. |
| WooCommerce.AddActiveRule | src/services/woocommerce.ts:34 | The first profile added becomes the active one. Adding to a non-empty list does not change which profile is active. |
| WooCommerce.FirstActiveAppendInactive | src/services/woocommerce.ts:34-38 | Appending an inactive profile does not change the active profile. |
| WooCommerce.AddPreservesInvariants | src/services/woocommerce.ts:29-41 | Adding keeps "at most one active", and keeps ids distinct when the new id is fresh. |
| WooCommerce.SetActiveRule | src/services/woocommerce.ts:64-70 | An unknown id leaves nothing active; a known id leaves an active profile; with distinct ids at most one profile is active and the ids stay distinct. |
| WooCommerce.DeleteRemovesExactly | src/services/woocommerce.ts:54-61 | Every profile with the id is removed; the rest keep their order and fields, except possibly `isActive`. |
| WooCommerce.DeletePromotionRule | src/services/woocommerce.ts:57-61 | Promotion depends on no active survivor, not on what was deleted. A surviving active profile leaves the filtered list as it is. Otherwise the first survivor becomes active. |
| WooCommerce.WithoutIdKeepsDistinct | src/services/woocommerce.ts:54 | Filtering keeps ids distinct. |
| WooCommerce.WithoutIdKeepsAtMostOne | src/services/woocommerce.ts:54 | Filtering keeps "at most one active". |
| WooCommerce.DeletePreservesInvariants | src/services/woocommerce.ts:53-62 | With distinct ids, delete keeps "at most one active" and distinct ids, and a non-empty result has exactly one active profile. |
| WooCommerce.UpdatedKeepsIdsWhenIdKept | src/services/woocommerce.ts:43-51 | An update that carries no `id` key changes no stored id. |
| WooCommerce.SweepKeepsShape | src/services/woocommerce.ts:97-108 | After any number of iterations, the length, the order and every non-status field of every profile are unchanged. |
| WooCommerce.SweepStampsPrefix | src/services/woocommerce.ts:100-107 | With distinct ids, after `k` iterations the first `k` profiles carry their own report and reading; the rest are untouched. |
| WooCommerce.SweepStampsAll | src/services/woocommerce.ts:97-108 | With distinct ids, the loop stamps every profile once, in order, with its own probe result and clock reading. |
| WooCommerce.SweepKeepsProfiles | src/services/woocommerce.ts:97-108 | Whatever the ids, the loop keeps the length, the order and every non-status field. |
| WooCommerce.SweepWithSharedId | src/services/woocommerce.ts:97-108 | When two profiles share an id, both updates land on the first. It ends up with the second profile's report; the second is never stamped. |
| WooCommerce.AddAddDeleteScenario | src/services/woocommerce.ts:29-61 | Two profiles are added, and only the first is active and offline. Deleting the first makes the second active. |
| Paging.QueryFor | src/components/AllProducts.tsx:38-47 | The page request carries the profile's key pair, `per_page` 20 and the requested page. |
| Paging.LoadPage | src/components/AllProducts.tsx:32-47 | With no active profile, the load fails with the "No active WooCommerce server" error; otherwise the outcome is the server's answer to the query. |
| Paging.NoActiveServerSendsNothing | src/components/AllProducts.tsx:34-36 | With no active profile the network is never consulted. Any two networks give the same failure. |
| Paging.HasMoreRule | src/components/AllOrders.tsx:87-91 | After a successful load `hasMore` holds exactly when the page had 20 records, and no error is shown. After a failure the list and `hasMore` are kept and an error is shown. |
| Paging.UnseenMembers | src/components/AllOrders.tsx:82-84 | The merge filter keeps exactly the page records whose id is not already accumulated. |
| Paging.UnseenIsFilter | src/components/AllOrders.tsx:82-85 | The appended tail is `Array.filter` over the page with the "id not yet accumulated" test, so the new records keep page order. |
| Paging.UnseenSplit | src/components/AllOrders.tsx:82-85 | The merge keeps page order: filtering a page in two parts is filtering it whole. |
| Paging.MergeShape | src/components/AllOrders.tsx:81-86 | The previous list is an unchanged prefix of the result. The tail is page records with new ids, and every such record is in it. |
| Paging.MergeCoversPage | src/components/AllOrders.tsx:81-86 | After the merge every id on the page is present. |
| Paging.UnseenOfKnown | src/components/AllOrders.tsx:82-84 | A page whose ids are all known adds nothing. |
| Paging.MergeIdempotent | src/components/AllProducts.tsx:49-54 | Merging the same page twice equals merging it once. |
| Paging.MergeKeepsDistinct | src/components/AllOrders.tsx:82-85 | A duplicate-free list merged with a duplicate-free page stays duplicate-free. |
| Paging.MergeDisjoint | src/components/UserSearch.tsx:66-69 | A page with only new ids is appended whole. |
| Paging.MergeKeepsRepeatsWithinPage | src/components/AllOrders.tsx:82-84 | A page that repeats an id keeps both copies, so the duplicate-free precondition is needed. |
| Paging.MergeExample | src/components/AllProducts.tsx:49-54 | `[x, y]` merged with `[y, z]` gives `[x, y, z]`. |
| ERPNext.Trim | src/services/erpnext.ts:53 | `trim` yields a contiguous slice whose ends are not whitespace, with only whitespace cut on either side. |
| ERPNext.TrimKeepsTrimmed | src/services/erpnext.ts:53 | A string without surrounding whitespace trims to itself. |
| ERPNext.WithScheme | src/services/erpnext.ts:54-56 | A string with an `http://` or `https://` prefix is kept; any other gets `https://` in front. The result always has a scheme. |
| ERPNext.HasScheme | src/services/erpnext.ts:54 | A string that passes the scheme test is at least seven characters long and starts with `http://` or `https://`. |
| ERPNext.Schemed | src/services/erpnext.ts:53-56 | The trimmed input, given a scheme, always starts with "http". |
| ERPNext.NormalizeUrl | src/services/erpnext.ts:52-58 | The result is a prefix of the trimmed, schemed string, one character shorter exactly when that string ends in "/", and starts with "http". |
| ERPNext.NormalizeFixedPoint | src/services/erpnext.ts:52-58 | A trimmed string with a scheme and no trailing "/" is returned unchanged. |
| ERPNext.NormalizeStable | src/services/erpnext.ts:57 | Normalising twice equals normalising once when the first result keeps its scheme and ends neither in "/" nor in whitespace. |
| ERPNext.NoSchemeUnlessH | src/services/erpnext.ts:54 | A string not starting with "h" has no scheme. |
| ERPNext.NormalizeBare | src/services/erpnext.ts:52-58 | A trimmed host without a scheme becomes `https://` plus the host, less one trailing "/". |
| ERPNext.NormalizeSchemed | src/services/erpnext.ts:52-58 | A trimmed URL with a scheme loses one trailing "/" and nothing else. |
| ERPNext.NormalizeNotIdempotent | src/services/erpnext.ts:52-58 | `host//` normalises to `https://host/`, and a second pass gives `https://host`: normalisation is not idempotent. |
| ERPNext.NormalizeBareScheme | src/services/erpnext.ts:57 | `https://` normalises to `https:/`. |
| ERPNext.BareSchemeLosesScheme | src/services/erpnext.ts:54 | `https:/` has no scheme, so a second pass prefixes another one. |
| ERPNext.NormalizeIgnoresWhitespace | src/services/erpnext.ts:53 | Trimming first makes no difference. |
| ERPNext.HandleAxiosError | src/services/erpnext.ts:60-76 | The message is the first available of: a non-empty response-body message, the error's own message, and "An unknown error occurred" for non-errors. |
| ERPNext.Rethrow | src/services/erpnext.ts:109-112 | A rethrown error is a plain error whose message is the prefix followed by the shaped message. |
| ERPNext.TokenRequestFor | src/services/erpnext.ts:93-96 | The token POST goes to `/api/method/frappe.auth.get_token` under the base URL and carries the key and secret as given. |
| ERPNext.GetAuthToken | src/services/erpnext.ts:78-114 | It sends one token POST. It succeeds exactly when the answer carries a non-empty token, and returns that token. Every failure starts with "Authentication failed: ". A tokenless answer gives exactly "Authentication failed: No token received from ERPNext". |
| ERPNext.AuthorizedGet | src/services/erpnext.ts:183-199 | The token request goes first, against the normalised URL. A failure stops there; otherwise exactly one bearer GET follows, and its answer is the result. |
| ERPNext.TestConnection | src/services/erpnext.ts:116-173 | It never fails. Success happens exactly when the authorised GET succeeds, with the fixed message and the body's `message` as the user. Failure gives "Connection failed: " plus the shaped message. |
| ERPNext.TestConnectionWithoutToken | src/services/erpnext.ts:122-172 | A refused token ends the self-test after one request, with "Connection failed: Authentication failed: ..." as data. |
| ERPNext.ClientFilters | src/services/erpnext.ts:186-188 | No filter exactly for an empty query; otherwise the single triple `["Customer","customer_name","like","%q%"]`. |
| ERPNext.FetchClients | src/services/erpnext.ts:176-206 | It sends the token request, then the customer GET with `fields` and the filters. The `data` comes back, or `[]` when it is absent. A failure starts with "Failed to fetch clients: ". |
| ERPNext.DataOrEmpty | src/services/erpnext.ts:201 | The `data` of the body when present, and the empty list when it is absent. |
| ERPNext.FetchClientDetails | src/services/erpnext.ts:208-230 | It GETs the customer under its URI-encoded id and returns `data`, which may be absent. A failure starts with "Failed to fetch client details: ". |
| ERPNext.FetchClientOrders | src/services/erpnext.ts:232-260 | It sends the equality triple `["Sales Order","customer","=",id]` and returns `data`, or `[]` when absent. A failure starts with "Failed to fetch client orders: ". |
| ERPNext.FetchClientComments | src/services/erpnext.ts:262-290 | It sends the equality triple `["Comment","reference_name","=",id]` and returns `data`, or `[]` when absent. A failure starts with "Failed to fetch client comments: ". |
| ERPNext.FetchClientsWithoutToken | src/services/erpnext.ts:182-205 | A refused token sends one request only. The error starts with "Failed to fetch clients: Authentication failed: ". |
| ERPNext.FetchClientsWithToken | src/services/erpnext.ts:183-199 | With a token granted, the second request is the customer GET with that bearer token and the search filter. |
| ERPNext.EncodeUriComponent | src/services/erpnext.ts:218 | `encodeURIComponent` output holds only unreserved characters and "%", and is never shorter than its input. |
| ERPNext.EncodedIsOneSegment | src/services/erpnext.ts:218 | An encoded id holds no "/", "?", "#" or space, so it stays one path segment. |
| ERPNext.EncodeKeepsUnreserved | src/services/erpnext.ts:218 | A string of unreserved characters encodes to itself. |
| AllOrders.NotesQueryFor | src/components/AllOrders.tsx:68-76 | The notes request names the order's id and carries the profile's key pair. |
| AllOrders.AttachNotes | src/components/AllOrders.tsx:66-79 | Success exactly when every note fetch succeeds, each order then carrying its fetched notes; otherwise the error of the first failing fetch in page order. |
| AllOrders.LoadOrdersPage | src/components/AllOrders.tsx:47-79 | No active profile, a failed page request or a failed note fetch is an error. Otherwise the page, with notes, same length. |
| AllOrders.AttachNotesKeepsIds | src/components/AllOrders.tsx:66-87 | Attaching notes keeps every id and the `hasMore` test. |
| AllOrders.FilterOrders | src/components/AllOrders.tsx:112-114 | It keeps exactly the orders whose number contains the term, or every order for an empty term. |
| AllOrders.FilterEmptyTermKeepsAll | src/components/AllOrders.tsx:112-114 | An empty term keeps every order, in order. |
| AllOrders.OrderMatchesIsIncludes | src/components/AllOrders.tsx:113 | A match is exactly a substring occurrence of the term in the number. |
| AllOrders.FilterOrdersSplit | src/components/AllOrders.tsx:112-114 | The filter keeps relative order: it distributes over concatenation. |
| AllOrders.Insert | src/components/AllOrders.tsx:116-124 | Inserting into a sorted list gives a sorted list with one more copy of the element. |
| AllOrders.SortOrders | src/components/AllOrders.tsx:116-124 | The result is sorted by id or date, ascending or descending, and is a permutation of the input. |
| AllOrders.SortKeyMatchesComparator | src/components/AllOrders.tsx:116-124 | The comparator as written equals the difference of the sort keys: `a` may precede `b` exactly when it is not positive, and it is antisymmetric. |
| AllOrders.SortAfterClick | src/components/AllOrders.tsx:95-102 | The clicked field is selected. The same field flips the direction; another field sorts descending. |
| AllOrders.ClickTwiceRestores | src/components/AllOrders.tsx:95-102 | Clicking the current field twice restores the direction. |
| AllOrders.ClickAwayAndBack | src/components/AllOrders.tsx:95-102 | Clicking another field and back gives the first field, descending. |
| AllOrders.OrdersView.constructor | src/components/AllOrders.tsx:28-36 | The state on mount: no orders, loading, page 1, `hasMore`, date descending, empty term. |
| AllOrders.OrdersView.Shown | src/components/AllOrders.tsx:112-124 | The list shown is sorted by the current field and direction and is a permutation of the filtered orders. |
| AllOrders.OrdersView.FetchPage | src/components/AllOrders.tsx:42-93 | On success the page with notes is merged by id, and `hasMore` is set from the raw page. On any failure the orders and `hasMore` are kept and the error is shown. Loading ends false. |
| AllOrders.OrdersView.FetchOrders | src/components/AllOrders.tsx:38-93 | The `[page]` effect's fetch asks for the current page. |
| AllOrders.OrdersView.HandleSort | src/components/AllOrders.tsx:95-102 | Field and direction follow `SortAfterClick`; nothing else changes. |
| AllOrders.OrdersView.SetSearchTerm | src/components/AllOrders.tsx:36 | Only the term changes. |
| AllOrders.OrdersView.HandleSearch | src/components/AllOrders.tsx:38-110 | The orders are emptied and the page set to 1. The handler's own fetch asks for the page current at render time. When the page changed, the effect fetches page 1 too; both clear the error on start, and the answers apply in arrival order. |
| AllOrders.OrdersView.Settle | src/components/AllOrders.tsx:81-91 | One fetch's answer: success merges the page and sets `hasMore`, leaving the error as it is; failure keeps the orders and `hasMore` and sets the error. Loading ends. |
| AllOrders.FailureSurvivesSecondFetch | src/components/AllOrders.tsx:44-90 | With two fetches started together, an error is shown exactly when one of them failed: the later failure, or else the earlier. A success never clears it. |
| AllOrders.SearchFromFirstPageReplaces | src/components/AllOrders.tsx:104-110 | A successful search from page 1 shows exactly that page, duplicate-free when the server sent no id twice. |
| AllOrders.FailedSearchLeavesEmpty | src/components/AllOrders.tsx:89-92 | A failed fetch after the reset leaves the list empty and an error set. |
| AllOrders.TwoPagesAccumulate | src/components/AllOrders.tsx:81-87 | Pages of 20 and 7 distinct orders accumulate to all 27, in order. Only the full page promises more. |
| UserSearch.Lower | src/components/UserSearch.tsx:89 | Lower-casing keeps the length, maps each character, and leaves no upper-case letter. |
| UserSearch.LowerIdempotent | src/components/UserSearch.tsx:89-95 | Lower-casing twice is lower-casing once. |
| UserSearch.FilterUsers | src/components/UserSearch.tsx:88-97 | It keeps exactly the users whose email, username, first name, last name or "first last" contains the term, ignoring letter case. |
| UserSearch.FilterUsersEmptyTerm | src/components/UserSearch.tsx:88-97 | An empty term keeps every user, in order. |
| UserSearch.MatchIgnoresTermCase | src/components/UserSearch.tsx:89 | The letter case of the term does not matter. |
| UserSearch.LongerTermNarrows | src/components/UserSearch.tsx:88-97 | A user matched by a term is matched by every prefix of that term. |
| UserSearch.TypingNarrowsResults | src/components/UserSearch.tsx:88-97 | Every user shown for a longer term is shown for any prefix of it. |
| UserSearch.FullNameMatch | src/components/UserSearch.tsx:95 | "ann lee" finds a user named Ann Lee, although no single field contains it. |
| UserSearch.UsersView.constructor | src/components/UserSearch.tsx:16-21 | The state on mount: empty term, no users, not loading, page 1, `hasMore`. |
| UserSearch.UsersView.Shown | src/components/UserSearch.tsx:88-97 | The list shown is exactly the matching users. |
| UserSearch.UsersView.FetchUsers | src/components/UserSearch.tsx:34-77 | A reset asks for page 1 and replaces the list, leaving it empty on failure. Otherwise the current page is merged by id. `hasMore` is true only after a full page, and loading always ends. |
| UserSearch.UsersView.HandleSearch | src/components/UserSearch.tsx:79-82 | A search is a reset fetch: the list becomes page 1 of the results, or empty on failure. |
| UserSearch.UsersView.LoadMore | src/components/UserSearch.tsx:84-86 | The page grows by one, and a page past the first is fetched without reset and merged. |
| UserSearch.UsersView.SetSearchTerm | src/components/UserSearch.tsx:16 | Only the term changes. |
| UserSearch.ResetIsMergeIntoEmpty | src/components/UserSearch.tsx:62-70 | Replacing the list agrees with merging into an empty list. |
| UserSearch.ResetThenNextPage | src/components/UserSearch.tsx:62-70 | A next page with no id in common is appended whole. |
| AllProducts.ProductsView.constructor | src/components/AllProducts.tsx:17-21 | The state on mount: no products, loading, page 1, `hasMore`. |
| AllProducts.ProductsView.FetchProducts | src/components/AllProducts.tsx:27-61 | On success the current page is merged by id and `hasMore` is set. On any failure the products are kept and the error is shown. Loading ends false. |
| AllProducts.ProductsView.LoadMore | src/components/AllProducts.tsx:63-65 | The page grows by exactly one, and exactly one fetch of the new page follows. |
| AllProducts.RefetchChangesNothing | src/components/AllProducts.tsx:49-54 | Fetching the same page again adds nothing. |
| AllProducts.NoActiveServerKeepsProducts | src/components/AllProducts.tsx:34-36 | With no active profile the products stay as they are, and the banner names the missing profile. |

## Left out

- HTTP (axios) is a parameter: a function from the request built to an outcome. Status codes other than the probe's, headers, timeouts and the axios-only error fields (`status`, `config`, `headers`) are not modelled.
- Browser storage and the JSON encoding of the stored list: `getServers` is the `servers` field of `Registry`, and a read always returns what the last write stored.
- `crypto.randomUUID` is a parameter of `AddServer`, which requires the id to be fresh.
- `Date` is a parameter too. The clock reading of the status loop's iteration `i` is `clock(i)`. An order's creation date is the timestamp the comparator derives from it, so date parsing is not modelled.
- Concurrency:
  - `Promise.all` over the note fetches is modelled as fetching in page order and taking the first failure. When several fail, the real rejection is whichever settles first.
  - Overlapping fetches of one view are not modelled, except the two fetches of the orders search (below). Every other handler runs to completion, in the order written.
- AllOrders.OrdersView.HandleSearch: the arrival order of the two answers is a parameter, and each answer's state updates are applied together. The two-fetch branch cannot occur in the code as it stands: `page` is only ever set to 1 (src/components/AllOrders.tsx:108), since `loadMore` is never defined.
- The orders view calls a `loadMore` it never defines, so the orders view has no "load more" operation here.
- The fetch each view runs on mount is its first call to `FetchOrders`, `HandleSearch` or `FetchProducts`. React's effect scheduling is not modelled.
- UserSearch.Lower: lower-cases the ASCII letters only, while `toLowerCase` also maps other Unicode letters.
- AllOrders.SortOrders: states sorted and a permutation but not stability, although the insertion sort that defines it keeps equal keys in input order, as `Array.prototype.sort` does.
- AllOrders.NotesQueryFor: keeps the order id as a number, and the decimal text of the id in the notes URL is not modelled.
- ERPNext.EncodeUriComponent: states the output alphabet and length, not the full percent-encoding table. A lone surrogate, which makes `encodeURIComponent` throw, cannot occur in a Dafny string.
- The debug callback of the ERPNext helpers only logs, and is left out. So is the `details` payload of a failed self-test and its timestamp.
- Rendering, the Chatwoot messaging code and the settings, detail and navigation components are not part of this model.
