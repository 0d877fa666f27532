# Peer-to-peer rental marketplace: client logic in Dafny

This project models the client-side logic of a peer-to-peer rental
marketplace web app. Owners list items, renters request them, and a rental
moves through a lifecycle: `requested`, `approved`, `pickup_confirmed`,
`active`, `return_pending`, then `completed`, `cancelled` or `disputed`.
The model covers five pieces of that client:

- **Activity page** (`activity.dfy`, module `Activity`). This decides which
  lifecycle buttons a rental offers the viewer, depending on whether they
  own it. It also covers the status badge (colour table, fallback colour,
  `_` to space) and the status update: a `PATCH` to the status endpoint,
  then either a refetch or an alert.
- **Application store** (`store.dfy`, module `Store`). This holds the
  signed-in user, profile, notification list and unread counter, and the
  actions that change them: start-up, auth events, fetches, a realtime
  insert, mark one read, mark all read and sign-out.
- **Messages page** (`messages.dfy`, module `Messages`). This covers:
  - the conversation list and the `?to=` lookup of an existing conversation;
  - the "other participant" of a conversation;
  - the append-only message thread;
  - the send guard, which trims with JavaScript's whitespace set;
  - which stored rows `markAsRead` updates.
- **List-an-item page** (`listing.dfy`, module `Listing`). This covers:
  - the photo list, with its limit of 8 and removal by index;
  - required-field validation;
  - the inserted listing row;
  - the upload loop, which gives photo `i` the path
    `<listingId>/<i>.<extension>` and writes a `listing_photos` row only when
    its upload succeeded.
- **Browse page** (`browse.dfy`, module `Browse`). This covers the category
  heading and the query string of the listings request, with and without the
  viewer's position. The heading spaces the first hyphen only and
  capitalises each word start.

`shared.dfy` (module `Shared`) holds `Option` and JavaScript's `a || b` on
strings, where an empty string is falsy.

Pages and the store are classes whose fields are the React state or the
store state. Each handler is a method, and its `ensures` gives the whole new
state. Backend calls (Supabase queries, storage uploads, the REST endpoint)
are not executed in the model: what they return is passed in as a parameter.
A handler that writes to the backend returns the write it would send (the
`ReadUpdate`, `MarkReadRequest`, `MessageInsert` and `StatusRequest` values,
and the upload paths and photo rows). The pure parts are functions. Each pure function's
contract, or a lemma about it, states what the page relies on: a
reference table it equals, an invariant it keeps, or the inverse it admits.

An approved rental offers no cancellation: the renter sees only "Confirm
Pickup" and the owner sees nothing (app/activity/page.tsx:98-100, 111).
`PermittedActions` and `Successors` have no approved → cancelled edge.

## Model

| member | source | states |
|---|---|---|
| Activity.IsOwner | app/activity/page.tsx:91 | The viewer is the owner exactly when both ids are present and equal, or when both are missing (`undefined === undefined`). |
| Activity.ActivityPage.SetUser | app/activity/page.tsx:44 | Only the viewer changes. |
| Activity.ActivityPage.GetActions | app/activity/page.tsx:90-115 | The pushes, made in order, build exactly the reference lifecycle table `PermittedActions` for the rental's status and the viewer's role. |
| Activity.NoActionsWithoutSuccessors | app/activity/page.tsx:94-113 | A terminal status (completed, cancelled, disputed) or an unknown status offers no button to either party and has no lifecycle successor. |
| Activity.ActionTable | app/activity/page.tsx:94-113 | The concrete rows: for each non-terminal status, the buttons the owner sees and the buttons the renter sees. |
| Activity.ActionsWellFormed | app/activity/page.tsx:90-115 | At most two buttons. Their target statuses are pairwise distinct, and each is a lifecycle successor of the current status that has a badge colour. |
| Activity.EdgesSplitBetweenRoles | app/activity/page.tsx:94-113 | The owner's and the renter's targets together are exactly the successors of the status. Only a requested rental's cancellation is offered to both roles. |
| Activity.StatusColor | app/activity/page.tsx:162 | A status in the colour table gets its colour, and any other status gets `bg-gray-100`. |
| Activity.StatusLabel | app/activity/page.tsx:163 | The label has the status's length. Every underscore becomes a space, and every other character is kept. |
| Activity.StatusPath | app/activity/page.tsx:73 | The path part of the status endpoint is the rentals prefix, the rental id and `/status`, and the rental id can be read back from the path between them. |
| Activity.FailureMessage | app/activity/page.tsx:86 | The alert is never empty. It is the endpoint's error when that is a non-empty string, otherwise "Failed to update status". |
| Activity.ActivityPage.constructor | app/activity/page.tsx:36-39 | The page starts with no user, no rentals and loading on. |
| Activity.ActivityPage.FetchRentals | app/activity/page.tsx:65-67 | The list becomes the fetched rows, or empty when there is no data, and loading ends. |
| Activity.ActivityPage.UpdateStatus | app/activity/page.tsx:70-88 | Sends the new status to the path `/functions/v1/api/rentals/<id>/status` (only the path is modelled, not the base URL or the bearer header). On acceptance the list is refetched and no alert is shown. On rejection the list and loading flag are unchanged and exactly the failure message is alerted. |
| Shared.OrElse | lib/store.ts:53 | A present, non-empty string is kept. A missing or empty one gives the fallback, so a non-empty fallback never yields an empty text. |
| Store.UserOf | lib/store.ts:53 | The store's user keeps the auth user's id, and its email is the auth email or the empty string when there is none. |
| Store.CountUnread | lib/store.ts:112 | The unread count is at most the list length, and it is zero exactly when every notification is read. |
| Store.MarkRead | lib/store.ts:120 | Every entry with the id is flagged read. Every other entry and the order are unchanged. |
| Store.MarkAllRead | lib/store.ts:130 | Every entry is flagged read, and nothing else changes. |
| Store.DecrementClamped | lib/store.ts:121 | The counter goes down by one when positive and otherwise becomes 0, so it is never negative. |
| Store.CountUnreadAfterMarkRead | lib/store.ts:119-122 | Marking an id read lowers the unread count by exactly the number of unread entries with that id. |
| Store.MarkReadKeepsCountExact | lib/store.ts:119-122 | If the counter was exact and exactly one unread entry has the id, the counter stays exact after the decrement. |
| Store.MarkReadDrift | lib/store.ts:119-122 | Marking an id with no unread entry still decrements a positive counter. The counter then undercounts the unread entries by one. |
| Store.MarkAllReadLeavesNoneUnread | lib/store.ts:129-132 | After marking all read, the unread count is zero. |
| Store.AppStore.constructor | lib/store.ts:43-48 | Initial state: no user, no profile, an empty list, counter 0, loading on. The counter agrees with the list. |
| Store.AppStore.SetUser | lib/store.ts:87 | Only the user changes. |
| Store.AppStore.OnNotificationInsert | lib/store.ts:65-70 | The pushed notification becomes the head and the counter goes up by one. An unread push keeps an exact counter exact. |
| Store.AppStore.FetchProfile | lib/store.ts:89-98 | With a user and data, the profile becomes the fetched row. Without a user or without data, nothing changes. |
| Store.AppStore.FetchNotifications | lib/store.ts:100-115 | With a user and data, the list becomes the fetched rows and the counter is exact. Otherwise nothing changes. |
| Store.AppStore.MarkNotificationRead | lib/store.ts:117-123 | Sends `is_read` for the id, flags the matching entries read, and decrements the counter clamped at zero, whatever the entry's state was. |
| Store.AppStore.MarkAllNotificationsRead | lib/store.ts:125-133 | Without a user nothing happens. Otherwise it sends the update for the user's unread rows, flags every entry read and zeroes the counter, so the counter is exact. |
| Store.AppStore.SignOut | lib/store.ts:135-138 | User, profile, list and counter are cleared, and loading is untouched. |
| Store.AppStore.Initialize | lib/store.ts:50-75 | With a signed-in user it records `{id, email or ''}` and then loads the profile and notifications. In every case loading ends false. |
| Store.AppStore.OnAuthStateChange | lib/store.ts:76-84 | `SIGNED_IN` with a session user records it and reloads. `SIGNED_OUT` clears the session state. Every other event changes nothing. Loading is never touched. |
| Messages.TrimStart | app/messages/page.tsx:109 | Drops exactly the leading JavaScript whitespace: the result is a suffix, everything dropped is whitespace, and the result does not start with whitespace. |
| Messages.TrimEnd | app/messages/page.tsx:109 | Drops exactly the trailing JavaScript whitespace, symmetrically to `TrimStart`. |
| Messages.Trim | app/messages/page.tsx:113 | The trimmed text is empty, or it neither starts nor ends with whitespace. |
| Messages.TrimIsSlice | app/messages/page.tsx:113 | The trimmed text is a slice of the draft, and only whitespace is cut from either end. |
| Messages.TrimEmptyIffBlank | app/messages/page.tsx:109 | The send guard refuses a draft exactly when the draft is all whitespace. |
| Messages.GetOtherUser | app/messages/page.tsx:121-123 | The result is participant 2 when the viewer is participant 1, and otherwise participant 1, including when there is no viewer. |
| Messages.OtherUserIsCounterpart | app/messages/page.tsx:121-123 | For a participant of a well-formed conversation, the other user is the other participant and never the viewer. |
| Messages.Connects | app/messages/page.tsx:81-84 | A connecting conversation has both the viewer and the `to` user among its participants. For two different users, its two participants differ. |
| Messages.ConnectsIsPairMatch | app/messages/page.tsx:81-84 | The `?to=` predicate holds exactly when the participant pair, as a set, is {viewer, to}. |
| Messages.FindConversation | app/messages/page.tsx:81-84 | Returns the first conversation connecting viewer and `to`, or none when no conversation does. |
| Messages.MarkAsRead | app/messages/page.tsx:98-104 | Exactly the unread rows of the conversation sent by someone else are flagged read, and every other row is unchanged. |
| Messages.MarkAsReadEffect | app/messages/page.tsx:98-104 | Afterwards no inbound row of the conversation is unread. The viewer's own rows and other conversations' rows are untouched, only the read flag changes, and a second run changes nothing. |
| Messages.MessagesPage.constructor | app/messages/page.tsx:32-37 | Initial state: no user, no conversations, no active conversation, no messages, an empty draft, loading on. |
| Messages.MessagesPage.SetUser | app/messages/page.tsx:43 | Only the user changes. |
| Messages.MessagesPage.FetchConversations | app/messages/page.tsx:69-87 | The list becomes the fetched rows (or empty) and loading ends. With a `to` parameter and data, the first connecting conversation becomes active. With no match, no parameter or no data, the active conversation is unchanged. Opening a conversation this way returns its mark-read update, as selecting it does. |
| Messages.MessagesPage.SelectConversation | app/messages/page.tsx:51-54 | Only the active conversation changes. Opening a different conversation returns the mark-read update for it and the viewer (the update whose effect on the stored rows `MarkAsRead` models). Closing it or re-selecting the open one sends nothing. |
| Messages.MessagesPage.FetchMessages | app/messages/page.tsx:89-96 | The thread becomes the fetched rows, or empty when there is no data. |
| Messages.MessagesPage.OnMessageInsert | app/messages/page.tsx:57-59 | A pushed message is appended at the end of the thread, and earlier messages keep their order. |
| Messages.MessagesPage.SetDraft | app/messages/page.tsx:191 | Only the draft changes. |
| Messages.MessagesPage.SendMessage | app/messages/page.tsx:107-119 | A blank draft or no active conversation sends nothing. Otherwise it inserts the trimmed draft as the viewer's message in the active conversation. On success it clears the draft and touches that conversation's timestamp; on failure it keeps the draft. |
| Listing.AddPhotos | app/list/page.tsx:43-44 | A batch that would exceed 8 photos is rejected whole, otherwise it is appended. Old photos stay in front, and a list within the limit stays within it. |
| Listing.RemoveIndex | app/list/page.tsx:52-55 | Filtering out one index drops exactly that element when it is in range and shifts the rest. An out-of-range index changes nothing. |
| Listing.RemoveIndexIsSplice | app/list/page.tsx:53-54 | Removal is the splice `s[..i] + s[i+1..]` for an index in range, and the identity otherwise. |
| Listing.EditsKeepPhotoLimit | app/list/page.tsx:41-55 | Any sequence of additions and removals starting within 8 photos stays within 8 photos. |
| Listing.MissingRequired | app/list/page.tsx:60 | The form is refused exactly when one of title, category and daily price is the empty string. |
| Listing.DepositAmount | app/list/page.tsx:73 | A parsed deposit is used as is. An unparsable or empty deposit becomes 0. |
| Listing.NewListingOf | app/list/page.tsx:67-79 | The inserted row carries the owner, and the form's title, description, category, condition, pickup instructions and address unchanged. It also carries the parsed price, the parsed deposit (0 when unparsable or empty), and latitude and longitude 0. |
| Listing.DecimalString | app/list/page.tsx:86 | The index is written with decimal digits only: at least one digit, and a single digit exactly below 10. |
| Listing.DecimalStringValue | app/list/page.tsx:86 | The digits spell the index itself, and a multi-digit index does not start with `0`: this is the canonical decimal form a template literal produces. |
| Listing.DecimalStringInjective | app/list/page.tsx:86 | Different indices give different decimal strings. |
| Listing.Extension | app/list/page.tsx:85 | The extension contains no dot and is no longer than the file name. |
| Listing.ExtensionIsLastSegment | app/list/page.tsx:85 | The extension is the part after the last dot (a suffix that a dot precedes), or the whole name when there is no dot. |
| Listing.PhotoPath | app/list/page.tsx:86 | A photo's path starts with the listing's folder `<listingId>/` and ends with a dot and the file's extension. |
| Listing.PhotoPathDeterminesIndex | app/list/page.tsx:86 | Two photo paths of the same listing are equal only for the same index, so paths never collide. |
| Listing.PlannedPathsAt | app/list/page.tsx:83-86 | Upload `i` goes to `<listingId>/<i>.<extension of photo i>`. |
| Listing.PlannedPathsDistinct | app/list/page.tsx:83-89 | The planned upload paths are pairwise distinct. |
| Listing.PlannedRowsShape | app/list/page.tsx:83-100 | One photo row per successful upload, in upload order, each carrying the listing id, that upload's public URL and its own index as display order. There are never more rows than photos. |
| Listing.UploadPhotos | app/list/page.tsx:83-100 | The loop uploads to exactly the planned paths and inserts exactly the planned rows. |
| Listing.ListForm.constructor | app/list/page.tsx:15-29 | Initial state: no user, no photos or previews, the blank form with condition `good`, loading off. |
| Listing.ListForm.SetUser | app/list/page.tsx:34 | Only the user changes. |
| Listing.ListForm.SetForm | app/list/page.tsx:141 | Only the form changes. |
| Listing.ListForm.HandlePhotoChange | app/list/page.tsx:41-50 | A batch that would exceed 8 is refused with the alert "Maximum 8 photos" and nothing else changes. Otherwise the files are appended. The limit is kept. |
| Listing.ListForm.OnPreviewLoaded | app/list/page.tsx:47 | A finished preview is appended to the previews. |
| Listing.ListForm.RemovePhoto | app/list/page.tsx:52-55 | The index is removed from both photos and previews, and the limit is kept. |
| Listing.ListForm.HandleSubmit | app/list/page.tsx:57-108 | Does nothing without a user. Missing title, category or price alerts "Please fill in required fields". A failed insert alerts its message or "Failed to create listing". Otherwise it uploads to the planned paths, inserts the planned rows and redirects to `/listing/<id>`. Loading ends false after any insert. |
| Browse.UpperWordChar | app/browse/page.tsx:74 | Upper-casing a `\w` character changes only lower-case letters, each to its capital. |
| Browse.IndexOf | app/browse/page.tsx:74 | Returns the first position of the character, or -1 exactly when it is absent. |
| Browse.ReplaceFirst | app/browse/page.tsx:74 | String `replace` changes only the first occurrence, and every other position is kept. |
| Browse.ReplaceFirstIsSplice | app/browse/page.tsx:74 | Replacing the first occurrence splices the replacement in at `indexOf`, or is the identity when the character is absent. |
| Browse.CapitalizeWords | app/browse/page.tsx:74 | Capitalising keeps the length. |
| Browse.CapitalizeWordsAt | app/browse/page.tsx:74 | A character is upper-cased exactly when `\b\w` matches there, that is, a word character not preceded by one. Every other character is kept. |
| Browse.Heading | app/browse/page.tsx:74 | An empty category is headed "All Listings", and any other heading has the category's length. |
| Browse.HeadingAt | app/browse/page.tsx:74 | The first hyphen becomes a space, later hyphens remain, word starts are upper-cased, and everything else is the category's own character. |
| Browse.HeadingExample | app/browse/page.tsx:74 | "a-b-c" is headed "A B-C". |
| Browse.SearchRequest | app/browse/page.tsx:52-59 | The search form always sends `q`, even when it is empty, and nothing else: the category filter and the position are dropped. |
| Browse.FilterParams | app/browse/page.tsx:34-37 | The filter part has one entry per non-empty filter. Each entry is `category` with the category or `q` with the search text, and no value is empty. |
| Browse.InitialRequest | app/browse/page.tsx:14-50 | A query string is sent exactly when geolocation exists. It ends with the filter part, preceded by three position entries only when a position was granted. |
| Browse.FilterParamsLookup | app/browse/page.tsx:34-37 | The filter part holds `category` and `q` exactly when they are non-empty, with their values, and no other or repeated key. |
| Browse.PositionParamsLookup | app/browse/page.tsx:20-23 | The position part holds `lat`, `lng` and `radius=50`, and neither `category` nor `q`. |
| Browse.GeoParamsLookup | app/browse/page.tsx:20-26 | In the geolocated query the position keys come first, and `category` and `q` are looked up as in the filter part. |
| Browse.GeoParamsDistinct | app/browse/page.tsx:20-26 | No key of the geolocated query appears twice. |
| Browse.InitialRequestParams | app/browse/page.tsx:14-50 | Without geolocation there is no query string. Otherwise `category` and `q` are present exactly when non-empty, and no key repeats. Only a granted position adds `lat`, `lng` and `radius=50`. |

## Left out

- Supabase, storage and REST calls are not modelled as calls. Their results are inputs: query rows, insert errors, upload outcomes, public URLs and the status endpoint's answer. Query construction (selected columns, filters such as the tab's renter/owner choice, ordering, `limit(50)`) is not part of this model.
- Realtime channels are not modelled: subscribing, filtering by user or conversation, and removing the channel when the conversation changes. The model only has what a delivered insert does to the state.
- Asynchronous interleaving is not modelled. Each handler runs to completion. After `SIGNED_IN` the store's two fetches are not awaited, and the model applies them in order.
- Listing.ListForm.OnPreviewLoaded: previews are appended in the order the model is told they finish, so previews can fall out of step with photos.
- Listing.ListForm.HandlePhotoChange: the limit check reads `photos` from the render the handler was created in (app/list/page.tsx:43), while the append works on the latest list. The model checks the current list, so two quick batches that together exceed 8 are not captured.
- Floating point is not modelled. `parseFloat` results are inputs (`None` for NaN), and `toFixed`, coordinates and prices are not formatted.
- Dates and locale formatting are not modelled, and neither is the value of the `last_message_at` timestamp. The model records only which conversation it is written to.
- URL encoding is not modelled (`URLSearchParams.toString`, `encodeURIComponent`). A query is modelled as its ordered key/value list.
- Activity.StatusColor: JavaScript object lookup also finds inherited keys (for example `constructor`). The model treats the table as a plain map of its eight entries.
- Activity.StatusPath: the request's base URL (from the environment) and its bearer token are not modelled; only the path is.
- Messages.MessagesPage.SelectConversation: the rest of what opening a conversation does is not run by the method. That is the message fetch (modelled separately by `FetchMessages`) and the realtime subscription and its removal. React's object identity is approximated by value equality when deciding whether the conversation changed.
- Browse.InitialRequest: `getCurrentPosition` has no timeout. If neither callback ever fires (for example, the permission prompt is never answered), no request is sent and loading stays on. `Locate` cannot express this case.
- Activity.ActivityPage.UpdateStatus: two failures are not modelled. A rejection whose body is not JSON makes `res.json()` throw. A transport failure makes `fetch` itself throw (app/activity/page.tsx:72), after which nothing is alerted and nothing changes. `StatusResponse` cannot express either case.
- Navigation (`router.push`), `alert` and scrolling are modelled only as a redirect value and an appended list of alert texts. The authentication redirect of each page is left out.
- Listing.ListForm.HandleSubmit: category loading and form rendering are not part of this model.
- Messages.MessagesPage.FetchConversations and SelectConversation require a signed-in user. The page calls them only after the user is set, and it would dereference a missing user there.
- The other pages are not part of this model: the landing page, auth, profile, listing detail and layout.
