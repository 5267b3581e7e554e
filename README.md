# PickUp: session state, event directory and event cards

A Dafny model of the logic of the PickUp app, a SwiftUI client that lists pickup-sport events kept in
a Firestore collection and follows the signed-in user's profile. Three parts are modelled:

- **The event directory** (`EventListView`). The events listener's callback decodes every document
  of a snapshot into an `Event` and substitutes a default for each missing or ill-typed field.
  `filteredEvents` applies one of four filters (All, Joined, Created, Upcoming) and then an optional
  case-insensitive search over title, sport name and venue name.
- **The event card** (`EventCard`). It provides the capacity label and the "is full" test, the rule
  that disables the join button, the local joined flag (`toggleJoin`, `checkIfJoined`) and the
  sport-to-icon map.
- **The session** (`AuthManager`). It follows the authentication service's state changes. It keeps
  `isAuthenticated`, `currentUser` and at most one live snapshot listener on the user's profile
  document, and builds the `User` from that document or from a placeholder.

The remote services are modelled only as far as the app touches them:

- A Firestore value is the datatype `Documents.Value`, and the app's `as?` casts are functions on it.
- The authentication service's observer registrations are the class `Session.AuthService`.
- Firestore's profile listeners are the class `Session.ListenerRegistry`. It holds registration ids
  and the uid each one watches, and a removed registration delivers nothing.
- Callbacks are methods that take the delivered data as parameters. Values the source reads from
  global services when a callback runs are parameters too: the clock (`now`) and the signed-in
  user's uid or email.
- Dates are integer timestamps. Coordinates are `real` values that are carried but never computed with.

Modules, one per file: `Wrappers` (Swift's `Optional`), `Seqs` (`filter`, `compactMap`, subsequences),
`Text` (case-insensitive search, decimal rendering), `Documents` (Firestore values and casts),
`SportTypes`, `Models` (`Location`, `Event`, `User`), `EventDecoding`, `EventList`, `EventCards`, `Session`.

## Model

| member | source | states |
|---|---|---|
| `SportTypes.FromRawValue` | PickUp/Models/SportType.swift:10-17 | parsing yields a sport only for that sport's exact raw value, and yields nothing when no sport has the string as raw value |
| `SportTypes.RawValue` | PickUp/Models/SportType.swift:11-15 | every raw value is a non-empty name starting with a capital letter, which is why lower-case spellings never parse |
| `SportTypes.AllCasesAreTheFiveSports` | PickUp/Models/SportType.swift:10-17 | `allCases` lists exactly five sports, contains every sport, and their raw values are pairwise distinct |
| `SportTypes.RawValueInjective` | PickUp/Models/SportType.swift:11-15 | two sports with the same raw value are the same sport |
| `SportTypes.RawValueRoundTrip` | PickUp/Models/SportType.swift:10-17 | parsing the raw value of any sport gives back that sport |
| `SportTypes.FromRawValueIsExact` | PickUp/Models/SportType.swift:11-15 | parsing is case-sensitive: "basketball", "BASKETBALL", "" and "Unknown" yield no sport |
| `Documents.StringsOf` | PickUp/Views/EventListView.swift:172 | `as? [String]` succeeds iff every element is a string, and then gives those strings in order |
| `Documents.StringArrayRoundTrip` | PickUp/Views/EventListView.swift:172 | a stored list of participant ids reads back as that list |
| `Text.ContainsIgnoringCase` | PickUp/Views/EventListView.swift:43-45 | true iff the non-empty search text occurs at some offset of the string, comparing case-folded letters |
| `Text.NatToDecimal` | PickUp/Views/EventListView.swift:206 | an interpolated magnitude is a non-empty string of decimal digits, with no leading zero unless it is 0 |
| `Text.IntToDecimal` | PickUp/Views/EventListView.swift:206 | the interpolation of any integer starts with a minus sign iff the integer is negative, is canonical (no leading zeros, no "-0"), and parses back to that integer |
| `Text.CanonicalDigitsAreNatToDecimal` | PickUp/Views/EventListView.swift:206 | a digit string without leading zeros is exactly the text written for the number it denotes |
| `Text.CanonicalIsIntToDecimal` | PickUp/Views/EventListView.swift:206 | any canonical decimal text that parses to an integer is the interpolation of that integer, so the interpolation is the only canonical spelling |
| `Seqs.Filter` | PickUp/Views/EventListView.swift:26-37 | `filter` keeps an element iff it is in the input and satisfies the predicate, and never lengthens the array |
| `Seqs.FilterIsSubsequence` | PickUp/Views/EventListView.swift:26-37 | `filter`'s result is an order-preserving subsequence of its input |
| `Seqs.SubsequenceTransitive` | PickUp/Views/EventListView.swift:39-47 | a subsequence of a subsequence is a subsequence, so the search applied after the filter still keeps the cache's order |
| `Seqs.FilterMultiplicity` | PickUp/Views/EventListView.swift:26-37 | `filter` keeps every passing element as often as it occurs, and no failing one |
| `Seqs.FilterKeepsAll` | PickUp/Views/EventListView.swift:28-29 | a predicate every element passes leaves the array unchanged |
| `Seqs.FilterKeepsNone` | PickUp/Views/EventListView.swift:32-33 | a predicate no element passes leaves nothing |
| `Seqs.CompactMap` | PickUp/Views/EventListView.swift:140 | `compactMap` never lengthens the array, and each result is the non-nil value of the closure on some element |
| `Seqs.CompactMapTotal` | PickUp/Views/EventListView.swift:140 | a `compactMap` closure that never returns `nil` keeps the length and maps the i-th element to the i-th result |
| `EventDecoding.DecodeSportType` | PickUp/Views/EventListView.swift:161-162 | a stored raw value of a sport decodes to that very sport; anything else decodes to basketball |
| `EventDecoding.DecodeLocation` | PickUp/Views/EventListView.swift:151-158 | each location field is the stored value when it has the right type and its default (0, 0, "", nil) otherwise; without a usable `location` map all four take their defaults |
| `EventDecoding.DecodeEvent` | PickUp/Views/EventListView.swift:164-165 | the decoded event's id is the document id |
| `EventDecoding.DecodesTitle` | PickUp/Views/EventListView.swift:166 | whatever the other fields hold, the title is the stored string, or "" when it is missing or not a string |
| `EventDecoding.DecodesDescription` | PickUp/Views/EventListView.swift:167 | the description is the stored string, or "" when it is missing or not a string |
| `EventDecoding.DecodesCreatorId` | PickUp/Views/EventListView.swift:173 | the creator id is the stored string, or "" when it is missing or not a string |
| `EventDecoding.DecodesDate` | PickUp/Views/EventListView.swift:143-149 | the date is the stored timestamp, or the decode-time clock when it is missing or not a timestamp |
| `EventDecoding.DecodesCapacity` | PickUp/Views/EventListView.swift:171 | the capacity is the stored integer, or 0 when it is missing or not an integer |
| `EventDecoding.DecodesParticipants` | PickUp/Views/EventListView.swift:172 | the participants are the stored strings in order, or none when the field is missing, not an array, or holds a non-string |
| `EventDecoding.DecodeEvents` | PickUp/Views/EventListView.swift:140-175 | no document is dropped: the decoded list has the snapshot's length and order, and the i-th event is the i-th document decoded |
| `EventDecoding.UnusableFieldIsIgnored` | PickUp/Views/EventListView.swift:143-174 | a field outside the schema, or one of the wrong type, decodes exactly as if it were absent |
| `EventDecoding.UnusableLocationFieldIsIgnored` | PickUp/Views/EventListView.swift:152-158 | the same holds for the fields of the `location` map |
| `EventDecoding.UnusableDocumentDecodesToDefaults` | PickUp/Views/EventListView.swift:143-174 | without usable fields the event is basketball, capacity 0, no participants, empty title, description and creator, location (0, 0, "", nil), dated now |
| `EventDecoding.UnknownSportDefaultsToBasketball` | PickUp/Views/EventListView.swift:161-162 | a sport string that is no sport's raw value decodes to basketball |
| `EventDecoding.LocationFields` | PickUp/Views/EventListView.swift:152-158 | a stored location uses only the four location keys, each with the type the decoder reads |
| `EventDecoding.EventFields` | PickUp/Views/EventListView.swift:164-174 | a stored event has exactly the eight schema keys, each with the type the decoder reads |
| `EventDecoding.DecodeStoredEvent` | PickUp/Views/EventListView.swift:140-175 | a stored event decodes back to itself, whatever the clock |
| `EventDecoding.DecodeStoredSnapshot` | PickUp/Views/EventListView.swift:140-175 | a snapshot of stored events decodes back to those events in order |
| `EventList.FilteredEvents` | PickUp/Views/EventListView.swift:25-48 | an event is shown iff it is cached, passes the selected filter, and, when the search text is non-empty, matches title, sport name or venue name |
| `EventList.FilteredEventsIsSubsequence` | PickUp/Views/EventListView.swift:25-48 | the projection is an order-preserving subsequence of the cached events |
| `EventList.FilteredEventsMultiplicity` | PickUp/Views/EventListView.swift:25-48 | each cached event is shown as often as it is cached when it passes the filter and search, and never otherwise |
| `EventList.AllWithoutSearchIsIdentity` | PickUp/Views/EventListView.swift:25-40 | filter All with an empty search text shows exactly the cached events |
| `EventList.SignedOutCreatedIsEmpty` | PickUp/Views/EventListView.swift:32-33 | signed out, the Created filter matches nothing |
| `EventList.FridayBballRunMatches` | PickUp/Views/EventListView.swift:42-46 | "bball" finds an event titled "Friday Bball Run" despite the capital B |
| `EventList.JoinedKeepsOnlyOwnEvents` | PickUp/Views/EventListView.swift:30-31 | for user "u1", Joined keeps the event with participants ["u1"] and drops the one with ["u2"] |
| `EventList.EventListView.constructor` | PickUp/Views/EventListView.swift:13-14 | the screen starts loading with no events |
| `EventList.EventListView.OnEventsSnapshot` | PickUp/Views/EventListView.swift:130-176 | any delivery ends loading; an error or a missing snapshot keeps the events; a snapshot replaces them by its documents decoded |
| `EventCards.ParticipantCount` | PickUp/Views/EventListView.swift:205-207 | the capacity label reads back as the participant count and the capacity, and both numbers are written canonically |
| `EventCards.CanonicalLabelIsUnique` | PickUp/Views/EventListView.swift:205-207 | a canonical label that reads back as an event's two numbers is that event's label, so texts such as "03/005" are excluded |
| `EventCards.IsFull` | PickUp/Views/EventListView.swift:209-211 | the event is full iff the label's participant count is at least its capacity |
| `EventCards.JoinDisabled` | PickUp/Views/EventListView.swift:284 | a user who has joined can always press the button; one who has not is blocked iff the label shows count at least capacity |
| `EventCards.LabelReadsBack` | PickUp/Views/EventListView.swift:206 | a "count/capacity" text written from two integers splits at its first slash and reads back as those integers |
| `EventCards.MissingCapacityDisablesJoin` | PickUp/Views/EventListView.swift:171 | a document without an integer capacity gives a full event, whose join button is disabled unless the user has joined |
| `EventCards.SportIcon` | PickUp/Views/EventListView.swift:312-325 | every sport has a non-empty icon name |
| `EventCards.SportIconInjective` | PickUp/Views/EventListView.swift:312-325 | different sports get different icon names |
| `EventCards.EventCard.constructor` | PickUp/Views/EventListView.swift:201-203 | a card shows its event and starts not joined |
| `EventCards.EventCard.ToggleJoin` | PickUp/Views/EventListView.swift:295-298 | the joined flag flips; the event is unchanged |
| `EventCards.EventCard.CheckIfJoined` | PickUp/Views/EventListView.swift:300-304 | signed in, the flag becomes the user's membership in the participants; signed out, it stays |
| `EventCards.ToggleJoinTwice` | PickUp/Views/EventListView.swift:295-298 | toggling twice restores the joined flag |
| `Session.ProfileUser` | PickUp/PickUpApp.swift:70-77 | the user has the document's id; a stored username string is the username, and "User" is used otherwise; a stored image URL string is the image URL, and there is none otherwise |
| `Session.PlaceholderUser` | PickUp/PickUpApp.swift:78-86 | the placeholder has the watched uid, username "User", the signed-in email or else "", and no image URL |
| `Session.ProfileEmailFallback` | PickUp/PickUpApp.swift:75 | the email is the stored string, else the signed-in user's email, else "" |
| `Session.ProfileFields` | PickUp/PickUpApp.swift:70-77 | a stored profile has username and email, plus an image URL only when there is one |
| `Session.ProfileRoundTrip` | PickUp/PickUpApp.swift:70-77 | a stored profile reads back as the stored user, whatever the signed-in email |
| `Session.EmptyProfileIsPlaceholder` | PickUp/PickUpApp.swift:70-86 | an existing profile document without fields reads as the placeholder for that id |
| `Session.AuthService.AddStateDidChangeListener` | PickUp/PickUpApp.swift:42 | an observer is registered under a handle not already in use |
| `Session.AuthService.RemoveStateDidChangeListener` | PickUp/PickUpApp.swift:106 | the observer's handle is unregistered and nothing else changes |
| `Session.ListenerRegistry.AddSnapshotListener` | PickUp/PickUpApp.swift:64 | a profile listener is registered under an id never used before, watching the given uid |
| `Session.ListenerRegistry.Remove` | PickUp/PickUpApp.swift:61 | exactly that registration is removed |
| `Session.AuthManager.constructor` | PickUp/PickUpApp.swift:37-42 | the manager starts signed out with no profile and no listener, with its auth observer registered |
| `Session.AuthManager.OnAuthStateChanged` | PickUp/PickUpApp.swift:42-55 | signed in: authenticated, and the only live listener is one on the uid whose id the registry never issued before; signed out: not authenticated, no profile, no live listener |
| `Session.AuthManager.FetchUserData` | PickUp/PickUpApp.swift:57-64 | the held listener is removed before a new one on `users/{userId}` is registered under an id never issued before; afterwards that is the only live listener |
| `Session.AuthManager.OnProfileSnapshot` | PickUp/PickUpApp.swift:64-87 | a removed listener changes nothing; an error keeps the profile; a document gives its user; no document gives the placeholder for the watched uid |
| `Session.AuthManager.RefreshUserData` | PickUp/PickUpApp.swift:98-102 | without a signed-in uid nothing changes; otherwise it re-subscribes as `fetchUserData` does, under an id never issued before |
| `Session.AuthManager.Deinit` | PickUp/PickUpApp.swift:104-109 | the auth observer is unregistered and no profile listener is left |
| `Session.AtMostOneProfileListener` | PickUp/PickUpApp.swift:60-64 | while the manager is consistent, at most one profile listener is alive, and it is the one the manager holds |
| `Session.StaleListenersAreSilenced` | PickUp/PickUpApp.swift:44-87 | after switching accounts, a late snapshot from the first account's listener keeps the profile; after sign-out, and after signing in as the first account again, no late snapshot from an earlier listener brings a profile back |

## Left out

- Text.ContainsIgnoringCase: `localizedCaseInsensitiveContains` folds case according to the locale and Unicode. The model folds ASCII letters only and compares code points. It also follows Foundation in never finding an empty needle, although the app only searches with non-empty text.
- EventDecoding.DecodeEvent: the source calls `Date()` separately for each document without a date. The model uses one clock reading `now` for the whole snapshot.
- EventList.FilteredEvents: the source reads `Date()` and `Auth.auth().currentUser` again for each event it filters. The model takes one clock reading `now` and one `uid` for the whole projection, so it does not capture a clock tick or a sign-in change in the middle of one evaluation.
- Swift's `as? Int` and `as? Double` bridge `NSNumber` between integer, floating-point and boolean values: a stored integer can read as a double, an integral double as an integer, and a stored boolean as 1 or 0 (1.0 or 0.0). The model keeps the kinds apart, and each cast succeeds only on its own kind. So for a boolean or cross-kind `maxParticipants`, `latitude` or `longitude`, the model decodes the default where the app decodes a number. `UnusableFieldIsIgnored`, `DecodesCapacity`, `DecodeLocation` and `MissingCapacityDisablesJoin` are stated for the model's strict casts.
- Integers are unbounded: 64-bit `Int` overflow plays no part in any path modelled.
- `Double` latitude and longitude are carried as `real` values and never computed with.
- The Firestore and authentication SDK calls are abstracted, together with the hop to the main queue. Each callback is one atomic method call whose inputs are what the SDK delivers. The model does not say in which order callbacks are interleaved.
- `weak self` captures: the model keeps no manager that has been deallocated.
- The error printing in the callbacks and in `signOut` is logging only.
- `AuthManager.signOut` only asks the authentication service to sign out. Its effect reaches the manager as `OnAuthStateChanged(None)`, which is modelled.
- `selectedFilter` and `searchText` are parameters of `EventList.FilteredEvents` rather than fields of the screen's state. They are bound to the search field and filter pills, which are presentation.
- `formatDate` depends on `DateFormatter` and the locale.
- These are presentation only and not modelled: `getSportColor`, `FilterPill`, the SwiftUI `body` layouts, `ContentView`, `ProfileView`, `FriendsView`, `AuthView` and `MapView`.
- Joining or leaving an event in the remote store, capacity-checked writes, sign-up and username uniqueness: the app has none of these. `toggleJoin` only flips a local flag, and that is modelled.
- Session.AuthManager.OnProfileSnapshot: the profile document's id comes from the snapshot. The model does not require it to equal the uid the listener watches, although Firestore delivers only that document.
- `refreshUserData` reads the authentication service's uid, not `isAuthenticated`. So it can register a profile listener while `isAuthenticated` is still false, before a pending state change arrives. For that reason "not authenticated implies no profile" is not part of the manager's invariant.
