# Server dashboard: snapshot and status filter

This project models the client-side state of an Angular dashboard that lists,
pings, creates and deletes servers through a REST backend. The model has two parts.

- **The root component** (`App.AppComponent`). It holds the last response
  envelope (the snapshot, initially `null`), the address of the server being
  pinged (`filter`) and a loading flag (`isLoading`). Each request has a start
  method and one method per outcome. The start method emits the stream's first
  state. The outcome methods update the snapshot, notify the user and emit the
  terminal LOADED or ERROR state. The outcomes are the `map` and `catchError`
  continuations of the source.
  - A ping overwrites the first entry with the returned server's id, in place,
    in the same array.
  - A save appends the returned server to a new list.
  - A delete keeps, in a new list, every entry with a different id.
- **The service's pure part** (`ServerService`). This is the local status filter
  applied to the snapshot, and the error text every failed request is reduced to:
  `"An Error occurred - Error Code "` followed by the HTTP status in decimal.

Supporting modules:
- `Interfaces`: the records (server, response envelope, view state) and the two enumerations.
- `Sequences`: `Array.prototype.filter` as a function with its guarantees: subsequence, multiplicities, idempotence.
- `Decimal`: how a status code is written into a template string, and how to read it back.

The component's `appState$` stream is modelled by two fields.
- `appState` holds the states the current stream has emitted.
- `pending` names the request the stream is waiting for. A delete also
  remembers the id it was called with, as the source's closure does.

Starting a request replaces the stream. The class invariant `Valid` says that a
stream holds one initial state while its request is in flight: LOADING while the
startup list is awaited, LOADED for every other request. Once the request
settles, the stream holds exactly two states: the initial one, then LOADED or ERROR.
Notifications are recorded as a list of (severity, message) pairs.

`App.DeleteThenSaveScenario` is a fixed scenario checked against the component's
contracts alone. Three servers are listed, server 2 is deleted and server 4 is
saved, and the list then holds servers 1, 3 and 4, in that order.

The delete failure path follows the code. It clears the ping address and
leaves `isLoading` set, so the loading indicator stays on. Every other failure
path resets the flag that its start method set.

## Model

| member | source | states |
|---|---|---|
| `Sequences.Filter` | app/src/app/service/server.service.ts:73-75 | `Array.prototype.filter`: the result is no longer than the input and every kept element satisfies the predicate |
| `Sequences.FilterIsSubsequence` | app/src/app/app.component.ts:182-184 | a filtered list keeps its elements in their original order (it is a subsequence of the input) |
| `Sequences.FilterCount` | app/src/app/service/server.service.ts:65-67 | every element satisfying the predicate keeps its multiplicity, every other element disappears |
| `Sequences.FilterMembership` | app/src/app/service/server.service.ts:73-75 | an element is in the result iff it is in the input and satisfies the predicate |
| `Sequences.FilterKeepsAll` | app/src/app/app.component.ts:182-184 | filtering a list whose elements all satisfy the predicate returns it unchanged |
| `Sequences.FilterIdempotent` | app/src/app/service/server.service.ts:73-75 | filtering twice by the same predicate equals filtering once |
| `Sequences.FilterEmpty` | app/src/app/service/server.service.ts:65-67 | the result is empty iff no element satisfies the predicate (the test that picks the message) |
| `Decimal.FromNat` | app/src/app/service/server.service.ts:86 | a status code interpolated into a template is a non-empty run of digits without a leading zero |
| `Decimal.RoundTrip` | app/src/app/service/server.service.ts:86 | reading the decimal text of a code gives the code back |
| `ServerService.Filter` | app/src/app/service/server.service.ts:53-81 | for `ALL`, the data is unchanged and the message is "Servers filtered by ALL Status"; otherwise the data holds only a servers list, every entry of which has the status. The list is empty iff no input server has the status, and the message is then "No Severs of <status> found". A non-empty result is labelled "Servers filtered by SERVER UP Status" for SERVER_UP and "Servers filtered by SEVER DOWN Status" for SERVER_DOWN. All other envelope fields are copied |
| `ServerService.FilterSelectsByStatus` | app/src/app/service/server.service.ts:72-76 | for a status other than `ALL`, the filtered list is the subsequence of the input list made of exactly the servers with that status, each with its multiplicity |
| `ServerService.FilterIdempotent` | app/src/app/service/server.service.ts:56-77 | filtering an already filtered response by the same status returns it unchanged |
| `ServerService.HandleError` | app/src/app/service/server.service.ts:83-88 | the error text is "An Error occurred - Error Code " followed by the canonical decimal digits of the status code, from which the code can be read back |
| `App.FirstIndexOf` | app/src/app/app.component.ts:69-71 | `findIndex` by id: -1 iff no entry has the id; otherwise an index holding the id with no earlier entry holding it |
| `App.Overwrite` | app/src/app/app.component.ts:67-72 | after a ping the list has the same length, the first entry with the server's id is the server, every other entry is unchanged; with no matching id the list is unchanged |
| `App.DeleteKeepsExactlyTheOthers` | app/src/app/app.component.ts:179-186 | a delete keeps exactly the entries with a different id, in their original order and with their multiplicities; no entry with the id remains; the ids become the old ids minus the deleted one; a list without the id is unchanged |
| `App.DeleteKeepsIdsDistinct` | app/src/app/app.component.ts:182-184 | a delete applied to a list with distinct ids leaves the ids distinct |
| `App.SaveAddsOneId` | app/src/app/app.component.ts:137-140 | appending a server whose id is new keeps the ids distinct and adds exactly that id |
| `App.PingKeepsIds` | app/src/app/app.component.ts:67-72 | a ping leaves the set of ids unchanged and keeps distinct ids distinct |
| `App.UpdatesKeepIdsExact` | app/src/app/app.component.ts:63-211 | after any run of successful pings, saves and deletes, starting from distinct ids and with every save bringing a fresh id, the ids stay distinct. They are exactly the starting ids plus the saved ones minus the deleted ones, in run order |
| `App.AppComponent.Snapshot` | app/src/app/app.component.ts:26 | the stored response is present iff one has been loaded, and its server list is the component's array |
| `App.AppComponent.constructor` | app/src/app/app.component.ts:26-30 | the snapshot starts `null`, the ping address empty, loading off, nothing emitted or notified |
| `App.AppComponent.IndexOfId` | app/src/app/app.component.ts:69-71 | the scan of the snapshot's array returns the first index with the id, or -1 |
| `App.AppComponent.OnInit` | app/src/app/app.component.ts:38-51 | startup: the stream starts with LOADING (no payload) and waits for the list; nothing else changes |
| `App.AppComponent.ListSucceeded` | app/src/app/app.component.ts:40-48 | the list response becomes the snapshot, its message is notified, and LOADED with that response is emitted |
| `App.AppComponent.ListFailed` | app/src/app/app.component.ts:52-59 | a failed list request notifies the error and emits one ERROR state carrying it; the snapshot and both flags are unchanged |
| `App.AppComponent.PingServer` | app/src/app/app.component.ts:63-85 | a ping sets the ping address to the ip address and starts the stream with LOADED and the current snapshot |
| `App.AppComponent.PingSucceeded` | app/src/app/app.component.ts:66-80 | the same array now holds `Overwrite(old list, server)`, or is unchanged when the response has no server and the list is empty; the rest of the snapshot is unchanged; the ping address is cleared; the message is notified; LOADED with the updated snapshot is emitted |
| `App.AppComponent.PingFailed` | app/src/app/app.component.ts:86-95 | a failed ping clears the ping address, notifies the error and emits one ERROR state; the snapshot is unchanged |
| `App.AppComponent.FilterServers` | app/src/app/app.component.ts:99-126 | filtering emits LOADED with the snapshot, then LOADED with `Filter(status, snapshot)`, and notifies the filtered message; the snapshot itself is not changed. Before the list has arrived, a status other than ALL emits LOADED with no payload, then ERROR with "An Error occurred - Error Code undefined", notifies that error and clears the ping address |
| `App.AppComponent.SaveServer` | app/src/app/app.component.ts:128-160 | a save sets loading and starts the stream with LOADED and the current snapshot |
| `App.AppComponent.SaveSucceeded` | app/src/app/app.component.ts:132-155 | the snapshot becomes the response's envelope whose data holds only `servers`: a fresh list, the old one with the returned server appended. Loading is cleared, the message is notified, and LOADED with the new snapshot is emitted |
| `App.AppComponent.SaveFailed` | app/src/app/app.component.ts:161-170 | a failed save clears loading, notifies the error and emits one ERROR state; the snapshot is unchanged |
| `App.AppComponent.DeleteServer` | app/src/app/app.component.ts:174-199 | a delete sets loading, remembers the id and starts the stream with LOADED and the current snapshot |
| `App.AppComponent.DeleteSucceeded` | app/src/app/app.component.ts:178-194 | the snapshot becomes the response's envelope whose data holds only `servers`: a fresh list, the old one without the remembered id. Loading is cleared, the message is notified, and LOADED with the new snapshot is emitted |
| `App.AppComponent.DeleteFailed` | app/src/app/app.component.ts:200-209 | a failed delete clears the ping address, leaves loading as it was, notifies the error and emits one ERROR state; the snapshot is unchanged |

## Left out

- HTTP requests, URLs and the backend are not modelled. This covers `servers$`, `save$`, `ping$`, `delete$`, the unused `getServers` and the whole Spring/JPA server. A request's outcome is the argument of its outcome method. The form value a save sends reaches only the request, so `SaveServer` takes no argument.
- RxJS scheduling is not modelled: subjects, `startWith`, subscription by the view, and responses that arrive after their stream was replaced. Only the stream that was started last can settle.
- Aliasing is not captured. In the source, the initial LOADED state of a ping, save or delete holds the snapshot object itself, and the list response is both stored and emitted. So a later in-place ping write shows through states that were already emitted. The model emits values, fixed when they are emitted.
- `App.AppComponent.PingSucceeded` requires a loaded snapshot. A ping success that arrives while the snapshot is still `null` throws a `TypeError` on `this.dataSubject.value.data`. RxJS routes it into the ping's `catchError` (app.component.ts:86-95) with the exception object, not a string, as the error. That error path is not modelled.
- `App.AppComponent.SaveSucceeded` requires a loaded snapshot. A save success while the snapshot is still `null` throws the same `TypeError`, which reaches the save's `catchError` (app.component.ts:161-170). That error path is not modelled.
- `App.AppComponent.DeleteSucceeded` requires a loaded snapshot. A delete success while the snapshot is still `null` throws the same `TypeError`, which reaches the delete's `catchError` (app.component.ts:200-209). That error path is not modelled.
- The start methods and every `*Failed` method are modelled without this requirement.
- `App.AppComponent.FilterServers` requires a loaded snapshot or a status other than `ALL`. A filter by `ALL` before the list has arrived does not throw: it emits LOADED with no payload, then LOADED with an envelope that holds only the message "Servers filtered by ALL Status", and notifies that message. The `Response` record cannot hold an envelope with its other fields missing, so that case is not modelled. A filter by another status before the list has arrived is modelled: its error continuation (app.component.ts:115-124) receives the text for a missing status.
- `App.AppComponent.ListSucceeded` requires the list response to carry `data.servers`. The list endpoint always sends it. Without it, a later ping, save or delete success, and a filter by a status other than ALL, would throw.
- `App.AppComponent.SaveSucceeded` requires the response to carry `data.server`. Without it, the source's save appends `undefined` to the list.
- `App.AppComponent.PingSucceeded` requires the response to carry `data.server` unless the list is empty. On a non-empty list, `findIndex`'s callback reads `response.data.server.id` and throws. On an empty list the callback never runs, and the ping succeeds with no element changed (modelled).
- JavaScript's write to index -1, when no id matches a ping, creates a property named "-1" on the array. No element and not the length changes, and that property is not modelled.
- UI and logging work is not modelled: `printServers`, the modal's close click, `resetForm`, `console.log` and `console.error`.
- The notification service is a log of (severity, message) pairs. Only `onDefault` and `onError` are called by the modelled code.
- The `Status` and `DataState` enumeration files are not part of this model. The members are those used in the code. Each `Status` value is assumed to be the string of its member's name ("ALL", "SERVER_UP", "SERVER_DOWN").
- `ServerService.HandleError` takes the HTTP status as a non-negative whole number. `HttpErrorResponse.status` is such a number (0 for a transport failure). The text an error without a status gives ("…Error Code undefined") is the separate constant `ServerService.UndefinedStatusError`. The filter is the only modelled place where it occurs.
- Server ids and status codes are unbounded integers in the model. In the source they are JavaScript numbers (doubles, exact only up to 2^53), and the backend's ids are Java `long`s. The `===` and `!==` id comparisons (app.component.ts:70, 183) are exact only below 2^53. Larger ids are not modelled.
- The response's `timeStamp` is carried as text, the form in which it arrives in JSON.
- The server record's `type` field is named `serverType`, because `type` is a Dafny keyword.
