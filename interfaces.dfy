/** The records exchanged between the Angular front end and the REST backend:
    a server, the response envelope, and the UI state projected from a request. */
module Interfaces {

  /** A value that may be absent (an optional property, or `null`). */
  datatype Option<+T> = None | Some(value: T)

  /** Status of a server; `ALL` is only ever used as a filter value. */
  datatype Status = ALL | SERVER_UP | SERVER_DOWN

  /** The string value of each status enum member, as it appears when a status
      is interpolated into a message. */
  function StatusName(status: Status): (name: string)
    ensures |name| > 0
  {
    match status
    case ALL => "ALL"
    case SERVER_UP => "SERVER_UP"
    case SERVER_DOWN => "SERVER_DOWN"
  }

  /** The three phases of a request as seen by the view. */
  datatype DataState = LOADING_STATE | LOADED_STATE | ERROR_STATE

  /** A server record; `serverType` is the field the record calls `type`. */
  datatype Server = Server(
    id: int,
    ipAddress: string,
    name: string,
    memory: string,
    serverType: string,
    imageUri: string,
    status: Status)

  /** The `data` part of an envelope: a list of servers, a single server, or both. */
  datatype ResponseData = ResponseData(servers: Option<seq<Server>>, server: Option<Server>)

  /** The envelope every backend endpoint answers with. The time stamp arrives as
      JSON text and is carried through unchanged. */
  datatype Response = Response(
    timeStamp: string,
    statusCode: int,
    httpStatus: string,
    reason: string,
    message: string,
    developerMessage: string,
    data: ResponseData)

  /** One state emitted to the view: the phase, and the payload or error text. */
  datatype AppState = AppState(dataState: DataState, appData: Option<Response>, error: Option<string>)

  /** The state emitted while the first list request is in flight. */
  function Loading(): (s: AppState)
    ensures WellFormed(s) && s.dataState == LOADING_STATE
  {
    AppState(LOADING_STATE, None, None)
  }

  /** A loaded state; the payload may be absent when no snapshot exists yet. */
  function Loaded(appData: Option<Response>): (s: AppState)
    ensures WellFormed(s) && s.dataState == LOADED_STATE && s.appData == appData
  {
    AppState(LOADED_STATE, appData, None)
  }

  /** The terminal state of a failed request. */
  function Failed(error: string): (s: AppState)
    ensures WellFormed(s) && s.dataState == ERROR_STATE && s.error == Some(error)
  {
    AppState(ERROR_STATE, None, Some(error))
  }

  /** Exactly the payload field that belongs to the phase is used: no payload while
      loading, no error text once loaded, an error text and no payload on failure. */
  predicate WellFormed(s: AppState)
  {
    match s.dataState
    case LOADING_STATE => s.appData.None? && s.error.None?
    case LOADED_STATE => s.error.None?
    case ERROR_STATE => s.appData.None? && s.error.Some?
  }
}
