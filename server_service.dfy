/** The pure part of the front end's server service: the local status filter
    applied to the last response, and the text every failed request collapses to. */
module ServerService {
  import opened Interfaces
  import Sequences
  import Decimal

  /** The predicate handed to `Array.prototype.filter` by the status filter. */
  function HasStatus(status: Status): Server -> bool
  {
    (server: Server) => server.status == status
  }

  /** The servers of a list whose status is `status`, in their original order. */
  function KeepStatus(servers: seq<Server>, status: Status): seq<Server>
  {
    Sequences.Filter(servers, HasStatus(status))
  }

  /** Message for a filter that kept at least one server; `wording` is the status as the message spells it. */
  function FilteredBy(wording: string): string
  {
    "Servers filtered by " + wording + " Status"
  }

  /** Message for a filter that kept nothing (the message's spelling "Severs" is the program's own). */
  function NoneFound(status: Status): string
  {
    "No Severs of " + StatusName(status) + " found"
  }

  /** The status filter: for `ALL` the response comes back with a new message only;
      otherwise its data becomes the matching servers alone, and the message tells
      whether anything matched. Every other envelope field is copied unchanged. */
  function Filter(status: Status, response: Response): (r: Response)
    requires status == ALL || response.data.servers.Some?
    ensures r.(message := response.message, data := response.data) == response
    ensures status == ALL ==> r.data == response.data && r.message == FilteredBy("ALL")
    ensures status != ALL ==> r.data.server.None? && r.data.servers.Some?
    ensures status != ALL ==> forall i :: 0 <= i < |r.data.servers.value| ==> r.data.servers.value[i].status == status
    ensures status != ALL ==>
      (r.data.servers.value == [] <==> forall i :: 0 <= i < |response.data.servers.value| ==> response.data.servers.value[i].status != status)
    ensures status != ALL && r.data.servers.value == [] ==> r.message == NoneFound(status)
    ensures status == SERVER_UP && r.data.servers.value != [] ==> r.message == FilteredBy("SERVER UP")
    ensures status == SERVER_DOWN && r.data.servers.value != [] ==> r.message == FilteredBy("SEVER DOWN")
  {
    if status == ALL then
      response.(message := FilteredBy(StatusName(status)))
    else
      var kept := KeepStatus(response.data.servers.value, status);
      Sequences.FilterEmpty(response.data.servers.value, HasStatus(status));
      response.(
        message := if |kept| > 0 then FilteredBy(if status == SERVER_UP then "SERVER UP" else "SEVER DOWN")
                   else NoneFound(status),
        data := ResponseData(Some(kept), None))
  }

  /** For a status other than `ALL`, the filtered list is exactly the subsequence of
      the input's servers whose status matches: each matching server keeps its
      multiplicity and every other server is dropped. */
  lemma {:induction false} FilterSelectsByStatus(status: Status, response: Response)
    requires status != ALL && response.data.servers.Some?
    ensures Filter(status, response).data.servers == Some(KeepStatus(response.data.servers.value, status))
    ensures Sequences.IsSubsequence(Filter(status, response).data.servers.value, response.data.servers.value)
    ensures forall x: Server ::
              multiset(Filter(status, response).data.servers.value)[x] ==
              (if x.status == status then multiset(response.data.servers.value)[x] else 0)
  {
    var s := response.data.servers.value;
    Sequences.FilterIsSubsequence(s, HasStatus(status));
    forall x: Server
      ensures multiset(KeepStatus(s, status))[x] == if x.status == status then multiset(s)[x] else 0
    {
      Sequences.FilterCount(s, HasStatus(status), x);
    }
  }

  /** Filtering an already filtered response by the same status changes nothing. */
  lemma {:induction false} FilterIdempotent(status: Status, response: Response)
    requires status == ALL || response.data.servers.Some?
    ensures Filter(status, Filter(status, response)) == Filter(status, response)
  {
    if status != ALL {
      Sequences.FilterIdempotent(response.data.servers.value, HasStatus(status));
    }
  }

  /** The prefix of every error text. */
  const ErrorPrefix := "An Error occurred - Error Code "

  /** The text the same error handler builds for an error that carries no HTTP
      status, such as a `TypeError` raised inside the filter: the missing status
      is interpolated as "undefined". */
  const UndefinedStatusError := ErrorPrefix + "undefined"

  /** The text a failed request is reported with: the fixed prefix followed by the
      HTTP status code in decimal, so the code can be read back from the text. */
  function HandleError(statusCode: nat): (message: string)
    ensures |message| > |ErrorPrefix| && message[..|ErrorPrefix|] == ErrorPrefix
    ensures Decimal.AllDigits(message[|ErrorPrefix|..])
    ensures |message| > |ErrorPrefix| + 1 ==> message[|ErrorPrefix|] != '0'
    ensures Decimal.ToNat(message[|ErrorPrefix|..]) == statusCode
  {
    Decimal.RoundTrip(statusCode);
    var digits := Decimal.FromNat(statusCode);
    assert (ErrorPrefix + digits)[|ErrorPrefix|..] == digits;
    ErrorPrefix + digits
  }
}
