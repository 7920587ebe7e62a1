/** libcal_requests.py: the LibCal client. It holds an OAuth token and
    collects the day's space bookings location by location, tolerating a
    location whose request fails. The configuration values are given to the
    constructor; the LibCal API is the scripted `wire`. */
module LibCal {
  import opened Py
  import opened Http

  /** What `fetch_token` makes of the token endpoint's answer: the
      `access_token` of a successful JSON reply without an `error` key. */
  function TokenFrom(x: Exchange): (r: Result<Json>)
    ensures x.Unreachable? ==> r == Err(ConnectionError)
    ensures x.Reply? && 400 <= x.response.status < 600 ==> r == Err(HTTPError(x.response.status))
    ensures x.Reply? && !(400 <= x.response.status < 600) && x.response.payload.None? ==> r == Err(JSONDecodeError)
    ensures SuccessPayload(x).Some? && Contains(SuccessPayload(x).value, "error") == Ok(true) ==>
      r.Err? && r.error.Raised?
    ensures r.Ok? <==>
      && SuccessPayload(x).Some?
      && var p := SuccessPayload(x).value;
         p.JObj? && "error" !in p.fields && "access_token" in p.fields
    ensures r.Ok? ==> r.value == SuccessPayload(x).value.fields["access_token"]
  {
    if x.Unreachable? then Err(ConnectionError)
    else
      var _ :- RaiseForStatus(x.response);
      var token :- DecodeJson(x.response);
      var failed :- Contains(token, "error");
      if failed then Err(Raised(JStr("Error returned by LibCal authentication API: " + PyStr(token))))
      else Get(token, "access_token")
  }

  /** `prepare_bookings_req`: the bearer header and the query parameters of
      one location's bookings request. */
  function BookingsReq(token: Json, location: Json): (r: Result<(map<string, Json>, map<string, Json>)>)
    ensures r.Ok? <==> location.JObj? && "id" in location.fields
    ensures !location.JObj? ==> r == Err(TypeError)
    ensures location.JObj? && "id" !in location.fields ==> r == Err(KeyError(JStr("id")))
    ensures r.Ok? ==> r.value.0 == map["Authorization" := JStr("Bearer " + PyStr(token))]
    ensures r.Ok? ==> r.value.1.Keys == {"limit", "lid", "formAnswers"}
    ensures r.Ok? ==> r.value.1["limit"] == JInt(100) && r.value.1["formAnswers"] == JInt(1)
    ensures r.Ok? ==> r.value.1["lid"] == location.fields["id"]
  {
    var lid :- Get(location, "id");
    Ok((map["Authorization" := JStr("Bearer " + PyStr(token))],
        map["limit" := JInt(100), "lid" := lid, "formAnswers" := JInt(1)]))
  }

  /** What `get_bookings` makes of the bookings endpoint's answer: the
      decoded JSON, unless the request failed or `'error' in` it holds (key
      presence for a dict, membership for a list, a substring for a string). */
  function BookingsFrom(x: Exchange): (r: Result<Json>)
    ensures r.Ok? <==> SuccessPayload(x).Some? && Contains(SuccessPayload(x).value, "error") == Ok(false)
    ensures r.Ok? ==> r.value == SuccessPayload(x).value
    ensures SuccessPayload(x).Some? && Contains(SuccessPayload(x).value, "error") == Ok(true) ==>
      r.Err? && r.error.Raised?
    ensures SuccessPayload(x).Some? && SuccessPayload(x).value.JList? ==>
      (r.Ok? <==> JStr("error") !in SuccessPayload(x).value.items)
  {
    if x.Unreachable? then Err(ConnectionError)
    else
      var _ :- RaiseForStatus(x.response);
      var bookings :- DecodeJson(x.response);
      var failed :- Contains(bookings, "error");
      if failed then Err(Raised(JStr("Error returned by LibCal bookings API: " + PyStr(bookings))))
      else Ok(bookings)
  }

  /** One step of `get_bookings`: build the request, send it, check the answer. */
  function GetBookingsStep(token: Json, endpt: string, location: Json, w: Wire): (r: (Result<Json>, Wire))
    ensures BookingsReq(token, location).Err? ==> r == (Err(BookingsReq(token, location).error), w)
    ensures BookingsReq(token, location).Ok? ==>
      var req := BookingsReq(token, location).value;
      var sent := Send(w, Request(GET, endpt, req.0, req.1));
      r == (BookingsFrom(sent.0), sent.1)
  {
    match BookingsReq(token, location)
    case Err(e) => (Err(e), w)
    case Ok((header, params)) =>
      var (x, w') := Send(w, Request(GET, endpt, header, params));
      (BookingsFrom(x), w')
  }

  /** What one location adds to the collected list: the items of its
      bookings (`list.extend` iterates whatever was returned). */
  function Contribution(got: Result<Json>): Result<seq<Json>> {
    match got
    case Ok(bookings) => Iterate(bookings)
    case Err(e) => Err(e)
  }

  /** `retrieve_bookings_by_location` over the locations from `locs` on: an
      exception from `get_bookings` or `extend` is caught and the loop goes
      on, but the handler itself reads `location["name"]`, and an exception
      there ends the whole collection. */
  function Collect(token: Json, endpt: string, locs: seq<Json>, w: Wire): (r: (Result<seq<Json>>, Wire))
    decreases |locs|
  {
    if locs == [] then (Ok([]), w)
    else
      var (got, w1) := GetBookingsStep(token, endpt, locs[0], w);
      var c := Contribution(got);
      var named := Get(locs[0], "name");
      if c.Err? && named.Err? then (Err(named.error), w1)
      else
        var (rest, w2) := Collect(token, endpt, locs[1..], w1);
        if rest.Err? then (rest, w2)
        else (Ok((if c.Ok? then c.value else []) + rest.value), w2)
  }

  /** `bookings` followed by the outcome of collecting the remaining locations. */
  function Prepend(bookings: seq<Json>, rest: (Result<seq<Json>>, Wire)): (Result<seq<Json>>, Wire) {
    if rest.0.Err? then rest else (Ok(bookings + rest.0.value), rest.1)
  }

  lemma PrependTwice(a: seq<Json>, b: seq<Json>, rest: (Result<seq<Json>>, Wire))
    ensures Prepend(a, Prepend(b, rest)) == Prepend(a + b, rest)
  {
    if rest.0.Ok? {
      assert a + (b + rest.0.value) == (a + b) + rest.0.value;
    }
  }

  /** The exchange the `i`-th request gets from `script`. */
  function ExchangeAt(script: seq<Exchange>, i: nat): Exchange {
    if i < |script| then script[i] else Unreachable
  }

  /** The successful lists among `cs`, concatenated in order. */
  function ConcatOk(cs: seq<Result<seq<Json>>>): seq<Json> {
    if cs == [] then [] else (if cs[0].Ok? then cs[0].value else []) + ConcatOk(cs[1..])
  }

  /** A location the configuration describes completely. */
  predicate WellFormedLocation(location: Json) {
    location.JObj? && "id" in location.fields && "name" in location.fields
  }

  /** With well-formed locations, each location sends one request and gets
      the next exchange of the script; the result is the concatenation, in
      location order, of the lists of the locations whose request succeeded.
      A failing location adds nothing and the rest are still asked. */
  lemma {:induction false} CollectConcat(token: Json, endpt: string, locs: seq<Json>, w: Wire)
    requires forall i :: 0 <= i < |locs| ==> WellFormedLocation(locs[i])
    ensures Collect(token, endpt, locs, w).0
         == Ok(ConcatOk(seq(|locs|, i requires 0 <= i < |locs| =>
                  Contribution(BookingsFrom(ExchangeAt(w.script, i))))))
    ensures |Collect(token, endpt, locs, w).1.sent| == |w.sent| + |locs|
    decreases |locs|
  {
    if locs != [] {
      var (got, w1) := GetBookingsStep(token, endpt, locs[0], w);
      assert got == BookingsFrom(ExchangeAt(w.script, 0));
      CollectConcat(token, endpt, locs[1..], w1);
      var cs := seq(|locs|, i requires 0 <= i < |locs| => Contribution(BookingsFrom(ExchangeAt(w.script, i))));
      var cs1 := seq(|locs| - 1, i requires 0 <= i < |locs| - 1 =>
                     Contribution(BookingsFrom(ExchangeAt(w1.script, i))));
      assert cs[1..] == cs1 by {
        forall i | 0 <= i < |locs| - 1 ensures cs[1..][i] == cs1[i] {
          assert ExchangeAt(w1.script, i) == ExchangeAt(w.script, i + 1);
        }
      }
    }
  }

  /** Every location answering with no bookings collects nothing. */
  lemma {:induction false} ConcatOkEmpty(cs: seq<Result<seq<Json>>>)
    requires forall i :: 0 <= i < |cs| ==> cs[i].Err? || cs[i].value == []
    ensures ConcatOk(cs) == []
  {
    if cs != [] {
      ConcatOkEmpty(cs[1..]);
    }
  }

  /** With every location answering an empty list, nothing is collected. */
  lemma CollectAllEmpty(token: Json, endpt: string, locs: seq<Json>, w: Wire)
    requires forall i :: 0 <= i < |locs| ==> WellFormedLocation(locs[i])
    requires forall i :: 0 <= i < |locs| ==> SuccessPayload(ExchangeAt(w.script, i)) == Some(JList([]))
    ensures Collect(token, endpt, locs, w).0 == Ok([])
  {
    CollectConcat(token, endpt, locs, w);
    var cs := seq(|locs|, i requires 0 <= i < |locs| => Contribution(BookingsFrom(ExchangeAt(w.script, i))));
    ConcatOkEmpty(cs);
  }

  /** `retrieve_bookings_by_location` as a value: the configured locations
      are iterated, then each one's bookings collected in turn. */
  function RetrieveSpec(token: Json, endpt: string, locations: Json, w: Wire): (Result<seq<Json>>, Wire) {
    match Iterate(locations)
    case Err(e) => (Err(e), w)
    case Ok(locs) => Collect(token, endpt, locs, w)
  }

  /** The LibCal client. */
  class LibCalRequests {
    const clientId: Json
    const clientSecret: Json
    const credentialsEndpt: string
    const bookingsEndpt: string
    const locations: Json
    var token: Json
    var wire: Wire

    /** `__init__` with the configuration already checked; the token is
        fetched afterwards with `FetchToken`. */
    constructor (clientId: Json, clientSecret: Json, credentialsEndpt: string, bookingsEndpt: string,
                 locations: Json, wire: Wire)
      ensures this.clientId == clientId && this.clientSecret == clientSecret
      ensures this.credentialsEndpt == credentialsEndpt && this.bookingsEndpt == bookingsEndpt
      ensures this.locations == locations && this.wire == wire && token == JNull
    {
      this.clientId := clientId;
      this.clientSecret := clientSecret;
      this.credentialsEndpt := credentialsEndpt;
      this.bookingsEndpt := bookingsEndpt;
      this.locations := locations;
      this.wire := wire;
      token := JNull;
    }

    /** The login request `fetch_token` sends. */
    function CredRequest(): Request
      reads this
    {
      Request(POST, credentialsEndpt, map[],
              map["client_id" := clientId, "client_secret" := clientSecret,
                  "grant_type" := JStr("client_credentials")])
    }

    /** `fetch_token`: stores the new token, or raises and keeps the old one. */
    method FetchToken() returns (r: Result<()>)
      modifies this`token, this`wire
      ensures wire == Send(old(wire), CredRequest()).1
      ensures var t := TokenFrom(Send(old(wire), CredRequest()).0);
        && (r.Ok? <==> t.Ok?)
        && (r.Err? ==> r.error == t.error)
        && token == if t.Ok? then t.value else old(token)
    {
      var (x, w) := Send(wire, CredRequest());
      wire := w;
      var t := TokenFrom(x);
      if t.Err? {
        return Err(t.error);
      }
      token := t.value;
      r := Ok(());
    }

    /** `prepare_bookings_req`. */
    function PrepareBookingsReq(location: Json): Result<(map<string, Json>, map<string, Json>)>
      reads this
    {
      BookingsReq(token, location)
    }

    /** `get_bookings`. */
    method GetBookings(location: Json) returns (r: Result<Json>)
      modifies this`wire
      ensures (r, wire) == GetBookingsStep(token, bookingsEndpt, location, old(wire))
    {
      var prepared := PrepareBookingsReq(location);
      if prepared.Err? {
        return Err(prepared.error);
      }
      var (header, params) := prepared.value;
      var (x, w) := Send(wire, Request(GET, bookingsEndpt, header, params));
      wire := w;
      r := BookingsFrom(x);
    }

    /** `retrieve_bookings_by_location`: the token and the locations are
        only read. */
    method RetrieveBookingsByLocation() returns (r: Result<seq<Json>>)
      modifies this`wire
      ensures token == old(token)
      ensures (r, wire) == RetrieveSpec(token, bookingsEndpt, locations, old(wire))
      ensures Iterate(locations).Err? ==> r == Err(Iterate(locations).error) && wire == old(wire)
      ensures Iterate(locations).Ok? ==>
        (r, wire) == Collect(token, bookingsEndpt, Iterate(locations).value, old(wire))
    {
      var iterated := Iterate(locations);
      if iterated.Err? {
        return Err(iterated.error);
      }
      var locs := iterated.value;
      var bookings: seq<Json> := [];
      var i := 0;
      assert locs[0..] == locs;
      assert Prepend([], Collect(token, bookingsEndpt, locs, wire)) == Collect(token, bookingsEndpt, locs, wire) by {
        var c := Collect(token, bookingsEndpt, locs, wire);
        if c.0.Ok? { assert [] + c.0.value == c.0.value; }
      }
      while i < |locs|
        invariant 0 <= i <= |locs|
        invariant token == old(token)
        invariant Collect(token, bookingsEndpt, locs, old(wire))
               == Prepend(bookings, Collect(token, bookingsEndpt, locs[i..], wire))
      {
        assert locs[i..][1..] == locs[i + 1..];
        ghost var before := wire;
        var location := locs[i];
        var booking := GetBookings(location);
        var added := Contribution(booking);
        ghost var c := if added.Ok? then added.value else [];
        assert Collect(token, bookingsEndpt, locs[i..], before) ==
          if added.Err? && Get(location, "name").Err? then (Err(Get(location, "name").error), wire)
          else Prepend(c, Collect(token, bookingsEndpt, locs[i + 1..], wire));
        PrependTwice(bookings, c, Collect(token, bookingsEndpt, locs[i + 1..], wire));
        if added.Err? {
          var name := Get(location, "name");
          if name.Err? {
            return Err(name.error);
          }
          assert bookings + c == bookings;
        } else {
          bookings := bookings + added.value;
        }
        i := i + 1;
      }
      assert locs[i..] == [];
      assert bookings + [] == bookings;
      r := Ok(bookings);
    }
  }
}
