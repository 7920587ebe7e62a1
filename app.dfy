/** app.py: the orchestrator `LibCal2PP`. One run retrieves the LibCal
    bookings, drops those already in the appointment cache, finds each
    patron's PassagePoint visitor id (from the user cache, or by fetching the
    barcode from Alma and creating the visitor), creates a PassagePoint
    pre-registration per booking and stores the new appointments in the
    cache. app.py holds unresolved merge markers around its imports (lines
    4-7); the HEAD side, which imports `PassagePointRequests`, is taken. */
module App {
  import opened Py
  import opened Http
  import opened Utils
  import opened SqliteCache
  import opened Alma
  import opened LibCal
  import opened PassagePoint

  // ---- dicts the orchestrator builds ----

  /** A dict built by the orchestrator: its items in insertion order. */
  type Dict<V> = seq<(Json, V)>

  function Keys<V>(d: Dict<V>): (r: seq<Json>)
    ensures |r| == |d| && forall i :: 0 <= i < |d| ==> r[i] == d[i].0
  {
    seq(|d|, i requires 0 <= i < |d| => d[i].0)
  }

  /** No element of `xs` appears twice. */
  predicate Distinct(xs: seq<Json>) {
    forall i, j :: 0 <= i < j < |xs| ==> xs[i] != xs[j]
  }

  function Values<V>(d: Dict<V>): (r: seq<V>)
    ensures |r| == |d| && forall i :: 0 <= i < |d| ==> r[i] == d[i].1
  {
    seq(|d|, i requires 0 <= i < |d| => d[i].1)
  }

  /** `d.get(k)` once `k` has been hashed: the value of the item whose key is `k`. */
  function Lookup<V>(d: Dict<V>, k: Json): (r: Option<V>)
    ensures r.Some? <==> k in Keys(d)
    ensures r.Some? ==> (k, r.value) in d
  {
    if d == [] then None
    else if d[0].0 == k then Some(d[0].1)
    else
      assert Keys(d) == [d[0].0] + Keys(d[1..]);
      Lookup(d[1..], k)
  }

  /** `d[k] = v`: an existing item keeps its place, a new one goes last. */
  function Assign<V>(d: Dict<V>, k: Json, v: V): (r: Dict<V>)
    ensures Lookup(r, k) == Some(v)
    ensures forall k' :: k' != k ==> Lookup(r, k') == Lookup(d, k')
    ensures forall p :: p in r ==> p in d || p == (k, v)
  {
    if d == [] then [(k, v)]
    else if d[0].0 == k then
      assert ([(k, v)] + d[1..])[1..] == d[1..];
      [(k, v)] + d[1..]
    else
      var rest := Assign(d[1..], k, v);
      assert ([d[0]] + rest)[1..] == rest;
      [d[0]] + rest
  }

  lemma KeysConcat<V>(a: Dict<V>, b: Dict<V>)
    ensures Keys(a + b) == Keys(a) + Keys(b)
  {
  }

  /** Assigning keeps the order of the keys and appends a new one. */
  lemma AssignKeys<V>(d: Dict<V>, k: Json, v: V)
    ensures Lookup(d, k).Some? ==> Keys(Assign(d, k, v)) == Keys(d)
    ensures Lookup(d, k).None? ==> Keys(Assign(d, k, v)) == Keys(d) + [k]
  {
    if Lookup(d, k).Some? {
      AssignKeysPresent(d, k, v);
    } else {
      AssignKeysAbsent(d, k, v);
    }
  }

  lemma {:induction false} AssignKeysPresent<V>(d: Dict<V>, k: Json, v: V)
    requires k in Keys(d)
    ensures Keys(Assign(d, k, v)) == Keys(d)
    decreases |d|
  {
    var tail := d[1..];
    assert d == [d[0]] + tail;
    KeysCons(d[0], tail);
    if d[0].0 == k {
      assert Assign(d, k, v) == [(k, v)] + tail;
      KeysCons((k, v), tail);
    } else {
      var rest := Assign(tail, k, v);
      assert Assign(d, k, v) == [d[0]] + rest;
      AssignKeysPresent(tail, k, v);
      KeysCons(d[0], rest);
    }
  }

  lemma {:induction false} AssignKeysAbsent<V>(d: Dict<V>, k: Json, v: V)
    requires k !in Keys(d)
    ensures Keys(Assign(d, k, v)) == Keys(d) + [k]
    decreases |d|
  {
    if d != [] {
      var tail := d[1..];
      assert d == [d[0]] + tail;
      KeysCons(d[0], tail);
      assert d[0].0 != k;
      var rest := Assign(tail, k, v);
      assert Assign(d, k, v) == [d[0]] + rest;
      AssignKeysAbsent(tail, k, v);
      KeysCons(d[0], rest);
      ConcatAssoc([d[0].0], Keys(tail), [k]);
    }
  }

  lemma ConcatAssoc<T>(a: seq<T>, b: seq<T>, c: seq<T>)
    ensures a + (b + c) == (a + b) + c
  {
  }

  lemma KeysCons<V>(p: (Json, V), d: Dict<V>)
    ensures Keys([p] + d) == [p.0] + Keys(d)
  {
  }

  // ---- the appointment cache gate (app.py:50) ----

  /** `appt_lookup(booking['bookId'])` finds a stored appointment. */
  predicate Booked(appts: Option<Table<ApptRow>>, b: Json) {
    Get(b, "bookId").Ok? && Select(appts, "appt_id", Get(b, "bookId").value).Ok?
    && Select(appts, "appt_id", Get(b, "bookId").value).value.Some?
  }

  /** The test of a booking can be evaluated without raising. */
  predicate Checkable(appts: Option<Table<ApptRow>>, b: Json) {
    Get(b, "bookId").Ok? && Select(appts, "appt_id", Get(b, "bookId").value).Ok?
  }

  function Unbooked(appts: Option<Table<ApptRow>>): Json -> bool {
    b => !Booked(appts, b)
  }

  /** `new_bookings`: the bookings whose `bookId` has no cached appointment,
      in order; the first booking whose test raises ends the run. */
  function FilterNew(appts: Option<Table<ApptRow>>, bookings: seq<Json>): Result<seq<Json>>
    decreases |bookings|
  {
    if bookings == [] then Ok([])
    else
      var id :- Get(bookings[0], "bookId");
      var found :- Select(appts, "appt_id", id);
      var rest :- FilterNew(appts, bookings[1..]);
      Ok(if found.None? then [bookings[0]] + rest else rest)
  }

  /** `kept` followed by the outcome for the remaining bookings. */
  function Joined(kept: seq<Json>, rest: Result<seq<Json>>): Result<seq<Json>> {
    if rest.Err? then rest else Ok(kept + rest.value)
  }

  lemma JoinedNothing(rest: Result<seq<Json>>)
    ensures Joined([], rest) == rest && (rest.Ok? ==> Joined(rest.value, Ok([])) == rest)
  {
    if rest.Ok? {
      assert [] + rest.value == rest.value + [] == rest.value;
    }
  }

  lemma JoinedTwice(a: seq<Json>, b: seq<Json>, rest: Result<seq<Json>>)
    ensures Joined(a, Joined(b, rest)) == Joined(a + b, rest)
  {
    if rest.Ok? {
      assert a + (b + rest.value) == (a + b) + rest.value;
    }
  }

  /** The gate: the run goes on exactly when every booking can be tested,
      and then keeps, in order, exactly the bookings with no cached
      appointment. */
  lemma {:induction false} FilterNewGate(appts: Option<Table<ApptRow>>, bookings: seq<Json>)
    ensures FilterNew(appts, bookings).Ok? <==> forall i :: 0 <= i < |bookings| ==> Checkable(appts, bookings[i])
    ensures FilterNew(appts, bookings).Ok? ==> FilterNew(appts, bookings).value == Filter(Unbooked(appts), bookings)
    decreases |bookings|
  {
    if bookings != [] {
      FilterNewGate(appts, bookings[1..]);
      assert forall i :: 1 <= i < |bookings| ==> bookings[1..][i - 1] == bookings[i];
      if forall i :: 0 <= i < |bookings[1..]| ==> Checkable(appts, bookings[1..][i]) {
        assert forall i :: 1 <= i < |bookings| ==> Checkable(appts, bookings[i]);
      }
    }
  }

  // ---- the first loop of process_users (app.py:88-106) ----

  /** `users`, `new_users`, and the ids the user cache was asked about, in order. */
  datatype Scan = Scan(users: Dict<Json>, newUsers: Dict<map<string, Json>>, looked: seq<Json>)

  /** What `new_users` records for a patron not in the cache. */
  function Names(b: Json): (r: Result<map<string, Json>>)
    ensures r.Ok? ==> r.value.Keys == {"firstName", "lastName"}
  {
    var first :- Get(b, "firstName");
    var last :- Get(b, "lastName");
    Ok(map["firstName" := first, "lastName" := last])
  }

  /** One booking: a patron seen before is skipped; otherwise the cache is
      asked, a failed lookup is logged and skipped, a miss records the names
      and a hit records the cached visitor id. */
  function ScanStep(t: Option<Table<UserRow>>, acc: Scan, b: Json): Result<Scan> {
    var pid :- Get(b, "primary_id");
    if !Hashable(pid) then Err(TypeError)
    else if pid in Keys(acc.users) || pid in Keys(acc.newUsers) then Ok(acc)
    else
      var looked := acc.looked + [pid];
      match Select(t, "primary_id", pid)
      case Err(_) => Ok(acc.(looked := looked))
      case Ok(None) =>
        var names :- Names(b);
        Ok(acc.(newUsers := Assign(acc.newUsers, pid, names), looked := looked))
      case Ok(Some(row)) => Ok(acc.(users := Assign(acc.users, pid, row.visitorId), looked := looked))
  }

  function ScanSpec(t: Option<Table<UserRow>>, bookings: seq<Json>): Result<Scan>
    decreases |bookings|
  {
    if bookings == [] then Ok(Scan([], [], []))
    else
      var acc :- ScanSpec(t, bookings[..|bookings| - 1]);
      ScanStep(t, acc, bookings[|bookings| - 1])
  }

  /** `bookings[i]` is the first booking of patron `k`. */
  ghost predicate FirstFor(bookings: seq<Json>, i: int, k: Json) {
    && 0 <= i < |bookings| && Get(bookings[i], "primary_id") == Ok(k)
    && forall j :: 0 <= j < i ==> Get(bookings[j], "primary_id") != Ok(k)
  }

  /** Every patron recorded as a hit has the cached visitor id. */
  ghost predicate UsersCached(t: Option<Table<UserRow>>, users: Dict<Json>) {
    forall k :: Lookup(users, k).Some? ==>
      && Select(t, "primary_id", k).Ok? && Select(t, "primary_id", k).value.Some?
      && Lookup(users, k).value == Select(t, "primary_id", k).value.value.visitorId
  }

  /** Every patron recorded as a miss is not cached and has the names of
      their first booking. */
  ghost predicate NewUsersFirst(t: Option<Table<UserRow>>, bs: seq<Json>, newUsers: Dict<map<string, Json>>) {
    forall k :: Lookup(newUsers, k).Some? ==>
      && Select(t, "primary_id", k) == Ok(None)
      && exists i :: FirstFor(bs, i, k) && Names(bs[i]) == Ok(Lookup(newUsers, k).value)
  }

  /** The patrons recorded are those looked up whose lookup did not raise. */
  ghost predicate LookedRecorded(t: Option<Table<UserRow>>, s: Scan) {
    forall k :: (Lookup(s.users, k).Some? || Lookup(s.newUsers, k).Some?) <==>
                (k in s.looked && Select(t, "primary_id", k).Ok?)
  }

  /** Only a patron whose lookup raises is looked up twice. */
  ghost predicate LookedOnce(t: Option<Table<UserRow>>, looked: seq<Json>) {
    forall i, j :: 0 <= i < j < |looked| && looked[i] == looked[j] ==>
                   Select(t, "primary_id", looked[i]).Err?
  }

  /** What the first loop keeps true of the bookings scanned so far. */
  ghost predicate ScanInv(t: Option<Table<UserRow>>, bs: seq<Json>, s: Scan) {
    && UsersCached(t, s.users)
    && NewUsersFirst(t, bs, s.newUsers)
    && LookedRecorded(t, s)
    && LookedOnce(t, s.looked)
    && (forall i :: 0 <= i < |bs| ==> Get(bs[i], "primary_id").Ok? && Get(bs[i], "primary_id").value in s.looked)
  }

  /** The earlier witnesses of first bookings remain witnesses once a booking is appended. */
  lemma FirstForExtend(bs: seq<Json>, b: Json, newUsers: Dict<map<string, Json>>)
    requires forall k :: Lookup(newUsers, k).Some? ==>
               exists i :: FirstFor(bs, i, k) && Names(bs[i]) == Ok(Lookup(newUsers, k).value)
    ensures forall k :: Lookup(newUsers, k).Some? ==>
               exists i :: FirstFor(bs + [b], i, k) && Names((bs + [b])[i]) == Ok(Lookup(newUsers, k).value)
  {
    forall k | Lookup(newUsers, k).Some?
      ensures exists i :: FirstFor(bs + [b], i, k) && Names((bs + [b])[i]) == Ok(Lookup(newUsers, k).value)
    {
      var i :| FirstFor(bs, i, k) && Names(bs[i]) == Ok(Lookup(newUsers, k).value);
      assert forall j :: 0 <= j <= i ==> (bs + [b])[j] == bs[j];
      assert FirstFor(bs + [b], i, k);
    }
  }

  /** A patron seen before leaves the scan as it was. */
  lemma ScanStepSeen(t: Option<Table<UserRow>>, bs: seq<Json>, b: Json, acc: Scan)
    requires ScanInv(t, bs, acc) && ScanStep(t, acc, b).Ok?
    requires Get(b, "primary_id").value in Keys(acc.users) || Get(b, "primary_id").value in Keys(acc.newUsers)
    ensures ScanInv(t, bs + [b], ScanStep(t, acc, b).value)
  {
    var pid := Get(b, "primary_id").value;
    assert ScanStep(t, acc, b).value == acc;
    FirstForExtend(bs, b, acc.newUsers);
    assert pid in acc.looked;
    assert forall i :: 0 <= i < |bs| ==> (bs + [b])[i] == bs[i];
  }

  /** A lookup that raises is only recorded as asked. */
  lemma ScanStepFailed(t: Option<Table<UserRow>>, bs: seq<Json>, b: Json, acc: Scan)
    requires ScanInv(t, bs, acc) && ScanStep(t, acc, b).Ok?
    requires Get(b, "primary_id").value !in Keys(acc.users) && Get(b, "primary_id").value !in Keys(acc.newUsers)
    requires Select(t, "primary_id", Get(b, "primary_id").value).Err?
    ensures ScanInv(t, bs + [b], ScanStep(t, acc, b).value)
  {
    var pid := Get(b, "primary_id").value;
    var s := ScanStep(t, acc, b).value;
    assert s == acc.(looked := acc.looked + [pid]);
    FirstForExtend(bs, b, acc.newUsers);
    assert forall i :: 0 <= i < |bs| ==> (bs + [b])[i] == bs[i];
  }

  /** A miss records the names of the booking at hand, the patron's first. */
  lemma ScanStepMiss(t: Option<Table<UserRow>>, bs: seq<Json>, b: Json, acc: Scan)
    requires ScanInv(t, bs, acc) && ScanStep(t, acc, b).Ok?
    requires Get(b, "primary_id").value !in Keys(acc.users) && Get(b, "primary_id").value !in Keys(acc.newUsers)
    requires Select(t, "primary_id", Get(b, "primary_id").value) == Ok(None)
    ensures ScanInv(t, bs + [b], ScanStep(t, acc, b).value)
  {
    var bs' := bs + [b];
    var pid := Get(b, "primary_id").value;
    ScanStepMissValue(t, acc, b);
    assert forall i :: 0 <= i < |bs| ==> bs'[i] == bs[i];
    NotLookedBefore(t, bs, acc, pid);
    NewUsersMiss(t, bs, b, acc.newUsers, pid, Names(b).value);
    LookedMiss(t, acc, pid, Names(b).value);
  }

  /** A patron not recorded whose lookup does not raise was not looked up
      before, so no booking scanned so far is theirs. */
  lemma NotLookedBefore(t: Option<Table<UserRow>>, bs: seq<Json>, acc: Scan, pid: Json)
    requires LookedRecorded(t, acc)
    requires forall i :: 0 <= i < |bs| ==> Get(bs[i], "primary_id").Ok? && Get(bs[i], "primary_id").value in acc.looked
    requires pid !in Keys(acc.users) && pid !in Keys(acc.newUsers) && Select(t, "primary_id", pid).Ok?
    ensures pid !in acc.looked
    ensures forall j :: 0 <= j < |bs| ==> Get(bs[j], "primary_id") != Ok(pid)
  {
    assert Lookup(acc.users, pid).None? && Lookup(acc.newUsers, pid).None?;
  }

  /** A miss adds the patron's names and records the lookup. */
  lemma ScanStepMissValue(t: Option<Table<UserRow>>, acc: Scan, b: Json)
    requires ScanStep(t, acc, b).Ok?
    requires Get(b, "primary_id").value !in Keys(acc.users) && Get(b, "primary_id").value !in Keys(acc.newUsers)
    requires Select(t, "primary_id", Get(b, "primary_id").value) == Ok(None)
    ensures var pid := Get(b, "primary_id").value;
      ScanStep(t, acc, b).value
      == acc.(newUsers := Assign(acc.newUsers, pid, Names(b).value), looked := acc.looked + [pid])
  {
  }

  /** After a miss, the earlier patrons keep their first bookings and the
      patron at hand has the booking at hand as first. */
  lemma NewUsersMiss(t: Option<Table<UserRow>>, bs: seq<Json>, b: Json, newUsers: Dict<map<string, Json>>,
                     pid: Json, names: map<string, Json>)
    requires Get(b, "primary_id") == Ok(pid) && Names(b) == Ok(names)
    requires Select(t, "primary_id", pid) == Ok(None)
    requires forall j :: 0 <= j < |bs| ==> Get(bs[j], "primary_id") != Ok(pid)
    requires NewUsersFirst(t, bs, newUsers)
    ensures NewUsersFirst(t, bs + [b], Assign(newUsers, pid, names))
  {
    var bs' := bs + [b];
    FirstForExtend(bs, b, newUsers);
    assert forall j :: 0 <= j < |bs| ==> bs'[j] == bs[j];
    assert FirstFor(bs', |bs|, pid) && Names(bs'[|bs|]) == Ok(names);
  }

  /** A miss on a patron not looked up before keeps the record of lookups exact. */
  lemma LookedMiss(t: Option<Table<UserRow>>, acc: Scan, pid: Json, names: map<string, Json>)
    requires LookedRecorded(t, acc) && LookedOnce(t, acc.looked)
    requires pid !in acc.looked && Select(t, "primary_id", pid) == Ok(None)
    ensures var s := acc.(newUsers := Assign(acc.newUsers, pid, names), looked := acc.looked + [pid]);
      LookedRecorded(t, s) && LookedOnce(t, s.looked)
  {
    var looked := acc.looked + [pid];
    assert forall i :: 0 <= i < |acc.looked| ==> looked[i] == acc.looked[i];
  }

  /** A hit records the cached visitor id. */
  lemma ScanStepHit(t: Option<Table<UserRow>>, bs: seq<Json>, b: Json, acc: Scan)
    requires ScanInv(t, bs, acc) && ScanStep(t, acc, b).Ok?
    requires Get(b, "primary_id").value !in Keys(acc.users) && Get(b, "primary_id").value !in Keys(acc.newUsers)
    requires Select(t, "primary_id", Get(b, "primary_id").value).Ok?
    requires Select(t, "primary_id", Get(b, "primary_id").value).value.Some?
    ensures ScanInv(t, bs + [b], ScanStep(t, acc, b).value)
  {
    var pid := Get(b, "primary_id").value;
    var s := ScanStep(t, acc, b).value;
    var row := Select(t, "primary_id", pid).value.value;
    assert s == acc.(users := Assign(acc.users, pid, row.visitorId), looked := acc.looked + [pid]);
    assert forall i :: 0 <= i < |bs| ==> (bs + [b])[i] == bs[i];
    assert pid !in acc.looked;
    FirstForExtend(bs, b, acc.newUsers);
  }

  lemma ScanStepInv(t: Option<Table<UserRow>>, bs: seq<Json>, b: Json, acc: Scan)
    requires ScanInv(t, bs, acc) && ScanStep(t, acc, b).Ok?
    ensures ScanInv(t, bs + [b], ScanStep(t, acc, b).value)
  {
    var pid := Get(b, "primary_id").value;
    if pid in Keys(acc.users) || pid in Keys(acc.newUsers) {
      ScanStepSeen(t, bs, b, acc);
    } else if Select(t, "primary_id", pid).Err? {
      ScanStepFailed(t, bs, b, acc);
    } else if Select(t, "primary_id", pid).value.None? {
      ScanStepMiss(t, bs, b, acc);
    } else {
      ScanStepHit(t, bs, b, acc);
    }
  }

  lemma {:induction false} ScanInvariant(t: Option<Table<UserRow>>, bs: seq<Json>)
    requires ScanSpec(t, bs).Ok?
    ensures ScanInv(t, bs, ScanSpec(t, bs).value)
    decreases |bs|
  {
    if bs != [] {
      var init, last := bs[..|bs| - 1], bs[|bs| - 1];
      assert bs == init + [last];
      ScanInvariant(t, init);
      var acc := ScanSpec(t, init).value;
      assert ScanSpec(t, bs) == ScanStep(t, acc, last);
      ScanStepInv(t, init, last, acc);
    }
  }

  /** The user cache is asked about every booking's patron, and asked again
      about a patron only while its earlier lookups raised; a patron whose
      lookup succeeded ends in `users` or in `new_users`. */
  lemma ScanLookups(t: Option<Table<UserRow>>, bs: seq<Json>)
    requires ScanSpec(t, bs).Ok?
    ensures var s := ScanSpec(t, bs).value;
      && (forall i :: 0 <= i < |bs| ==> Get(bs[i], "primary_id").Ok? && Get(bs[i], "primary_id").value in s.looked)
      && (forall i, j :: 0 <= i < j < |s.looked| && s.looked[i] == s.looked[j] ==>
                         Select(t, "primary_id", s.looked[i]).Err?)
      && (forall k :: (k in Keys(s.users) || k in Keys(s.newUsers)) <==>
                      (k in s.looked && Select(t, "primary_id", k).Ok?))
  {
    ScanInvariant(t, bs);
  }

  /** A cache hit records the cached visitor id; a miss records the names
      on the patron's first booking. */
  lemma ScanEntries(t: Option<Table<UserRow>>, bs: seq<Json>, k: Json)
    requires ScanSpec(t, bs).Ok?
    ensures var s := ScanSpec(t, bs).value;
      && (Lookup(s.users, k).Some? ==>
            && Select(t, "primary_id", k).Ok? && Select(t, "primary_id", k).value.Some?
            && Lookup(s.users, k).value == Select(t, "primary_id", k).value.value.visitorId)
      && (Lookup(s.newUsers, k).Some? ==>
            && Select(t, "primary_id", k) == Ok(None)
            && exists i :: FirstFor(bs, i, k) && Names(bs[i]) == Ok(Lookup(s.newUsers, k).value))
  {
    ScanInvariant(t, bs);
  }

  /** A failure on a prefix of the bookings ends the scan with that failure. */
  lemma {:induction false} ScanPrefixFails(t: Option<Table<UserRow>>, bs: seq<Json>, n: int)
    requires 0 <= n <= |bs| && ScanSpec(t, bs[..n]).Err?
    ensures ScanSpec(t, bs) == ScanSpec(t, bs[..n])
    decreases |bs|
  {
    if n < |bs| {
      var init := bs[..|bs| - 1];
      assert init[..n] == bs[..n];
      ScanPrefixFails(t, init, n);
    } else {
      assert bs[..n] == bs;
    }
  }

  // ---- register_new_users (app.py:120-144) ----

  /** The `primary_id`s of the results that are records, in order. */
  function RecordPids(results: seq<Json>): (r: seq<Json>)
    ensures forall x :: x in r <==>
      exists i :: 0 <= i < |results| && IsRecord(results[i]) && Get(results[i], "primary_id") == Ok(x)
    decreases |results|
  {
    if results == [] then []
    else
      var rest := RecordPids(results[1..]);
      assert forall i :: 1 <= i < |results| ==> results[1..][i - 1] == results[i];
      (if IsRecord(results[0]) && Get(results[0], "primary_id").Ok? then [Get(results[0], "primary_id").value]
       else []) + rest
  }

  /** The position of the first occurrence of `x` in `xs`. */
  function FirstIndex(xs: seq<Json>, x: Json): (r: nat)
    requires x in xs
    ensures r < |xs| && xs[r] == x
    ensures forall j :: 0 <= j < r ==> xs[j] != x
  {
    if xs[0] == x then 0
    else
      assert forall j :: 1 <= j < |xs| ==> xs[j] == xs[1..][j - 1];
      1 + FirstIndex(xs[1..], x)
  }

  /** An element keeps its first position when something is appended. */
  lemma FirstIndexAppend(xs: seq<Json>, y: Json, x: Json)
    requires x in xs
    ensures FirstIndex(xs + [y], x) == FirstIndex(xs, x)
  {
    var k := FirstIndex(xs, x);
    assert (xs + [y])[k] == x;
  }

  /** The elements of `xs`, each where it first appears: listed once, in
      the order of their first occurrences. */
  function Dedup(xs: seq<Json>): (r: seq<Json>)
    ensures forall x :: x in r <==> x in xs
    ensures Distinct(r)
    ensures forall i, j :: 0 <= i < j < |r| ==> FirstIndex(xs, r[i]) < FirstIndex(xs, r[j])
    decreases |xs|
  {
    if xs == [] then []
    else
      var init, last := xs[..|xs| - 1], xs[|xs| - 1];
      var d := Dedup(init);
      assert xs == init + [last];
      forall x | x in d
        ensures FirstIndex(xs, x) == FirstIndex(init, x) < |init|
      {
        FirstIndexAppend(init, last, x);
      }
      if last in d then d
      else
        assert forall i :: 0 <= i < |d| ==> d[i] in d;
        d + [last]
  }

  /** The items of `m`, in the order `order` lists their keys. */
  function Items(m: map<Json, Json>, order: seq<Json>): (r: Dict<Json>)
    ensures forall p :: p in r ==> p.0 in m && p.1 == m[p.0]
    ensures forall k :: k in Keys(r) <==> k in m && k in order
    decreases |order|
  {
    if order == [] then []
    else
      var head: Dict<Json> := if order[0] in m then [(order[0], m[order[0]])] else [];
      var rest := Items(m, order[1..]);
      KeysConcat(head, rest);
      assert forall k :: k in order <==> k == order[0] || k in order[1..];
      head + rest
  }

  /** Listed along an order without repeats, no key appears twice. */
  lemma {:induction false} ItemsDistinct(m: map<Json, Json>, order: seq<Json>)
    requires Distinct(order)
    ensures Distinct(Keys(Items(m, order)))
    decreases |order|
  {
    if order != [] {
      var tail := order[1..];
      assert forall i :: 0 <= i < |tail| ==> tail[i] == order[i + 1];
      ItemsDistinct(m, tail);
      var rest := Items(m, tail);
      assert order[0] !in Keys(rest);
      if order[0] in m {
        var head: Dict<Json> := [(order[0], m[order[0]])];
        KeysConcat(head, rest);
        assert Keys(head) == [order[0]];
        DistinctCons(order[0], Keys(rest));
      } else {
        assert Items(m, order) == rest;
      }
    }
  }

  lemma DistinctCons(x: Json, xs: seq<Json>)
    requires Distinct(xs) && x !in xs
    ensures Distinct([x] + xs)
  {
    var ys := [x] + xs;
    forall i, j | 0 <= i < j < |ys|
      ensures ys[i] != ys[j]
    {
      assert ys[j] == xs[j - 1];
      if i > 0 {
        assert ys[i] == xs[i - 1];
      }
    }
  }

  /** The results Alma's `main` gathers for the ids of `new_users`. */
  function AlmaResults(fetch: Json -> Json, ids: seq<Json>): seq<Json> {
    var q := QueriedIds(ids);
    seq(|q|, i requires 0 <= i < |q| => fetch(q[i]))
  }

  /** The order `main` inserted its entries in: a record's `primary_id`
      where it first appears among the results. */
  function EntryOrder(results: seq<Json>): seq<Json> {
    Dedup(RecordPids(results))
  }

  /** `pid_to_barcode.items()` lists every entry of `main`'s mapping exactly once. */
  lemma AlmaItems(results: seq<Json>)
    requires MainSpec(results).Ok?
    ensures var m := MainSpec(results).value;
      var items := Items(m, EntryOrder(results));
      && (forall k :: k in Keys(items) <==> k in m)
      && Distinct(Keys(items))
      && (forall p :: p in items ==> p.1 == m[p.0])
  {
    var m := MainSpec(results).value;
    forall k
      ensures k in m <==> k in EntryOrder(results)
    {
      MainKeys(results, k);
    }
    ItemsDistinct(m, EntryOrder(results));
  }

  /** Every value of `main`'s mapping is a `{user_group[, barcode]}` dict. */
  lemma {:induction false} MainEntriesAreDicts(results: seq<Json>)
    requires MainSpec(results).Ok?
    ensures forall k :: k in MainSpec(results).value ==> MainSpec(results).value[k].JObj?
    decreases |results|
  {
    if results != [] {
      MainEntriesAreDicts(results[..|results| - 1]);
    }
  }

  /** `done` followed by the outcome of the remaining calls. */
  function After(done: seq<Json>, rest: (Result<seq<Json>>, Session)): (Result<seq<Json>>, Session) {
    if rest.0.Err? then rest else (Ok(done + rest.0.value), rest.1)
  }

  lemma AfterNothing(rest: (Result<seq<Json>>, Session), s: Session)
    ensures After([], rest) == rest && (rest.0.Ok? ==> After(rest.0.value, (Ok([]), s)) == (rest.0, s))
  {
    if rest.0.Ok? {
      assert [] + rest.0.value == rest.0.value + [] == rest.0.value;
    }
  }

  lemma AfterTwice(a: seq<Json>, b: seq<Json>, rest: (Result<seq<Json>>, Session))
    ensures After(a, After(b, rest)) == After(a + b, rest)
  {
    if rest.0.Ok? {
      assert a + (b + rest.0.value) == (a + b) + rest.0.value;
    }
  }

  /** The dict `register_new_users` yields for a created visitor. */
  function Yielded(visitorId: Json, pid: Json, entry: Json): Json {
    JObj(map["visitor_id" := visitorId, "primary_id" := pid, "barcode" := entry])
  }

  /** The generator's loop: the stored patron info gets the Alma entry as
      `barcode` and `create_visitor` is called with it; a created visitor is
      yielded, a failure is logged and skipped. A `primary_id` missing from
      `new_users` raises out of the generator. */
  function CreateAll(c: Config, newUsers: Dict<map<string, Json>>, items: Dict<Json>, s: Session): (Result<seq<Json>>, Session)
    decreases |items|
  {
    if items == [] then (Ok([]), s)
    else
      var (pid, entry) := items[0];
      match Lookup(newUsers, pid)
      case None => (Err(KeyError(pid)), s)
      case Some(info) =>
        var (v, s1) := CreateVisitorSpec(c, JObj(info["barcode" := entry]), s);
        After(if v.Ok? then [Yielded(v.value, pid, entry)] else [], CreateAll(c, newUsers, items[1..], s1))
  }

  /** The first item of the generator's loop, for a `primary_id` among `new_users`. */
  lemma CreateAllStep(c: Config, newUsers: Dict<map<string, Json>>, items: Dict<Json>, s: Session)
    requires items != [] && Lookup(newUsers, items[0].0).Some?
    ensures var visitor := JObj(Lookup(newUsers, items[0].0).value["barcode" := items[0].1]);
      var (v, s1) := CreateVisitorSpec(c, visitor, s);
      CreateAll(c, newUsers, items, s)
        == After(if v.Ok? then [Yielded(v.value, items[0].0, items[0].1)] else [], CreateAll(c, newUsers, items[1..], s1))
  {
  }

  /** The loop of `register_new_users` after one more visitor is created. */
  lemma CreateAllAdvance(c: Config, newUsers: Dict<map<string, Json>>, items: Dict<Json>, yielded: seq<Json>,
                         total: (Result<seq<Json>>, Session), before: Session, v: Result<Json>, s1: Session)
    requires items != [] && Lookup(newUsers, items[0].0).Some?
    requires (v, s1) == CreateVisitorSpec(c, JObj(Lookup(newUsers, items[0].0).value["barcode" := items[0].1]), before)
    requires total == After(yielded, CreateAll(c, newUsers, items, before))
    ensures total == After(yielded + (if v.Ok? then [Yielded(v.value, items[0].0, items[0].1)] else []),
                           CreateAll(c, newUsers, items[1..], s1))
  {
    CreateAllStep(c, newUsers, items, before);
    AfterTwice(yielded, if v.Ok? then [Yielded(v.value, items[0].0, items[0].1)] else [], CreateAll(c, newUsers, items[1..], s1));
  }

  /** `register_new_users` consumed to the end: when Alma's `main` raises, the
      generator returns at once and yields nothing. */
  function RegisterSpec(c: Config, fetch: Json -> Json, newUsers: Dict<map<string, Json>>, s: Session): (Result<seq<Json>>, Session) {
    var results := AlmaResults(fetch, Keys(newUsers));
    match MainSpec(results)
    case Err(_) => (Ok([]), s)
    case Ok(m) => CreateAll(c, newUsers, Items(m, EntryOrder(results)), s)
  }

  /** The visitor id `create_visitor` returns for `visitor` from session `s`. */
  function CreatedId(c: Config, visitor: Json, s: Session): Result<Json> {
    CreateVisitorSpec(c, visitor, s).0
  }

  /** The dict the loop passes to `create_visitor` for an item: the stored
      patron info with the Alma entry as `barcode`. */
  function VisitorFor(newUsers: Dict<map<string, Json>>, item: (Json, Json)): Json
    requires Lookup(newUsers, item.0).Some?
  {
    JObj(Lookup(newUsers, item.0).value["barcode" := item.1])
  }

  /** The session the loop holds when it reaches item `j`: each earlier item's
      `create_visitor` call has advanced the one before. */
  function SessionAt(c: Config, newUsers: Dict<map<string, Json>>, items: Dict<Json>, s: Session, j: nat): Session
    decreases j
  {
    if j == 0 || items == [] || Lookup(newUsers, items[0].0).None? then s
    else SessionAt(c, newUsers, items[1..], CreateVisitorSpec(c, VisitorFor(newUsers, items[0]), s).1, j - 1)
  }

  /** Row `y` is what the loop yields for item `j` of a run from session `s`:
      the `create_visitor` call made for that item, in the session the loop
      holds then, succeeded, and `y` carries the visitor id it returned. */
  predicate CreatedAt(c: Config, newUsers: Dict<map<string, Json>>, items: Dict<Json>, s: Session, j: int, y: Json) {
    && 0 <= j < |items|
    && Lookup(newUsers, items[j].0).Some?
    && var v := CreatedId(c, VisitorFor(newUsers, items[j]), SessionAt(c, newUsers, items, s, j));
       v.Ok? && y == Yielded(v.value, items[j].0, items[j].1)
  }

  /** A row created for a later item, in the session after the first call, is
      created for the same item of the whole run. */
  lemma CreatedAtShift(c: Config, newUsers: Dict<map<string, Json>>, items: Dict<Json>, s: Session, j: int, y: Json)
    requires items != [] && Lookup(newUsers, items[0].0).Some?
    requires CreatedAt(c, newUsers, items[1..], CreateVisitorSpec(c, VisitorFor(newUsers, items[0]), s).1, j, y)
    ensures CreatedAt(c, newUsers, items, s, j + 1, y)
  {
    assert items[1..][j] == items[j + 1];
    assert SessionAt(c, newUsers, items, s, j + 1)
        == SessionAt(c, newUsers, items[1..], CreateVisitorSpec(c, VisitorFor(newUsers, items[0]), s).1, j);
  }

  /** A created row carries its item's Alma entry as `barcode`. */
  lemma CreatedAtBarcode(c: Config, newUsers: Dict<map<string, Json>>, items: Dict<Json>, s: Session, j: int, y: Json)
    requires CreatedAt(c, newUsers, items, s, j, y)
    ensures y.JObj? && "barcode" in y.fields && y.fields["barcode"] == items[j].1
  {
  }

  /** Only visitors created in this run are yielded: each row is the
      successful result of the `create_visitor` call the loop made for one
      item, with that call's visitor id, the item's `primary_id` and the Alma
      entry itself as `barcode`; there are no more rows than items. */
  lemma {:induction false} CreateAllYields(c: Config, newUsers: Dict<map<string, Json>>, items: Dict<Json>, s: Session)
    ensures var ys := CreateAll(c, newUsers, items, s).0;
      ys.Ok? ==>
        && |ys.value| <= |items|
        && forall y :: y in ys.value ==> exists j :: CreatedAt(c, newUsers, items, s, j, y)
    decreases |items|
  {
    if items != [] && Lookup(newUsers, items[0].0).Some? {
      var visitor := VisitorFor(newUsers, items[0]);
      var v := CreatedId(c, visitor, s);
      var s1 := CreateVisitorSpec(c, visitor, s).1;
      var tail := items[1..];
      CreateAllStep(c, newUsers, items, s);
      CreateAllYields(c, newUsers, tail, s1);
      var rest := CreateAll(c, newUsers, tail, s1).0;
      var head := if v.Ok? then [Yielded(v.value, items[0].0, items[0].1)] else [];
      assert CreateAll(c, newUsers, items, s) == After(head, CreateAll(c, newUsers, tail, s1));
      if rest.Ok? {
        forall y | y in head + rest.value
          ensures exists j :: CreatedAt(c, newUsers, items, s, j, y)
        {
          if y in rest.value {
            var j :| CreatedAt(c, newUsers, tail, s1, j, y);
            CreatedAtShift(c, newUsers, items, s, j, y);
          } else {
            assert CreatedAt(c, newUsers, items, s, 0, y);
          }
        }
      }
    }
  }

  /** The rows of a run are the first item's row, if its visitor was
      created, followed by the rows of the later items. */
  lemma CreateAllCons(c: Config, newUsers: Dict<map<string, Json>>, items: Dict<Json>, s: Session)
    requires items != [] && Lookup(newUsers, items[0].0).Some?
    ensures var visitor := VisitorFor(newUsers, items[0]);
      var v := CreatedId(c, visitor, s);
      var ys := CreateAll(c, newUsers, items, s).0;
      var rest := CreateAll(c, newUsers, items[1..], CreateVisitorSpec(c, visitor, s).1).0;
      && (ys.Ok? <==> rest.Ok?)
      && (ys.Ok? ==> ys.value == (if v.Ok? then [Yielded(v.value, items[0].0, items[0].1)] else []) + rest.value)
  {
    CreateAllStep(c, newUsers, items, s);
  }

  /** No two rows of `ys` carry the same `primary_id`. */
  predicate DistinctPids(ys: seq<Json>) {
    forall a, b :: 0 <= a < b < |ys| ==> Get(ys[a], "primary_id") != Get(ys[b], "primary_id")
  }

  lemma DistinctPidsCons(y: Json, ys: seq<Json>)
    requires DistinctPids(ys)
    requires forall z :: z in ys ==> Get(z, "primary_id") != Get(y, "primary_id")
    ensures DistinctPids([y] + ys)
  {
    var zs := [y] + ys;
    forall a, b | 0 <= a < b < |zs|
      ensures Get(zs[a], "primary_id") != Get(zs[b], "primary_id")
    {
      assert zs[b] == ys[b - 1];
      if a > 0 {
        assert zs[a] == ys[a - 1];
      }
    }
  }

  /** No row yielded for the later items carries the first item's `primary_id`. */
  lemma CreateAllLaterPids(c: Config, newUsers: Dict<map<string, Json>>, items: Dict<Json>, s: Session)
    requires items != [] && Distinct(Keys(items))
    ensures var rest := CreateAll(c, newUsers, items[1..], s).0;
      rest.Ok? ==> forall y :: y in rest.value ==> Get(y, "primary_id") != Ok(items[0].0)
  {
    var tail := items[1..];
    CreateAllYields(c, newUsers, tail, s);
    var rest := CreateAll(c, newUsers, tail, s).0;
    if rest.Ok? {
      forall y | y in rest.value
        ensures Get(y, "primary_id") != Ok(items[0].0)
      {
        var j :| CreatedAt(c, newUsers, tail, s, j, y);
        assert tail[j] == items[j + 1];
        assert Keys(items)[0] != Keys(items)[j + 1];
      }
    }
  }

  /** The rows yielded for items with distinct `primary_id`s carry distinct
      `primary_id`s: at most one row per Alma entry. */
  lemma {:induction false} CreateAllOnePerEntry(c: Config, newUsers: Dict<map<string, Json>>, items: Dict<Json>, s: Session)
    requires Distinct(Keys(items))
    ensures var ys := CreateAll(c, newUsers, items, s).0;
      ys.Ok? ==> DistinctPids(ys.value)
    decreases |items|
  {
    if items != [] && Lookup(newUsers, items[0].0).Some? {
      var visitor := VisitorFor(newUsers, items[0]);
      var v := CreatedId(c, visitor, s);
      var s1 := CreateVisitorSpec(c, visitor, s).1;
      var tail := items[1..];
      CreateAllCons(c, newUsers, items, s);
      assert Keys(tail) == Keys(items)[1..];
      CreateAllOnePerEntry(c, newUsers, tail, s1);
      CreateAllLaterPids(c, newUsers, items, s1);
      var rest := CreateAll(c, newUsers, tail, s1).0;
      if rest.Ok? && v.Ok? {
        DistinctPidsCons(Yielded(v.value, items[0].0, items[0].1), rest.value);
      }
    }
  }

  /** `register_new_users` yields at most one row per patron: `main`'s
      mapping lists each `primary_id` once. */
  lemma RegisterOnePerPatron(c: Config, fetch: Json -> Json, newUsers: Dict<map<string, Json>>, s: Session)
    ensures var ys := RegisterSpec(c, fetch, newUsers, s).0;
      ys.Ok? ==> DistinctPids(ys.value)
  {
    var results := AlmaResults(fetch, Keys(newUsers));
    if MainSpec(results).Ok? {
      AlmaItems(results);
      CreateAllOnePerEntry(c, newUsers, Items(MainSpec(results).value, EntryOrder(results)), s);
    }
  }

  /** As written, no visitor is created: the patron info lacks `user_group`,
      which `create_visitor` reads first, so every call raises KeyError
      before any request is sent. */
  lemma {:induction false} CreateAllAsWritten(c: Config, newUsers: Dict<map<string, Json>>, items: Dict<Json>, s: Session)
    requires forall k :: Lookup(newUsers, k).Some? ==> "user_group" !in Lookup(newUsers, k).value
    ensures CreateAll(c, newUsers, items, s).1 == s
    ensures CreateAll(c, newUsers, items, s).0.Ok? ==> CreateAll(c, newUsers, items, s).0.value == []
    decreases |items|
  {
    if items != [] {
      var (pid, entry) := items[0];
      if Lookup(newUsers, pid).Some? {
        var info := Lookup(newUsers, pid).value;
        var visitor := JObj(info["barcode" := entry]);
        assert VisitorParams(c.userMapping, visitor) == Err(KeyError(JStr("user_group")));
        CreateAllAsWritten(c, newUsers, items[1..], s);
      }
    }
  }

  // ---- the rest of process_users (app.py:108-118) ----

  /** `{user['primary_id']: user for user in ... if user}`. */
  function Registered(ys: seq<Json>): (r: Result<Dict<Json>>)
    ensures r.Ok? ==> forall p :: p in r.value ==> p.1 in ys
    decreases |ys|
  {
    if ys == [] then Ok([])
    else
      var d :- Registered(ys[..|ys| - 1]);
      var y := ys[|ys| - 1];
      assert forall x :: x in ys[..|ys| - 1] ==> x in ys;
      if !Truthy(y) then Ok(d)
      else
        var k :- Get(y, "primary_id");
        if !Hashable(k) then Err(TypeError) else Ok(Assign(d, k, y))
  }

  /** `add_users(...)` with its failure logged: the table as it is afterwards. */
  function StoreUsers(t: Option<Table<UserRow>>, rows: seq<Json>): Option<Table<UserRow>> {
    if t.Some? && ReplaceAll(t.value, rows).Ok? then Some(ReplaceAll(t.value, rows).value) else t
  }

  /** `add_users` of no rows leaves the table as it was. */
  lemma StoreNoRows(t: Option<Table<UserRow>>)
    ensures StoreUsers(t, []) == t
  {
    if t.Some? {
      assert ReplaceAll(t.value, []) == Ok(t.value);
    }
  }

  /** `users.update({k: v['visitor_id'] for k, v in registered_users.items()})`. */
  function Merge(users: Dict<Json>, reg: Dict<Json>): Result<Dict<Json>>
    decreases |reg|
  {
    if reg == [] then Ok(users)
    else
      var u :- Merge(users, reg[..|reg| - 1]);
      var visitorId :- Get(reg[|reg| - 1].1, "visitor_id");
      Ok(Assign(u, reg[|reg| - 1].0, visitorId))
  }

  /** `process_users`: the mapping it returns, the user table and the
      PassagePoint client afterwards. */
  function ProcessUsersSpec(c: Config, fetch: Json -> Json, bookings: seq<Json>, t: Option<Table<UserRow>>, s: Session)
    : (Result<Dict<Json>>, Option<Table<UserRow>>, Session)
  {
    match ScanSpec(t, bookings)
    case Err(e) => (Err(e), t, s)
    case Ok(scan) =>
      if scan.newUsers == [] then (Ok(scan.users), t, s)
      else
        var (ys, s1) := RegisterSpec(c, fetch, scan.newUsers, s);
        if ys.Err? then (Err(ys.error), t, s1)
        else match Registered(ys.value)
          case Err(e) => (Err(e), t, s1)
          case Ok(reg) => (Merge(scan.users, reg), StoreUsers(t, Values(reg)), s1)
  }

  /** Rows whose `barcode` is a dict do not bind, so `add_users` leaves the table as it was. */
  lemma DictBarcodesRejected(t: Option<Table<UserRow>>, rows: seq<Json>)
    requires forall r :: r in rows ==> r.JObj? && "barcode" in r.fields && r.fields["barcode"].JObj?
    ensures StoreUsers(t, rows) == t
  {
    if rows != [] && t.Some? {
      assert rows[0] in rows;
      assert UserRecord(rows[0]).Err?;
      ReplaceAllSucceeds(t.value, rows);
    }
  }

  /** When every Alma entry is a dict, every yielded row carries a dict as `barcode`. */
  lemma CreateAllDictBarcodes(c: Config, newUsers: Dict<map<string, Json>>, items: Dict<Json>, s: Session)
    requires forall p :: p in items ==> p.1.JObj?
    ensures var ys := CreateAll(c, newUsers, items, s).0;
      ys.Ok? ==> forall y :: y in ys.value ==> y.JObj? && "barcode" in y.fields && y.fields["barcode"].JObj?
  {
    CreateAllYields(c, newUsers, items, s);
    var ys := CreateAll(c, newUsers, items, s).0;
    if ys.Ok? {
      forall y | y in ys.value
        ensures y.JObj? && "barcode" in y.fields && y.fields["barcode"].JObj?
      {
        var j :| CreatedAt(c, newUsers, items, s, j, y);
        CreatedAtBarcode(c, newUsers, items, s, j, y);
        assert items[j] in items;
      }
    }
  }

  /** `add_users` rejects every yielded row, whatever PassagePoint answers:
      the row's `barcode` is Alma's `{user_group[, barcode]}` dict, which does
      not bind, so the user table is never changed by a run. */
  lemma RegisteredUsersRejected(c: Config, fetch: Json -> Json, newUsers: Dict<map<string, Json>>, s: Session,
                                t: Option<Table<UserRow>>)
    ensures var ys := RegisterSpec(c, fetch, newUsers, s).0;
      ys.Ok? && Registered(ys.value).Ok? ==> StoreUsers(t, Values(Registered(ys.value).value)) == t
  {
    var results := AlmaResults(fetch, Keys(newUsers));
    var ys := RegisterSpec(c, fetch, newUsers, s).0;
    if MainSpec(results).Ok? && ys.Ok? && Registered(ys.value).Ok? {
      var m := MainSpec(results).value;
      var items := Items(m, EntryOrder(results));
      assert ys == CreateAll(c, newUsers, items, s).0;
      MainEntriesAreDicts(results);
      CreateAllDictBarcodes(c, newUsers, items, s);
      var rows := Values(Registered(ys.value).value);
      assert forall r :: r in rows ==> r in ys.value;
      DictBarcodesRejected(t, rows);
    }
  }

  /** As written, `process_users` changes neither the user table nor the
      PassagePoint client, and what it returns is the cache hits. */
  lemma ProcessUsersAsWritten(c: Config, fetch: Json -> Json, bookings: seq<Json>, t: Option<Table<UserRow>>, s: Session)
    ensures var (u, t', s') := ProcessUsersSpec(c, fetch, bookings, t, s);
      && t' == t && s' == s
      && (u.Ok? ==> u.value == ScanSpec(t, bookings).value.users)
  {
    if ScanSpec(t, bookings).Ok? {
      var scan := ScanSpec(t, bookings).value;
      ScanRegistersNothing(c, fetch, bookings, t, s);
      var ys := RegisterSpec(c, fetch, scan.newUsers, s).0;
      if ys.Ok? {
        assert Registered(ys.value) == Ok([]);
        assert Values<Json>([]) == [];
        StoreNoRows(t);
      }
    }
  }

  /** The new users a scan finds carry no user group, so registering them
      creates nothing. */
  lemma ScanRegistersNothing(c: Config, fetch: Json -> Json, bookings: seq<Json>, t: Option<Table<UserRow>>, s: Session)
    requires ScanSpec(t, bookings).Ok?
    ensures var (ys, s') := RegisterSpec(c, fetch, ScanSpec(t, bookings).value.newUsers, s);
      s' == s && (ys.Ok? ==> ys.value == [])
  {
    ScanNewUsersUngrouped(t, bookings);
    RegisterAsWritten(c, fetch, ScanSpec(t, bookings).value.newUsers, s);
  }

  /** No new user a scan finds has a `user_group` entry. */
  lemma ScanNewUsersUngrouped(t: Option<Table<UserRow>>, bookings: seq<Json>)
    requires ScanSpec(t, bookings).Ok?
    ensures var u := ScanSpec(t, bookings).value.newUsers;
      forall k :: Lookup(u, k).Some? ==> "user_group" !in Lookup(u, k).value
  {
    var scan := ScanSpec(t, bookings).value;
    forall k | Lookup(scan.newUsers, k).Some?
      ensures "user_group" !in Lookup(scan.newUsers, k).value
    {
      ScanEntries(t, bookings, k);
    }
  }

  /** As written, `register_new_users` creates no visitor: it leaves the
      client as it was and yields nothing. */
  lemma RegisterAsWritten(c: Config, fetch: Json -> Json, newUsers: Dict<map<string, Json>>, s: Session)
    requires forall k :: Lookup(newUsers, k).Some? ==> "user_group" !in Lookup(newUsers, k).value
    ensures var (ys, s') := RegisterSpec(c, fetch, newUsers, s);
      s' == s && (ys.Ok? ==> ys.value == [])
  {
    var results := AlmaResults(fetch, Keys(newUsers));
    if MainSpec(results).Ok? {
      CreateAllAsWritten(c, newUsers, Items(MainSpec(results).value, EntryOrder(results)), s);
    }
  }

  // ---- the pre-registration loop of log_new_bookings (app.py:59-76) ----

  /** `users.get(booking['primary_id'])`, None for a patron with no visitor id. */
  function VisitorOf(users: Dict<Json>, b: Json): Result<Json> {
    var pid :- Get(b, "primary_id");
    if !Hashable(pid) then Err(TypeError)
    else Ok(match Lookup(users, pid) case Some(v) => v case None => JNull)
  }

  /** `pre_reg`: the booking's start and end, under the names `create_prereg` reads. */
  function Slot(b: Json): (r: Result<Json>)
    ensures r.Ok? ==> r.value.JObj? && r.value.fields.Keys == {"startTime", "endTime"}
  {
    var from :- Get(b, "fromDate");
    var to :- Get(b, "toDate");
    Ok(JObj(map["startTime" := from, "endTime" := to]))
  }

  /** The registration saved for a created pre-registration; reading the
      booking's `bookId` happens inside the `try`, so a failure there only
      skips the booking. */
  function Registration(preregId: Json, b: Json): seq<Json> {
    match Get(b, "bookId")
    case Ok(id) => [JObj(map["prereg_id" := preregId, "appt_id" := id])]
    case Err(_) => []
  }

  /** The loop: bookings whose patron has no truthy visitor id are skipped; a
      failed `create_prereg` is logged and skipped; reading the booking's
      keys outside the `try` raises out of the run. */
  function PreregsSpec(c: Config, users: Dict<Json>, bookings: seq<Json>, s: Session): (Result<seq<Json>>, Session)
    decreases |bookings|
  {
    if bookings == [] then (Ok([]), s)
    else
      var b := bookings[0];
      match VisitorOf(users, b)
      case Err(e) => (Err(e), s)
      case Ok(visitorId) =>
        if !Truthy(visitorId) then PreregsSpec(c, users, bookings[1..], s)
        else match Slot(b)
          case Err(e) => (Err(e), s)
          case Ok(preReg) =>
            var (x, s1) := CreatePreregSpec(c, preReg, visitorId, s);
            After(if x.Ok? then Registration(x.value, b) else [], PreregsSpec(c, users, bookings[1..], s1))
  }

  /** The bookings the loop attempts a pre-registration for. */
  predicate Attempted(users: Dict<Json>, b: Json) {
    VisitorOf(users, b).Ok? && Truthy(VisitorOf(users, b).value)
  }

  /** Each registration in `rs` is `{prereg_id, appt_id}` with the `bookId`
      of an attempted booking, and there are no more registrations than bookings. */
  ghost predicate PreregsShaped(users: Dict<Json>, bookings: seq<Json>, rs: seq<Json>) {
    && |rs| <= |bookings|
    && forall r :: r in rs ==>
         && r.JObj? && r.fields.Keys == {"prereg_id", "appt_id"}
         && exists i :: 0 <= i < |bookings| && Attempted(users, bookings[i])
                        && Get(bookings[i], "bookId") == Ok(r.fields["appt_id"])
  }

  /** Registrations shaped for the later bookings are shaped for all of them. */
  lemma PreregsShapedSkip(users: Dict<Json>, bookings: seq<Json>, rs: seq<Json>)
    requires bookings != [] && PreregsShaped(users, bookings[1..], rs)
    ensures PreregsShaped(users, bookings, rs)
  {
    var tail := bookings[1..];
    forall r | r in rs
      ensures exists i :: 0 <= i < |bookings| && Attempted(users, bookings[i])
                          && Get(bookings[i], "bookId") == Ok(r.fields["appt_id"])
    {
      var i :| 0 <= i < |tail| && Attempted(users, tail[i]) && Get(tail[i], "bookId") == Ok(r.fields["appt_id"]);
      assert bookings[i + 1] == tail[i];
    }
  }

  /** The registration of an attempted first booking, before those of the
      later bookings, keeps the shape. */
  lemma PreregsShapedAttempt(users: Dict<Json>, bookings: seq<Json>, x: Result<Json>, rest: (Result<seq<Json>>, Session))
    requires bookings != [] && Attempted(users, bookings[0])
    requires rest.0.Ok? ==> PreregsShaped(users, bookings[1..], rest.0.value)
    ensures var rs := After(if x.Ok? then Registration(x.value, bookings[0]) else [], rest).0;
      rs.Ok? ==> PreregsShaped(users, bookings, rs.value)
  {
    if rest.0.Ok? {
      PreregsShapedSkip(users, bookings, rest.0.value);
    }
  }

  /** Each saved registration is `{prereg_id, appt_id}` with the `bookId` of
      an attempted booking, and there are no more registrations than bookings. */
  lemma {:induction false} PreregsShape(c: Config, users: Dict<Json>, bookings: seq<Json>, s: Session)
    ensures var rs := PreregsSpec(c, users, bookings, s).0;
      rs.Ok? ==> PreregsShaped(users, bookings, rs.value)
    decreases |bookings|
  {
    if bookings != [] {
      var b := bookings[0];
      var tail := bookings[1..];
      if VisitorOf(users, b).Ok? {
        if !Truthy(VisitorOf(users, b).value) {
          PreregsShape(c, users, tail, s);
          var rs := PreregsSpec(c, users, tail, s).0;
          if rs.Ok? {
            PreregsShapedSkip(users, bookings, rs.value);
          }
        } else if Slot(b).Ok? {
          var (x, s1) := CreatePreregSpec(c, Slot(b).value, VisitorOf(users, b).value, s);
          PreregsShape(c, users, tail, s1);
          PreregsShapedAttempt(users, bookings, x, PreregsSpec(c, users, tail, s1));
        }
      }
    }
  }

  /** With no booking's patron holding a truthy visitor id, nothing is sent. */
  lemma {:induction false} PreregsSkipped(c: Config, users: Dict<Json>, bookings: seq<Json>, s: Session)
    requires forall i :: 0 <= i < |bookings| ==> VisitorOf(users, bookings[i]).Ok? && !Attempted(users, bookings[i])
    ensures PreregsSpec(c, users, bookings, s) == (Ok([]), s)
    decreases |bookings|
  {
    if bookings != [] {
      assert forall i :: 0 <= i < |bookings[1..]| ==> bookings[1..][i] == bookings[i + 1];
      PreregsSkipped(c, users, bookings[1..], s);
    }
  }

  /** As written, no pre-registration is created: `pre_reg` lacks the
      `destination` key `create_prereg` reads, so every call raises before
      any request is sent. */
  lemma {:induction false} PreregsAsWritten(c: Config, users: Dict<Json>, bookings: seq<Json>, s: Session)
    ensures PreregsSpec(c, users, bookings, s).1 == s
    ensures PreregsSpec(c, users, bookings, s).0.Ok? ==> PreregsSpec(c, users, bookings, s).0.value == []
    decreases |bookings|
  {
    if bookings != [] {
      var b := bookings[0];
      PreregsAsWritten(c, users, bookings[1..], s);
      if VisitorOf(users, b).Ok? && Truthy(VisitorOf(users, b).value) && Slot(b).Ok? {
        assert "destination" !in Slot(b).value.fields;
        assert PreregPayload(c.locationMapping, Slot(b).value, VisitorOf(users, b).value).Err?;
      }
    }
  }

  // ---- log_new_bookings (app.py:40-82) ----

  /** The state a run reads and changes: the two cache tables and the
      PassagePoint client. */
  datatype AppState = AppState(users: Option<Table<UserRow>>, appts: Option<Table<ApptRow>>, pp: Session)

  /** `add_appt(registrations)` with its failure logged. */
  function StoreAppts(appts: Option<Table<ApptRow>>, registrations: seq<Json>): Option<Table<ApptRow>> {
    if registrations == [] then appts
    else match InsertAppt(appts, JList(registrations))
      case Ok(t) => Some(t)
      case Err(_) => appts
  }

  /** `add_appt` is handed the whole list, which never binds as one row:
      no appointment is ever stored. */
  lemma RegistrationsRejected(c: Config, users: Dict<Json>, bookings: seq<Json>, s: Session, appts: Option<Table<ApptRow>>)
    ensures var rs := PreregsSpec(c, users, bookings, s).0;
      rs.Ok? ==> StoreAppts(appts, rs.value) == appts
  {
    PreregsShape(c, users, bookings, s);
    var rs := PreregsSpec(c, users, bookings, s).0;
    if rs.Ok? && appts.Some? {
      InsertApptRejectsListOfDicts(appts.value, rs.value);
    }
  }

  /** One run after the bookings are retrieved: the gate, the users, the
      pre-registrations and the appointments saved. */
  function RunSpec(c: Config, fetch: Json -> Json, bookings: seq<Json>, st: AppState): (Result<()>, AppState) {
    match FilterNew(st.appts, bookings)
    case Err(e) => (Err(e), st)
    case Ok(newBookings) =>
      var (u, t1, s1) := ProcessUsersSpec(c, fetch, newBookings, st.users, st.pp);
      if u.Err? then (Err(u.error), AppState(t1, st.appts, s1))
      else if u.value == [] then (Ok(()), AppState(t1, st.appts, s1))
      else
        var (rs, s2) := PreregsSpec(c, u.value, newBookings, s1);
        if rs.Err? then (Err(rs.error), AppState(t1, st.appts, s2))
        else (Ok(()), AppState(t1, StoreAppts(st.appts, rs.value), s2))
  }

  /** As written, a run changes neither cache table nor PassagePoint, and
      sends PassagePoint no request. */
  lemma RunAsWritten(c: Config, fetch: Json -> Json, bookings: seq<Json>, st: AppState)
    ensures RunSpec(c, fetch, bookings, st).1 == st
  {
    var nb := FilterNew(st.appts, bookings);
    if nb.Ok? {
      ProcessUsersAsWritten(c, fetch, nb.value, st.users, st.pp);
      var (u, t1, s1) := ProcessUsersSpec(c, fetch, nb.value, st.users, st.pp);
      if u.Ok? {
        PreregsAsWritten(c, u.value, nb.value, s1);
      }
    }
  }

  /** The orchestrator. Its components are built by the caller; `fetch`
      stands for Alma's answer to one user query. */
  class LibCal2PP {
    const libcal: LibCalRequests
    const fetch: Json -> Json
    const cache: SQLiteCache
    const pp: PassagePointRequests

    constructor (libcal: LibCalRequests, fetch: Json -> Json, cache: SQLiteCache, pp: PassagePointRequests)
      ensures this.libcal == libcal && this.fetch == fetch && this.cache == cache && this.pp == pp
    {
      this.libcal := libcal;
      this.fetch := fetch;
      this.cache := cache;
      this.pp := pp;
    }

    function State(): AppState
      reads cache, pp
    {
      AppState(cache.users, cache.appts, pp.State())
    }

    /** The `new_bookings` comprehension. */
    method NewBookings(bookings: seq<Json>) returns (r: Result<seq<Json>>)
      ensures r == FilterNew(cache.appts, bookings)
    {
      var kept: seq<Json> := [];
      var i := 0;
      assert bookings[i..] == bookings;
      JoinedNothing(FilterNew(cache.appts, bookings));
      while i < |bookings|
        invariant 0 <= i <= |bookings|
        invariant FilterNew(cache.appts, bookings) == Joined(kept, FilterNew(cache.appts, bookings[i..]))
      {
        assert bookings[i..][1..] == bookings[i + 1..];
        var booking := bookings[i];
        assert bookings[i..][0] == booking;
        var bookId := Get(booking, "bookId");
        if bookId.Err? {
          return Err(bookId.error);
        }
        var found := cache.ApptLookup(bookId.value);
        if found.Err? {
          return Err(found.error);
        }
        if found.value.None? {
          JoinedTwice(kept, [booking], FilterNew(cache.appts, bookings[i + 1..]));
          kept := kept + [booking];
        }
        i := i + 1;
      }
      assert bookings[i..] == [];
      JoinedNothing(Ok(kept));
      r := Ok(kept);
    }

    /** `register_new_users`, its yields collected in order. */
    method RegisterNewUsers(newUsers: Dict<map<string, Json>>) returns (r: Result<seq<Json>>)
      modifies pp
      ensures (r, pp.State()) == RegisterSpec(pp.config, fetch, newUsers, old(pp.State()))
    {
      var pidToBarcode := FetchBarcodes(Keys(newUsers), fetch);
      ghost var results := AlmaResults(fetch, Keys(newUsers));
      assert pidToBarcode == MainSpec(results);
      if pidToBarcode.Err? {
        return Ok([]);
      }
      var items := Items(pidToBarcode.value, EntryOrder(AlmaResults(fetch, Keys(newUsers))));
      r := CreateVisitors(newUsers, items);
    }

    /** The loop of `register_new_users` over `pid_to_barcode.items()`. */
    method CreateVisitors(newUsers: Dict<map<string, Json>>, items: Dict<Json>) returns (r: Result<seq<Json>>)
      modifies pp
      ensures (r, pp.State()) == CreateAll(pp.config, newUsers, items, old(pp.State()))
    {
      var yielded: seq<Json> := [];
      var i := 0;
      assert items[i..] == items;
      AfterNothing(CreateAll(pp.config, newUsers, items, pp.State()), pp.State());
      while i < |items|
        invariant 0 <= i <= |items|
        invariant CreateAll(pp.config, newUsers, items, old(pp.State()))
               == After(yielded, CreateAll(pp.config, newUsers, items[i..], pp.State()))
      {
        var (pid, barcode) := items[i];
        assert items[i..][0] == (pid, barcode);
        var newUser := Lookup(newUsers, pid);
        if newUser.None? {
          return Err(KeyError(pid));
        }
        ghost var before := pp.State();
        var visitorId := pp.CreateVisitor(JObj(newUser.value["barcode" := barcode]));
        CreateAllAdvance(pp.config, newUsers, items[i..], yielded, CreateAll(pp.config, newUsers, items, old(pp.State())),
                         before, visitorId, pp.State());
        assert items[i..][1..] == items[i + 1..];
        yielded := yielded + if visitorId.Ok? then [Yielded(visitorId.value, pid, barcode)] else [];
        i := i + 1;
      }
      assert items[i..] == [];
      AfterNothing((Ok(yielded), pp.State()), pp.State());
      r := Ok(yielded);
    }

    /** The loop of `process_users` over the bookings: which patrons are
        cached and which are new. */
    method ScanBookings(bookings: seq<Json>) returns (r: Result<Scan>)
      ensures r == ScanSpec(cache.users, bookings)
    {
      var acc := Scan([], [], []);
      var i := 0;
      while i < |bookings|
        invariant 0 <= i <= |bookings|
        invariant ScanSpec(cache.users, bookings[..i]) == Ok(acc)
      {
        assert bookings[..i + 1][..i] == bookings[..i];
        assert bookings[..i + 1][i] == bookings[i];
        var b := bookings[i];
        var primaryId := Get(b, "primary_id");
        if primaryId.Err? {
          ScanPrefixFails(cache.users, bookings, i + 1);
          return Err(primaryId.error);
        }
        var pid := primaryId.value;
        if !Hashable(pid) {
          ScanPrefixFails(cache.users, bookings, i + 1);
          return Err(TypeError);
        }
        if pid !in Keys(acc.users) && pid !in Keys(acc.newUsers) {
          var user := cache.UserLookup(pid);
          if user.Err? {
            acc := acc.(looked := acc.looked + [pid]);
          } else if user.value.None? {
            var names := Names(b);
            if names.Err? {
              ScanPrefixFails(cache.users, bookings, i + 1);
              return Err(names.error);
            }
            acc := acc.(newUsers := Assign(acc.newUsers, pid, names.value), looked := acc.looked + [pid]);
          } else {
            acc := acc.(users := Assign(acc.users, pid, user.value.value.visitorId), looked := acc.looked + [pid]);
          }
        }
        i := i + 1;
      }
      assert bookings[..i] == bookings;
      r := Ok(acc);
    }

    /** `process_users`: the patron-to-visitor mapping for the bookings. */
    method ProcessUsers(bookings: seq<Json>) returns (r: Result<Dict<Json>>)
      modifies cache, pp
      ensures cache.appts == old(cache.appts)
      ensures (r, cache.users, pp.State()) == ProcessUsersSpec(pp.config, fetch, bookings, old(cache.users), old(pp.State()))
    {
      var scan := ScanBookings(bookings);
      if scan.Err? {
        return Err(scan.error);
      }
      var acc := scan.value;
      if acc.newUsers == [] {
        return Ok(acc.users);
      }
      var ys := RegisterNewUsers(acc.newUsers);
      if ys.Err? {
        return Err(ys.error);
      }
      var registered := Registered(ys.value);
      if registered.Err? {
        return Err(registered.error);
      }
      var saved := cache.AddUsers(Values(registered.value));
      r := Merge(acc.users, registered.value);
    }

    /** The pre-registration loop of `log_new_bookings`. */
    method CreatePreregs(users: Dict<Json>, bookings: seq<Json>) returns (r: Result<seq<Json>>)
      modifies pp
      ensures (r, pp.State()) == PreregsSpec(pp.config, users, bookings, old(pp.State()))
    {
      var registrations: seq<Json> := [];
      var i := 0;
      assert bookings[i..] == bookings;
      AfterNothing(PreregsSpec(pp.config, users, bookings, pp.State()), pp.State());
      while i < |bookings|
        invariant 0 <= i <= |bookings|
        invariant PreregsSpec(pp.config, users, bookings, old(pp.State()))
               == After(registrations, PreregsSpec(pp.config, users, bookings[i..], pp.State()))
      {
        assert bookings[i..][1..] == bookings[i + 1..];
        var booking := bookings[i];
        assert bookings[i..][0] == booking;
        var visitorId := VisitorOf(users, booking);
        if visitorId.Err? {
          return Err(visitorId.error);
        }
        if Truthy(visitorId.value) {
          var preReg := Slot(booking);
          if preReg.Err? {
            return Err(preReg.error);
          }
          var preregId := pp.CreatePrereg(preReg.value, visitorId.value);
          if preregId.Ok? {
            AfterTwice(registrations, Registration(preregId.value, booking),
                       PreregsSpec(pp.config, users, bookings[i + 1..], pp.State()));
            registrations := registrations + Registration(preregId.value, booking);
          } else {
            AfterTwice(registrations, [], PreregsSpec(pp.config, users, bookings[i + 1..], pp.State()));
            assert registrations + [] == registrations;
          }
        }
        i := i + 1;
      }
      assert bookings[i..] == [];
      AfterNothing((Ok(registrations), pp.State()), pp.State());
      r := Ok(registrations);
    }

    /** `log_new_bookings`: a failure to retrieve the bookings is only
        logged; a failure in the gate, in `process_users` or in reading a
        booking raises out of the run. */
    method LogNewBookings() returns (r: Result<()>)
      modifies libcal`wire, cache, pp
      ensures var (got, w) := RetrieveSpec(libcal.token, libcal.bookingsEndpt, libcal.locations, old(libcal.wire));
        && libcal.wire == w
        && (got.Err? ==> r == Ok(()) && State() == old(State()))
        && (got.Ok? ==> (r, State()) == RunSpec(pp.config, fetch, got.value, old(State())))
    {
      var bookings := libcal.RetrieveBookingsByLocation();
      if bookings.Err? {
        return Ok(());
      }
      var newBookings := NewBookings(bookings.value);
      if newBookings.Err? {
        return Err(newBookings.error);
      }
      var users := ProcessUsers(newBookings.value);
      if users.Err? {
        return Err(users.error);
      }
      if users.value == [] {
        return Ok(());
      }
      var registrations := CreatePreregs(users.value, newBookings.value);
      if registrations.Err? {
        return Err(registrations.error);
      }
      if registrations.value != [] {
        var saved := cache.AddAppt(JList(registrations.value));
      }
      r := Ok(());
    }
  }
}
