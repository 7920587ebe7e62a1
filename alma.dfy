/** alma_requests.py: what `AlmaRequests.main` makes of the user records the
    Alma Users API returns. The concurrent, throttled fetch is outside the
    model: `fetch` gives, for each queried id, the document `_fetch_user`
    returns for it (the record itself, or an error dict). */
module Alma {
  import opened Py
  import opened Utils

  /** `_extract_user_group`: the group's `desc` when the record has a truthy
      `user_group`, otherwise that falsy value itself (None when absent). */
  function ExtractUserGroup(user: Json): (r: Result<Json>)
    ensures !user.JObj? ==> r == Err(AttributeError)
    ensures user.JObj? && "user_group" !in user.fields ==> r == Ok(JNull)
    ensures user.JObj? && "user_group" in user.fields ==>
      var ug := user.fields["user_group"];
      && (!Truthy(ug) ==> r == Ok(ug))
      && (Truthy(ug) && ug.JObj? ==> r == Ok(if "desc" in ug.fields then ug.fields["desc"] else JNull))
      && (Truthy(ug) && !ug.JObj? ==> r == Err(AttributeError))
  {
    var ug :- DictGet(user, "user_group");
    if Truthy(ug) then DictGet(ug, "desc") else Ok(ug)
  }

  /** `ident['id_type']['value']`. */
  function IdType(ident: Json): Result<Json> {
    var idType :- Get(ident, "id_type");
    Get(idType, "value")
  }

  predicate IsBarcodeIdent(ident: Json) {
    IdType(ident) == Ok(JStr("BARCODE"))
  }

  /** The inner loop of `_extract_info`: the `value` of the first identifier
      whose type is BARCODE; the identifiers after it are not looked at. */
  function FirstBarcode(idents: seq<Json>): Result<Option<Json>> {
    if idents == [] then Ok(None)
    else
      var t :- IdType(idents[0]);
      if t == JStr("BARCODE") then
        var b :- Get(idents[0], "value");
        Ok(Some(b))
      else FirstBarcode(idents[1..])
  }

  /** The barcode found is the value of the first BARCODE identifier, every
      identifier before it being well formed and of another type. */
  lemma {:induction false} FirstBarcodeFound(idents: seq<Json>, b: Json)
    requires FirstBarcode(idents) == Ok(Some(b))
    ensures exists i :: 0 <= i < |idents| && IsBarcodeIdent(idents[i]) && Get(idents[i], "value") == Ok(b) &&
              forall j :: 0 <= j < i ==> IdType(idents[j]).Ok? && !IsBarcodeIdent(idents[j])
  {
    if IdType(idents[0]) != Ok(JStr("BARCODE")) {
      FirstBarcodeFound(idents[1..], b);
      var i :| 0 <= i < |idents[1..]| && IsBarcodeIdent(idents[1..][i]) && Get(idents[1..][i], "value") == Ok(b)
        && forall j :: 0 <= j < i ==> IdType(idents[1..][j]).Ok? && !IsBarcodeIdent(idents[1..][j]);
      assert IsBarcodeIdent(idents[i + 1]);
      assert forall j :: 0 <= j < i + 1 ==> IdType(idents[j]).Ok? && !IsBarcodeIdent(idents[j]) by {
        forall j | 0 <= j < i + 1 ensures IdType(idents[j]).Ok? && !IsBarcodeIdent(idents[j]) {
          if j > 0 { assert idents[j] == idents[1..][j - 1]; }
        }
      }
    }
  }

  /** Conversely, the first BARCODE identifier decides the barcode whatever
      follows it, later BARCODE identifiers included. */
  lemma {:induction false} FirstBarcodeIgnoresRest(idents: seq<Json>, i: int)
    requires 0 <= i < |idents| && IsBarcodeIdent(idents[i])
    requires forall j :: 0 <= j < i ==> IdType(idents[j]).Ok? && !IsBarcodeIdent(idents[j])
    ensures FirstBarcode(idents) == (var b :- Get(idents[i], "value"); Ok(Some(b)))
  {
    if i > 0 {
      FirstBarcodeIgnoresRest(idents[1..], i - 1);
    }
  }

  /** Without a BARCODE identifier there is no barcode. */
  lemma {:induction false} FirstBarcodeNone(idents: seq<Json>)
    requires forall j :: 0 <= j < |idents| ==> IdType(idents[j]).Ok? && !IsBarcodeIdent(idents[j])
    ensures FirstBarcode(idents) == Ok(None)
  {
    if idents != [] {
      FirstBarcodeNone(idents[1..]);
    }
  }

  /** The entry built for one record, as the outer loop of `_extract_info`
      leaves it: the record's `primary_id` and `{user_group[, barcode]}`. The
      steps raise in the order Python takes them: the key is read, the group
      extracted, the key hashed, then the identifiers walked. */
  function UserEntry(user: Json): (r: Result<(Json, Json)>)
    ensures r.Ok? ==>
      && Get(user, "primary_id") == Ok(r.value.0) && Hashable(r.value.0)
      && r.value.1.JObj?
      && "user_group" in r.value.1.fields
      && Ok(r.value.1.fields["user_group"]) == ExtractUserGroup(user)
      && r.value.1.fields.Keys <= {"user_group", "barcode"}
  {
    var pid :- Get(user, "primary_id");
    var ug :- ExtractUserGroup(user);
    if !Hashable(pid) then Err(TypeError)
    else
      var idents :- Get(user, "user_identifier");
      var xs :- Iterate(idents);
      var b :- FirstBarcode(xs);
      Ok((pid, JObj(map["user_group" := ug] + if b.Some? then map["barcode" := b.value] else map[])))
  }

  /** The barcode of an entry is the record's first BARCODE identifier, and
      an entry has no `barcode` key when there is none. */
  lemma UserEntryBarcode(user: Json)
    requires UserEntry(user).Ok?
    ensures var b := FirstBarcode(Iterate(user.fields["user_identifier"]).value).value;
      && ("barcode" in UserEntry(user).value.1.fields <==> b.Some?)
      && (b.Some? ==> UserEntry(user).value.1.fields["barcode"] == b.value)
  {
  }

  /** `_extract_info` as a value: the entries of `users` in order, a later
      record with the same `primary_id` replacing the earlier entry. */
  function ExtractInfoSpec(users: seq<Json>): Result<map<Json, Json>>
    decreases |users|
  {
    if users == [] then Ok(map[])
    else
      var m :- ExtractInfoSpec(users[..|users| - 1]);
      var e :- UserEntry(users[|users| - 1]);
      Ok(m[e.0 := e.1])
  }

  /** The mapping's keys are exactly the `primary_id`s of the records. */
  lemma {:induction false} ExtractInfoKeys(users: seq<Json>, k: Json)
    requires ExtractInfoSpec(users).Ok?
    ensures k in ExtractInfoSpec(users).value <==>
      exists i :: 0 <= i < |users| && Get(users[i], "primary_id") == Ok(k)
    decreases |users|
  {
    if users != [] {
      var init := users[..|users| - 1];
      ExtractInfoKeys(init, k);
      assert forall i :: 0 <= i < |init| ==> init[i] == users[i];
      if exists i :: 0 <= i < |users| && Get(users[i], "primary_id") == Ok(k) {
        var i :| 0 <= i < |users| && Get(users[i], "primary_id") == Ok(k);
        if i < |init| {
          assert Get(init[i], "primary_id") == Ok(k);
        }
      }
    }
  }

  /** The entry for a key is built from the last record carrying that key. */
  lemma {:induction false} ExtractInfoLastWins(users: seq<Json>, i: int)
    requires ExtractInfoSpec(users).Ok?
    requires 0 <= i < |users|
    requires forall j :: i < j < |users| ==> Get(users[j], "primary_id") != Get(users[i], "primary_id")
    ensures UserEntry(users[i]).Ok?
    ensures UserEntry(users[i]).value.0 in ExtractInfoSpec(users).value
    ensures ExtractInfoSpec(users).value[UserEntry(users[i]).value.0] == UserEntry(users[i]).value.1
    decreases |users|
  {
    var init := users[..|users| - 1];
    if i < |users| - 1 {
      assert forall j :: 0 <= j < |init| ==> init[j] == users[j];
      ExtractInfoLastWins(init, i);
    }
  }

  /** `_extract_info`: the loop that fills `mapping`, with the inner loop
      that stops at the first BARCODE identifier. */
  method ExtractInfo(users: seq<Json>) returns (r: Result<map<Json, Json>>)
    ensures r == ExtractInfoSpec(users)
  {
    var mapping: map<Json, Json> := map[];
    var n := 0;
    while n < |users|
      invariant 0 <= n <= |users|
      invariant ExtractInfoSpec(users[..n]) == Ok(mapping)
    {
      assert users[..n + 1][..n] == users[..n];
      var user := users[n];
      var primaryId := Get(user, "primary_id");
      if primaryId.Err? {
        ExtractInfoPrefixFails(users, n + 1);
        return Err(primaryId.error);
      }
      var pid := primaryId.value;
      var userGroup := ExtractUserGroup(user);
      if userGroup.Err? {
        ExtractInfoPrefixFails(users, n + 1);
        return Err(userGroup.error);
      }
      if !Hashable(pid) {
        ExtractInfoPrefixFails(users, n + 1);
        return Err(TypeError);
      }
      ghost var before := mapping;
      mapping := mapping[pid := JObj(map["user_group" := userGroup.value])];
      var identifiers := Get(user, "user_identifier");
      if identifiers.Err? {
        ExtractInfoPrefixFails(users, n + 1);
        return Err(identifiers.error);
      }
      var iterated := Iterate(identifiers.value);
      if iterated.Err? {
        ExtractInfoPrefixFails(users, n + 1);
        return Err(iterated.error);
      }
      var idents := iterated.value;
      var j := 0;
      ghost var found: Option<Json> := None;
      while j < |idents|
        invariant 0 <= j <= |idents|
        invariant FirstBarcode(idents) == FirstBarcode(idents[j..])
        invariant mapping == before[pid := JObj(map["user_group" := userGroup.value])]
        invariant found.None?
      {
        assert idents[j..][1..] == idents[j + 1..];
        var t := IdType(idents[j]);
        if t.Err? {
          ExtractInfoPrefixFails(users, n + 1);
          return Err(t.error);
        }
        if t.value == JStr("BARCODE") {
          var barcode := Get(idents[j], "value");
          if barcode.Err? {
            ExtractInfoPrefixFails(users, n + 1);
            return Err(barcode.error);
          }
          mapping := mapping[pid := JObj(mapping[pid].fields["barcode" := barcode.value])];
          found := Some(barcode.value);
          assert FirstBarcode(idents) == Ok(found);
          break;
        }
        j := j + 1;
      }
      if found.None? {
        assert idents[j..] == [];
        assert map["user_group" := userGroup.value] + map[] == map["user_group" := userGroup.value];
      } else {
        assert map["user_group" := userGroup.value]["barcode" := found.value]
            == map["user_group" := userGroup.value] + map["barcode" := found.value];
      }
      assert FirstBarcode(idents) == Ok(found);
      assert mapping == before[pid := JObj(map["user_group" := userGroup.value] +
                                            if found.Some? then map["barcode" := found.value] else map[])];
      assert UserEntry(user).Ok?;
      n := n + 1;
    }
    assert users[..n] == users;
    r := Ok(mapping);
  }

  /** When the record at `n - 1` fails after the records before it succeeded,
      so does the whole list. */
  lemma {:induction false} ExtractInfoPrefixFails(users: seq<Json>, n: int)
    requires 0 < n <= |users|
    requires ExtractInfoSpec(users[..n - 1]).Ok? && UserEntry(users[n - 1]).Err?
    ensures ExtractInfoSpec(users) == Err(UserEntry(users[n - 1]).error)
    decreases |users|
  {
    assert users[..n][..n - 1] == users[..n - 1];
    if n < |users| {
      assert users[..|users| - 1][..n - 1] == users[..n - 1];
      assert users[..|users| - 1][n - 1] == users[n - 1];
      ExtractInfoPrefixFails(users[..|users| - 1], n);
    } else {
      assert users[..n] == users;
    }
  }

  // ---- main ----

  /** The ids `_retrieve_user_records` queries: the truthy ones, in order. */
  function QueriedIds(userIds: seq<Json>): (r: seq<Json>)
    ensures forall x :: x in r <==> x in userIds && Truthy(x)
    ensures forall x :: multiset(r)[x] == if Truthy(x) then multiset(userIds)[x] else 0
  {
    Partition(Truthy, userIds).1
  }

  /** The test `main` partitions the results by. */
  function HasRecordType(x: Json): Result<bool> {
    Contains(x, "record_type")
  }

  predicate IsRecord(x: Json) {
    HasRecordType(x) == Ok(true)
  }

  /** `main` after the gather: the lazy `filter` hands each result whose test
      is true to `_extract_info` as it goes, so the first exception raised,
      by the test or by the extraction, is the one `main` raises. */
  function MainSpec(results: seq<Json>): Result<map<Json, Json>>
    decreases |results|
  {
    if results == [] then Ok(map[])
    else
      var m :- MainSpec(results[..|results| - 1]);
      var keep :- HasRecordType(results[|results| - 1]);
      if !keep then Ok(m)
      else
        var e :- UserEntry(results[|results| - 1]);
        Ok(m[e.0 := e.1])
  }

  /** When every result can be tested, `main` is `_extract_info` of the true
      part of `partition`. */
  lemma MainIsExtractOfRecords(results: seq<Json>)
    requires forall i :: 0 <= i < |results| ==> HasRecordType(results[i]).Ok?
    ensures MainSpec(results) == ExtractInfoSpec(Partition(IsRecord, results).1)
  {
    assert Partition(IsRecord, results).1 == Filter(IsRecord, results);
    MainIsExtractOfFilter(results);
  }

  lemma {:induction false} MainIsExtractOfFilter(results: seq<Json>)
    requires forall i :: 0 <= i < |results| ==> HasRecordType(results[i]).Ok?
    ensures MainSpec(results) == ExtractInfoSpec(Filter(IsRecord, results))
    decreases |results|
  {
    if results != [] {
      var init := results[..|results| - 1];
      var last := results[|results| - 1];
      assert forall i :: 0 <= i < |init| ==> init[i] == results[i];
      MainIsExtractOfFilter(init);
      assert results == init + [last];
      FilterAppend(IsRecord, init, [last]);
      assert Filter(IsRecord, [last]) == if IsRecord(last) then [last] else [] by {
        assert [last][1..] == [];
      }
      MainStepAgrees(init, last, Filter(IsRecord, init));
    }
  }

  /** One more tested result changes `main` as it changes `_extract_info`
      of the records kept so far. */
  lemma MainStepAgrees(init: seq<Json>, last: Json, kept: seq<Json>)
    requires HasRecordType(last).Ok? && MainSpec(init) == ExtractInfoSpec(kept)
    ensures MainSpec(init + [last]) == ExtractInfoSpec(kept + if IsRecord(last) then [last] else [])
  {
    var xs := init + [last];
    assert xs[..|xs| - 1] == init && xs[|xs| - 1] == last;
    if IsRecord(last) {
      var ys := kept + [last];
      assert ys[..|ys| - 1] == kept && ys[|ys| - 1] == last;
      ExtractInfoStep(kept, last);
    } else {
      assert kept + [] == kept;
    }
  }

  /** One more record: `_extract_info` adds its entry, or raises. */
  lemma ExtractInfoStep(kept: seq<Json>, last: Json)
    ensures ExtractInfoSpec(kept + [last]) ==
      if ExtractInfoSpec(kept).Err? then ExtractInfoSpec(kept)
      else if UserEntry(last).Err? then Err(UserEntry(last).error)
      else Ok(ExtractInfoSpec(kept).value[UserEntry(last).value.0 := UserEntry(last).value.1])
  {
    var ys := kept + [last];
    assert ys[..|ys| - 1] == kept && ys[|ys| - 1] == last;
  }

  /** Only results with a `record_type` key reach the mapping: its keys are
      the `primary_id`s of those results. */
  lemma {:induction false} MainKeys(results: seq<Json>, k: Json)
    requires MainSpec(results).Ok?
    ensures k in MainSpec(results).value <==>
      exists i :: 0 <= i < |results| && IsRecord(results[i]) && Get(results[i], "primary_id") == Ok(k)
    decreases |results|
  {
    if results != [] {
      var init := results[..|results| - 1];
      MainKeys(init, k);
      assert forall i :: 0 <= i < |init| ==> init[i] == results[i];
      if exists i :: 0 <= i < |results| && IsRecord(results[i]) && Get(results[i], "primary_id") == Ok(k) {
        var i :| 0 <= i < |results| && IsRecord(results[i]) && Get(results[i], "primary_id") == Ok(k);
        if i < |init| {
          assert IsRecord(init[i]) && Get(init[i], "primary_id") == Ok(k);
        }
      }
    }
  }

  /** The lazy filter of `main` run alongside the extraction: the records
      kept before the first result whose test raises, and that exception.
      What `main` computes follows from them. */
  method ScanResults(results: seq<Json>) returns (kept: seq<Json>, failure: Option<Exc>)
    ensures failure.None? ==> MainSpec(results) == ExtractInfoSpec(kept)
    ensures failure.Some? ==>
      MainSpec(results) == if ExtractInfoSpec(kept).Err? then ExtractInfoSpec(kept) else Err(failure.value)
  {
    kept := [];
    failure := None;
    var i := 0;
    while i < |results| && failure.None?
      invariant 0 <= i <= |results|
      invariant failure.None? ==> MainSpec(results[..i]) == ExtractInfoSpec(kept)
      invariant failure.Some? ==>
                  0 < i && MainSpec(results[..i]) ==
                  (if ExtractInfoSpec(kept).Err? then ExtractInfoSpec(kept) else Err(failure.value))
    {
      ghost var prefix := results[..i];
      assert results[..i + 1] == prefix + [results[i]];
      var test := HasRecordType(results[i]);
      if test.Err? {
        MainStepFails(prefix, results[i]);
        failure := Some(test.error);
      } else {
        MainStepAgrees(prefix, results[i], kept);
        if test.value {
          kept := kept + [results[i]];
        } else {
          assert kept + [] == kept;
        }
      }
      i := i + 1;
    }
    if failure.Some? {
      MainSpecErrSticks(results, i);
    } else {
      assert results[..i] == results;
    }
  }

  /** `main`: query the truthy ids, keep the results that are records and
      extract their entries. The filter is evaluated up to the first result
      whose test raises; the records before it are extracted first. */
  method FetchBarcodes(userIds: seq<Json>, fetch: Json -> Json) returns (r: Result<map<Json, Json>>)
    ensures var q := QueriedIds(userIds);
      r == MainSpec(seq(|q|, i requires 0 <= i < |q| => fetch(q[i])))
  {
    var q := QueriedIds(userIds);
    var results := seq(|q|, i requires 0 <= i < |q| => fetch(q[i]));
    var kept, failure := ScanResults(results);
    var info := ExtractInfo(kept);
    if info.Err? {
      return Err(info.error);
    }
    if failure.Some? {
      return Err(failure.value);
    }
    r := Ok(info.value);
  }

  /** A result whose test raises ends `main` with that exception, unless the
      results before it already raised. */
  lemma MainStepFails(init: seq<Json>, last: Json)
    requires HasRecordType(last).Err?
    ensures MainSpec(init + [last]) == if MainSpec(init).Err? then MainSpec(init) else Err(HasRecordType(last).error)
  {
    assert (init + [last])[..|init|] == init;
    assert (init + [last])[|init|] == last;
  }

  /** Once a prefix of the results has raised, the whole run raises the same. */
  lemma {:induction false} MainSpecErrSticks(results: seq<Json>, n: int)
    requires 0 <= n <= |results| && MainSpec(results[..n]).Err?
    ensures MainSpec(results) == MainSpec(results[..n])
    decreases |results|
  {
    if n < |results| {
      var init := results[..|results| - 1];
      assert init[..n] == results[..n];
      MainSpecErrSticks(init, n);
    } else {
      assert results[..n] == results;
    }
  }
}
