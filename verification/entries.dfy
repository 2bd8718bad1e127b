/** The loop shape that baseopenstackservice.py uses three times: walk a
    list of dict entries, and for each entry whose "type" equals a given
    string collect one of its fields ("data" of "ssh" and "x509" keys,
    "address" of "dns" services), keeping input order. */
module TypedEntries {
  import opened JsonValues

  /** One iteration: `entry["type"]` is read first; only a matching entry has
      `entry[field]` read, and then contributes it. */
  function SelectedField(entry: Json, wanted: string, field: string): (r: Result<seq<Json>>)
    ensures r.Ok? <==>
      entry.JObj? && "type" in entry.fields && (entry.fields["type"] == JStr(wanted) ==> field in entry.fields)
    ensures r.Ok? && entry.fields["type"] == JStr(wanted) ==> r.value == [entry.fields[field]]
    ensures r.Ok? && entry.fields["type"] != JStr(wanted) ==> r.value == []
  {
    var ty :- Subscript(entry, "type");
    if ty == JStr(wanted) then
      var v :- Subscript(entry, field);
      Ok([v])
    else
      Ok([])
  }

  /** The loop over `entries`: the collected fields of the entries of type
      `wanted`, or the fault of the first entry the body raises on. */
  function SelectByType(entries: seq<Json>, wanted: string, field: string): Result<seq<Json>>
    decreases |entries|
  {
    if entries == [] then Ok([])
    else
      var init :- SelectByType(entries[..|entries| - 1], wanted, field);
      var last :- SelectedField(entries[|entries| - 1], wanted, field);
      Ok(init + last)
  }

  /** `entries` is a list the loop runs through without raising. */
  ghost predicate Selectable(entries: seq<Json>, wanted: string, field: string) {
    forall i :: 0 <= i < |entries| ==>
      && entries[i].JObj? && "type" in entries[i].fields
      && (entries[i].fields["type"] == JStr(wanted) ==> field in entries[i].fields)
  }

  /** `v` is the `field` of an entry of type `wanted`. */
  ghost predicate IsSelected(entries: seq<Json>, wanted: string, field: string, v: Json)
    requires Selectable(entries, wanted, field)
  {
    exists i :: 0 <= i < |entries| && entries[i].fields["type"] == JStr(wanted) && entries[i].fields[field] == v
  }

  /** The loop succeeds exactly when every entry is a dict with a "type" and
      every entry of type `wanted` has `field`; then it collects exactly the
      `field` values of the entries of type `wanted`, and ignores the rest. */
  lemma {:induction false} SelectByTypeCharacterised(entries: seq<Json>, wanted: string, field: string)
    ensures SelectByType(entries, wanted, field).Ok? <==> Selectable(entries, wanted, field)
    ensures SelectByType(entries, wanted, field).Ok? ==>
      forall v :: v in SelectByType(entries, wanted, field).value <==> IsSelected(entries, wanted, field, v)
    decreases |entries|
  {
    if entries != [] {
      var init := entries[..|entries| - 1];
      var last := entries[|entries| - 1];
      SelectByTypeCharacterised(init, wanted, field);
      assert entries == init + [last];
      if SelectByType(entries, wanted, field).Ok? {
        forall v
          ensures v in SelectByType(entries, wanted, field).value <==> IsSelected(entries, wanted, field, v)
        {
          if IsSelected(entries, wanted, field, v) {
            var i :| 0 <= i < |entries| && entries[i].fields["type"] == JStr(wanted) && entries[i].fields[field] == v;
            if i < |init| {
              assert IsSelected(init, wanted, field, v) by { assert init[i] == entries[i]; }
            }
          }
          if v in SelectByType(init, wanted, field).value {
            var i :| 0 <= i < |init| && init[i].fields["type"] == JStr(wanted) && init[i].fields[field] == v;
            assert entries[i] == init[i];
          }
        }
      } else if SelectByType(init, wanted, field).Ok? {
        assert !Selectable(entries, wanted, field) by {
          assert SelectedField(entries[|init|], wanted, field).Fail?;
        }
      } else {
        var i :| 0 <= i < |init| && !(
          && init[i].JObj? && "type" in init[i].fields
          && (init[i].fields["type"] == JStr(wanted) ==> field in init[i].fields));
        assert entries[i] == init[i];
      }
    }
  }

  /** Selection keeps input order: the entries of a concatenation contribute
      the first part's fields followed by the second part's. */
  lemma {:induction false} SelectByTypeAppend(xs: seq<Json>, ys: seq<Json>, wanted: string, field: string)
    requires SelectByType(xs + ys, wanted, field).Ok?
    ensures SelectByType(xs, wanted, field).Ok? && SelectByType(ys, wanted, field).Ok?
    ensures SelectByType(xs + ys, wanted, field).value
         == SelectByType(xs, wanted, field).value + SelectByType(ys, wanted, field).value
    decreases |ys|
  {
    if ys == [] {
      assert xs + ys == xs;
    } else {
      var init := ys[..|ys| - 1];
      var last := ys[|ys| - 1];
      assert (xs + ys)[..|xs + ys| - 1] == xs + init;
      assert (xs + ys)[|xs + ys| - 1] == last;
      SelectByTypeAppend(xs, init, wanted, field);
    }
  }

  /** A fault of the `i`-th entry, after `i` entries that pass, is the fault
      of the whole loop: later entries are never looked at. */
  lemma {:induction false} SelectByTypeStopsAt(entries: seq<Json>, wanted: string, field: string, i: nat, n: nat)
    requires i < n <= |entries|
    requires SelectByType(entries[..i], wanted, field).Ok?
    requires SelectedField(entries[i], wanted, field).Fail?
    ensures SelectByType(entries[..n], wanted, field) == Fail(SelectedField(entries[i], wanted, field).fault)
    decreases n
  {
    assert entries[..n][..n - 1] == entries[..n - 1];
    if n - 1 > i {
      SelectByTypeStopsAt(entries, wanted, field, i, n - 1);
    }
  }

  /** The loop itself: `for entry in entries: if entry["type"] == wanted:
      collected.append(entry[field])`. */
  method CollectByType(entries: seq<Json>, wanted: string, field: string) returns (r: Result<seq<Json>>)
    ensures r == SelectByType(entries, wanted, field)
  {
    var collected: seq<Json> := [];
    for i := 0 to |entries|
      invariant SelectByType(entries[..i], wanted, field) == Ok(collected)
    {
      assert entries[..i + 1][..i] == entries[..i];
      assert entries[..i + 1][i] == entries[i];
      var ty := Subscript(entries[i], "type");
      if ty.Fail? {
        SelectByTypeStopsAt(entries, wanted, field, i, |entries|);
        assert entries[..|entries|] == entries;
        return Fail(ty.fault);
      }
      if ty.value == JStr(wanted) {
        var v := Subscript(entries[i], field);
        if v.Fail? {
          SelectByTypeStopsAt(entries, wanted, field, i, |entries|);
          assert entries[..|entries|] == entries;
          return Fail(v.fault);
        }
        collected := collected + [v.value];
      } else {
        assert collected + [] == collected;
      }
    }
    assert entries[..|entries|] == entries;
    return Ok(collected);
  }
}
