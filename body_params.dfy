/** The body of a create or update request: which keys are permitted
    (`verify_permitted_params`), how the permitted ones are translated into
    attributes and relationship values (`parse_params`, `unformat_value`), the
    type check (`verify_type`) and the key list of a destroy (`parse_key_array`),
    all in lib/jsonapi/request_parser.rb. */
module BodyParams {
  import opened Values
  import opened Strings
  import opened Inflector
  import opened Formatter
  import opened Resources
  import opened QueryParams
  import opened Linkage

  // ================================================================= permitted params

  /** The keys of a nested hash that are not permitted, in order. */
  function Disallowed(entries: seq<(string, Json)>, formatted: set<string>): seq<string> {
    if entries == [] then []
    else
      var last := entries[|entries| - 1];
      Disallowed(entries[..|entries| - 1], formatted) + (if last.0 in formatted then [] else [last.0])
  }

  /** A key is reported exactly when it is in the hash and not permitted. */
  lemma {:induction false} DisallowedSpec(entries: seq<(string, Json)>, formatted: set<string>)
    ensures forall k :: k in Disallowed(entries, formatted) <==> k !in formatted && exists j :: 0 <= j < |entries| && entries[j].0 == k
    ensures |Disallowed(entries, formatted)| <= |entries|
    decreases |entries|
  {
    if entries != [] {
      var init := entries[..|entries| - 1];
      DisallowedSpec(init, formatted);
      assert forall j :: 0 <= j < |init| ==> init[j] == entries[j];
    }
  }

  /** The entries of a nested hash that are permitted, in order. */
  function KeepAllowed(entries: seq<(string, Json)>, formatted: set<string>): seq<(string, Json)> {
    if entries == [] then []
    else
      var last := entries[|entries| - 1];
      KeepAllowed(entries[..|entries| - 1], formatted) + (if last.0 in formatted then [last] else [])
  }

  /** An entry is kept exactly when it is in the hash and permitted. */
  lemma {:induction false} KeepAllowedSpec(entries: seq<(string, Json)>, formatted: set<string>)
    ensures forall e :: e in KeepAllowed(entries, formatted) <==> e in entries && e.0 in formatted
    ensures |KeepAllowed(entries, formatted)| <= |entries|
    decreases |entries|
  {
    if entries != [] {
      var init := entries[..|entries| - 1];
      KeepAllowedSpec(init, formatted);
      assert entries == init + [entries[|entries| - 1]];
    }
  }

  /** What one top-level entry of the body contributes: the entry as it stays in
      the body (None when it is deleted) and the keys it reports. Relationships
      must be a hash (nothing else answers `keys`); attributes must be a hash or
      an array (nothing else answers `each`); `type` is never reported; `id` is
      reported unless it is permitted; every other key is reported and kept. */
  function PermitEntry(warnMode: bool, formatted: set<string>, e: (string, Json)): (r: Result<(Option<Json>, seq<string>), Error>)
    ensures e.0 == "relationships" ==> (r.Err? <==> !e.1.JObj?)
    ensures e.0 == "attributes" ==>
              (r.Err? <==> !e.1.JObj? && (e.1.JArr? ==> PermitItems(warnMode, formatted, e.1.items, 0, []).Err?))
    ensures e.0 != "relationships" && e.0 != "attributes" ==> r.Ok?
    ensures r.Err? ==> r.error == RubyError("NoMethodError")
  {
    if e.0 == "relationships" || (e.0 == "attributes" && e.1.JObj?) then
      if !e.1.JObj? then Err(RubyError("NoMethodError"))
      else
        var kept := if warnMode then JObj(KeepAllowed(e.1.entries, formatted)) else e.1;
        Ok((Some(kept), Disallowed(e.1.entries, formatted)))
    else if e.0 == "attributes" then
      if !e.1.JArr? then Err(RubyError("NoMethodError"))
      else
        var (left, reported) :- PermitItems(warnMode, formatted, e.1.items, 0, []);
        Ok((Some(JArr(left)), reported))
    else if e.0 == "type" then Ok((Some(e.1), []))
    else if e.0 == "id" then
      if "id" in formatted then Ok((Some(e.1), []))
      else Ok((if warnMode then None else Some(e.1), ["id"]))
    else Ok((Some(e.1), [e.0]))
  }

  /** Ruby's `Array#delete`: every element equal to `x` removed, the rest in order. */
  function DeleteAll(items: seq<Json>, x: Json): (r: seq<Json>)
    ensures |r| <= |items|
    ensures forall y :: y in r <==> y in items && y != x
  {
    if items == [] then []
    else (if items[0] == x then [] else [items[0]]) + DeleteAll(items[1..], x)
  }

  /** The `attributes` loop of `verify_permitted_params` when the value is an
      array. `each` walks the array by index, and each item's first element (the
      item itself when it is not an array) is the key, which must be a string to
      answer `to_sym`. A key not permitted is reported; in warn mode every copy of
      it is deleted from the array on the spot and the walk goes on at the next
      index, so the item that moved into the deleted one's place is never looked
      at. The result is the array as it is left and `reported` followed by the
      keys reported from index `i` on. */
  function PermitItems(warnMode: bool, formatted: set<string>, items: seq<Json>, i: nat, reported: seq<string>)
    : (r: Result<(seq<Json>, seq<string>), Error>)
    ensures r.Err? ==> r.error == RubyError("NoMethodError")
    decreases if i <= |items| then |items| - i else 0
  {
    if i >= |items| then Ok((items, reported))
    else
      var key := Destructure(items[i]).0;
      if !key.JStr? then Err(RubyError("NoMethodError"))
      else if key.s in formatted then PermitItems(warnMode, formatted, items, i + 1, reported)
      else
        var left := if warnMode then DeleteAll(items, key) else items;
        PermitItems(warnMode, formatted, left, i + 1, reported + [key.s])
  }

  /** The key `each` yields for an array item. */
  function ItemKey(item: Json): Json {
    Destructure(item).0
  }

  /** Raise mode deletes nothing, so every item is looked at: the walk fails exactly
      when some key from `i` on is not a string, and otherwise leaves the array as
      it is and reports exactly the keys that are not permitted, in order. */
  lemma {:induction false} PermitItemsRaiseMode(formatted: set<string>, items: seq<Json>, i: nat, reported: seq<string>)
    requires i <= |items|
    ensures var r := PermitItems(false, formatted, items, i, reported);
      && (r.Ok? <==> forall j :: i <= j < |items| ==> ItemKey(items[j]).JStr?)
      && (r.Ok? ==> r.value.0 == items && r.value.1 == reported + NotPermittedKeys(formatted, items[i..]))
    decreases |items| - i
  {
    if i < |items| {
      PermitItemsRaiseMode(formatted, items, i + 1, if ItemKey(items[i]).JStr? && ItemKey(items[i]).s !in formatted then reported + [ItemKey(items[i]).s] else reported);
      assert items[i..] == [items[i]] + items[i + 1..];
      if ItemKey(items[i]).JStr? {
        NotPermittedKeysCons(formatted, items[i..]);
      }
    } else {
      assert items[i..] == [];
    }
  }

  /** The keys of an array that are strings and not permitted, in order. */
  function NotPermittedKeys(formatted: set<string>, items: seq<Json>): seq<string> {
    if items == [] then []
    else
      var key := ItemKey(items[0]);
      (if key.JStr? && key.s !in formatted then [key.s] else []) + NotPermittedKeys(formatted, items[1..])
  }

  /** A key is listed exactly when some item has it and it is not permitted. */
  lemma {:induction false} NotPermittedKeysSpec(formatted: set<string>, items: seq<Json>)
    ensures forall k :: k in NotPermittedKeys(formatted, items) <==>
              k !in formatted && exists j :: 0 <= j < |items| && ItemKey(items[j]) == JStr(k)
    decreases |items|
  {
    if items != [] {
      NotPermittedKeysSpec(formatted, items[1..]);
      assert forall j :: 1 <= j < |items| ==> items[j] == items[1..][j - 1];
    }
  }

  lemma NotPermittedKeysCons(formatted: set<string>, items: seq<Json>)
    requires items != [] && ItemKey(items[0]).JStr?
    ensures NotPermittedKeys(formatted, items)
         == (if ItemKey(items[0]).s !in formatted then [ItemKey(items[0]).s] else []) + NotPermittedKeys(formatted, items[1..])
  {
  }

  /** Whatever the mode, the array left behind holds only items it started with. */
  lemma {:induction false} PermitItemsShrinks(warnMode: bool, formatted: set<string>, items: seq<Json>, i: nat, reported: seq<string>)
    requires PermitItems(warnMode, formatted, items, i, reported).Ok?
    ensures forall y :: y in PermitItems(warnMode, formatted, items, i, reported).value.0 ==> y in items
    decreases if i <= |items| then |items| - i else 0
  {
    if i < |items| {
      var key := ItemKey(items[i]);
      if key.s in formatted {
        PermitItemsShrinks(warnMode, formatted, items, i + 1, reported);
      } else {
        var left := if warnMode then DeleteAll(items, key) else items;
        PermitItemsShrinks(warnMode, formatted, left, i + 1, reported + [key.s]);
      }
    }
  }

  /** Warn mode: no key that was reported is left anywhere in the array. */
  lemma {:induction false} PermitItemsWarnMode(formatted: set<string>, items: seq<Json>, i: nat, reported: seq<string>)
    requires PermitItems(true, formatted, items, i, reported).Ok?
    requires forall k :: k in reported ==> JStr(k) !in items
    ensures var r := PermitItems(true, formatted, items, i, reported).value;
      forall k :: k in r.1 ==> JStr(k) !in r.0
    decreases if i <= |items| then |items| - i else 0
  {
    if i < |items| {
      var key := ItemKey(items[i]);
      if key.s in formatted {
        PermitItemsWarnMode(formatted, items, i + 1, reported);
      } else {
        PermitItemsWarnMode(formatted, DeleteAll(items, key), i + 1, reported + [key.s]);
      }
    }
  }

  /** The item after a deleted one is passed over: in warn mode, with nothing
      permitted, `["a", "b"]` reports only "a" and keeps "b". */
  lemma PermitItemsSkipsNext()
    ensures PermitItems(true, {}, [JStr("a"), JStr("b")], 0, []) == Ok(([JStr("b")], ["a"]))
  {
    var items := [JStr("a"), JStr("b")];
    assert DeleteAll(items, JStr("a")) == [JStr("b")] by {
      assert items[1..] == [JStr("b")];
      assert DeleteAll(items[1..], JStr("a")) == [JStr("b")] + DeleteAll([], JStr("a"));
    }
    assert [] + ["a"] == ["a"];
    assert PermitItems(true, {}, items, 0, []) == PermitItems(true, {}, [JStr("b")], 1, ["a"]);
  }

  /** The array loop, walking by index over an array that shrinks under it. */
  method PermitItemsLoop(warnMode: bool, formatted: set<string>, items: seq<Json>)
    returns (r: Result<(seq<Json>, seq<string>), Error>)
    ensures r == PermitItems(warnMode, formatted, items, 0, [])
  {
    var arr := items;
    var reported: seq<string> := [];
    var i := 0;
    while i < |arr|
      invariant PermitItems(warnMode, formatted, items, 0, []) == PermitItems(warnMode, formatted, arr, i, reported)
      decreases if i <= |arr| then |arr| - i else 0
    {
      var key := Destructure(arr[i]).0;
      if !key.JStr? {
        return Err(RubyError("NoMethodError"));
      }
      if key.s !in formatted {
        reported := reported + [key.s];
        if warnMode {
          arr := DeleteAll(arr, key);
        }
      }
      i := i + 1;
    }
    r := Ok((arr, reported));
  }

  /** The loop of `verify_permitted_params` over the body, as a fold: the body as
      it is left and every key reported, in order. */
  function Permit(warnMode: bool, formatted: set<string>, obj: Params): (r: Result<(Params, seq<string>), Error>)
    ensures r.Ok? <==> forall i :: 0 <= i < |obj| ==> PermitEntry(warnMode, formatted, obj[i]).Ok?
    ensures r.Err? ==> r.error == RubyError("NoMethodError")
  {
    if obj == [] then Ok(([], []))
    else
      var init := obj[..|obj| - 1];
      var last := obj[|obj| - 1];
      assert forall i :: 0 <= i < |init| ==> init[i] == obj[i];
      var prefix :- Permit(warnMode, formatted, init);
      var entry :- PermitEntry(warnMode, formatted, last);
      Ok((prefix.0 + EntryKept(last.0, entry.0), prefix.1 + entry.1))
  }

  /** The entry left in the body: none when it was deleted. */
  function EntryKept(key: string, value: Option<Json>): Params {
    match value
    case Some(v) => [(key, v)]
    case None => []
  }

  lemma PermitSnoc(warnMode: bool, formatted: set<string>, obj: Params, i: nat)
    requires i < |obj|
    requires Permit(warnMode, formatted, obj[..i]).Ok? && PermitEntry(warnMode, formatted, obj[i]).Ok?
    ensures var prefix := Permit(warnMode, formatted, obj[..i]).value;
      var entry := PermitEntry(warnMode, formatted, obj[i]).value;
      Permit(warnMode, formatted, obj[..i + 1]) == Ok((prefix.0 + EntryKept(obj[i].0, entry.0), prefix.1 + entry.1))
  {
    assert obj[..i + 1][..i] == obj[..i];
  }

  /** Everything an entry reports shows up in the report, and nothing else does. */
  lemma {:induction false} PermitReportSpec(warnMode: bool, formatted: set<string>, obj: Params)
    requires Permit(warnMode, formatted, obj).Ok?
    ensures forall k :: k in Permit(warnMode, formatted, obj).value.1 <==>
              exists i :: 0 <= i < |obj| && k in PermitEntry(warnMode, formatted, obj[i]).value.1
    decreases |obj|
  {
    if obj != [] {
      var init := obj[..|obj| - 1];
      PermitReportSpec(warnMode, formatted, init);
      assert forall i :: 0 <= i < |init| ==> init[i] == obj[i];
      var reported := Permit(warnMode, formatted, obj).value.1;
      var reported0 := Permit(warnMode, formatted, init).value.1;
      var bad := PermitEntry(warnMode, formatted, obj[|obj| - 1]).value.1;
      assert reported == reported0 + bad;
      forall k | exists i :: 0 <= i < |obj| && k in PermitEntry(warnMode, formatted, obj[i]).value.1
        ensures k in reported
      {
        var i :| 0 <= i < |obj| && k in PermitEntry(warnMode, formatted, obj[i]).value.1;
        if i < |init| { assert k in reported0; }
      }
    }
  }

  /** An entry stays in the body, with its possibly filtered value, exactly when
      it is not deleted. */
  lemma {:induction false} PermitKeptSpec(warnMode: bool, formatted: set<string>, obj: Params)
    requires Permit(warnMode, formatted, obj).Ok?
    ensures forall e :: e in Permit(warnMode, formatted, obj).value.0 <==>
              exists i :: 0 <= i < |obj| && obj[i].0 == e.0 && PermitEntry(warnMode, formatted, obj[i]).value.0 == Some(e.1)
    decreases |obj|
  {
    if obj != [] {
      var init := obj[..|obj| - 1];
      var last := obj[|obj| - 1];
      var kept := Permit(warnMode, formatted, obj).value.0;
      var kept0 := Permit(warnMode, formatted, init).value.0;
      var value := PermitEntry(warnMode, formatted, last).value.0;
      assert kept == kept0 + EntryKept(last.0, value);
      forall e: (string, Json) | exists i :: 0 <= i < |obj| && obj[i].0 == e.0 && PermitEntry(warnMode, formatted, obj[i]).value.0 == Some(e.1)
        ensures e in kept
      {
        var i :| 0 <= i < |obj| && obj[i].0 == e.0 && PermitEntry(warnMode, formatted, obj[i]).value.0 == Some(e.1);
        if i < |init| {
          assert init[i] == obj[i];
          PermitKeptSpec(warnMode, formatted, init);
          assert e in kept0;
        } else {
          assert i == |obj| - 1;
          assert EntryKept(last.0, value) == [(e.0, e.1)];
        }
      }
      forall e: (string, Json) | e in kept
        ensures exists i :: 0 <= i < |obj| && obj[i].0 == e.0 && PermitEntry(warnMode, formatted, obj[i]).value.0 == Some(e.1)
      {
        if e in kept0 {
          PermitKeptSpec(warnMode, formatted, init);
          var i :| 0 <= i < |init| && init[i].0 == e.0 && PermitEntry(warnMode, formatted, init[i]).value.0 == Some(e.1);
          assert init[i] == obj[i];
        } else {
          assert e in EntryKept(last.0, value);
          assert obj[|obj| - 1].0 == e.0;
        }
      }
    }
  }

  /** In raise mode nothing is deleted: the body is left as it came. */
  lemma {:induction false} PermitRaiseModeKeepsBody(formatted: set<string>, obj: Params)
    requires Permit(false, formatted, obj).Ok?
    ensures Permit(false, formatted, obj).value.0 == obj
    decreases |obj|
  {
    if obj != [] {
      var init := obj[..|obj| - 1];
      assert forall i :: 0 <= i < |init| ==> init[i] == obj[i];
      PermitRaiseModeKeepsBody(formatted, init);
      PermitEntryRules(false, formatted, obj[|obj| - 1]);
      assert obj == init + [obj[|obj| - 1]];
    }
  }

  /** `format_key(field).to_sym` of every permitted field. */
  function FormattedAllowed(env: Env, allowed: seq<string>): set<string> {
    FormattedNames(env.keyFormatter, allowed)
  }

  function NotAllowedWarnings(keys: seq<string>): (ws: seq<Warning>)
    ensures |ws| == |keys|
    ensures forall i :: 0 <= i < |keys| ==> ws[i] == ParamNotAllowedWarning(keys[i])
  {
    seq(|keys|, i requires 0 <= i < |keys| => ParamNotAllowedWarning(keys[i]))
  }

  /** `verify_permitted_params`: the body as it is left and the warnings to append,
      or ParametersNotAllowed with every reported key in raise mode. */
  function VerifyPermittedParams(env: Env, allowed: seq<string>, obj: Params): (r: Result<(Params, seq<Warning>), Error> ) {
    var raiseMode := env.config.raiseIfParametersNotAllowed;
    var (kept, reported) :- Permit(!raiseMode, FormattedAllowed(env, allowed), obj);
    if |reported| > 0 && raiseMode then Err(ParametersNotAllowed(reported))
    else Ok((kept, NotAllowedWarnings(reported)))
  }

  /** Raise mode: the body passes untouched and without warnings when every key is
      permitted; otherwise the error carries exactly the reported keys. */
  lemma VerifyPermittedRaiseMode(env: Env, allowed: seq<string>, obj: Params)
    requires env.config.raiseIfParametersNotAllowed
    requires Permit(false, FormattedAllowed(env, allowed), obj).Ok?
    ensures var reported := Permit(false, FormattedAllowed(env, allowed), obj).value.1;
      && (reported == [] ==> VerifyPermittedParams(env, allowed, obj) == Ok((obj, [])))
      && (reported != [] ==> VerifyPermittedParams(env, allowed, obj) == Err(ParametersNotAllowed(reported)))
  {
    PermitRaiseModeKeepsBody(FormattedAllowed(env, allowed), obj);
  }

  /** Warn mode: never fails once the body has the right shape, and appends exactly
      one "Param not allowed" warning per reported key, in order. */
  lemma VerifyPermittedWarnMode(env: Env, allowed: seq<string>, obj: Params)
    requires !env.config.raiseIfParametersNotAllowed
    requires Permit(true, FormattedAllowed(env, allowed), obj).Ok?
    ensures var (kept, reported) := Permit(true, FormattedAllowed(env, allowed), obj).value;
      var r := VerifyPermittedParams(env, allowed, obj);
      && r.Ok? && r.value.0 == kept
      && |r.value.1| == |reported|
      && forall i :: 0 <= i < |reported| ==>
           r.value.1[i].code == ParamNotAllowed && r.value.1[i].detail == reported[i] + " is not allowed."
  {
  }

  /** The rules for a single top-level key, in terms of the permitted names. */
  lemma PermitEntryRules(warnMode: bool, formatted: set<string>, e: (string, Json))
    ensures e.0 == "type" ==> PermitEntry(warnMode, formatted, e) == Ok((Some(e.1), []))
    ensures e.0 == "id" ==>
              (&& PermitEntry(warnMode, formatted, e).Ok?
               && (PermitEntry(warnMode, formatted, e).value.1 == ["id"] <==> "id" !in formatted)
               && (PermitEntry(warnMode, formatted, e).value.0 == None <==> warnMode && "id" !in formatted))
    ensures (e.0 == "attributes" || e.0 == "relationships") && e.1.JObj? ==>
              var r := PermitEntry(warnMode, formatted, e).value;
              && (forall k :: k in r.1 <==> k !in formatted && exists j :: 0 <= j < |e.1.entries| && e.1.entries[j].0 == k)
              && r.0.Some? && r.0.value.JObj?
              && (warnMode ==> forall x :: x in r.0.value.entries <==> x in e.1.entries && x.0 in formatted)
              && (!warnMode ==> r.0.value == e.1)
    ensures e.0 !in {"type", "id", "attributes", "relationships"} ==> PermitEntry(warnMode, formatted, e) == Ok((Some(e.1), [e.0]))
    ensures e.0 == "attributes" && e.1.JArr? && !warnMode ==>
              var r := PermitEntry(warnMode, formatted, e);
              && (r.Ok? <==> forall j :: 0 <= j < |e.1.items| ==> ItemKey(e.1.items[j]).JStr?)
              && (r.Ok? ==> r.value == (Some(e.1), NotPermittedKeys(formatted, e.1.items)))
    ensures e.0 == "attributes" && e.1.JArr? && warnMode && PermitEntry(warnMode, formatted, e).Ok? ==>
              var r := PermitEntry(warnMode, formatted, e).value;
              && r.0.Some? && r.0.value.JArr?
              && (forall y :: y in r.0.value.items ==> y in e.1.items)
              && (forall k :: k in r.1 ==> JStr(k) !in r.0.value.items)
  {
    if e.1.JObj? {
      DisallowedSpec(e.1.entries, formatted);
      KeepAllowedSpec(e.1.entries, formatted);
    } else if e.1.JArr? {
      if warnMode {
        if PermitItems(true, formatted, e.1.items, 0, []).Ok? {
          PermitItemsShrinks(true, formatted, e.1.items, 0, []);
          PermitItemsWarnMode(formatted, e.1.items, 0, []);
        }
      } else {
        PermitItemsRaiseMode(formatted, e.1.items, 0, []);
        assert e.1.items[0..] == e.1.items;
        assert [] + NotPermittedKeys(formatted, e.1.items) == NotPermittedKeys(formatted, e.1.items);
      }
    }
  }

  /** The nested loop over an attributes or relationships hash: each key not
      permitted is reported and, in warn mode, removed. */
  method FilterNested(warnMode: bool, formatted: set<string>, entries: seq<(string, Json)>)
    returns (kept: seq<(string, Json)>, reported: seq<string>)
    ensures kept == (if warnMode then KeepAllowed(entries, formatted) else entries)
    ensures reported == Disallowed(entries, formatted)
  {
    kept, reported := [], [];
    var i := 0;
    while i < |entries|
      invariant 0 <= i <= |entries|
      invariant kept == (if warnMode then KeepAllowed(entries[..i], formatted) else entries[..i])
      invariant reported == Disallowed(entries[..i], formatted)
    {
      assert entries[..i + 1][..i] == entries[..i];
      assert entries[..i + 1] == entries[..i] + [entries[i]];
      var (key, value) := entries[i];
      if key !in formatted {
        reported := reported + [key];
        if !warnMode {
          kept := kept + [(key, value)];
        }
      } else {
        kept := kept + [(key, value)];
      }
      i := i + 1;
    }
    assert entries[..i] == entries;
  }

  /** The loop of `verify_permitted_params` over the body. */
  method PermitLoop(warnMode: bool, formatted: set<string>, obj: Params) returns (r: Result<(Params, seq<string>), Error>)
    ensures r == Permit(warnMode, formatted, obj)
  {
    var kept: Params := [];
    var reported: seq<string> := [];
    var i := 0;
    while i < |obj|
      invariant 0 <= i <= |obj|
      invariant Permit(warnMode, formatted, obj[..i]) == Ok((kept, reported))
    {
      var (key, value) := obj[i];
      if PermitEntry(warnMode, formatted, obj[i]).Ok? {
        PermitSnoc(warnMode, formatted, obj, i);
      }
      if key == "attributes" && value.JArr? {
        var res := PermitItemsLoop(warnMode, formatted, value.items);
        if res.Err? {
          return Err(RubyError("NoMethodError"));
        }
        kept := kept + [(key, JArr(res.value.0))];
        reported := reported + res.value.1;
      } else if key == "relationships" || key == "attributes" {
        if !value.JObj? {
          assert !PermitEntry(warnMode, formatted, obj[i]).Ok?;
          return Err(RubyError("NoMethodError"));
        }
        var nested, bad := FilterNested(warnMode, formatted, value.entries);
        assert PermitEntry(warnMode, formatted, obj[i]) == Ok((Some(JObj(nested)), bad));
        kept := kept + [(key, JObj(nested))];
        reported := reported + bad;
      } else if key == "type" {
        assert reported + [] == reported;
        kept := kept + [(key, value)];
      } else if key == "id" {
        if "id" !in formatted {
          reported := reported + ["id"];
          if !warnMode {
            kept := kept + [(key, value)];
          } else {
            assert kept + [] == kept;
          }
        } else {
          assert reported + [] == reported;
          kept := kept + [(key, value)];
        }
      } else {
        reported := reported + [key];
        kept := kept + [(key, value)];
      }
      i := i + 1;
    }
    assert obj[..i] == obj;
    r := Ok((kept, reported));
  }

  // ================================================================= parse_params

  /** Ruby's `hash[key] = value` on an ordered hash: a present key keeps its place
      and takes the new value, a new key goes at the end. */
  function Put<V(!new)>(entries: seq<(string, V)>, k: string, v: V): seq<(string, V)> {
    if entries == [] then [(k, v)]
    else if entries[0].0 == k then [(k, v)] + entries[1..]
    else [entries[0]] + Put(entries[1..], k, v)
  }

  /** The assigned pair is in the hash afterwards, every other key keeps its
      entry, and nothing else is added. */
  lemma {:induction false} PutSpec<V(!new)>(entries: seq<(string, V)>, k: string, v: V)
    ensures |Put(entries, k, v)| == |entries| || |Put(entries, k, v)| == |entries| + 1
    ensures (k, v) in Put(entries, k, v)
    ensures forall e :: e in Put(entries, k, v) ==> e == (k, v) || e in entries
    ensures forall e :: e in entries && e.0 != k ==> e in Put(entries, k, v)
    decreases |entries|
  {
    if entries != [] && entries[0].0 != k {
      PutSpec(entries[1..], k, v);
      assert entries == [entries[0]] + entries[1..];
    }
  }

  /** `deep_transform_keys { |key| unformat_key(key) }` on a value: the keys of
      every hash inside it, at any depth, are unformatted; keys that become equal
      merge as hash assignment does. */
  function DeepUnformatKeys(kf: FormatterClass, v: Json): Json
    decreases v
  {
    match v
    case JArr(items) => JArr(seq(|items|, i requires 0 <= i < |items| => DeepUnformatKeys(kf, items[i])))
    case JObj(entries) =>
      JObj(Merge(seq(|entries|, i requires 0 <= i < |entries| =>
                       (UnformatKey(kf, entries[i].0), DeepUnformatKeys(kf, entries[i].1)))))
    case _ => v
  }

  /** Building a hash by assigning each entry in turn. */
  function Merge<V(!new)>(entries: seq<(string, V)>): seq<(string, V)> {
    if entries == [] then [] else Put(Merge(entries[..|entries| - 1]), entries[|entries| - 1].0, entries[|entries| - 1].1)
  }

  /** Entries with distinct keys are already a hash. */
  lemma {:induction false} MergeUnique<V(!new)>(entries: seq<(string, V)>)
    requires UniqueKeys(entries)
    ensures Merge(entries) == entries
    decreases |entries|
  {
    if entries != [] {
      var init := entries[..|entries| - 1];
      var last := entries[|entries| - 1];
      assert UniqueKeys(init) by {
        forall i, j | 0 <= i < j < |init| ensures init[i].0 != init[j].0 {
          assert init[i] == entries[i] && init[j] == entries[j];
        }
      }
      MergeUnique(init);
      assert !KeyIn(init, last.0);
      PutNew(init, last.0, last.1);
      assert entries == init + [last];
    }
  }

  /** Formatters whose `unformat` is the identity leave every value as it is. */
  lemma {:induction false} DeepUnformatIdentity(kf: FormatterClass, v: Json)
    requires kf !in {CamelizedKeyFormatter, CamelizedRouteFormatter, DasherizedKeyFormatter, DasherizedRouteFormatter}
    requires UniqueKeysDeep(v)
    ensures DeepUnformatKeys(kf, v) == v
    decreases v
  {
    match v
    case JArr(items) =>
      forall i | 0 <= i < |items| ensures DeepUnformatKeys(kf, items[i]) == items[i] {
        DeepUnformatIdentity(kf, items[i]);
      }
    case JObj(entries) =>
      forall i | 0 <= i < |entries| ensures DeepUnformatKeys(kf, entries[i].1) == entries[i].1 {
        DeepUnformatIdentity(kf, entries[i].1);
      }
      var mapped := seq(|entries|, i requires 0 <= i < |entries| =>
                          (UnformatKey(kf, entries[i].0), DeepUnformatKeys(kf, entries[i].1)));
      assert mapped == entries;
      MergeUnique(entries);
    case _ =>
  }

  /** A hash whose keys are all different, as every Ruby hash's are. */
  predicate UniqueKeys<V>(entries: seq<(string, V)>) {
    forall i, j :: 0 <= i < j < |entries| ==> entries[i].0 != entries[j].0
  }

  /** Every hash inside a value has distinct keys. */
  predicate UniqueKeysDeep(v: Json)
    decreases v
  {
    match v
    case JArr(items) => forall i :: 0 <= i < |items| ==> UniqueKeysDeep(items[i])
    case JObj(entries) => UniqueKeys(entries) && forall i :: 0 <= i < |entries| ==> UniqueKeysDeep(entries[i].1)
    case _ => true
  }

  /** Assigning a key the hash does not have appends it. */
  lemma {:induction false} PutNew<V(!new)>(entries: seq<(string, V)>, k: string, v: V)
    requires !KeyIn(entries, k)
    ensures Put(entries, k, v) == entries + [(k, v)]
    decreases |entries|
  {
    if entries != [] {
      PutNew(entries[1..], k, v);
    }
  }

  /** `unformat_key` applied to a key it produced changes nothing, so re-keying
      the parsed hashes keeps their keys. */
  lemma UnformatKeyIdempotent(kf: FormatterClass, k: string)
    ensures UnformatKey(kf, UnformatKey(kf, k)) == UnformatKey(kf, k)
  {
    DasherizeUnderscore(k);
  }

  /** The attribute values and relationship values `parse_params` returns. The
      to-one and to-many tables hold only the relationships the resource declares. */
  datatype ParsedParams = ParsedParams(
    attributes: seq<(string, Json)>,
    toOne: seq<(string, ToOneValue)>,
    toMany: seq<(string, seq<Json>)>)

  /** `unformat_value`: the value formatter named by the attribute's `format`
      option ("default" when it has none); a name no value formatter answers to
      leaves nil to be called. */
  function UnformatAttribute(env: Env, attr: string, value: Json): (r: Result<Json, Error>)
    ensures attr !in env.resource.attributeFormats ==> r == Ok(value)
    ensures attr in env.resource.attributeFormats && env.resource.attributeFormats[attr] in {"default", "id"} ==> r == Ok(value)
  {
    var format := if attr in env.resource.attributeFormats then env.resource.attributeFormats[attr] else "default";
    match ValueFormatterFor(format)
    case Some(vf) => Ok(UnformatValue(vf, value))
    case None => Err(RubyError("NoMethodError"))
  }

  /** The `attributes` loop of `parse_params`: each value under its unformatted key. */
  function ParseAttributes(env: Env, attrs: seq<(string, Json)>, acc: seq<(string, Json)>): (r: Result<seq<(string, Json)>, Error>)
    decreases |attrs|
  {
    if attrs == [] then Ok(acc)
    else
      var param := UnformatKey(env.keyFormatter, attrs[0].0);
      var value :- UnformatAttribute(env, param, attrs[0].1);
      ParseAttributes(env, attrs[1..], Put(acc, param, value))
  }

  /** The `attributes` loop of `parse_params` when the value is an array: each item
      gives a key and a value as `each` destructures it, and the key goes through
      `unformat_key`. A key that unformats to nil is left out. */
  function ParseAttributeItems(env: Env, items: seq<Json>, acc: seq<(string, Json)>): (r: Result<seq<(string, Json)>, Error>)
    decreases |items|
  {
    if items == [] then Ok(acc)
    else
      var (key, value) := Destructure(items[0]);
      match UnformatKeyJson(env.keyFormatter, key)
      case None => ParseAttributeItems(env, items[1..], acc)
      case Some(param) =>
        var v :- UnformatAttribute(env, param, value);
        ParseAttributeItems(env, items[1..], Put(acc, param, v))
  }

  /** An array of `[key, value]` pairs is read exactly as the hash of those pairs. */
  lemma {:induction false} ParseAttributeItemsPairs(env: Env, attrs: seq<(string, Json)>, acc: seq<(string, Json)>)
    ensures ParseAttributeItems(env, seq(|attrs|, i requires 0 <= i < |attrs| => JArr([JStr(attrs[i].0), attrs[i].1])), acc)
         == ParseAttributes(env, attrs, acc)
    decreases |attrs|
  {
    if attrs != [] {
      var items := seq(|attrs|, i requires 0 <= i < |attrs| => JArr([JStr(attrs[i].0), attrs[i].1]));
      assert Destructure(items[0]) == (JStr(attrs[0].0), attrs[0].1);
      assert items[1..] == seq(|attrs[1..]|, i requires 0 <= i < |attrs[1..]| => JArr([JStr(attrs[1..][i].0), attrs[1..][i].1]));
      var param := UnformatKey(env.keyFormatter, attrs[0].0);
      match UnformatAttribute(env, param, attrs[0].1)
      case Err(_) =>
      case Ok(v) => ParseAttributeItemsPairs(env, attrs[1..], Put(acc, param, v));
    }
  }

  /** A bare name in an attributes array is an attribute set to nil. */
  lemma ParseAttributeItemsName(env: Env, name: string, acc: seq<(string, Json)>)
    requires UnformatKey(env.keyFormatter, name) !in env.resource.attributeFormats
    ensures ParseAttributeItems(env, [JStr(name)], acc) == Ok(Put(acc, UnformatKey(env.keyFormatter, name), JNull))
  {
    assert [JStr(name)][1..] == [];
  }

  /** One link of the `relationships` loop of `parse_params`: a declared
      relationship parsed by its kind and assigned under the unformatted key, an
      undeclared one passed over. */
  function ParseLink(env: Env, link: (string, Json), acc: ParsedParams): (r: Result<ParsedParams, Error>)
    ensures r.Ok? ==> r.value.attributes == acc.attributes
  {
    var param := UnformatKey(env.keyFormatter, link.0);
    match RelationshipNamed(env.resource, param)
    case None => Ok(acc)
    case Some(rel) =>
      if rel.toMany then
        var keys :- ParseToManyRelationship(env, link.1, rel);
        Ok(acc.(toMany := Put(acc.toMany, param, keys)))
      else
        var value :- ParseToOneRelationship(env, link.1, rel);
        Ok(acc.(toOne := Put(acc.toOne, param, value)))
  }

  /** The `relationships` loop of `parse_params`. */
  function ParseRelationships(env: Env, links: seq<(string, Json)>, acc: ParsedParams): (r: Result<ParsedParams, Error>)
    ensures r.Ok? ==> r.value.attributes == acc.attributes
    decreases |links|
  {
    if links == [] then Ok(acc)
    else
      var next :- ParseLink(env, links[0], acc);
      ParseRelationships(env, links[1..], next)
  }

  /** One entry of the loop of `parse_params`: relationships and attributes must be
      hashes (attributes may also be an array), `id` goes into the attributes
      through its value formatter, anything else is passed over. */
  function ParseEntry(env: Env, entry: (string, Json), acc: ParsedParams): (r: Result<ParsedParams, Error>)
    ensures r.Ok? && entry.0 != "relationships" ==> r.value.toOne == acc.toOne && r.value.toMany == acc.toMany
    ensures r.Ok? && entry.0 != "id" && entry.0 != "attributes" ==> r.value.attributes == acc.attributes
  {
    var (key, value) := entry;
    if key == "relationships" then
      if value.JObj? then ParseRelationships(env, value.entries, acc) else Err(RubyError("NoMethodError"))
    else if key == "id" then
      var id :- UnformatAttribute(env, "id", value);
      Ok(acc.(attributes := Put(acc.attributes, "id", id)))
    else if key == "attributes" then
      if value.JObj? then
        var attrs :- ParseAttributes(env, value.entries, acc.attributes);
        Ok(acc.(attributes := attrs))
      else if value.JArr? then
        var attrs :- ParseAttributeItems(env, value.items, acc.attributes);
        Ok(acc.(attributes := attrs))
      else Err(RubyError("NoMethodError"))
    else Ok(acc)
  }

  /** The loop of `parse_params` over the permitted body. */
  function ParseEntries(env: Env, obj: Params, acc: ParsedParams): Result<ParsedParams, Error>
    decreases |obj|
  {
    if obj == [] then Ok(acc)
    else
      var next :- ParseEntry(env, obj[0], acc);
      ParseEntries(env, obj[1..], next)
  }

  function DeepToOne(kf: FormatterClass, v: ToOneValue): ToOneValue {
    match v
    case NoLink => NoLink
    case Key(id) => Key(DeepUnformatKeys(kf, id))
    case PolymorphicKey(id, t) => PolymorphicKey(DeepUnformatKeys(kf, id), t)
  }

  /** The final `deep_transform_keys` of `parse_params`, on the three tables. */
  function DeepTransform(kf: FormatterClass, p: ParsedParams): ParsedParams {
    var attrs := p.attributes;
    var toOne := p.toOne;
    var toMany := p.toMany;
    ParsedParams(
      DeepUnformatKeys(kf, JObj(attrs)).entries,
      Merge(seq(|toOne|, i requires 0 <= i < |toOne| => (UnformatKey(kf, toOne[i].0), DeepToOne(kf, toOne[i].1)))),
      Merge(seq(|toMany|, i requires 0 <= i < |toMany| =>
                  (UnformatKey(kf, toMany[i].0), seq(|toMany[i].1|, j requires 0 <= j < |toMany[i].1| => DeepUnformatKeys(kf, toMany[i].1[j]))))))
  }

  /** A result that carries the warnings appended on the way, whether or not it
      then raised. */
  datatype Parsed<T> = Parsed(result: Result<T, Error>, warnings: seq<Warning>)

  /** `parse_params`. */
  function ParseParams(env: Env, allowed: seq<string>, obj: Params): (r: Parsed<ParsedParams>)
    ensures VerifyPermittedParams(env, allowed, obj).Err? ==> r == Parsed(Err(VerifyPermittedParams(env, allowed, obj).error), [])
  {
    match VerifyPermittedParams(env, allowed, obj)
    case Err(e) => Parsed(Err(e), [])
    case Ok((kept, warnings)) =>
      match ParseEntries(env, kept, ParsedParams([], [], []))
      case Err(e) => Parsed(Err(e), warnings)
      case Ok(p) => Parsed(Ok(DeepTransform(env.keyFormatter, p)), warnings)
  }

  // ---------------------------------------------------------------- the parsed tables

  /** A hash as `parse_params` builds it: distinct keys, each already unformatted. */
  predicate Table<V>(kf: FormatterClass, t: seq<(string, V)>) {
    UniqueKeys(t) && forall i :: 0 <= i < |t| ==> UnformatKey(kf, t[i].0) == t[i].0
  }

  predicate DeclaredToOne(env: Env, name: string) {
    name in env.resource.relationships && !env.resource.relationships[name].toMany
  }

  predicate DeclaredToMany(env: Env, name: string) {
    name in env.resource.relationships && env.resource.relationships[name].toMany
  }

  /** What `parse_params` keeps true of its three hashes: each is a table, and every
      key of a relationship table names a declared relationship of that kind. */
  predicate Tables(env: Env, p: ParsedParams) {
    && Table(env.keyFormatter, p.attributes)
    && Table(env.keyFormatter, p.toOne) && Table(env.keyFormatter, p.toMany)
    && (forall i :: 0 <= i < |p.toOne| ==> DeclaredToOne(env, p.toOne[i].0))
    && (forall i :: 0 <= i < |p.toMany| ==> DeclaredToMany(env, p.toMany[i].0))
  }

  /** Assigning an unformatted key keeps a table a table, and every key afterwards
      is the new one or an old one. */
  lemma PutTable<V(!new)>(kf: FormatterClass, t: seq<(string, V)>, k: string, v: V)
    requires Table(kf, t) && UnformatKey(kf, k) == k
    ensures Table(kf, Put(t, k, v))
    ensures forall i :: 0 <= i < |Put(t, k, v)| ==> Put(t, k, v)[i].0 == k || KeyIn(t, Put(t, k, v)[i].0)
  {
    PutKeys(t, k, v);
    PutUnique(t, k, v);
  }

  /** Every key after an assignment is the assigned one or an old one. */
  lemma {:induction false} PutKeys<V(!new)>(t: seq<(string, V)>, k: string, v: V)
    ensures forall i :: 0 <= i < |Put(t, k, v)| ==> Put(t, k, v)[i].0 == k || KeyIn(t, Put(t, k, v)[i].0)
    decreases |t|
  {
    if t != [] && t[0].0 != k {
      var rest := t[1..];
      PutKeys(rest, k, v);
      var r := Put(rest, k, v);
      forall i | 0 <= i < |r| && r[i].0 != k ensures KeyIn(t, r[i].0) {
        var j :| 0 <= j < |rest| && rest[j].0 == r[i].0;
        assert t[j + 1].0 == r[i].0;
      }
    }
  }

  /** An assignment keeps the keys of a hash distinct. */
  lemma {:induction false} PutUnique<V(!new)>(t: seq<(string, V)>, k: string, v: V)
    requires UniqueKeys(t)
    ensures UniqueKeys(Put(t, k, v))
    decreases |t|
  {
    if t != [] {
      var rest := t[1..];
      assert forall i :: 0 <= i < |rest| ==> rest[i] == t[i + 1];
      if t[0].0 == k {
        var put := [(k, v)] + rest;
        assert forall i :: 1 <= i < |put| ==> put[i] == t[i];
      } else {
        PutUnique(rest, k, v);
        PutKeys(rest, k, v);
        var r := Put(rest, k, v);
        var put := [t[0]] + r;
        forall i | 0 <= i < |r| ensures r[i].0 != t[0].0 {
          if r[i].0 != k {
            var j :| 0 <= j < |rest| && rest[j].0 == r[i].0;
          }
        }
        assert forall i :: 1 <= i < |put| ==> put[i] == r[i - 1];
      }
    }
  }

  /** `unformat_key` of any value, when it gives a name, gives one already unformatted. */
  lemma UnformatKeyJsonUnformatted(kf: FormatterClass, v: Json)
    requires UnformatKeyJson(kf, v).Some?
    ensures UnformatKey(kf, UnformatKeyJson(kf, v).value) == UnformatKeyJson(kf, v).value
  {
    if v.JStr? {
      UnformatKeyIdempotent(kf, v.s);
    } else if kf in {CamelizedKeyFormatter, CamelizedRouteFormatter, DasherizedKeyFormatter, DasherizedRouteFormatter} {
      DasherizeUnderscore(ToS(v));
    }
  }

  /** Every formatter leaves the name "id" as it is. */
  lemma IdUnformatted(kf: FormatterClass)
    ensures UnformatKey(kf, "id") == "id"
  {
    UnderscoreFixesClean("id");
  }

  /** One step of the relationships loop keeps the tables. */
  lemma ParseLinkTables(env: Env, link: (string, Json), acc: ParsedParams)
    requires ParseLink(env, link, acc).Ok? && Tables(env, acc)
    ensures Tables(env, ParseLink(env, link, acc).value)
  {
    var kf := env.keyFormatter;
    var param := UnformatKey(kf, link.0);
    UnformatKeyIdempotent(kf, link.0);
    if param in env.resource.relationships {
      var rel := env.resource.relationships[param];
      if rel.toMany {
        PutTable(kf, acc.toMany, param, ParseToManyRelationship(env, link.1, rel).value);
      } else {
        PutTable(kf, acc.toOne, param, ParseToOneRelationship(env, link.1, rel).value);
      }
    }
  }

  /** The relationships loop keeps the tables. */
  lemma {:induction false} ParseRelationshipsTables(env: Env, links: seq<(string, Json)>, acc: ParsedParams)
    requires ParseRelationships(env, links, acc).Ok? && Tables(env, acc)
    ensures Tables(env, ParseRelationships(env, links, acc).value)
    decreases |links|
  {
    if links != [] {
      ParseLinkTables(env, links[0], acc);
      ParseRelationshipsTables(env, links[1..], ParseLink(env, links[0], acc).value);
    }
  }

  /** A relationship entry no link assigns again stays as it is. */
  lemma {:induction false} ParseRelationshipsFrame(env: Env, links: seq<(string, Json)>, acc: ParsedParams, k: string)
    requires ParseRelationships(env, links, acc).Ok?
    requires forall j :: 0 <= j < |links| ==> UnformatKey(env.keyFormatter, links[j].0) != k
    ensures forall v :: (k, v) in acc.toOne ==> (k, v) in ParseRelationships(env, links, acc).value.toOne
    ensures forall v :: (k, v) in acc.toMany ==> (k, v) in ParseRelationships(env, links, acc).value.toMany
    decreases |links|
  {
    if links != [] {
      var param := UnformatKey(env.keyFormatter, links[0].0);
      var next := ParseLink(env, links[0], acc).value;
      if param in env.resource.relationships {
        var rel := env.resource.relationships[param];
        if rel.toMany {
          PutSpec(acc.toMany, param, ParseToManyRelationship(env, links[0].1, rel).value);
        } else {
          PutSpec(acc.toOne, param, ParseToOneRelationship(env, links[0].1, rel).value);
        }
      }
      ParseRelationshipsFrame(env, links[1..], next, k);
    }
  }

  /** No later link unformats to the same name. */
  predicate LastLink(kf: FormatterClass, links: seq<(string, Json)>, j: int) {
    && 0 <= j < |links|
    && forall k :: j < k < |links| ==> UnformatKey(kf, links[k].0) != UnformatKey(kf, links[j].0)
  }

  /** A declared relationship is parsed by its kind and lands in that kind's table
      under its unformatted name, unless a later link overwrites it. */
  lemma {:induction false} ParseRelationshipsLink(env: Env, links: seq<(string, Json)>, acc: ParsedParams, j: nat)
    requires ParseRelationships(env, links, acc).Ok?
    requires LastLink(env.keyFormatter, links, j)
    requires UnformatKey(env.keyFormatter, links[j].0) in env.resource.relationships
    ensures var param := UnformatKey(env.keyFormatter, links[j].0);
      var rel := env.resource.relationships[param];
      var r := ParseRelationships(env, links, acc).value;
      && (!rel.toMany ==> ParseToOneRelationship(env, links[j].1, rel).Ok?
                          && (param, ParseToOneRelationship(env, links[j].1, rel).value) in r.toOne)
      && (rel.toMany ==> ParseToManyRelationship(env, links[j].1, rel).Ok?
                         && (param, ParseToManyRelationship(env, links[j].1, rel).value) in r.toMany)
    decreases |links|
  {
    var next := ParseLink(env, links[0], acc).value;
    if j == 0 {
      var param := UnformatKey(env.keyFormatter, links[0].0);
      var rel := env.resource.relationships[param];
      if rel.toMany {
        PutSpec(acc.toMany, param, ParseToManyRelationship(env, links[0].1, rel).value);
      } else {
        PutSpec(acc.toOne, param, ParseToOneRelationship(env, links[0].1, rel).value);
      }
      forall k | 0 <= k < |links[1..]| ensures UnformatKey(env.keyFormatter, links[1..][k].0) != param {
        assert links[1..][k] == links[k + 1];
      }
      ParseRelationshipsFrame(env, links[1..], next, param);
    } else {
      assert forall k :: 0 <= k < |links[1..]| ==> links[1..][k] == links[k + 1];
      ParseRelationshipsLink(env, links[1..], next, j - 1);
    }
  }

  /** The attributes loop over a hash keeps the attribute table a table. */
  lemma {:induction false} ParseAttributesTable(env: Env, attrs: seq<(string, Json)>, acc: seq<(string, Json)>)
    requires ParseAttributes(env, attrs, acc).Ok? && Table(env.keyFormatter, acc)
    ensures Table(env.keyFormatter, ParseAttributes(env, attrs, acc).value)
    decreases |attrs|
  {
    if attrs != [] {
      var kf := env.keyFormatter;
      var param := UnformatKey(kf, attrs[0].0);
      UnformatKeyIdempotent(kf, attrs[0].0);
      var v := UnformatAttribute(env, param, attrs[0].1).value;
      PutTable(kf, acc, param, v);
      ParseAttributesTable(env, attrs[1..], Put(acc, param, v));
    }
  }

  /** The attributes loop over an array keeps the attribute table a table. */
  lemma {:induction false} ParseAttributeItemsTable(env: Env, items: seq<Json>, acc: seq<(string, Json)>)
    requires ParseAttributeItems(env, items, acc).Ok? && Table(env.keyFormatter, acc)
    ensures Table(env.keyFormatter, ParseAttributeItems(env, items, acc).value)
    decreases |items|
  {
    if items != [] {
      var kf := env.keyFormatter;
      var (key, value) := Destructure(items[0]);
      match UnformatKeyJson(kf, key)
      case None => ParseAttributeItemsTable(env, items[1..], acc);
      case Some(param) =>
        UnformatKeyJsonUnformatted(kf, key);
        var v := UnformatAttribute(env, param, value).value;
        PutTable(kf, acc, param, v);
        ParseAttributeItemsTable(env, items[1..], Put(acc, param, v));
    }
  }

  /** One entry of the loop of `parse_params` keeps the tables. */
  lemma ParseEntryTables(env: Env, entry: (string, Json), acc: ParsedParams)
    requires ParseEntry(env, entry, acc).Ok? && Tables(env, acc)
    ensures Tables(env, ParseEntry(env, entry, acc).value)
  {
    var kf := env.keyFormatter;
    if entry.0 == "relationships" {
      ParseRelationshipsTables(env, entry.1.entries, acc);
    } else if entry.0 == "id" {
      IdUnformatted(kf);
      PutTable(kf, acc.attributes, "id", UnformatAttribute(env, "id", entry.1).value);
    } else if entry.0 == "attributes" {
      if entry.1.JObj? {
        ParseAttributesTable(env, entry.1.entries, acc.attributes);
      } else {
        ParseAttributeItemsTable(env, entry.1.items, acc.attributes);
      }
    }
  }

  /** The loop of `parse_params` keeps the tables. */
  lemma {:induction false} ParseEntriesTables(env: Env, obj: Params, acc: ParsedParams)
    requires ParseEntries(env, obj, acc).Ok? && Tables(env, acc)
    ensures Tables(env, ParseEntries(env, obj, acc).value)
    decreases |obj|
  {
    if obj != [] {
      ParseEntryTables(env, obj[0], acc);
      ParseEntriesTables(env, obj[1..], ParseEntry(env, obj[0], acc).value);
    }
  }

  /** Entries other than relationships leave the relationship tables alone, and
      entries other than `id` and attributes leave the attribute table alone. */
  lemma {:induction false} ParseEntriesFrame(env: Env, obj: Params, acc: ParsedParams)
    requires ParseEntries(env, obj, acc).Ok?
    ensures (forall k :: 0 <= k < |obj| ==> obj[k].0 != "relationships") ==>
              ParseEntries(env, obj, acc).value.toOne == acc.toOne && ParseEntries(env, obj, acc).value.toMany == acc.toMany
    ensures (forall k :: 0 <= k < |obj| ==> obj[k].0 != "id" && obj[k].0 != "attributes") ==>
              ParseEntries(env, obj, acc).value.attributes == acc.attributes
    decreases |obj|
  {
    if obj != [] {
      assert forall k :: 0 <= k < |obj[1..]| ==> obj[1..][k] == obj[k + 1];
      ParseEntriesFrame(env, obj[1..], ParseEntry(env, obj[0], acc).value);
    }
  }

  /** A declared relationship of the body lands in its kind's table, parsed by its
      kind, unless a later link overwrites it. */
  lemma {:induction false} ParseEntriesLink(env: Env, obj: Params, acc: ParsedParams, i: nat, j: nat)
    requires ParseEntries(env, obj, acc).Ok? && UniqueKeys(obj)
    requires i < |obj| && obj[i].0 == "relationships" && obj[i].1.JObj?
    requires LastLink(env.keyFormatter, obj[i].1.entries, j)
    requires UnformatKey(env.keyFormatter, obj[i].1.entries[j].0) in env.resource.relationships
    ensures var link := obj[i].1.entries[j];
      var param := UnformatKey(env.keyFormatter, link.0);
      var rel := env.resource.relationships[param];
      var r := ParseEntries(env, obj, acc).value;
      && (!rel.toMany ==> ParseToOneRelationship(env, link.1, rel).Ok?
                          && (param, ParseToOneRelationship(env, link.1, rel).value) in r.toOne)
      && (rel.toMany ==> ParseToManyRelationship(env, link.1, rel).Ok?
                         && (param, ParseToManyRelationship(env, link.1, rel).value) in r.toMany)
    decreases |obj|
  {
    var next := ParseEntry(env, obj[0], acc).value;
    var rest := obj[1..];
    assert forall k :: 0 <= k < |rest| ==> rest[k] == obj[k + 1];
    if i == 0 {
      ParseRelationshipsLink(env, obj[0].1.entries, acc, j);
      ParseEntriesFrame(env, rest, next);
    } else {
      assert UniqueKeys(rest);
      ParseEntriesLink(env, rest, next, i - 1, j);
    }
  }

  /** The `id` of the body goes into the attribute table through its value
      formatter, unless a later attributes entry assigns "id" again. */
  lemma {:induction false} ParseEntriesId(env: Env, obj: Params, acc: ParsedParams, i: nat)
    requires ParseEntries(env, obj, acc).Ok? && UniqueKeys(obj)
    requires i < |obj| && obj[i].0 == "id"
    requires forall k :: i < k < |obj| ==> obj[k].0 != "attributes"
    ensures UnformatAttribute(env, "id", obj[i].1).Ok?
    ensures ("id", UnformatAttribute(env, "id", obj[i].1).value) in ParseEntries(env, obj, acc).value.attributes
    decreases |obj|
  {
    var next := ParseEntry(env, obj[0], acc).value;
    var rest := obj[1..];
    assert forall k :: 0 <= k < |rest| ==> rest[k] == obj[k + 1];
    if i == 0 {
      PutSpec(acc.attributes, "id", UnformatAttribute(env, "id", obj[0].1).value);
      ParseEntriesFrame(env, rest, next);
    } else {
      assert UniqueKeys(rest);
      ParseEntriesId(env, rest, next, i - 1);
    }
  }

  /** Re-keying a table by `unformat_key` keeps its keys, so the final
      `deep_transform_keys` merges nothing. */
  lemma MergeRekeyed<V(!new), W(!new)>(kf: FormatterClass, t: seq<(string, V)>, m: seq<(string, W)>)
    requires Table(kf, t) && |m| == |t|
    requires forall i :: 0 <= i < |t| ==> m[i].0 == UnformatKey(kf, t[i].0)
    ensures Merge(m) == m && Table(kf, m)
  {
    assert forall i :: 0 <= i < |t| ==> m[i].0 == t[i].0;
    MergeUnique(m);
  }

  /** The final `deep_transform_keys` of `parse_params` on tables: every entry keeps
      its key and place, and only the hashes inside the values are re-keyed. */
  lemma DeepTransformTables(env: Env, p: ParsedParams)
    requires Tables(env, p)
    ensures var kf := env.keyFormatter;
      var q := DeepTransform(kf, p);
      && Tables(env, q)
      && |q.attributes| == |p.attributes|
      && (forall i :: 0 <= i < |p.attributes| ==> q.attributes[i] == (p.attributes[i].0, DeepUnformatKeys(kf, p.attributes[i].1)))
      && |q.toOne| == |p.toOne|
      && (forall i :: 0 <= i < |p.toOne| ==> q.toOne[i] == (p.toOne[i].0, DeepToOne(kf, p.toOne[i].1)))
      && |q.toMany| == |p.toMany|
      && (forall i :: 0 <= i < |p.toMany| ==>
            q.toMany[i] == (p.toMany[i].0, seq(|p.toMany[i].1|, j requires 0 <= j < |p.toMany[i].1| => DeepUnformatKeys(kf, p.toMany[i].1[j]))))
  {
    var kf := env.keyFormatter;
    var attrs := p.attributes;
    MergeRekeyed(kf, attrs, seq(|attrs|, i requires 0 <= i < |attrs| => (UnformatKey(kf, attrs[i].0), DeepUnformatKeys(kf, attrs[i].1))));
    DeepTransformToOneTable(env, p);
    DeepTransformToManyTable(env, p);
  }

  lemma DeepTransformToOneTable(env: Env, p: ParsedParams)
    requires Tables(env, p)
    ensures var kf := env.keyFormatter;
      var q := DeepTransform(kf, p).toOne;
      && Table(kf, q) && |q| == |p.toOne|
      && (forall i :: 0 <= i < |p.toOne| ==> q[i] == (p.toOne[i].0, DeepToOne(kf, p.toOne[i].1)))
  {
    var kf := env.keyFormatter;
    var toOne := p.toOne;
    MergeRekeyed(kf, toOne, seq(|toOne|, i requires 0 <= i < |toOne| => (UnformatKey(kf, toOne[i].0), DeepToOne(kf, toOne[i].1))));
  }

  lemma DeepTransformToManyTable(env: Env, p: ParsedParams)
    requires Tables(env, p)
    ensures var kf := env.keyFormatter;
      var q := DeepTransform(kf, p).toMany;
      && Table(kf, q) && |q| == |p.toMany|
      && (forall i :: 0 <= i < |p.toMany| ==>
            q[i] == (p.toMany[i].0, seq(|p.toMany[i].1|, j requires 0 <= j < |p.toMany[i].1| => DeepUnformatKeys(kf, p.toMany[i].1[j]))))
  {
    var kf := env.keyFormatter;
    var toMany := p.toMany;
    MergeRekeyed(kf, toMany, seq(|toMany|, i requires 0 <= i < |toMany| =>
                   (UnformatKey(kf, toMany[i].0), seq(|toMany[i].1|, j requires 0 <= j < |toMany[i].1| => DeepUnformatKeys(kf, toMany[i].1[j])))));
  }

  /** A to-one entry keeps its key through the final re-keying. */
  lemma DeepTransformToOne(env: Env, p: ParsedParams, k: string, v: ToOneValue)
    requires Tables(env, p) && (k, v) in p.toOne
    ensures (k, DeepToOne(env.keyFormatter, v)) in DeepTransform(env.keyFormatter, p).toOne
  {
    DeepTransformTables(env, p);
    var n :| 0 <= n < |p.toOne| && p.toOne[n] == (k, v);
    assert DeepTransform(env.keyFormatter, p).toOne[n] == (k, DeepToOne(env.keyFormatter, v));
  }

  /** A to-many entry keeps its key through the final re-keying. */
  lemma DeepTransformToMany(env: Env, p: ParsedParams, k: string, keys: seq<Json>)
    requires Tables(env, p) && (k, keys) in p.toMany
    ensures (k, seq(|keys|, j requires 0 <= j < |keys| => DeepUnformatKeys(env.keyFormatter, keys[j])))
            in DeepTransform(env.keyFormatter, p).toMany
  {
    DeepTransformTables(env, p);
    var n :| 0 <= n < |p.toMany| && p.toMany[n] == (k, keys);
    var got := DeepTransform(env.keyFormatter, p).toMany[n];
    var want := seq(|keys|, j requires 0 <= j < |keys| => DeepUnformatKeys(env.keyFormatter, keys[j]));
    assert got.0 == k && |got.1| == |want|;
    assert forall j :: 0 <= j < |want| ==> got.1[j] == want[j];
    assert got.1 == want;
    assert got == (got.0, got.1) == (k, want);
  }

  /** `verify_permitted_params` deletes entries but adds none, so the body it leaves
      has distinct keys when the body did. */
  lemma {:induction false} PermitKeysDistinct(warnMode: bool, formatted: set<string>, obj: Params)
    requires UniqueKeys(obj) && Permit(warnMode, formatted, obj).Ok?
    ensures UniqueKeys(Permit(warnMode, formatted, obj).value.0)
    decreases |obj|
  {
    if obj != [] {
      var init := obj[..|obj| - 1];
      var last := obj[|obj| - 1];
      assert forall i :: 0 <= i < |init| ==> init[i] == obj[i];
      assert UniqueKeys(init);
      PermitKeysDistinct(warnMode, formatted, init);
      PermitKeptSpec(warnMode, formatted, init);
      var kept0 := Permit(warnMode, formatted, init).value.0;
      var value := PermitEntry(warnMode, formatted, last).value.0;
      assert Permit(warnMode, formatted, obj).value.0 == kept0 + EntryKept(last.0, value);
      forall i | 0 <= i < |kept0| ensures kept0[i].0 != last.0 {
        assert kept0[i] in kept0;
        var j :| 0 <= j < |init| && init[j].0 == kept0[i].0 && PermitEntry(warnMode, formatted, init[j]).value.0 == Some(kept0[i].1);
      }
    }
  }

  /** The body `parse_params` parses: the one `verify_permitted_params` leaves. */
  function Permitted(env: Env, allowed: seq<string>, obj: Params): Params
    requires VerifyPermittedParams(env, allowed, obj).Ok?
  {
    VerifyPermittedParams(env, allowed, obj).value.0
  }

  /** `parse_params` on a body it accepts: the three hashes have distinct,
      unformatted keys; every key of the to-one hash names a declared to-one
      relationship and every key of the to-many hash a declared to-many one, so
      undeclared relationships are passed over. */
  lemma ParseParamsTables(env: Env, allowed: seq<string>, obj: Params)
    requires ParseParams(env, allowed, obj).result.Ok?
    ensures Tables(env, ParseParams(env, allowed, obj).result.value)
    ensures forall k :: RelationshipNamed(env.resource, k).None? ==>
              !KeyIn(ParseParams(env, allowed, obj).result.value.toOne, k)
              && !KeyIn(ParseParams(env, allowed, obj).result.value.toMany, k)
  {
    var kept := Permitted(env, allowed, obj);
    var p := ParseEntries(env, kept, ParsedParams([], [], [])).value;
    ParseEntriesTables(env, kept, ParsedParams([], [], []));
    DeepTransformTables(env, p);
  }

  /** `parse_params` on a body it accepts: a declared relationship of the permitted
      body is parsed by its kind and lands, under its unformatted name, in the to-one
      or the to-many hash, unless a later link overwrites it. */
  lemma ParseParamsLink(env: Env, allowed: seq<string>, obj: Params, i: nat, j: nat)
    requires UniqueKeys(obj) && ParseParams(env, allowed, obj).result.Ok?
    requires VerifyPermittedParams(env, allowed, obj).Ok?
    requires var kept := Permitted(env, allowed, obj);
      && i < |kept| && kept[i].0 == "relationships" && kept[i].1.JObj?
      && LastLink(env.keyFormatter, kept[i].1.entries, j)
      && UnformatKey(env.keyFormatter, kept[i].1.entries[j].0) in env.resource.relationships
    ensures var kf := env.keyFormatter;
      var link := Permitted(env, allowed, obj)[i].1.entries[j];
      var param := UnformatKey(kf, link.0);
      var rel := env.resource.relationships[param];
      var r := ParseParams(env, allowed, obj).result.value;
      && (!rel.toMany ==> ParseToOneRelationship(env, link.1, rel).Ok?
                          && (param, DeepToOne(kf, ParseToOneRelationship(env, link.1, rel).value)) in r.toOne)
      && (rel.toMany ==> ParseToManyRelationship(env, link.1, rel).Ok?
                         && var keys := ParseToManyRelationship(env, link.1, rel).value;
                            (param, seq(|keys|, k requires 0 <= k < |keys| => DeepUnformatKeys(kf, keys[k]))) in r.toMany)
  {
    var kept := Permitted(env, allowed, obj);
    PermitKeysDistinct(!env.config.raiseIfParametersNotAllowed, FormattedAllowed(env, allowed), obj);
    var p := ParseEntries(env, kept, ParsedParams([], [], [])).value;
    ParseEntriesTables(env, kept, ParsedParams([], [], []));
    ParseEntriesLink(env, kept, ParsedParams([], [], []), i, j);
    DeepTransformTables(env, p);
    var kf := env.keyFormatter;
    assert ParseParams(env, allowed, obj).result == Ok(DeepTransform(kf, p));
    var link := kept[i].1.entries[j];
    var param := UnformatKey(kf, link.0);
    var rel := env.resource.relationships[param];
    if rel.toMany {
      DeepTransformToMany(env, p, param, ParseToManyRelationship(env, link.1, rel).value);
    } else {
      DeepTransformToOne(env, p, param, ParseToOneRelationship(env, link.1, rel).value);
    }
  }

  /** `parse_params` on a body it accepts: the `id` of the permitted body is in the
      attributes under "id", through its value formatter, unless a later attributes
      entry assigns "id" again. */
  lemma ParseParamsId(env: Env, allowed: seq<string>, obj: Params, i: nat)
    requires UniqueKeys(obj) && ParseParams(env, allowed, obj).result.Ok?
    requires VerifyPermittedParams(env, allowed, obj).Ok?
    requires var kept := Permitted(env, allowed, obj);
      && i < |kept| && kept[i].0 == "id"
      && forall k :: i < k < |kept| ==> kept[k].0 != "attributes"
    ensures var v := Permitted(env, allowed, obj)[i].1;
      && UnformatAttribute(env, "id", v).Ok?
      && ("id", DeepUnformatKeys(env.keyFormatter, UnformatAttribute(env, "id", v).value)) in ParseParams(env, allowed, obj).result.value.attributes
  {
    var kept := Permitted(env, allowed, obj);
    PermitKeysDistinct(!env.config.raiseIfParametersNotAllowed, FormattedAllowed(env, allowed), obj);
    var p := ParseEntries(env, kept, ParsedParams([], [], [])).value;
    ParseEntriesTables(env, kept, ParsedParams([], [], []));
    ParseEntriesId(env, kept, ParsedParams([], [], []), i);
    DeepTransformTables(env, p);
  }

  /** With underscored keys and plain attributes, a body holding only permitted
      attributes comes back as its attributes, unchanged and in order. */
  lemma ParseParamsPlainAttributes(env: Env, allowed: seq<string>, attrs: seq<(string, Json)>)
    requires env.keyFormatter == UnderscoredKeyFormatter
    requires UniqueKeys(attrs)
    requires forall i :: 0 <= i < |attrs| ==>
               attrs[i].0 in FormattedAllowed(env, allowed) && attrs[i].0 !in env.resource.attributeFormats
               && UniqueKeysDeep(attrs[i].1)
    ensures ParseParams(env, allowed, [("attributes", JObj(attrs))]) == Parsed(Ok(ParsedParams(attrs, [], [])), [])
  {
    var obj: Params := [("attributes", JObj(attrs))];
    PermitAllAttributes(env, allowed, attrs);
    ParseAttributesPlain(env, attrs, []);
    assert [] + attrs == attrs;
    assert ParseAttributes(env, attrs, []) == Ok(attrs);
    assert ParseEntries(env, obj[1..], ParsedParams(attrs, [], [])) == Ok(ParsedParams(attrs, [], []));
    assert ParseEntries(env, obj, ParsedParams([], [], [])) == Ok(ParsedParams(attrs, [], []));
    assert UniqueKeysDeep(JObj(attrs));
    DeepUnformatIdentity(UnderscoredKeyFormatter, JObj(attrs));
    assert DeepTransform(UnderscoredKeyFormatter, ParsedParams(attrs, [], [])) == ParsedParams(attrs, [], []);
  }

  /** With underscored keys, an attributes array naming one permitted plain
      attribute gives that attribute the value nil. */
  lemma ParseParamsAttributeName(env: Env, allowed: seq<string>, name: string)
    requires env.keyFormatter == UnderscoredKeyFormatter
    requires name in FormattedAllowed(env, allowed) && name !in env.resource.attributeFormats
    ensures ParseParams(env, allowed, [("attributes", JArr([JStr(name)]))]) == Parsed(Ok(ParsedParams([(name, JNull)], [], [])), [])
  {
    var obj: Params := [("attributes", JArr([JStr(name)]))];
    PermitAttributeName(env, allowed, name);
    assert UnformatKey(env.keyFormatter, name) == name;
    ParseAttributeItemsName(env, name, []);
    assert ParseEntries(env, obj, ParsedParams([], [], [])) == Ok(ParsedParams([(name, JNull)], [], []));
    assert UniqueKeysDeep(JObj([(name, JNull)]));
    DeepUnformatIdentity(UnderscoredKeyFormatter, JObj([(name, JNull)]));
  }

  lemma PermitAttributeName(env: Env, allowed: seq<string>, name: string)
    requires name in FormattedAllowed(env, allowed)
    ensures VerifyPermittedParams(env, allowed, [("attributes", JArr([JStr(name)]))]) == Ok(([("attributes", JArr([JStr(name)]))], []))
  {
    var obj: Params := [("attributes", JArr([JStr(name)]))];
    var formatted := FormattedAllowed(env, allowed);
    var warnMode := !env.config.raiseIfParametersNotAllowed;
    assert PermitItems(warnMode, formatted, [JStr(name)], 0, []) == Ok(([JStr(name)], []));
    assert PermitEntry(warnMode, formatted, obj[0]) == Ok((Some(JArr([JStr(name)])), []));
    assert obj[..0] == [];
    PermitSnoc(warnMode, formatted, obj, 0);
    assert obj[..1] == obj;
    assert Permit(warnMode, formatted, obj[..0]) == Ok(([], []));
    assert EntryKept("attributes", Some(JArr([JStr(name)]))) == obj;
    assert Permit(warnMode, formatted, obj) == Ok(([] + obj, [] + []));
    assert [] + obj == obj;
  }

  lemma PermitAllAttributes(env: Env, allowed: seq<string>, attrs: seq<(string, Json)>)
    requires forall i :: 0 <= i < |attrs| ==> attrs[i].0 in FormattedAllowed(env, allowed)
    ensures VerifyPermittedParams(env, allowed, [("attributes", JObj(attrs))]) == Ok(([("attributes", JObj(attrs))], []))
  {
    var obj: Params := [("attributes", JObj(attrs))];
    var formatted := FormattedAllowed(env, allowed);
    var warnMode := !env.config.raiseIfParametersNotAllowed;
    DisallowedNone(attrs, formatted);
    KeepAllowedAll(attrs, formatted);
    assert PermitEntry(warnMode, formatted, obj[0]) == Ok((Some(JObj(attrs)), []));
    assert obj[..0] == [];
    PermitSnoc(warnMode, formatted, obj, 0);
    assert obj[..1] == obj;
    assert EntryKept("attributes", Some(JObj(attrs))) == obj;
    assert Permit(warnMode, formatted, obj[..0]) == Ok(([], []));
    assert Permit(warnMode, formatted, obj) == Ok(([] + obj, [] + []));
    assert [] + obj == obj;
  }

  lemma DisallowedNone(entries: seq<(string, Json)>, formatted: set<string>)
    requires forall i :: 0 <= i < |entries| ==> entries[i].0 in formatted
    ensures Disallowed(entries, formatted) == []
  {
  }

  lemma {:induction false} KeepAllowedAll(entries: seq<(string, Json)>, formatted: set<string>)
    requires forall i :: 0 <= i < |entries| ==> entries[i].0 in formatted
    ensures KeepAllowed(entries, formatted) == entries
    decreases |entries|
  {
    if entries != [] {
      var init := entries[..|entries| - 1];
      KeepAllowedAll(init, formatted);
      assert entries == init + [entries[|entries| - 1]];
    }
  }

  predicate KeyIn<V>(entries: seq<(string, V)>, k: string) {
    exists i :: 0 <= i < |entries| && entries[i].0 == k
  }

  lemma ParseAttributeStep(env: Env, attrs: seq<(string, Json)>, acc: seq<(string, Json)>)
    requires env.keyFormatter == UnderscoredKeyFormatter
    requires attrs != [] && attrs[0].0 !in env.resource.attributeFormats && !KeyIn(acc, attrs[0].0)
    ensures ParseAttributes(env, attrs, acc) == ParseAttributes(env, attrs[1..], acc + [attrs[0]])
  {
    var k := attrs[0].0;
    assert UnformatKey(env.keyFormatter, k) == k;
    assert UnformatAttribute(env, k, attrs[0].1) == Ok(attrs[0].1);
    PutNew(acc, k, attrs[0].1);
  }

  lemma {:induction false} ParseAttributesPlain(env: Env, attrs: seq<(string, Json)>, acc: seq<(string, Json)>)
    requires env.keyFormatter == UnderscoredKeyFormatter
    requires forall i :: 0 <= i < |attrs| ==> attrs[i].0 !in env.resource.attributeFormats && !KeyIn(acc, attrs[i].0)
    requires UniqueKeys(attrs)
    ensures ParseAttributes(env, attrs, acc) == Ok(acc + attrs)
    decreases |attrs|
  {
    if attrs != [] {
      ParseAttributeStep(env, attrs, acc);
      var acc' := acc + [attrs[0]];
      var rest := attrs[1..];
      forall i | 0 <= i < |rest| ensures rest[i].0 !in env.resource.attributeFormats && !KeyIn(acc', rest[i].0) {
        assert rest[i] == attrs[i + 1];
        assert !KeyIn(acc, rest[i].0);
        assert acc'[|acc|].0 != rest[i].0;
      }
      assert UniqueKeys(rest) by {
        forall i, j | 0 <= i < j < |rest| ensures rest[i].0 != rest[j].0 {
          assert rest[i] == attrs[i + 1] && rest[j] == attrs[j + 1];
        }
      }
      ParseAttributesPlain(env, rest, acc');
      assert acc' + rest == acc + attrs;
    } else {
      assert acc + attrs == acc;
    }
  }

  // ================================================================= type and keys

  /** `verify_type`: the type must be given and name the parser's resource once
      unformatted. */
  function VerifyType(env: Env, t: Json): (r: Result<(), Error>)
    ensures t == JNull ==> r == Err(ParameterMissing("type"))
    ensures t.JStr? ==> (r.Ok? <==> UnformatKey(env.keyFormatter, t.s) == env.resource.resourceType)
    ensures t.JStr? && r.Err? ==> r.error == InvalidResource(t)
  {
    if t == JNull then Err(ParameterMissing("type"))
    else
      match UnformatKeyJson(env.keyFormatter, t)
      case None => Err(RubyError("NoMethodError"))
      case Some(name) => if name != env.resource.resourceType then Err(InvalidResource(t)) else Ok(())
  }

  /** A type given in formatted form passes exactly when the key formatter
      round-trips the resource type. */
  lemma VerifyFormattedType(env: Env)
    ensures var t := JStr(FormatKey(env.keyFormatter, env.resource.resourceType));
      VerifyType(env, t).Ok? <==> UnformatKey(env.keyFormatter, FormatKey(env.keyFormatter, env.resource.resourceType)) == env.resource.resourceType
  {
  }

  /** `parse_key_array`: the comma-separated keys, each verified by the resource. */
  function ParseKeyArray(env: Env, raw: Json): (r: Result<seq<Json>, Error>)
    ensures !raw.JStr? ==> r.Err?
    ensures raw.JStr? ==> r == VerifyKeys(env.resource, SplitKeys(raw.s))
  {
    match raw
    case JStr(s) => VerifyKeys(env.resource, SplitKeys(s))
    case _ => Err(RubyError("NoMethodError"))
  }

  /** Keys without commas come back one per piece of their join. */
  lemma SplitKeysOfJoin(keys: seq<string>)
    requires |keys| >= 1 && NoSep(keys, ',') && keys[|keys| - 1] != ""
    ensures SplitKeys(Join(keys, ',')) == seq(|keys|, i requires 0 <= i < |keys| => JStr(keys[i]))
  {
    SplitJoin(keys, ',');
  }
}
