/** Resource linkage in request bodies: the to-one links object `{type, id}`, the
    to-many array of them grouped by type, and what a relationship's `data` becomes
    once its type is checked and its keys verified
    (lib/jsonapi/request_parser.rb, `parse_to_one_links_object`,
    `parse_to_many_links_object`, `parse_to_one_relationship`,
    `parse_to_many_relationship`). */
module Linkage {
  import opened Values
  import opened Formatter
  import opened Resources

  /** The `{type:, id:}` hash of a links object. The type is nil only for a nil
      linkage; otherwise it is the unformatted type's name ("" when the type given
      was nil). */
  datatype LinkObject = LinkObject(linkType: Option<string>, id: Json)

  /** A links object as the source accepts it: a hash with exactly the keys
      `type` and `id`. */
  predicate WellFormedLinkage(raw: Json) {
    raw.JObj? && |raw.entries| == 2 && HasKey(raw.entries, "type") && HasKey(raw.entries, "id")
  }

  /** `parse_to_one_links_object`. */
  function ParseToOneLinksObject(kf: FormatterClass, raw: Json): (r: Result<LinkObject, Error>)
    ensures raw == JNull ==> r == Ok(LinkObject(None, JNull))
    ensures raw != JNull ==> (r.Ok? <==> WellFormedLinkage(raw))
    ensures r.Err? ==> r.error == InvalidLinksObject
    ensures r.Ok? && raw != JNull ==>
              && r.value.linkType == Some(NameOrEmpty(UnformatKeyJson(kf, Lookup(raw.entries, "type"))))
              && r.value.id == Lookup(raw.entries, "id")
    ensures r.Ok? && raw != JNull && Lookup(raw.entries, "type").JStr? ==>
              r.value.linkType == Some(UnformatKey(kf, Lookup(raw.entries, "type").s))
  {
    if raw == JNull then Ok(LinkObject(None, JNull))
    else if !WellFormedLinkage(raw) then Err(InvalidLinksObject)
    else
      var t := UnformatKeyJson(kf, Lookup(raw.entries, "type"));
      Ok(LinkObject(Some(NameOrEmpty(t)), Lookup(raw.entries, "id")))
  }

  /** A linkage built from a type in formatted form comes back with the type
      unformatted and the id untouched. */
  lemma ToOneLinkageRoundTrip(kf: FormatterClass, t: string, id: Json)
    ensures ParseToOneLinksObject(kf, JObj([("type", JStr(FormatKey(kf, t))), ("id", id)]))
            == Ok(LinkObject(Some(UnformatKey(kf, FormatKey(kf, t))), id))
  {
    var raw := JObj([("type", JStr(FormatKey(kf, t))), ("id", id)]);
    assert raw.entries[1].0 == "id";
    assert Lookup(raw.entries, "type") == JStr(FormatKey(kf, t));
    assert Get(raw.entries[1..], "id") == Some(id);
  }

  // ================================================================= to-many

  /** The hash `parse_to_many_links_object` builds: each type with its ids, in the
      order in which the types first appear. */
  type Groups = seq<(Option<string>, seq<Json>)>

  predicate HasGroup(groups: Groups, t: Option<string>) {
    exists i :: 0 <= i < |groups| && groups[i].0 == t
  }

  predicate DistinctTypes(groups: Groups) {
    forall i, j :: 0 <= i < j < |groups| ==> groups[i].0 != groups[j].0
  }

  /** `links_object[type]`, or [] when the type has no group. */
  function GroupIds(groups: Groups, t: Option<string>): seq<Json> {
    if groups == [] then []
    else if groups[0].0 == t then groups[0].1
    else GroupIds(groups[1..], t)
  }

  /** `links_object[type] ||= []` followed by `links_object[type].push(id)`. */
  function AddLink(groups: Groups, link: LinkObject): Groups {
    if groups == [] then [(link.linkType, [link.id])]
    else if groups[0].0 == link.linkType then [(groups[0].0, groups[0].1 + [link.id])] + groups[1..]
    else [groups[0]] + AddLink(groups[1..], link)
  }

  /** The push adds the link's type when it is new and appends the id to that
      type's list alone; types stay distinct. */
  lemma {:induction false} AddLinkSpec(groups: Groups, link: LinkObject)
    ensures var r := AddLink(groups, link);
      && (forall t :: HasGroup(r, t) <==> HasGroup(groups, t) || t == link.linkType)
      && (DistinctTypes(groups) ==> DistinctTypes(r))
      && (forall t :: GroupIds(r, t) == if t == link.linkType then GroupIds(groups, t) + [link.id] else GroupIds(groups, t))
      && (|r| == |groups| || |r| == |groups| + 1)
    decreases |groups|
  {
    var r := AddLink(groups, link);
    if groups == [] {
      assert r[0].0 == link.linkType;
    } else if groups[0].0 == link.linkType {
      assert forall i :: 0 <= i < |r| ==> r[i].0 == groups[i].0;
      assert forall t :: HasGroup(r, t) ==> HasGroup(groups, t);
      assert forall t :: HasGroup(groups, t) ==> HasGroup(r, t);
      assert r[1..] == groups[1..];
    } else {
      var rest := AddLink(groups[1..], link);
      AddLinkSpec(groups[1..], link);
      assert forall t :: HasGroup(groups, t) <==> groups[0].0 == t || HasGroup(groups[1..], t) by {
        forall t | HasGroup(groups, t) && groups[0].0 != t ensures HasGroup(groups[1..], t) {
          var i :| 0 <= i < |groups| && groups[i].0 == t;
          assert groups[1..][i - 1].0 == t;
        }
        forall t | HasGroup(groups[1..], t) ensures HasGroup(groups, t) {
          var i :| 0 <= i < |groups[1..]| && groups[1..][i].0 == t;
          assert groups[i + 1].0 == t;
        }
      }
      assert r == [groups[0]] + rest;
      assert forall t :: HasGroup(r, t) <==> groups[0].0 == t || HasGroup(rest, t) by {
        forall t | groups[0].0 == t ensures HasGroup(r, t) { assert r[0].0 == t; }
        forall t | HasGroup(r, t) && groups[0].0 != t ensures HasGroup(rest, t) {
          var i :| 0 <= i < |r| && r[i].0 == t;
          assert rest[i - 1].0 == t;
        }
        forall t | HasGroup(rest, t) ensures HasGroup(r, t) {
          var i :| 0 <= i < |rest| && rest[i].0 == t;
          assert r[i + 1].0 == t;
        }
      }
      assert r[1..] == rest;
      if DistinctTypes(groups) {
        assert DistinctTypes(groups[1..]) by {
          forall i, j | 0 <= i < j < |groups[1..]| ensures groups[1..][i].0 != groups[1..][j].0 {
            assert groups[1..][i] == groups[i + 1] && groups[1..][j] == groups[j + 1];
          }
        }
        assert !HasGroup(groups[1..], groups[0].0);
        assert !HasGroup(rest, groups[0].0);
        forall i, j | 0 <= i < j < |r| ensures r[i].0 != r[j].0 {
          if i == 0 {
            assert r[j] == rest[j - 1];
          } else {
            assert r[i] == rest[i - 1] && r[j] == rest[j - 1];
          }
        }
      }
    }
  }

  /** The ids of the links of type `t`, in input order. */
  function IdsOfType(links: seq<LinkObject>, t: Option<string>): seq<Json> {
    if links == [] then []
    else
      var init := IdsOfType(links[..|links| - 1], t);
      if links[|links| - 1].linkType == t then init + [links[|links| - 1].id] else init
  }

  /** The grouping loop of `parse_to_many_links_object`, as a fold. */
  function GroupLinks(links: seq<LinkObject>): Groups {
    if links == [] then [] else AddLink(GroupLinks(links[..|links| - 1]), links[|links| - 1])
  }

  /** Grouping loses and invents nothing: there is one group per type that occurs,
      and each group holds exactly the ids of that type, in input order. */
  lemma {:induction false} GroupLinksSpec(links: seq<LinkObject>)
    ensures var g := GroupLinks(links);
      && DistinctTypes(g)
      && (forall t :: HasGroup(g, t) <==> exists i :: 0 <= i < |links| && links[i].linkType == t)
      && (forall t :: GroupIds(g, t) == IdsOfType(links, t))
      && (g == [] <==> links == [])
    decreases |links|
  {
    if links != [] {
      var init := links[..|links| - 1];
      GroupLinksSpec(init);
      var last := links[|links| - 1];
      AddLinkSpec(GroupLinks(init), last);
      forall t ensures HasGroup(GroupLinks(links), t) <==> exists i :: 0 <= i < |links| && links[i].linkType == t {
        if exists i :: 0 <= i < |links| && links[i].linkType == t {
          var i :| 0 <= i < |links| && links[i].linkType == t;
          if i < |init| { assert init[i].linkType == t; }
        }
        if exists i :: 0 <= i < |init| && init[i].linkType == t {
          var i :| 0 <= i < |init| && init[i].linkType == t;
          assert links[i].linkType == t;
        }
      }
      assert HasGroup(GroupLinks(links), last.linkType);
    }
  }

  /** The links of an array linkage, the first malformed one raising. */
  function ParseLinks(kf: FormatterClass, items: seq<Json>): (r: Result<seq<LinkObject>, Error>)
    ensures r.Err? ==> r.error == InvalidLinksObject
  {
    if items == [] then Ok([])
    else
      var links :- ParseLinks(kf, items[..|items| - 1]);
      var last :- ParseToOneLinksObject(kf, items[|items| - 1]);
      Ok(links + [last])
  }

  /** The array parses exactly when every item does, one link per item, in order. */
  lemma {:induction false} ParseLinksSpec(kf: FormatterClass, items: seq<Json>)
    ensures ParseLinks(kf, items).Ok? <==> forall i :: 0 <= i < |items| ==> ParseToOneLinksObject(kf, items[i]).Ok?
    ensures ParseLinks(kf, items).Ok? ==> |ParseLinks(kf, items).value| == |items|
    ensures ParseLinks(kf, items).Ok? ==>
              forall i :: 0 <= i < |items| ==> ParseLinks(kf, items).value[i] == ParseToOneLinksObject(kf, items[i]).value
    decreases |items|
  {
    if items != [] {
      var init := items[..|items| - 1];
      var prev := ParseLinks(kf, init);
      var last := ParseToOneLinksObject(kf, items[|items| - 1]);
      assert forall i :: 0 <= i < |init| ==> init[i] == items[i];
      ParseLinksSpec(kf, init);
      if prev.Ok? && last.Ok? {
        var links := prev.value + [last.value];
        assert ParseLinks(kf, items) == Ok(links);
        forall i | 0 <= i < |items|
          ensures links[i] == ParseToOneLinksObject(kf, items[i]).value
        {
          if i < |init| {
            assert links[i] == prev.value[i];
          }
        }
      } else {
        assert ParseLinks(kf, items).Err?;
      }
    }
  }

  lemma ParseLinksSnoc(kf: FormatterClass, items: seq<Json>, i: nat)
    requires i < |items| && ParseLinks(kf, items[..i]).Ok? && ParseToOneLinksObject(kf, items[i]).Ok?
    ensures ParseLinks(kf, items[..i + 1]) == Ok(ParseLinks(kf, items[..i]).value + [ParseToOneLinksObject(kf, items[i]).value])
  {
    assert items[..i + 1][..i] == items[..i];
  }

  /** `parse_to_many_links_object`. */
  function ParseToManyLinksObject(kf: FormatterClass, raw: Json): (r: Result<Groups, Error>)
    ensures r.Err? ==> r.error == InvalidLinksObject
    ensures r.Ok? <==> raw.JArr? && ParseLinks(kf, raw.items).Ok?
  {
    match raw
    case JArr(items) =>
      var links :- ParseLinks(kf, items);
      Ok(GroupLinks(links))
    case _ => Err(InvalidLinksObject)
  }

  lemma GroupLinksSnoc(links: seq<LinkObject>, link: LinkObject)
    ensures GroupLinks(links + [link]) == AddLink(GroupLinks(links), link)
  {
    assert (links + [link])[..|links|] == links;
  }

  /** The loop of `parse_to_many_links_object`: each link parsed in turn and its id
      pushed onto its type's list. */
  method CollectLinks(kf: FormatterClass, items: seq<Json>) returns (r: Result<Groups, Error>)
    ensures r == ParseToManyLinksObject(kf, JArr(items))
  {
    var groups: Groups := [];
    ghost var links: seq<LinkObject> := [];
    var i := 0;
    while i < |items|
      invariant 0 <= i <= |items|
      invariant ParseLinks(kf, items[..i]) == Ok(links)
      invariant groups == GroupLinks(links)
    {
      var link := ParseToOneLinksObject(kf, items[i]);
      if link.Err? {
        ParseLinksSpec(kf, items);
        assert ParseLinks(kf, items).Err?;
        return Err(InvalidLinksObject);
      }
      ParseLinksSnoc(kf, items, i);
      GroupLinksSnoc(links, link.value);
      groups := AddLink(groups, link.value);
      links := links + [link.value];
      i := i + 1;
    }
    assert items[..i] == items;
    r := Ok(groups);
  }

  // ================================================================= relationships

  /** What a to-one relationship's data becomes: nothing, a verified key, or, for a
      polymorphic relationship, a verified key with its unformatted type. */
  datatype ToOneValue = NoLink | Key(id: Json) | PolymorphicKey(id: Json, keyType: string)

  /** The linkage of a to-one relationship value: nil stays nil, otherwise its
      `data` member. */
  function ToOneLinkage(linkValue: Json): (r: Result<Json, Error>)
    ensures linkValue == JNull ==> r == Ok(JNull)
    ensures linkValue.JObj? ==> r == Ok(Lookup(linkValue.entries, "data"))
  {
    if linkValue == JNull then Ok(JNull) else Index(linkValue, "data")
  }

  /** `parse_to_one_relationship`. `resource_klass.resource_for` resolves a type
      under the parser's own module path. */
  function ParseToOneRelationship(env: Env, linkValue: Json, rel: Relationship): (r: Result<ToOneValue, Error>) {
    var kf := env.keyFormatter;
    var linkage :- ToOneLinkage(linkValue);
    var link :- ParseToOneLinksObject(kf, linkage);
    if !rel.polymorphic && link.linkType.Some? && link.linkType.value != rel.relType then
      Err(TypeMismatch(link.linkType))
    else if link.id == JNull then Ok(NoLink)
    else
      var t := UnformatKey(kf, link.linkType.value);
      var target :- ResourceFor(env, env.resource.modulePath + t);
      var id :- target.verifyKey(link.id);
      if rel.polymorphic then Ok(PolymorphicKey(id, UnformatKey(kf, link.linkType.value))) else Ok(Key(id))
  }

  /** A nil relationship value, or a nil `data`, gives no link. */
  lemma ToOneNilLinkage(env: Env, linkValue: Json, rel: Relationship)
    requires linkValue == JNull || (linkValue.JObj? && Lookup(linkValue.entries, "data") == JNull)
    ensures ParseToOneRelationship(env, linkValue, rel) == Ok(NoLink)
  {
  }

  /** The rules a to-one linkage is held to: it is nil or exactly `{type, id}`; a
      type other than the declared one is refused unless the relationship is
      polymorphic; a non-nil id names a resource of that type and is verified by it. */
  lemma ToOneRules(env: Env, linkValue: Json, rel: Relationship)
    requires linkValue.JObj?
    ensures var data := Lookup(linkValue.entries, "data");
      var r := ParseToOneRelationship(env, linkValue, rel);
      && (data != JNull && !WellFormedLinkage(data) ==> r == Err(InvalidLinksObject))
      && (WellFormedLinkage(data) && !rel.polymorphic ==>
            var t := NameOrEmpty(UnformatKeyJson(env.keyFormatter, Lookup(data.entries, "type")));
            t != rel.relType ==> r == Err(TypeMismatch(Some(t))))
      && (r.Ok? && r.value != NoLink ==>
            && WellFormedLinkage(data)
            && var t := NameOrEmpty(UnformatKeyJson(env.keyFormatter, Lookup(data.entries, "type")));
               var name := env.resource.modulePath + UnformatKey(env.keyFormatter, t);
               && (!rel.polymorphic ==> t == rel.relType && r.value.Key?)
               && (rel.polymorphic ==> r.value == PolymorphicKey(r.value.id, UnformatKey(env.keyFormatter, t)))
               && name in env.registry
               && env.registry[name].verifyKey(Lookup(data.entries, "id")) == Ok(r.value.id))
  {
  }

  /** The linkage of a to-many relationship value: an empty array stands for no
      links, a hash gives its `data` member, anything else is malformed. */
  function ToManyLinkage(linkValue: Json): (r: Result<Json, Error>)
    ensures r.Err? <==> !linkValue.JObj? && linkValue != JArr([])
    ensures r.Err? ==> r.error == InvalidLinksObject
  {
    if linkValue == JArr([]) then Ok(JArr([]))
    else if linkValue.JObj? then Ok(Lookup(linkValue.entries, "data"))
    else Err(InvalidLinksObject)
  }

  /** `parse_to_many_relationship`: the verified keys of the single group, which
      must have the declared type. The error's type is read with a symbol key from
      a hash keyed by type names, so it is always nil. */
  function ParseToManyRelationship(env: Env, linkValue: Json, rel: Relationship): (r: Result<seq<Json>, Error>) {
    var kf := env.keyFormatter;
    var linkage :- ToManyLinkage(linkValue);
    var groups :- ParseToManyLinksObject(kf, linkage);
    GroupKeys(env, groups, rel)
  }

  /** The second half of `parse_to_many_relationship`: from the grouped links to
      the verified keys. */
  function GroupKeys(env: Env, groups: Groups, rel: Relationship): Result<seq<Json>, Error> {
    var kf := env.keyFormatter;
    if groups == [] then Ok([])
    else if |groups| > 1 || groups[0].0 != Some(UnformatKey(kf, rel.relType)) then Err(TypeMismatch(None))
    else
      var target :- ResourceFor(env, env.resource.modulePath + UnformatKey(kf, groups[0].0.value));
      VerifyKeys(target, groups[0].1)
  }

  /** The rules a to-many linkage is held to: nil, or anything but an array, is
      malformed; no links give no keys; links of more than one type, or of a type
      other than the declared one, are a type mismatch; otherwise every id, in
      input order, is verified by the resource of the declared type. */
  lemma ToManyRules(env: Env, linkValue: Json, rel: Relationship)
    requires linkValue.JObj?
    ensures var data := Lookup(linkValue.entries, "data");
      var r := ParseToManyRelationship(env, linkValue, rel);
      var kf := env.keyFormatter;
      && (!data.JArr? ==> r == Err(InvalidLinksObject))
      && (data == JArr([]) ==> r == Ok([]))
      && (data.JArr? && ParseLinks(kf, data.items).Ok? ==>
            var links := ParseLinks(kf, data.items).value;
            var declared := Some(UnformatKey(kf, rel.relType));
            && ((exists i :: 0 <= i < |links| && links[i].linkType != declared) ==> r == Err(TypeMismatch(None)))
            && (r.Ok? && links != [] ==>
                  var name := env.resource.modulePath + UnformatKey(kf, declared.value);
                  name in env.registry && r == VerifyKeys(env.registry[name], IdsOfType(links, declared))))
  {
    var data := Lookup(linkValue.entries, "data");
    var kf := env.keyFormatter;
    if data.JArr? && ParseLinks(kf, data.items).Ok? {
      var links := ParseLinks(kf, data.items).value;
      assert ParseToManyRelationship(env, linkValue, rel) == GroupKeys(env, GroupLinks(links), rel);
      GroupKeysRules(env, links, rel);
    }
  }

  /** The type rules on grouped links: any link whose type is not the declared one
      is a mismatch; otherwise the keys are the ids, in order, verified by the
      declared type's resource. */
  lemma GroupKeysRules(env: Env, links: seq<LinkObject>, rel: Relationship)
    ensures var r := GroupKeys(env, GroupLinks(links), rel);
      var kf := env.keyFormatter;
      var declared := Some(UnformatKey(kf, rel.relType));
      && ((exists i :: 0 <= i < |links| && links[i].linkType != declared) ==> r == Err(TypeMismatch(None)))
      && (r.Ok? && links != [] ==>
            var name := env.resource.modulePath + UnformatKey(kf, declared.value);
            name in env.registry && r == VerifyKeys(env.registry[name], IdsOfType(links, declared)))
  {
    var kf := env.keyFormatter;
    GroupLinksSpec(links);
    var g := GroupLinks(links);
    var declared := Some(UnformatKey(kf, rel.relType));
    if exists i :: 0 <= i < |links| && links[i].linkType != declared {
      var i :| 0 <= i < |links| && links[i].linkType != declared;
      assert HasGroup(g, links[i].linkType);
      if |g| == 1 {
        assert g[0].0 == links[i].linkType;
      }
    }
    if links != [] && g != [] && |g| == 1 && g[0].0 == declared {
      assert GroupIds(g, declared) == g[0].1;
    }
  }
}
