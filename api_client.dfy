/** The browser/CLI client of the GraphQL gateway: the selection sets it
    builds from a projection (`genBody`, `fields`, `bodies`), the check it
    makes on a JWT before reading its payload, the way it turns an HTTP
    outcome into a result or a thrown value, and the state its factory
    closure keeps (trace, cache, token). */
module ApiClient {
  import opened Common
  import opened Lists
  import Store

  // ---------------------------------------------------------------------
  // Selection sets
  // ---------------------------------------------------------------------

  /** A projection object: its keys in key order, each with the truthiness of
      its value. A truthy first value makes it a whitelist, a falsy one a
      blacklist. */
  type Projection = seq<(string, bool)>

  const MixingMessage := "Mixing white and blacklist techniques"

  /** `Object.keys(projection)` */
  function Keys(p: Projection): (ks: seq<string>)
    ensures |ks| == |p| && forall i :: 0 <= i < |p| ==> ks[i] == p[i].0
  {
    seq(|p|, i requires 0 <= i < |p| => p[i].0)
  }

  /** `projection || {}`: an absent projection is an empty one. */
  function OrEmpty(p: Option<Projection>): Projection
  {
    p.GetOr([])
  }

  /** Some value's truthiness differs from that of the first value. */
  predicate Mixes(p: Projection)
  {
    exists i :: 0 <= i < |p| && p[i].1 != p[0].1
  }

  predicate IsWhitelist(p: Projection)
  {
    |p| > 0 && p[0].1
  }

  /** `[...possibleFields].filter((field) => !keys.includes(field))` */
  function Without(possible: seq<string>, keys: seq<string>): seq<string>
  {
    if possible == [] then []
    else if possible[0] in keys then Without(possible[1..], keys)
    else [possible[0]] + Without(possible[1..], keys)
  }

  /** The fields a projection selects: the whitelisted keys, or the possible
      fields minus the blacklisted keys. */
  function Selected(possible: seq<string>, p: Projection): seq<string>
  {
    if IsWhitelist(p) then Keys(p) else Without(possible, Keys(p))
  }

  /** `fields.filter((v) => !v.includes('.'))` */
  function Plain(fields: seq<string>): seq<string>
  {
    if fields == [] then []
    else if '.' in fields[0] then Plain(fields[1..])
    else [fields[0]] + Plain(fields[1..])
  }

  /** `fields.filter((v) => v.includes('.'))` */
  function DottedOnly(fields: seq<string>): seq<string>
  {
    if fields == [] then []
    else if '.' in fields[0] then [fields[0]] + DottedOnly(fields[1..])
    else DottedOnly(fields[1..])
  }

  /** `const [parent, child] = field.split('.')`: the first two pieces; a
      missing second piece is `undefined`, which `join` prints as "". */
  function Parent(field: string): string
  {
    Split(field, '.')[0]
  }

  function Child(field: string): string
  {
    var parts := Split(field, '.');
    if |parts| > 1 then parts[1] else ""
  }

  /** The `complexFields` object: its keys in insertion order and the
      children collected under each. */
  datatype Groups = Groups(order: seq<string>, children: map<string, seq<string>>)

  /** One step of the grouping loop: a parent seen for the first time opens a
      new group, a known one gets the child appended. */
  function AddField(g: Groups, field: string): Groups
  {
    var parent := Parent(field);
    if parent in g.children then Groups(g.order, g.children[parent := g.children[parent] + [Child(field)]])
    else Groups(g.order + [parent], g.children[parent := [Child(field)]])
  }

  /** The grouping of a list of dotted fields, field by field from the left. */
  function Grouped(fields: seq<string>): Groups
  {
    if fields == [] then Groups([], map[])
    else AddField(Grouped(fields[..|fields| - 1]), fields[|fields| - 1])
  }

  /** Reference definition: the children of `parent`, in field order. */
  function ChildrenOf(fields: seq<string>, parent: string): seq<string>
  {
    if fields == [] then []
    else ChildrenOf(fields[..|fields| - 1], parent)
         + (if Parent(fields[|fields| - 1]) == parent then [Child(fields[|fields| - 1])] else [])
  }

  /** ` parent {child child ...}` */
  function Fragment(parent: string, children: seq<string>): string
  {
    " " + parent + " {" + Join(children, " ") + "}"
  }

  /** The fragments of the groups in `order`, concatenated. */
  function GroupsText(order: seq<string>, children: map<string, seq<string>>): string
  {
    if order == [] then ""
    else
      var last := order[|order| - 1];
      GroupsText(order[..|order| - 1], children) + Fragment(last, if last in children then children[last] else [])
  }

  /** The text for a list of selected fields: the plain fields joined by spaces,
      then one fragment per dotted parent. */
  function Render(fields: seq<string>): string
  {
    var g := Grouped(DottedOnly(fields));
    Join(Plain(fields), " ") + GroupsText(g.order, g.children)
  }

  /** The properties every object literal inherits from `Object.prototype`:
      `name in {}` holds for each of them, and none of them is an array. */
  const InheritedNames: set<string> :=
    {"constructor", "__proto__", "__defineGetter__", "__defineSetter__", "__lookupGetter__",
     "__lookupSetter__", "hasOwnProperty", "isPrototypeOf", "propertyIsEnumerable",
     "toLocaleString", "toString", "valueOf"}

  /** The TypeError `complexFields[parent].push(child)` throws when `parent`
      names an inherited property. */
  const PushTypeError := "complexFields[parent].push is not a function"

  /** Some field's parent is the name of an inherited property. */
  predicate InheritsParent(fields: seq<string>)
  {
    exists f :: f in fields && Parent(f) in InheritedNames
  }

  /** What `genBody(possibleFields, projection)` returns or throws. */
  function Body(possible: seq<string>, p: Projection): Result<string>
  {
    if Mixes(p) then Err(MixingMessage)
    else if InheritsParent(DottedOnly(Selected(possible, p))) then Err(PushTypeError)
    else Ok(Render(Selected(possible, p)))
  }

  /** `genBody`: checks the projection, selects the fields and groups the
      dotted ones under their parents. */
  method GenBody(possibleFields: seq<string>, projection: Option<Projection>) returns (r: Result<string>)
    ensures r == Body(possibleFields, OrEmpty(projection))
    ensures r.Err? <==> Mixes(OrEmpty(projection)) || InheritsParent(DottedOnly(Selected(possibleFields, OrEmpty(projection))))
    ensures Mixes(OrEmpty(projection)) ==> r == Err(MixingMessage)
    ensures r.Err? && !Mixes(OrEmpty(projection)) ==> r.message == PushTypeError
  {
    var p := OrEmpty(projection);
    var fields := Keys(p);
    var whitelist := false;

    if |fields| > 0 {
      whitelist := p[0].1;
      for i := 0 to |p|
        invariant forall k :: 0 <= k < i ==> p[k].1 == whitelist
      {
        if (p[i].1 && !whitelist) || (!p[i].1 && whitelist) {
          return Err(MixingMessage);
        }
      }
    }
    assert !Mixes(p);
    assert whitelist == IsWhitelist(p);

    if !whitelist {
      fields := Without(possibleFields, fields);
    }

    var res := Join(Plain(fields), " ");
    var dotted := DottedOnly(fields);
    var failed, order, complexFields := GroupDotted(dotted);
    if failed {
      return Err(PushTypeError);
    }
    forall q | q in order ensures q in complexFields {
      GroupedKeys(dotted, q);
    }
    res := AppendFragments(res, order, complexFields);
    return Ok(res);
  }

  /** The grouping loop of `genBody`: `complexFields[parent]` is created on
      the parent's first field and each child is pushed onto it. Because
      `in` also finds inherited properties, a parent named like one of them
      gets no array, and the push fails. */
  method GroupDotted(dotted: seq<string>) returns (failed: bool, order: seq<string>, complexFields: map<string, seq<string>>)
    ensures failed <==> InheritsParent(dotted)
    ensures !failed ==> Groups(order, complexFields) == Grouped(dotted)
  {
    order := [];
    complexFields := map[];
    for i := 0 to |dotted|
      invariant Groups(order, complexFields) == Grouped(dotted[..i])
      invariant forall k :: 0 <= k < i ==> Parent(dotted[k]) !in InheritedNames
    {
      var parts := Split(dotted[i], '.');
      var parent := parts[0];
      var child := if |parts| > 1 then parts[1] else "";
      ghost var before := Groups(order, complexFields);

      if !(parent in complexFields || parent in InheritedNames) {
        complexFields := complexFields[parent := []];
        order := order + [parent];
      }
      if parent !in complexFields {
        assert dotted[i] in dotted && Parent(dotted[i]) in InheritedNames;
        return true, order, complexFields;
      }
      if parent in before.children {
        GroupedKeysNotInherited(dotted, i, parent);
      }

      complexFields := complexFields[parent := complexFields[parent] + [child]];
      if parent !in before.children {
        assert [] + [child] == [child];
        assert complexFields == before.children[parent := [child]];
      }
      assert Groups(order, complexFields) == AddField(before, dotted[i]);
      assert dotted[..i + 1][..i] == dotted[..i] && dotted[..i + 1][i] == dotted[i];
    }
    assert dotted[..|dotted|] == dotted;
    return false, order, complexFields;
  }

  /** A parent already grouped from fields whose parents are not inherited
      names is not an inherited name either. */
  lemma GroupedKeysNotInherited(dotted: seq<string>, i: nat, p: string)
    requires i <= |dotted|
    requires forall k :: 0 <= k < i ==> Parent(dotted[k]) !in InheritedNames
    requires p in Grouped(dotted[..i]).children
    ensures p !in InheritedNames
  {
    GroupedKeys(dotted[..i], p);
    GroupedParents(dotted[..i], p);
    var k :| 0 <= k < i && Parent(dotted[..i][k]) == p;
    assert dotted[..i][k] == dotted[k];
  }

  /** The loop of `genBody` that appends one fragment per parent, in the
      order the parents were first seen. */
  method AppendFragments(prefix: string, order: seq<string>, complexFields: map<string, seq<string>>) returns (res: string)
    requires forall q :: q in order ==> q in complexFields
    ensures res == prefix + GroupsText(order, complexFields)
  {
    res := prefix;
    for i := 0 to |order|
      invariant res == prefix + GroupsText(order[..i], complexFields)
    {
      assert order[..i + 1][..i] == order[..i];
      res := res + Fragment(order[i], complexFields[order[i]]);
    }
    assert order[..|order|] == order;
  }

  /** The groups' keys are exactly the parents listed in `order`. */
  lemma {:induction false} GroupedKeys(fields: seq<string>, p: string)
    ensures p in Grouped(fields).children <==> p in Grouped(fields).order
  {
    if fields != [] {
      GroupedKeys(fields[..|fields| - 1], p);
    }
  }

  /** With a whitelist the keys are taken as they are, in key order, whatever
      the possible fields; with a blacklist (or no projection) the possible
      fields are kept, in their order, except the listed keys. */
  lemma SelectionRule(possible: seq<string>, p: Projection)
    ensures IsWhitelist(p) ==> Selected(possible, p) == Keys(p)
    ensures !IsWhitelist(p) ==> forall f :: f in Selected(possible, p) <==> f in possible && f !in Keys(p)
    ensures !IsWhitelist(p) ==> forall a, b :: possible == a + b ==> Selected(possible, p) == Without(a, Keys(p)) + Without(b, Keys(p))
  {
    if !IsWhitelist(p) {
      forall f ensures f in Without(possible, Keys(p)) <==> f in possible && f !in Keys(p) {
        WithoutMembers(possible, Keys(p), f);
      }
      forall a, b | possible == a + b ensures Without(possible, Keys(p)) == Without(a, Keys(p)) + Without(b, Keys(p)) {
        WithoutAppend(a, b, Keys(p));
      }
    }
  }

  lemma {:induction false} WithoutMembers(possible: seq<string>, keys: seq<string>, f: string)
    ensures f in Without(possible, keys) <==> f in possible && f !in keys
  {
    if possible != [] {
      WithoutMembers(possible[1..], keys, f);
      assert possible == [possible[0]] + possible[1..];
    }
  }

  lemma {:induction false} WithoutAppend(a: seq<string>, b: seq<string>, keys: seq<string>)
    ensures Without(a + b, keys) == Without(a, keys) + Without(b, keys)
  {
    if a == [] {
      assert a + b == b;
    } else {
      assert (a + b)[1..] == a[1..] + b;
      assert (a + b)[0] == a[0];
      WithoutAppend(a[1..], b, keys);
    }
  }

  /** Without a projection every possible field is selected, in order. */
  lemma {:induction false} NoProjectionSelectsAll(possible: seq<string>)
    ensures Selected(possible, OrEmpty(None)) == possible
  {
    WithoutNothing(possible);
  }

  lemma {:induction false} WithoutNothing(possible: seq<string>)
    ensures Without(possible, []) == possible
  {
    if possible != [] {
      WithoutNothing(possible[1..]);
    }
  }

  /** The grouping against its reference definition: one group per parent
      of some field, each parent once, parents in the order of their first
      field, and under each parent its children in field order. */
  lemma GroupedSpec(fields: seq<string>)
    ensures forall p :: p in Grouped(fields).order <==> HasParent(fields, p)
    ensures forall i, j :: 0 <= i < j < |Grouped(fields).order| ==> Grouped(fields).order[i] != Grouped(fields).order[j]
    ensures forall p :: p in Grouped(fields).children <==> p in Grouped(fields).order
    ensures forall p :: p in Grouped(fields).children ==> Grouped(fields).children[p] == ChildrenOf(fields, p)
    ensures forall i, j :: 0 <= i < j < |Grouped(fields).order| ==>
      FirstField(fields, Grouped(fields).order[i]) < FirstField(fields, Grouped(fields).order[j])
  {
    forall p
      ensures (p in Grouped(fields).order <==> HasParent(fields, p))
      ensures (p in Grouped(fields).children <==> p in Grouped(fields).order)
    {
      GroupedParents(fields, p);
      GroupedKeys(fields, p);
    }
    GroupedDistinct(fields);
    GroupedChildren(fields);
    GroupedFirstOrder(fields);
  }

  /** Some field has `p` as its parent. */
  predicate HasParent(fields: seq<string>, p: string)
  {
    exists k :: 0 <= k < |fields| && Parent(fields[k]) == p
  }

  lemma HasParentAppend(init: seq<string>, last: string, p: string)
    ensures HasParent(init + [last], p) <==> HasParent(init, p) || Parent(last) == p
  {
    var f := init + [last];
    if HasParent(f, p) {
      var k :| 0 <= k < |f| && Parent(f[k]) == p;
      if k < |init| {
        assert f[k] == init[k];
      }
    }
    if HasParent(init, p) {
      var k :| 0 <= k < |init| && Parent(init[k]) == p;
      assert f[k] == init[k];
    }
    if Parent(last) == p {
      assert f[|init|] == last;
    }
  }

  lemma {:induction false} GroupedParents(fields: seq<string>, p: string)
    ensures p in Grouped(fields).order <==> HasParent(fields, p)
  {
    if fields != [] {
      var init := fields[..|fields| - 1];
      var last := fields[|fields| - 1];
      assert init + [last] == fields;
      GroupedParents(init, p);
      GroupedParents(init, Parent(last));
      GroupedKeys(init, Parent(last));
      HasParentAppend(init, last, p);
    }
  }

  lemma {:induction false} GroupedDistinct(fields: seq<string>)
    ensures forall i, j :: 0 <= i < j < |Grouped(fields).order| ==> Grouped(fields).order[i] != Grouped(fields).order[j]
  {
    if fields != [] {
      var init := fields[..|fields| - 1];
      GroupedDistinct(init);
      GroupedKeys(init, Parent(fields[|fields| - 1]));
    }
  }

  lemma {:induction false} ChildrenOfAbsent(fields: seq<string>, p: string)
    requires !HasParent(fields, p)
    ensures ChildrenOf(fields, p) == []
  {
    if fields != [] {
      var init := fields[..|fields| - 1];
      var last := fields[|fields| - 1];
      assert init + [last] == fields;
      HasParentAppend(init, last, p);
      ChildrenOfAbsent(init, p);
    }
  }

  lemma {:induction false} GroupedChildren(fields: seq<string>)
    ensures forall p :: p in Grouped(fields).children ==> Grouped(fields).children[p] == ChildrenOf(fields, p)
  {
    if fields != [] {
      var init := fields[..|fields| - 1];
      var last := fields[|fields| - 1];
      GroupedChildren(init);
      var parent := Parent(last);
      if parent !in Grouped(init).children {
        GroupedKeys(init, parent);
        GroupedParents(init, parent);
        ChildrenOfAbsent(init, parent);
      }
    }
  }

  lemma {:induction false} GroupedFirstOrder(fields: seq<string>)
    ensures forall i, j :: 0 <= i < j < |Grouped(fields).order| ==>
      FirstField(fields, Grouped(fields).order[i]) < FirstField(fields, Grouped(fields).order[j])
  {
    if fields != [] {
      var init := fields[..|fields| - 1];
      var last := fields[|fields| - 1];
      assert init + [last] == fields;
      GroupedFirstOrder(init);
      var g0 := Grouped(init);
      var g := Grouped(fields);
      GroupedKeys(init, Parent(last));
      forall q | q in g0.order
        ensures FirstField(fields, q) == FirstField(init, q) < |init|
      {
        GroupedParents(init, q);
        FirstFieldAppend(init, last, q);
        FirstFieldBound(init, q);
      }
      if Parent(last) !in g0.children {
        GroupedParents(init, Parent(last));
        FirstFieldAppend(init, last, Parent(last));
        assert g.order == g0.order + [Parent(last)];
      }
    }
  }

  /** Index of the first field whose parent is `p` (`|fields|` if none). */
  function FirstField(fields: seq<string>, p: string): nat
  {
    match Store.IndexOf(fields, Parent, p)
    case Some(k) => k
    case None => |fields|
  }

  lemma FirstFieldBound(fields: seq<string>, p: string)
    requires HasParent(fields, p)
    ensures FirstField(fields, p) < |fields|
  {
  }

  lemma FirstFieldAppend(init: seq<string>, last: string, p: string)
    ensures FirstField(init + [last], p) ==
      if HasParent(init, p) then FirstField(init, p)
      else if Parent(last) == p then |init| else |init| + 1
  {
    var fields := init + [last];
    assert forall k :: 0 <= k < |init| ==> fields[k] == init[k];
    assert fields[|init|] == last;
    var r := Store.IndexOf(fields, Parent, p);
    var r0 := Store.IndexOf(init, Parent, p);
    if r0.Some? {
      assert r == r0;
    }
  }

  /** A selection without dotted fields is just its fields joined by spaces. */
  lemma {:induction false} PlainRender(fields: seq<string>)
    requires forall i :: 0 <= i < |fields| ==> '.' !in fields[i]
    ensures Render(fields) == Join(fields, " ")
  {
    PlainKeepsAll(fields);
    DottedOnlyEmpty(fields);
  }

  lemma {:induction false} PlainKeepsAll(fields: seq<string>)
    requires forall i :: 0 <= i < |fields| ==> '.' !in fields[i]
    ensures Plain(fields) == fields
  {
    if fields != [] {
      PlainKeepsAll(fields[1..]);
    }
  }

  lemma {:induction false} DottedOnlyEmpty(fields: seq<string>)
    requires forall i :: 0 <= i < |fields| ==> '.' !in fields[i]
    ensures DottedOnly(fields) == []
  {
    if fields != [] {
      DottedOnlyEmpty(fields[1..]);
    }
  }

  // ---------------------------------------------------------------------
  // fields and bodies
  // ---------------------------------------------------------------------

  const UserBaseFields: seq<string> := ["uid", "firstname", "lastname", "email", "phone"]
  const StudentFields: seq<string> := ["studentnumber", "websites", "studies", "share"]
  const RepresentativeFields: seq<string> := ["enid", "repAdmin"]
  const EntityFields: seq<string> := ["enid", "name", "description", "type", "contact.type", "contact.content", "external_id"]
  const EventFields: seq<string> := ["evid", "enabled", "name", "description", "start", "location", "studentSubmitDeadline", "entities"]
  const ProjectFields: seq<string> := ["pid", "enid", "evid", "name", "description", "datanoseLink"]
  const StudentVoteFields: seq<string> := ["uid", "pid"]

  /** The keys of the `bodies` object. */
  datatype BodyKind = UserBody | StudentBody | RepresentativeBody | EntityBody | EventBody | ProjectBody | StudentVoteBody

  /** A whitelist whose dotted keys include one under an inherited name:
      every `genBody` call on it throws the push TypeError. */
  predicate SelectsInherited(p: Projection)
  {
    IsWhitelist(p) && InheritsParent(DottedOnly(Keys(p)))
  }

  /** `bodies[kind](projection)`: the User interface gets one inline fragment
      per implementing type, Student and Representative a UserBase fragment
      followed by their own fields, the other types their `genBody`. The
      template evaluates its `genBody` calls left to right and the first one
      that throws decides. */
  function Bodies(kind: BodyKind, projection: Option<Projection>): (r: Result<string>)
    ensures r.Err? <==> Mixes(OrEmpty(projection)) || SelectsInherited(OrEmpty(projection))
    ensures Mixes(OrEmpty(projection)) ==> r == Err(MixingMessage)
    ensures r.Err? && !Mixes(OrEmpty(projection)) ==> r == Err(PushTypeError)
    ensures kind == UserBody && r.Ok? ==>
      && Body(UserBaseFields, OrEmpty(projection)).Ok? && Body(StudentFields, OrEmpty(projection)).Ok?
      && Body(RepresentativeFields, OrEmpty(projection)).Ok?
      && r.value == "... on UserBase {" + Body(UserBaseFields, OrEmpty(projection)).value
                 + "} ... on Student {" + Body(StudentFields, OrEmpty(projection)).value
                 + "} ... on Representative {" + Body(RepresentativeFields, OrEmpty(projection)).value + "}"
    ensures kind == StudentBody && r.Ok? ==>
      && Body(UserBaseFields, OrEmpty(projection)).Ok? && Body(StudentFields, OrEmpty(projection)).Ok?
      && r.value == "... on UserBase {" + Body(UserBaseFields, OrEmpty(projection)).value
                 + "} " + Body(StudentFields, OrEmpty(projection)).value
    ensures kind == RepresentativeBody && r.Ok? ==>
      && Body(UserBaseFields, OrEmpty(projection)).Ok? && Body(RepresentativeFields, OrEmpty(projection)).Ok?
      && r.value == "... on UserBase {" + Body(UserBaseFields, OrEmpty(projection)).value
                 + "} " + Body(RepresentativeFields, OrEmpty(projection)).value
    ensures kind == EntityBody ==> r == Body(EntityFields, OrEmpty(projection))
    ensures kind == EventBody ==> r == Body(EventFields, OrEmpty(projection))
    ensures kind == ProjectBody ==> r == Body(ProjectFields, OrEmpty(projection))
    ensures kind == StudentVoteBody ==> r == Body(StudentVoteFields, OrEmpty(projection))
  {
    var p := OrEmpty(projection);
    FixedFieldsInheritNothing();
    BodyFailure(UserBaseFields, p);
    var userBase := Body(UserBaseFields, p);
    match kind
    case UserBody =>
      BodyFailure(StudentFields, p);
      BodyFailure(RepresentativeFields, p);
      var student := Body(StudentFields, p);
      var representative := Body(RepresentativeFields, p);
      if userBase.Err? then userBase
      else if student.Err? then student
      else if representative.Err? then representative
      else Ok("... on UserBase {" + userBase.value + "} ... on Student {" + student.value
              + "} ... on Representative {" + representative.value + "}")
    case StudentBody =>
      BodyFailure(StudentFields, p);
      var student := Body(StudentFields, p);
      if userBase.Err? then userBase
      else if student.Err? then student
      else Ok("... on UserBase {" + userBase.value + "} " + student.value)
    case RepresentativeBody =>
      BodyFailure(RepresentativeFields, p);
      var representative := Body(RepresentativeFields, p);
      if userBase.Err? then userBase
      else if representative.Err? then representative
      else Ok("... on UserBase {" + userBase.value + "} " + representative.value)
    case EntityBody => BodyFailure(EntityFields, p); Body(EntityFields, p)
    case EventBody => BodyFailure(EventFields, p); Body(EventFields, p)
    case ProjectBody => BodyFailure(ProjectFields, p); Body(ProjectFields, p)
    case StudentVoteBody => BodyFailure(StudentVoteFields, p); Body(StudentVoteFields, p)
  }

  /** Over possible fields none of whose parents is inherited, `genBody`
      fails exactly on a mixed projection (with the mixing message) or on a
      whitelist with an inherited dotted key (with the TypeError). */
  lemma BodyFailure(possible: seq<string>, p: Projection)
    requires !InheritsParent(DottedOnly(possible))
    ensures Body(possible, p).Err? <==> Mixes(p) || SelectsInherited(p)
    ensures Body(possible, p).Err? ==> Body(possible, p) == Err(if Mixes(p) then MixingMessage else PushTypeError)
  {
    if !IsWhitelist(p) {
      BlacklistInheritsNothing(possible, Keys(p));
    }
  }

  /** Dropping fields cannot bring in an inherited parent. */
  lemma BlacklistInheritsNothing(possible: seq<string>, keys: seq<string>)
    requires !InheritsParent(DottedOnly(possible))
    ensures !InheritsParent(DottedOnly(Without(possible, keys)))
  {
    forall f | f in DottedOnly(Without(possible, keys)) ensures f in DottedOnly(possible) {
      DottedOnlyMembers(Without(possible, keys), f);
      WithoutMembers(possible, keys, f);
      DottedOnlyMembers(possible, f);
    }
  }

  lemma {:induction false} DottedOnlyMembers(fields: seq<string>, f: string)
    ensures f in DottedOnly(fields) <==> f in fields && '.' in f
  {
    if fields != [] {
      DottedOnlyMembers(fields[1..], f);
      assert fields == [fields[0]] + fields[1..];
    }
  }

  /** No field list of `fields` has a dotted field under an inherited name. */
  lemma FixedFieldsInheritNothing()
    ensures !InheritsParent(DottedOnly(UserBaseFields)) && !InheritsParent(DottedOnly(StudentFields))
    ensures !InheritsParent(DottedOnly(RepresentativeFields)) && !InheritsParent(DottedOnly(EntityFields))
    ensures !InheritsParent(DottedOnly(EventFields)) && !InheritsParent(DottedOnly(ProjectFields))
    ensures !InheritsParent(DottedOnly(StudentVoteFields))
  {
    UserFieldsUndotted();
    EventFieldsUndotted();
    ProjectFieldsUndotted();
    EntityPlainAndDotted();
    ContactParents();
    ContactNotInherited();
  }

  lemma UserFieldsUndotted()
    ensures DottedOnly(UserBaseFields) == [] && DottedOnly(StudentFields) == []
    ensures DottedOnly(RepresentativeFields) == [] && DottedOnly(StudentVoteFields) == []
  {
    UserBaseUndotted();
    assert '.' !in "studentnumber" && '.' !in "websites" && '.' !in "studies" && '.' !in "share";
    DottedOnlyEmpty(StudentFields);
    assert '.' !in "enid" && '.' !in "repAdmin" && '.' !in "pid";
    DottedOnlyEmpty(RepresentativeFields);
    DottedOnlyEmpty(StudentVoteFields);
  }

  lemma UserBaseUndotted()
    ensures DottedOnly(UserBaseFields) == []
  {
    assert '.' !in "uid" && '.' !in "firstname" && '.' !in "lastname" && '.' !in "email" && '.' !in "phone";
    DottedOnlyEmpty(UserBaseFields);
  }

  lemma EventFieldsUndotted()
    ensures DottedOnly(EventFields) == []
  {
    assert '.' !in "evid" && '.' !in "enabled" && '.' !in "name" && '.' !in "description";
    assert '.' !in "start" && '.' !in "location" && '.' !in "studentSubmitDeadline" && '.' !in "entities";
    DottedOnlyEmpty(EventFields);
  }

  lemma ProjectFieldsUndotted()
    ensures DottedOnly(ProjectFields) == []
  {
    assert '.' !in "pid" && '.' !in "enid" && '.' !in "evid" && '.' !in "name";
    assert '.' !in "description" && '.' !in "datanoseLink";
    DottedOnlyEmpty(ProjectFields);
  }

  lemma ContactParents()
    ensures Parent("contact.type") == "contact" && Parent("contact.content") == "contact"
  {
    assert "contact.type" == "contact" + ['.'] + "type";
    SplitAtOne("contact", "type", '.');
    assert "contact.content" == "contact" + ['.'] + "content";
    SplitAtOne("contact", "content", '.');
  }

  lemma ContactNotInherited()
    ensures "contact" !in InheritedNames
  {
  }

  /** The default Entity selection groups the two contact fields at the end. */
  lemma DefaultEntityBody()
    ensures Bodies(EntityBody, None) == Ok("enid name description type external_id contact {type content}")
  {
    NoProjectionSelectsAll(EntityFields);
    EntityRender();
    FixedFieldsInheritNothing();
    BodyOfSelected(EntityFields, OrEmpty(None), "enid name description type external_id contact {type content}");
  }

  /** An unmixed projection without an inherited dotted field renders what
      it selects. */
  lemma BodyOfSelected(possible: seq<string>, p: Projection, text: string)
    requires !Mixes(p) && !InheritsParent(DottedOnly(Selected(possible, p)))
    requires Render(Selected(possible, p)) == text
    ensures Body(possible, p) == Ok(text)
  {
  }

  /** A whitelist key `constructor.name` finds the inherited `constructor`
      and the push throws. */
  lemma InheritedParentThrows()
    ensures Body(UserBaseFields, [("constructor.name", true)]) == Err(PushTypeError)
  {
    var p := [("constructor.name", true)];
    assert !Mixes(p) && IsWhitelist(p);
    assert Selected(UserBaseFields, p) == ["constructor.name"];
    ConstructorField();
    assert DottedOnly(["constructor.name"]) == ["constructor.name"] + DottedOnly([]);
  }

  lemma ConstructorField()
    ensures '.' in "constructor.name" && Parent("constructor.name") in InheritedNames
  {
    assert "constructor.name" == "constructor" + ['.'] + "name";
    SplitAtOne("constructor", "name", '.');
  }

  lemma EntityRender()
    ensures Render(EntityFields) == "enid name description type external_id contact {type content}"
  {
    var plain := Plain(EntityFields);
    var dotted := DottedOnly(EntityFields);
    EntityPlainAndDotted();
    assert dotted == ["contact.type", "contact.content"];
    var g := Grouped(dotted);
    ContactGroups();
    var m: map<string, seq<string>> := map["contact" := ["type", "content"]];
    assert g == Groups(["contact"], m);
    ContactText();
    var groupText := GroupsText(g.order, g.children);
    assert groupText == " contact {type content}";
    PlainEntityText();
    var plainText := Join(plain, " ");
    RenderParts(EntityFields, plainText, groupText);
    EntityTextConcat(plainText, groupText);
  }

  lemma EntityTextConcat(plainText: string, groupText: string)
    requires plainText == "enid" + " " + ("name" + " " + ("description" + " " + ("type" + " " + "external_id")))
    requires groupText == " contact {type content}"
    ensures plainText + groupText == "enid name description type external_id contact {type content}"
  {
    PlainEntityMerge(plainText);
    LiteralConcat(plainText, groupText);
  }

  lemma PlainEntityMerge(plainText: string)
    requires plainText == "enid" + " " + ("name" + " " + ("description" + " " + ("type" + " " + "external_id")))
    ensures plainText == "enid name description type external_id"
  {
  }

  lemma LiteralConcat(plainText: string, groupText: string)
    requires plainText == "enid name description type external_id" && groupText == " contact {type content}"
    ensures plainText + groupText == "enid name description type external_id contact {type content}"
  {
  }

  lemma RenderParts(fields: seq<string>, plainText: string, groupText: string)
    requires Join(Plain(fields), " ") == plainText
    requires GroupsText(Grouped(DottedOnly(fields)).order, Grouped(DottedOnly(fields)).children) == groupText
    ensures Render(fields) == plainText + groupText
  {
  }

  lemma PlainEntityText()
    ensures Join(["enid", "name", "description", "type", "external_id"], " ")
         == "enid" + " " + ("name" + " " + ("description" + " " + ("type" + " " + "external_id")))
  {
    var f := ["enid", "name", "description", "type", "external_id"];
    assert f[1..][1..][1..][1..] == ["external_id"];
  }

  lemma ContactText()
    ensures GroupsText(["contact"], map["contact" := ["type", "content"]]) == " contact {type content}"
  {
    var m: map<string, seq<string>> := map["contact" := ["type", "content"]];
    assert ["contact"][..0] == [];
    assert "contact" in m && m["contact"] == ["type", "content"];
    assert GroupsText(["contact"], m) == "" + Fragment("contact", ["type", "content"]);
    assert Join(["type", "content"][1..], " ") == "content";
    assert Join(["type", "content"], " ") == "type content";
  }

  lemma EntityPlainAndDotted()
    ensures Plain(EntityFields) == ["enid", "name", "description", "type", "external_id"]
    ensures DottedOnly(EntityFields) == ["contact.type", "contact.content"]
  {
    EntityFieldDots();
    EntityTail();
    assert EntityFields[3..][1..] == EntityFields[4..];
    assert EntityFields[2..][1..] == EntityFields[3..];
    assert EntityFields[1..][1..] == EntityFields[2..];
  }

  lemma EntityTail()
    ensures Plain(EntityFields[4..]) == ["external_id"]
    ensures DottedOnly(EntityFields[4..]) == ["contact.type", "contact.content"]
  {
    EntityFieldDots();
    assert EntityFields[6..] == ["external_id"] && EntityFields[6..][1..] == [];
    assert Plain(EntityFields[6..]) == ["external_id"];
    assert DottedOnly(EntityFields[6..]) == [];
    assert EntityFields[5..][1..] == EntityFields[6..];
    assert EntityFields[4..][1..] == EntityFields[5..];
  }

  lemma EntityFieldDots()
    ensures '.' in "contact.type" && '.' in "contact.content"
    ensures '.' !in "external_id" && '.' !in "type" && '.' !in "description" && '.' !in "name" && '.' !in "enid"
  {
  }

  lemma ContactGroups()
    ensures Grouped(["contact.type", "contact.content"]) == Groups(["contact"], map["contact" := ["type", "content"]])
  {
    var dotted := ["contact.type", "contact.content"];
    assert dotted[..1] == ["contact.type"];
    FirstContactGroup();
    var g1 := Groups(["contact"], map["contact" := ["type"]]);
    assert Grouped(dotted) == AddField(g1, "contact.content");
    SecondContactField();
  }

  lemma FirstContactGroup()
    ensures Grouped(["contact.type"]) == Groups(["contact"], map["contact" := ["type"]])
  {
    assert "contact.type" == "contact" + ['.'] + "type";
    SplitAtOne("contact", "type", '.');
    assert ["contact.type"][..0] == [];
  }

  lemma SecondContactField()
    ensures AddField(Groups(["contact"], map["contact" := ["type"]]), "contact.content")
            == Groups(["contact"], map["contact" := ["type", "content"]])
  {
    assert "contact.content" == "contact" + ['.'] + "content";
    SplitAtOne("contact", "content", '.');
    var m: map<string, seq<string>> := map["contact" := ["type"]];
    assert ["type"] + ["content"] == ["type", "content"];
    assert m["contact" := ["type", "content"]] == map["contact" := ["type", "content"]];
  }

  /** Splitting `a.b` where neither side has a dot gives `[a, b]`. */
  lemma {:induction false} SplitAtOne(a: string, b: string, sep: char)
    requires sep !in a && sep !in b
    ensures Split(a + [sep] + b, sep) == [a, b]
  {
    if a == [] {
      assert a + [sep] + b == [sep] + b;
      assert ([sep] + b)[1..] == b;
      SplitNone(b, sep);
    } else {
      assert (a + [sep] + b)[1..] == a[1..] + [sep] + b;
      SplitAtOne(a[1..], b, sep);
      assert [a[0]] + a[1..] == a;
    }
  }

  lemma {:induction false} SplitNone(s: string, sep: char)
    requires sep !in s
    ensures Split(s, sep) == [s]
  {
    if s != [] {
      SplitNone(s[1..], sep);
      assert [s[0]] + s[1..] == s;
    }
  }

  // ---------------------------------------------------------------------
  // Tokens
  // ---------------------------------------------------------------------

  /** `unpackToken`: null for a falsy token; an error naming the number of
      parts unless the token has exactly three `.`-separated parts; otherwise
      the payload part (whose base64 and JSON decoding are not modelled). */
  function UnpackToken(token: Option<string>): (r: Result<Option<string>>)
    ensures !Truthy(token) ==> r == Ok(None)
    ensures Truthy(token) ==> (r.Err? <==> Count(token.value, '.') != 2)
    ensures r.Err? ==> r.message == "Received invalid token. Token has " + Decimal(Count(token.value, '.') + 1) + " parts, expected 3."
    ensures r.Ok? && r.value.Some? ==> '.' !in r.value.value
  {
    if !Truthy(token) then Ok(None)
    else
      var split := Split(token.value, '.');
      SplitCount(token.value, '.');
      SplitPieces(token.value, '.');
      if |split| != 3 then
        Err("Received invalid token. Token has " + Decimal(|split|) + " parts, expected 3.")
      else
        Ok(Some(split[1]))
  }

  /** The payload handed back is the middle part: the token is
      `header.payload.signature` for pieces without dots. */
  lemma UnpackTokenPayload(token: string)
    requires Count(token, '.') == 2
    requires token != ""
    ensures UnpackToken(Some(token)).Ok?
    ensures var payload := UnpackToken(Some(token)).value;
      payload.Some? &&
      var parts := Split(token, '.');
      token == parts[0] + "." + payload.value + "." + parts[2] && '.' !in parts[0] && '.' !in parts[2]
  {
    var parts := Split(token, '.');
    SplitCount(token, '.');
    SplitPieces(token, '.');
    JoinSplit(token, '.');
    assert parts[1..][1..] == [parts[2]];
    assert Join(parts[1..], ".") == parts[1] + "." + parts[2];
    assert token == parts[0] + "." + (parts[1] + "." + parts[2]);
  }

  /** The `Authorization` header every GraphQL request carries; a null token
      is printed as `null` by the template literal. */
  function AuthorizationHeader(apiToken: Option<string>): (h: string)
    ensures |h| >= 7 && h[..7] == "Bearer "
    ensures apiToken.Some? ==> h[7..] == apiToken.value
    ensures apiToken.None? ==> h[7..] == "null"
  {
    "Bearer " + (if apiToken.Some? then apiToken.value else "null")
  }

  // ---------------------------------------------------------------------
  // HTTP outcomes
  // ---------------------------------------------------------------------

  /** A rejection by axios; `status` 0 stands for "no response, or no status". */
  datatype AxiosError = AxiosError(status: nat, data: string)

  /** The JSON body of a GraphQL reply. */
  datatype GraphqlBody = GraphqlBody(data: string, errors: Option<seq<string>>)

  datatype HttpOutcome =
    | Responded(body: GraphqlBody, startTime: int, duration: int)
    | Rejected(error: AxiosError)

  /** What a client call throws. */
  datatype Thrown =
    | Rethrown(error: AxiosError)          // the axios error itself
    | ErrorMessage(message: string)        // new Error(message)
    | ResponseData(data: string)           // error.response.data
    | ReplyErrors(errors: seq<string>)     // the `errors` array of a reply
    | WholeBody(body: GraphqlBody)         // the whole reply

  datatype Answer<+T> = Returned(value: T) | Threw(thrown: Thrown)

  /** How `graphql` turns the outcome of its POST into a result. */
  function GraphqlAnswer(outcome: HttpOutcome): (r: Answer<string>)
    ensures r.Returned? <==> outcome.Responded? && outcome.body.errors.None?
    ensures r.Returned? ==> r.value == outcome.body.data
    ensures outcome.Responded? && outcome.body.errors.Some? ==> r == Threw(WholeBody(outcome.body))
    ensures outcome.Rejected? && outcome.error.status == 0 ==> r == Threw(Rethrown(outcome.error))
    ensures outcome.Rejected? && outcome.error.status == 401 ==> r == Threw(ErrorMessage("APItoken is invalid"))
    ensures outcome.Rejected? && outcome.error.status !in {0, 401} ==> r == Threw(ResponseData(outcome.error.data))
  {
    match outcome
    case Rejected(error) =>
      if error.status == 0 then Threw(Rethrown(error))
      else if error.status == 401 then Threw(ErrorMessage("APItoken is invalid"))
      else Threw(ResponseData(error.data))
    case Responded(body, _, _) =>
      if body.errors.Some? then Threw(WholeBody(body)) else Returned(body.data)
  }

  // ---------------------------------------------------------------------
  // Client state
  // ---------------------------------------------------------------------

  datatype TraceEntry = TraceEntry(fn: string, startTime: int, duration: int)

  /** The NodeCache options `enableCaching(ttl)` creates its cache with
      (`deleteOnExpire: true`, `useClones: false`). */
  datatype CacheConfig = CacheConfig(stdTTL: int, checkPeriod: int)

  /** `getApiTokenData()`: `{}` before any token, `null` after a logout or a
      falsy login token, else the unpacked payload. */
  datatype TokenData = EmptyObject | Null | Payload(part: string)

  function TokenDataOf(unpacked: Option<string>): TokenData
  {
    if unpacked.Some? then Payload(unpacked.value) else Null
  }

  datatype Interceptor = StampStartTime | MeasureDuration

  /** The module-level `tracing` flag, shared by every client, and the axios
      interceptors `enableTrace` installs. */
  class Tracer {
    var tracing: bool
    var interceptors: seq<Interceptor>

    constructor ()
      ensures !tracing && interceptors == []
    {
      tracing := false;
      interceptors := [];
    }

    /** `enableTrace`: the first call turns tracing on and installs the two
        interceptors; a later call only warns. */
    method EnableTrace() returns (warned: bool)
      modifies this
      ensures warned == old(tracing)
      ensures tracing
      ensures interceptors == if old(tracing) then old(interceptors) else old(interceptors) + [StampStartTime, MeasureDuration]
    {
      if tracing {
        warned := true;
        return;
      }
      warned := false;
      tracing := true;
      interceptors := interceptors + [StampStartTime, MeasureDuration];
    }
  }

  /** The closure returned by the default export. `storage` is the browser's
      `localStorage` entry for `apiToken`: `None` when there is no
      `localStorage` (outside a browser), `Some(None)` when it holds no token. */
  class Client {
    var url: string
    var trace: seq<TraceEntry>
    var caching: bool
    var cache: Option<CacheConfig>
    var apiToken: Option<string>
    var apiTokenData: TokenData
    var storage: Option<Option<string>>

    constructor (url: string, apiToken: Option<string>, apiTokenData: TokenData, storage: Option<Option<string>>)
      ensures this.url == url && trace == [] && !caching && cache == None
      ensures this.apiToken == apiToken && this.apiTokenData == apiTokenData && this.storage == storage
    {
      this.url := url;
      trace := [];
      caching := false;
      cache := None;
      this.apiToken := apiToken;
      this.apiTokenData := apiTokenData;
      this.storage := storage;
    }

    /** The factory: a falsy url becomes `/` in a browser window and
        `http://localhost:3000/` elsewhere; the stored token is unpacked, and
        a token that does not unpack makes the factory throw. */
    static method Create(url: string, hasWindow: bool, storage: Option<Option<string>>) returns (r: Result<Client>)
      ensures var token := if storage.Some? then storage.value else None;
        && (r.Err? <==> UnpackToken(token).Err?)
        && (r.Err? ==> r.message == UnpackToken(token).message)
        && (r.Ok? ==>
              && fresh(r.value)
              && r.value.url == (if url != "" then url else if hasWindow then "/" else "http://localhost:3000/")
              && r.value.trace == [] && !r.value.caching && r.value.cache == None
              && r.value.apiToken == token && r.value.storage == storage
              && r.value.apiTokenData == (if UnpackToken(token).value.Some? then Payload(UnpackToken(token).value.value) else EmptyObject))
    {
      var u := if url != "" then url else if hasWindow then "/" else "http://localhost:3000/";
      var token := if storage.Some? then storage.value else None;
      var unpacked := UnpackToken(token);
      if unpacked.Err? {
        return Err(unpacked.message);
      }
      var data := if unpacked.value.Some? then Payload(unpacked.value.value) else EmptyObject;
      var c := new Client(u, token, data, storage);
      return Ok(c);
    }

    method ClearTrace()
      modifies this
      ensures trace == []
      ensures url == old(url) && caching == old(caching) && cache == old(cache)
      ensures apiToken == old(apiToken) && apiTokenData == old(apiTokenData) && storage == old(storage)
    {
      trace := [];
    }

    method GetTrace() returns (t: seq<TraceEntry>)
      ensures t == trace
    {
      t := trace;
    }

    method GetApiTokenData() returns (d: TokenData)
      ensures d == apiTokenData
    {
      d := apiTokenData;
    }

    /** `enableCaching(ttl)`: the first call creates the cache; a later call
        only warns and keeps the first cache. */
    method EnableCaching(ttl: int) returns (warned: bool)
      modifies this
      ensures warned == old(caching)
      ensures caching
      ensures cache == if old(caching) then old(cache) else Some(CacheConfig(ttl, ttl + 1))
      ensures url == old(url) && trace == old(trace)
      ensures apiToken == old(apiToken) && apiTokenData == old(apiTokenData) && storage == old(storage)
    {
      if caching {
        warned := true;
        return;
      }
      warned := false;
      caching := true;
      cache := Some(CacheConfig(ttl, ttl + 1));
    }

    /** `graphql(functionPath, query, variables)` given the outcome of its
        POST: the request carries the current token; a response is traced
        when the tracer is on, even one that reports errors. */
    method Graphql(t: Tracer, functionPath: string, outcome: HttpOutcome) returns (r: Answer<string>, authorization: string)
      modifies this
      ensures authorization == AuthorizationHeader(apiToken)
      ensures r == GraphqlAnswer(outcome)
      ensures trace == if t.tracing && outcome.Responded?
                       then old(trace) + [TraceEntry(functionPath, outcome.startTime, outcome.duration)]
                       else old(trace)
      ensures url == old(url) && caching == old(caching) && cache == old(cache)
      ensures apiToken == old(apiToken) && apiTokenData == old(apiTokenData) && storage == old(storage)
    {
      authorization := AuthorizationHeader(apiToken);
      if outcome.Rejected? {
        r := GraphqlAnswer(outcome);
        return;
      }
      if t.tracing {
        trace := trace + [TraceEntry(functionPath, outcome.startTime, outcome.duration)];
      }
      if outcome.body.errors.Some? {
        return Threw(WholeBody(outcome.body)), authorization;
      }
      r := Returned(outcome.body.data);
    }

    /** `login(email, password)` given the outcome of its POST. A reply with
        errors throws them before anything changes; otherwise the token and
        its data are replaced (and stored, `null` being stored as the text
        "null"). A token that does not unpack throws after the token itself
        has been replaced. */
    method Login(t: Tracer, outcome: LoginOutcome) returns (r: Answer<()>)
      modifies this
      ensures outcome.LoginRejected? ==> r == Threw(Rethrown(outcome.error))
      ensures outcome.LoginResponded? && outcome.errors.Some? ==> r == Threw(ReplyErrors(outcome.errors.value))
      ensures r.Threw? && !r.thrown.ErrorMessage? ==>
        trace == old(trace) && apiToken == old(apiToken) && apiTokenData == old(apiTokenData) && storage == old(storage)
      ensures outcome.LoginResponded? && outcome.errors.None? ==>
        && apiToken == outcome.apiToken
        && storage == (if old(storage).Some? then Some(Some(if outcome.apiToken.Some? then outcome.apiToken.value else "null")) else None)
        && trace == (if t.tracing then old(trace) + [TraceEntry("user.login", outcome.startTime, outcome.duration)] else old(trace))
        && (UnpackToken(outcome.apiToken).Ok? ==> r == Returned(()) && apiTokenData == TokenDataOf(UnpackToken(outcome.apiToken).value))
        && (UnpackToken(outcome.apiToken).Err? ==> r == Threw(ErrorMessage(UnpackToken(outcome.apiToken).message)) && apiTokenData == old(apiTokenData))
      ensures url == old(url) && caching == old(caching) && cache == old(cache)
    {
      if outcome.LoginRejected? {
        return Threw(Rethrown(outcome.error));
      }
      if outcome.errors.Some? {
        return Threw(ReplyErrors(outcome.errors.value));
      }
      if t.tracing {
        trace := trace + [TraceEntry("user.login", outcome.startTime, outcome.duration)];
      }
      apiToken := outcome.apiToken;
      if storage.Some? {
        storage := Some(Some(if apiToken.Some? then apiToken.value else "null"));
      }
      var unpacked := UnpackToken(apiToken);
      if unpacked.Err? {
        return Threw(ErrorMessage(unpacked.message));
      }
      apiTokenData := TokenDataOf(unpacked.value);
      r := Returned(());
    }

    /** `logout()`: outside a browser the bare `localStorage` reference throws
        a ReferenceError and nothing changes; in a browser the storage is
        cleared and the token and its data become null. */
    method Logout() returns (r: Answer<()>)
      modifies this
      ensures old(storage).None? ==>
        r == Threw(ErrorMessage("localStorage is not defined")) && apiToken == old(apiToken) && apiTokenData == old(apiTokenData) && storage == None
      ensures old(storage).Some? ==> r == Returned(()) && storage == Some(None) && apiToken == None && apiTokenData == Null
      ensures url == old(url) && trace == old(trace) && caching == old(caching) && cache == old(cache)
    {
      if storage.None? {
        return Threw(ErrorMessage("localStorage is not defined"));
      }
      storage := Some(None);
      apiToken := None;
      apiTokenData := Null;
      r := Returned(());
    }
  }

  /** The outcome of the login POST: a rejection, or a reply with `errors` or
      with `data.apiToken` and its timing. */
  datatype LoginOutcome =
    | LoginResponded(apiToken: Option<string>, errors: Option<seq<string>>, startTime: int, duration: int)
    | LoginRejected(error: AxiosError)
}
