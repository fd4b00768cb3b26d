/** The part of Symfony's ContainerBuilder that the tagged compiler pass uses:
    definitions keyed by service id, each with its tags, its visibility and
    laziness flags and the method calls registered on it, plus the order in
    which the definitions were registered. */
module Container {

  /** A scalar tag attribute value. `Null` is PHP's null, which `isset`
      and `??` treat as if the attribute were not there. */
  datatype Value = Null | Bool(b: bool) | Int(i: int) | Str(s: string)

  /** The attribute bag of one tag occurrence. */
  type Attributes = map<string, Value>

  /** One `addTag(name, attributes)` on a definition. */
  datatype Tag = Tag(name: string, attributes: Attributes)

  /** A method-call argument: a deferred reference to a service, or a plain value. */
  datatype Arg = Ref(id: string) | Val(value: Value)

  datatype MethodCall = MethodCall(name: string, arguments: seq<Arg>)

  datatype Definition = Definition(
    isPublic: bool,
    isLazy: bool,
    tags: seq<Tag>,
    methodCalls: seq<MethodCall>)

  /** One row of `findTaggedServiceIds`: a service id and the attribute bags
      of its occurrences of the tag, in declaration order. */
  datatype TaggedService = TaggedService(serviceId: string, tags: seq<Attributes>)

  /** The attribute bags of the tags called `name`, in declaration order. */
  function TagsNamed(tags: seq<Tag>, name: string): (r: seq<Attributes>)
    ensures |r| <= |tags|
    ensures forall b <- r :: exists t <- tags :: t.name == name && t.attributes == b
  {
    if tags == [] then []
    else (if tags[0].name == name then [tags[0].attributes] else []) + TagsNamed(tags[1..], name)
  }

  /** The service ids of the rows, in row order. */
  function RowIds(r: seq<TaggedService>): seq<string>
  {
    seq(|r|, i requires 0 <= i < |r| => r[i].serviceId)
  }

  /** xs is ys with some elements left out, the rest in their order. */
  predicate Subsequence(xs: seq<string>, ys: seq<string>)
    decreases |ys|
  {
    xs == [] || (ys != [] && ((xs[0] == ys[0] && Subsequence(xs[1..], ys[1..])) || Subsequence(xs, ys[1..])))
  }

  /** `findTaggedServiceIds(tag)`: every definition, in registration order,
      that carries the tag at least once, with the bags of those occurrences. */
  function TaggedServiceIds(ids: seq<string>, defs: map<string, Definition>, tag: string): (r: seq<TaggedService>)
    requires forall x <- ids :: x in defs
    ensures forall t <- r :: t.serviceId in ids && t.tags == TagsNamed(defs[t.serviceId].tags, tag) && t.tags != []
    ensures forall x <- ids :: TagsNamed(defs[x].tags, tag) != [] ==> exists t <- r :: t.serviceId == x
    ensures Subsequence(RowIds(r), ids)
  {
    if ids == [] then []
    else
      var bags := TagsNamed(defs[ids[0]].tags, tag);
      var rest := TaggedServiceIds(ids[1..], defs, tag);
      if bags == [] then rest
      else
        var r := [TaggedService(ids[0], bags)] + rest;
        assert RowIds(r)[0] == ids[0] && RowIds(r)[1..] == RowIds(rest);
        r
  }

  ghost predicate Distinct(xs: seq<string>)
  {
    forall a, b :: 0 <= a < b < |xs| ==> xs[a] != xs[b]
  }

  /** Every element of a subsequence is an element of the whole. */
  lemma {:induction false} SubsequenceMembers(xs: seq<string>, ys: seq<string>)
    requires Subsequence(xs, ys)
    ensures forall x <- xs :: x in ys
    decreases |ys|
  {
    if xs != [] {
      if xs[0] == ys[0] && Subsequence(xs[1..], ys[1..]) {
        SubsequenceMembers(xs[1..], ys[1..]);
        assert forall x <- xs :: x == xs[0] || x in xs[1..];
      } else {
        SubsequenceMembers(xs, ys[1..]);
      }
    }
  }

  /** A subsequence of a list without repetitions has none either. */
  lemma {:induction false} SubsequenceDistinct(xs: seq<string>, ys: seq<string>)
    requires Subsequence(xs, ys) && Distinct(ys)
    ensures Distinct(xs)
    decreases |ys|
  {
    if xs != [] {
      assert Distinct(ys[1..]) by {
        forall a, b | 0 <= a < b < |ys[1..]|
          ensures ys[1..][a] != ys[1..][b]
        {
          assert ys[1..][a] == ys[a + 1] && ys[1..][b] == ys[b + 1];
        }
      }
      if xs[0] == ys[0] && Subsequence(xs[1..], ys[1..]) {
        SubsequenceDistinct(xs[1..], ys[1..]);
        SubsequenceMembers(xs[1..], ys[1..]);
        forall a, b | 0 <= a < b < |xs|
          ensures xs[a] != xs[b]
        {
          assert xs[b] == xs[1..][b - 1];
          if a == 0 {
            assert xs[b] in xs[1..];
            var k :| 0 <= k < |ys[1..]| && ys[1..][k] == xs[b];
            assert ys[k + 1] == xs[b];
          } else {
            assert xs[a] == xs[1..][a - 1];
          }
        }
      } else {
        SubsequenceDistinct(xs, ys[1..]);
      }
    }
  }

  /** With distinct registered ids, each tagged service has exactly one row. */
  lemma TaggedServiceIdsDistinct(ids: seq<string>, defs: map<string, Definition>, tag: string)
    requires forall x <- ids :: x in defs
    requires Distinct(ids)
    ensures var r := TaggedServiceIds(ids, defs, tag);
      forall a, b :: 0 <= a < b < |r| ==> r[a].serviceId != r[b].serviceId
  {
    var r := TaggedServiceIds(ids, defs, tag);
    SubsequenceDistinct(RowIds(r), ids);
    forall a, b | 0 <= a < b < |r|
      ensures r[a].serviceId != r[b].serviceId
    {
      assert RowIds(r)[a] == r[a].serviceId && RowIds(r)[b] == r[b].serviceId;
    }
  }

  class ContainerBuilder {
    /** Service ids in registration order. */
    var ids: seq<string>
    var defs: map<string, Definition>

    /** Every registered id has a definition, and each id is listed once. */
    ghost predicate Valid()
      reads this
    {
      && (forall x :: x in defs <==> x in ids)
      && (forall i, j :: 0 <= i < j < |ids| ==> ids[i] != ids[j])
    }

    constructor ()
      ensures Valid() && ids == [] && defs == map[]
    {
      ids := [];
      defs := map[];
    }

    function HasDefinition(id: string): bool
      reads this
    {
      id in defs
    }

    /** `setDefinition`: replaces the definition of a known id in place and
        appends an unknown one at the end of the registration order. */
    method SetDefinition(id: string, d: Definition)
      requires Valid()
      modifies this
      ensures Valid()
      ensures defs == old(defs)[id := d]
      ensures ids == if id in old(defs) then old(ids) else old(ids) + [id]
    {
      if id !in defs {
        ids := ids + [id];
      }
      defs := defs[id := d];
    }

    /** `getDefinition(id)->setPublic(b)` */
    method SetPublic(id: string, b: bool)
      requires Valid() && id in defs
      modifies this
      ensures Valid() && ids == old(ids)
      ensures defs == old(defs)[id := old(defs)[id].(isPublic := b)]
    {
      defs := defs[id := defs[id].(isPublic := b)];
    }

    /** `getDefinition(id)->setLazy(b)` */
    method SetLazy(id: string, b: bool)
      requires Valid() && id in defs
      modifies this
      ensures Valid() && ids == old(ids)
      ensures defs == old(defs)[id := old(defs)[id].(isLazy := b)]
    {
      defs := defs[id := defs[id].(isLazy := b)];
    }

    /** `getDefinition(id)->addMethodCall(name, args)` */
    method AddMethodCall(id: string, name: string, args: seq<Arg>)
      requires Valid() && id in defs
      modifies this
      ensures Valid() && ids == old(ids)
      ensures defs == old(defs)[id := old(defs)[id].(methodCalls := old(defs)[id].methodCalls + [MethodCall(name, args)])]
    {
      defs := defs[id := defs[id].(methodCalls := defs[id].methodCalls + [MethodCall(name, args)])];
    }
  }
}
