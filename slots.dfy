/** How one tag occurrence's attributes fill the positional parameter slots
    of the collector's method call (`collectAdditionalArguments` in
    src/AddTaggedCompilerPass.php). The specification here is declarative;
    the state machine that computes it is AddTaggedCompilerPass.CollectAdditionalArguments. */
module Slots {
  import opened Container

  /** One parameter slot: a bare attribute name (a numeric key in PHP's
      parameter array) is required, a `name => default` pair is defaulted. */
  datatype Param = Required(name: string) | Defaulted(name: string, default: Value)

  /** `isset($attributes[$name])`: the key is there with a non-null value. */
  predicate HasAttribute(attrs: Attributes, name: string)
  {
    name in attrs && !attrs[name].Null?
  }

  /** A required slot whose attribute is absent: it yields no value. */
  predicate Omitted(p: Param, attrs: Attributes)
  {
    p.Required? && !HasAttribute(attrs, p.name)
  }

  /** The value of a slot that is not omitted: `$attributes[$name] ?? $default`. */
  function Resolved(p: Param, attrs: Attributes): Value
    requires !Omitted(p, attrs)
  {
    if HasAttribute(attrs, p.name) then attrs[p.name] else p.default
  }

  /** What one slot contributes to the argument list: nothing for an omitted
      slot, else its resolved value. */
  function SlotOutput(p: Param, attrs: Attributes): seq<Value>
  {
    if Omitted(p, attrs) then [] else [Resolved(p, attrs)]
  }

  /** The values of all slots that yield one, in parameter order. */
  function Emitted(ps: seq<Param>, attrs: Attributes): seq<Value>
  {
    if ps == [] then [] else Emitted(ps[..|ps| - 1], attrs) + SlotOutput(ps[|ps| - 1], attrs)
  }

  /** The error condition: some slot's attribute is present after an
      earlier required slot whose attribute is absent. */
  predicate MissingBeforePresent(ps: seq<Param>, attrs: Attributes)
  {
    exists i, j :: 0 <= i < j < |ps| && Omitted(ps[i], attrs) && HasAttribute(attrs, ps[j].name)
  }

  /** The index of the first omitted slot, or |ps| when there is none. */
  function FirstOmitted(ps: seq<Param>, attrs: Attributes): (k: nat)
    ensures k <= |ps|
    ensures forall i :: 0 <= i < k ==> !Omitted(ps[i], attrs)
    ensures k < |ps| ==> Omitted(ps[k], attrs)
  {
    if ps == [] then 0
    else if Omitted(ps[0], attrs) then 0
    else 1 + FirstOmitted(ps[1..], attrs)
  }

  /** The defaults of the defaulted slots, in parameter order. */
  function Defaults(ps: seq<Param>): seq<Value>
  {
    if ps == [] then []
    else Defaults(ps[..|ps| - 1]) + (if ps[|ps| - 1].Defaulted? then [ps[|ps| - 1].default] else [])
  }

  /** Emitting a concatenation of parameter lists emits each part in turn. */
  lemma {:induction false} EmittedAppend(ps: seq<Param>, qs: seq<Param>, attrs: Attributes)
    ensures Emitted(ps + qs, attrs) == Emitted(ps, attrs) + Emitted(qs, attrs)
  {
    if qs == [] {
      assert ps + qs == ps;
    } else {
      var n := |qs| - 1;
      var last := SlotOutput(qs[n], attrs);
      assert (ps + qs)[..|ps + qs| - 1] == ps + qs[..n] && (ps + qs)[|ps + qs| - 1] == qs[n];
      assert Emitted(ps + qs, attrs) == Emitted(ps + qs[..n], attrs) + last;
      EmittedAppend(ps, qs[..n], attrs);
      assert Emitted(qs, attrs) == Emitted(qs[..n], attrs) + last;
    }
  }

  /** Every slot yields at most one value, and exactly one unless it is an
      omitted required slot. */
  lemma {:induction false} EmittedLength(ps: seq<Param>, attrs: Attributes)
    ensures |Emitted(ps, attrs)| <= |ps|
    ensures |Emitted(ps, attrs)| == |ps| <==> forall i :: 0 <= i < |ps| ==> !Omitted(ps[i], attrs)
  {
    if ps != [] {
      var n := |ps| - 1;
      EmittedLength(ps[..n], attrs);
      if forall i :: 0 <= i < |ps| ==> !Omitted(ps[i], attrs) {
        assert forall i :: 0 <= i < n ==> !Omitted(ps[..n][i], attrs);
      } else if Omitted(ps[n], attrs) {
      } else {
        var i :| 0 <= i < |ps| && Omitted(ps[i], attrs);
        assert Omitted(ps[..n][i], attrs);
      }
    }
  }

  /** Without omitted slots, slot i yields output i: its attribute when
      present, its default otherwise. */
  lemma {:induction false} EmittedAllResolved(ps: seq<Param>, attrs: Attributes)
    requires forall i :: 0 <= i < |ps| ==> !Omitted(ps[i], attrs)
    ensures |Emitted(ps, attrs)| == |ps|
    ensures forall i :: 0 <= i < |ps| ==>
      Emitted(ps, attrs)[i] == Resolved(ps[i], attrs)
  {
    if ps != [] {
      var n := |ps| - 1;
      assert forall i :: 0 <= i < n ==> ps[..n][i] == ps[i];
      EmittedAllResolved(ps[..n], attrs);
    }
  }

  /** Where no attribute is present, the output is exactly the defaults. */
  lemma {:induction false} EmittedNoAttributes(ps: seq<Param>, attrs: Attributes)
    requires forall i :: 0 <= i < |ps| ==> !HasAttribute(attrs, ps[i].name)
    ensures Emitted(ps, attrs) == Defaults(ps)
  {
    if ps != [] {
      var n := |ps| - 1;
      assert forall i :: 0 <= i < n ==> ps[..n][i] == ps[i];
      EmittedNoAttributes(ps[..n], attrs);
    }
  }

  /** The shape of a successful resolution. Up to the first omitted required
      slot k, output i is slot i's attribute or default. From k on, no
      attribute may be present, yet every defaulted slot there still emits
      its default. */
  lemma EmittedShape(ps: seq<Param>, attrs: Attributes, k: nat)
    requires !MissingBeforePresent(ps, attrs)
    requires k == FirstOmitted(ps, attrs)
    ensures |Emitted(ps, attrs)| == k + |Defaults(ps[k..])|
    ensures forall i :: 0 <= i < k ==>
      Emitted(ps, attrs)[i] == Resolved(ps[i], attrs)
    ensures Emitted(ps, attrs)[k..] == Defaults(ps[k..])
  {
    var pre, post := ps[..k], ps[k..];
    assert ps == pre + post;
    EmittedAppend(pre, post, attrs);
    assert forall i :: 0 <= i < k ==> pre[i] == ps[i];
    EmittedAllResolved(pre, attrs);
    NothingPresentFrom(ps, attrs, k);
    EmittedNoAttributes(post, attrs);
  }

  /** From the first omitted slot on, no attribute is present. */
  lemma NothingPresentFrom(ps: seq<Param>, attrs: Attributes, k: nat)
    requires !MissingBeforePresent(ps, attrs)
    requires k == FirstOmitted(ps, attrs)
    ensures forall i :: 0 <= i < |ps[k..]| ==> !HasAttribute(attrs, ps[k..][i].name)
  {
    forall i | 0 <= i < |ps[k..]|
      ensures !HasAttribute(attrs, ps[k..][i].name)
    {
      assert ps[k..][i] == ps[k + i];
      assert Omitted(ps[k], attrs);
    }
  }
}
