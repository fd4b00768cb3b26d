/** The compiler pass of src/AddTaggedCompilerPass.php: it finds every
    occurrence of a tag, optionally orders the occurrences by priority, and
    registers one method call per occurrence on a collector definition. */
module TaggedPass {
  import opened Wrappers
  import opened Errors
  import opened Container
  import opened Slots
  import opened Priority

  const CALL_MODE_SERVICE: string := "service"
  const CALL_MODE_LAZY_SERVICE: string := "lazy_service"
  const CALL_MODE_ID: string := "id"
  const DEFAULT_PRIORITY_ATTRIBUTE: string := "priority"

  /** The configuration of one pass, as its fields hold it. */
  datatype PassConfig = PassConfig(
    collectorServiceId: string,
    tagName: string,
    methodName: string,
    parameters: seq<Param>,
    callMode: string,
    priorityAttribute: Option<string>)

  // ---------------------------------------------------------------------
  // Discovery: one entry per tag occurrence

  /** The entries of one tagged service, in tag declaration order. */
  function EntriesOf(t: TaggedService): seq<TagEntry>
  {
    seq(|t.tags|, k requires 0 <= k < |t.tags| => TagEntry(t.serviceId, t.tags[k]))
  }

  /** Every tag occurrence, service by service, then in declaration order. */
  function Flatten(ts: seq<TaggedService>): seq<TagEntry>
  {
    if ts == [] then [] else Flatten(ts[..|ts| - 1]) + EntriesOf(ts[|ts| - 1])
  }

  /** The number of tag occurrences, summed over the services. */
  function Occurrences(ts: seq<TaggedService>): nat
  {
    if ts == [] then 0 else Occurrences(ts[..|ts| - 1]) + |ts[|ts| - 1].tags|
  }

  lemma {:induction false} FlattenLength(ts: seq<TaggedService>)
    ensures |Flatten(ts)| == Occurrences(ts)
  {
    if ts != [] {
      FlattenLength(ts[..|ts| - 1]);
    }
  }

  /** Occurrence j of service i sits at position Occurrences(ts[..i]) + j:
      services in order, and within a service the tags in declaration order. */
  lemma {:induction false} FlattenAt(ts: seq<TaggedService>, i: nat, j: nat)
    requires i < |ts| && j < |ts[i].tags|
    ensures Occurrences(ts[..i]) + j < |Flatten(ts)|
    ensures Flatten(ts)[Occurrences(ts[..i]) + j] == TagEntry(ts[i].serviceId, ts[i].tags[j])
  {
    var n := |ts| - 1;
    FlattenLength(ts[..n]);
    if i < n {
      assert ts[..n][..i] == ts[..i];
      FlattenAt(ts[..n], i, j);
    } else {
      assert ts[..n] == ts[..i];
    }
  }

  /** An entry is in the flattened list exactly when it is an occurrence of some service. */
  lemma {:induction false} FlattenMembers(ts: seq<TaggedService>, e: TagEntry)
    ensures e in Flatten(ts) <==>
      exists i, j :: 0 <= i < |ts| && 0 <= j < |ts[i].tags| && e == TagEntry(ts[i].serviceId, ts[i].tags[j])
  {
    if exists i, j :: 0 <= i < |ts| && 0 <= j < |ts[i].tags| && e == TagEntry(ts[i].serviceId, ts[i].tags[j]) {
      var i, j :| 0 <= i < |ts| && 0 <= j < |ts[i].tags| && e == TagEntry(ts[i].serviceId, ts[i].tags[j]);
      FlattenAt(ts, i, j);
    }
    if e in Flatten(ts) {
      var n := |ts| - 1;
      if e in Flatten(ts[..n]) {
        FlattenMembers(ts[..n], e);
        var i, j :| 0 <= i < n && 0 <= j < |ts[..n][i].tags| && e == TagEntry(ts[..n][i].serviceId, ts[..n][i].tags[j]);
        assert ts[..n][i] == ts[i];
      } else {
        assert e in EntriesOf(ts[n]);
        var j :| 0 <= j < |ts[n].tags| && EntriesOf(ts[n])[j] == e;
      }
    }
  }

  /** The entries in processing order: discovery order when priority is
      off, else stably sorted by the priority attribute. */
  ghost predicate IsOrdering(r: seq<TagEntry>, s: seq<TagEntry>, priorityAttribute: Option<string>)
  {
    match priorityAttribute
    case None => r == s
    case Some(attr) => IsPrioritized(r, s, attr)
  }

  /** Either way the processing order is a permutation of the discovered entries. */
  lemma OrderingIsPermutation(r: seq<TagEntry>, s: seq<TagEntry>, priorityAttribute: Option<string>)
    requires IsOrdering(r, s, priorityAttribute)
    ensures multiset(r) == multiset(s) && |r| == |s|
  {
    if priorityAttribute.Some? {
      StableIsPermutation(r, s, priorityAttribute.value);
    }
    assert |multiset(r)| == |multiset(s)|;
  }

  // ---------------------------------------------------------------------
  // Wiring: the effect of the whole pass on the definitions

  /** The first argument of a call: the id itself in `id` mode, a reference otherwise. */
  function ServiceArgument(callMode: string, id: string): Arg
  {
    if callMode == CALL_MODE_ID then Val(Str(id)) else Ref(id)
  }

  /** The flag a call mode sets on the tagged definition. */
  function MarkService(defs: map<string, Definition>, callMode: string, id: string): map<string, Definition>
    requires id in defs
  {
    if callMode == CALL_MODE_ID then defs[id := defs[id].(isPublic := true)]
    else if callMode == CALL_MODE_LAZY_SERVICE then defs[id := defs[id].(isLazy := true)]
    else defs
  }

  function AsArgs(vs: seq<Value>): seq<Arg>
  {
    seq(|vs|, i requires 0 <= i < |vs| => Val(vs[i]))
  }

  /** The call registered for one entry whose slots resolve. */
  function CallFor(cfg: PassConfig, e: TagEntry): MethodCall
  {
    MethodCall(cfg.methodName, [ServiceArgument(cfg.callMode, e.serviceId)] + AsArgs(Emitted(cfg.parameters, e.attributes)))
  }

  function Calls(cfg: PassConfig, entries: seq<TagEntry>): seq<MethodCall>
  {
    seq(|entries|, i requires 0 <= i < |entries| => CallFor(cfg, entries[i]))
  }

  ghost predicate Mentions(entries: seq<TagEntry>, id: string)
  {
    exists e <- entries :: e.serviceId == id
  }

  ghost predicate Wirable(cfg: PassConfig, defs: map<string, Definition>, entries: seq<TagEntry>)
  {
    cfg.collectorServiceId in defs && forall e <- entries :: e.serviceId in defs
  }

  /** The definitions after one entry: its call-mode flag, then its call on the collector. */
  function Record(cfg: PassConfig, defs: map<string, Definition>, e: TagEntry): map<string, Definition>
    requires cfg.collectorServiceId in defs && e.serviceId in defs
  {
    var marked := MarkService(defs, cfg.callMode, e.serviceId);
    var c := cfg.collectorServiceId;
    marked[c := marked[c].(methodCalls := marked[c].methodCalls + [CallFor(cfg, e)])]
  }

  /** The definitions after wiring the entries in order, or the error of the
      first entry whose slots do not resolve. */
  ghost function Wire(cfg: PassConfig, defs: map<string, Definition>, entries: seq<TagEntry>): Result<map<string, Definition>>
    requires Wirable(cfg, defs, entries)
    decreases |entries|
  {
    if entries == [] then Success(defs)
    else
      var e := entries[0];
      if MissingBeforePresent(cfg.parameters, e.attributes) then
        Failure(MissingRequiredAttributes(e.serviceId, cfg.tagName))
      else
        Wire(cfg, Record(cfg, defs, e), entries[1..])
  }

  /** One entry appends its call to the collector and changes no tags and no other calls. */
  lemma RecordCalls(cfg: PassConfig, defs: map<string, Definition>, e: TagEntry)
    requires cfg.collectorServiceId in defs && e.serviceId in defs
    ensures var d := Record(cfg, defs, e);
      && d.Keys == defs.Keys
      && d[cfg.collectorServiceId].methodCalls == defs[cfg.collectorServiceId].methodCalls + [CallFor(cfg, e)]
      && (forall x :: x in defs ==> d[x].tags == defs[x].tags)
      && (forall x :: x in defs && x != cfg.collectorServiceId ==> d[x].methodCalls == defs[x].methodCalls)
  {
  }

  /** A successful wiring appends exactly one call per entry, in entry order,
      after the collector's existing calls, and touches no other calls, no tags
      and no ids. */
  lemma {:induction false} WireCalls(cfg: PassConfig, defs: map<string, Definition>, entries: seq<TagEntry>)
    requires Wirable(cfg, defs, entries) && Wire(cfg, defs, entries).Success?
    ensures var d := Wire(cfg, defs, entries).value;
      && d.Keys == defs.Keys
      && d[cfg.collectorServiceId].methodCalls == defs[cfg.collectorServiceId].methodCalls + Calls(cfg, entries)
      && (forall x :: x in defs ==> d[x].tags == defs[x].tags)
      && (forall x :: x in defs && x != cfg.collectorServiceId ==> d[x].methodCalls == defs[x].methodCalls)
    decreases |entries|
  {
    if entries != [] {
      var e := entries[0];
      var next := Record(cfg, defs, e);
      assert !MissingBeforePresent(cfg.parameters, e.attributes);
      assert Wire(cfg, defs, entries) == Wire(cfg, next, entries[1..]);
      RecordCalls(cfg, defs, e);
      WireCalls(cfg, next, entries[1..]);
      assert Calls(cfg, entries) == [CallFor(cfg, e)] + Calls(cfg, entries[1..]);
    }
  }

  /** A successful wiring makes public exactly the mentioned services in `id`
      mode and lazy exactly the mentioned services in `lazy_service` mode;
      it never clears a flag and in any other mode changes none. */
  lemma {:induction false} WireFlags(cfg: PassConfig, defs: map<string, Definition>, entries: seq<TagEntry>)
    requires Wirable(cfg, defs, entries) && Wire(cfg, defs, entries).Success?
    ensures var d := Wire(cfg, defs, entries).value;
      forall x :: x in defs ==>
        && x in d
        && d[x].isPublic == (defs[x].isPublic || (cfg.callMode == CALL_MODE_ID && Mentions(entries, x)))
        && d[x].isLazy == (defs[x].isLazy || (cfg.callMode == CALL_MODE_LAZY_SERVICE && Mentions(entries, x)))
    decreases |entries|
  {
    if entries != [] {
      var e := entries[0];
      var next := Record(cfg, defs, e);
      WireFlags(cfg, next, entries[1..]);
      forall x | x in defs
        ensures Mentions(entries, x) == (e.serviceId == x || Mentions(entries[1..], x))
      {
        if Mentions(entries, x) && e.serviceId != x {
          var f :| f in entries && f.serviceId == x;
          assert f in entries[1..];
        }
      }
    }
  }

  /** The wiring fails exactly when some entry's slots do not resolve. */
  lemma {:induction false} WireFails(cfg: PassConfig, defs: map<string, Definition>, entries: seq<TagEntry>)
    requires Wirable(cfg, defs, entries)
    ensures Wire(cfg, defs, entries).Failure? <==>
      exists i :: 0 <= i < |entries| && MissingBeforePresent(cfg.parameters, entries[i].attributes)
    decreases |entries|
  {
    if entries != [] && !MissingBeforePresent(cfg.parameters, entries[0].attributes) {
      WireFails(cfg, Record(cfg, defs, entries[0]), entries[1..]);
      forall i | 0 < i < |entries|
        ensures entries[i] == entries[1..][i - 1]
      {
      }
    }
  }

  /** The error names the first entry whose slots do not resolve: its service and the tag. */
  lemma {:induction false} WireFirstError(cfg: PassConfig, defs: map<string, Definition>, entries: seq<TagEntry>, i: nat)
    requires Wirable(cfg, defs, entries)
    requires i < |entries| && MissingBeforePresent(cfg.parameters, entries[i].attributes)
    requires forall k :: 0 <= k < i ==> !MissingBeforePresent(cfg.parameters, entries[k].attributes)
    ensures Wire(cfg, defs, entries) == Failure(MissingRequiredAttributes(entries[i].serviceId, cfg.tagName))
    decreases |entries|
  {
    if i > 0 {
      assert !MissingBeforePresent(cfg.parameters, entries[0].attributes);
      forall k | 0 <= k < i - 1
        ensures !MissingBeforePresent(cfg.parameters, entries[1..][k].attributes)
      {
        assert entries[1..][k] == entries[k + 1];
      }
      WireFirstError(cfg, Record(cfg, defs, entries[0]), entries[1..], i - 1);
    }
  }

  /** A successful pass appends to the collector exactly as many calls as the
      container holds occurrences of the tag, repeated tags on one service included. */
  lemma OneCallPerOccurrence(cfg: PassConfig, ids: seq<string>, defs: map<string, Definition>, order: seq<TagEntry>)
    requires forall x <- ids :: x in defs
    requires IsOrdering(order, Flatten(TaggedServiceIds(ids, defs, cfg.tagName)), cfg.priorityAttribute)
    requires Wirable(cfg, defs, order) && Wire(cfg, defs, order).Success?
    ensures var d := Wire(cfg, defs, order).value;
      && cfg.collectorServiceId in d
      && |d[cfg.collectorServiceId].methodCalls|
           == |defs[cfg.collectorServiceId].methodCalls| + Occurrences(TaggedServiceIds(ids, defs, cfg.tagName))
  {
    var tagged := TaggedServiceIds(ids, defs, cfg.tagName);
    OrderingIsPermutation(order, Flatten(tagged), cfg.priorityAttribute);
    FlattenLength(tagged);
    WireCalls(cfg, defs, order);
  }

  /** Every entry discovered in the container names a defined service. */
  lemma TaggedEntriesAreDefined(ids: seq<string>, defs: map<string, Definition>, tag: string, tags: seq<TagEntry>)
    requires forall x <- ids :: x in defs
    requires multiset(tags) == multiset(Flatten(TaggedServiceIds(ids, defs, tag)))
    ensures forall e <- tags :: e.serviceId in defs
  {
    var tagged := TaggedServiceIds(ids, defs, tag);
    forall e | e in tags
      ensures e.serviceId in defs
    {
      assert e in multiset(Flatten(tagged));
      FlattenMembers(tagged, e);
    }
  }

  // ---------------------------------------------------------------------
  // The pass object

  class AddTaggedCompilerPass {
    const collectorServiceId: string
    const tagName: string
    const methodName: string
    const parameters: seq<Param>
    var callMode: string
    var priorityAttribute: Option<string>

    function Config(): PassConfig
      reads this
    {
      PassConfig(collectorServiceId, tagName, methodName, parameters, callMode, priorityAttribute)
    }

    constructor (collectorServiceId: string, tagName: string, methodName: string, parameters: seq<Param> := [])
      ensures Config() == PassConfig(collectorServiceId, tagName, methodName, parameters, CALL_MODE_SERVICE, None)
    {
      this.collectorServiceId := collectorServiceId;
      this.tagName := tagName;
      this.methodName := methodName;
      this.parameters := parameters;
      this.callMode := CALL_MODE_SERVICE;
      this.priorityAttribute := None;
    }

    /** Turns ordering by priority on; the attribute is "priority" unless given. */
    method EnablePriority(attr: string := DEFAULT_PRIORITY_ATTRIBUTE)
      modifies this`priorityAttribute
      ensures Config() == old(Config()).(priorityAttribute := Some(attr))
    {
      priorityAttribute := Some(attr);
    }

    /** Any string is accepted; only "id" and "lazy_service" behave specially. */
    method SetCallMode(mode: string)
      modifies this`callMode
      ensures Config() == old(Config()).(callMode := mode)
    {
      callMode := mode;
    }

    /** Runs the pass. When the collector is missing nothing is touched.
        Otherwise the entries are processed in the order `order`, and the
        new definitions are those of Wire; on an error the definitions
        already changed are not restored, and the model claims nothing about them. */
    method Process(container: ContainerBuilder) returns (outcome: Outcome, ghost order: seq<TagEntry>)
      requires container.Valid()
      modifies container
      ensures container.Valid() && container.ids == old(container.ids)
      ensures collectorServiceId !in old(container.defs) ==>
        outcome == Fail(NoSuchService(collectorServiceId)) && container.defs == old(container.defs)
      ensures collectorServiceId in old(container.defs) ==>
        && IsOrdering(order, Flatten(TaggedServiceIds(old(container.ids), old(container.defs), tagName)), priorityAttribute)
        && Wirable(Config(), old(container.defs), order)
        && (Wire(Config(), old(container.defs), order).Success? ==>
              outcome == Pass && container.defs == Wire(Config(), old(container.defs), order).value)
        && (Wire(Config(), old(container.defs), order).Failure? ==>
              outcome == Fail(Wire(Config(), old(container.defs), order).error))
    {
      if !container.HasDefinition(collectorServiceId) {
        return Fail(NoSuchService(collectorServiceId)), [];
      }
      var tagged := TaggedServiceIds(container.ids, container.defs, tagName);
      var tags := CollectTags(tagged);
      order := tags;
      TaggedEntriesAreDefined(container.ids, container.defs, tagName, tags);
      outcome := AddCalls(container, tags);
    }

    /** The loop of `process`: for each entry in order, the service argument
        (with its flag), the slot values, and one call on the collector. */
    method AddCalls(container: ContainerBuilder, tags: seq<TagEntry>) returns (outcome: Outcome)
      requires container.Valid() && Wirable(Config(), container.defs, tags)
      modifies container
      ensures container.Valid() && container.ids == old(container.ids)
      ensures Wire(Config(), old(container.defs), tags).Success? ==>
        outcome == Pass && container.defs == Wire(Config(), old(container.defs), tags).value
      ensures Wire(Config(), old(container.defs), tags).Failure? ==>
        outcome == Fail(Wire(Config(), old(container.defs), tags).error)
    {
      ghost var cfg := Config();
      ghost var d0 := container.defs;
      var i := 0;
      while i < |tags|
        invariant 0 <= i <= |tags|
        invariant container.Valid() && container.ids == old(container.ids)
        invariant container.defs.Keys == d0.Keys
        invariant Wire(cfg, container.defs, tags[i..]) == Wire(cfg, d0, tags)
      {
        var e := tags[i];
        ghost var before := container.defs;
        assert tags[i..][0] == e && tags[i..][1..] == tags[i + 1..];
        var arg := GetServiceArgument(container, e.serviceId);
        var extra := CollectAdditionalArguments(e.attributes, e.serviceId);
        if extra.Failure? {
          return Fail(extra.error);
        }
        container.AddMethodCall(collectorServiceId, methodName, [arg] + AsArgs(extra.value));
        assert container.defs == Record(cfg, before, e);
        i := i + 1;
      }
      outcome := Pass;
    }

    /** `collectTags`: flattens the services' tag lists, then orders the entries. */
    method CollectTags(tagsByServiceId: seq<TaggedService>) returns (tags: seq<TagEntry>)
      ensures IsOrdering(tags, Flatten(tagsByServiceId), priorityAttribute)
      ensures multiset(tags) == multiset(Flatten(tagsByServiceId))
    {
      var flat: seq<TagEntry> := [];
      var i := 0;
      while i < |tagsByServiceId|
        invariant 0 <= i <= |tagsByServiceId|
        invariant flat == Flatten(tagsByServiceId[..i])
      {
        var service := tagsByServiceId[i];
        var j := 0;
        while j < |service.tags|
          invariant 0 <= j <= |service.tags|
          invariant flat == Flatten(tagsByServiceId[..i]) + EntriesOf(service)[..j]
        {
          flat := flat + [TagEntry(service.serviceId, service.tags[j])];
          j := j + 1;
        }
        assert tagsByServiceId[..i + 1][..i] == tagsByServiceId[..i];
        i := i + 1;
      }
      assert tagsByServiceId[..i] == tagsByServiceId;
      tags := PrioritizeTags(flat);
    }

    /** `prioritizeTags`: discovery order unchanged when priority is off,
        else a stable sort by priority. */
    method PrioritizeTags(tags: seq<TagEntry>) returns (r: seq<TagEntry>)
      ensures IsOrdering(r, tags, priorityAttribute)
      ensures multiset(r) == multiset(tags)
    {
      if priorityAttribute.None? {
        return tags;
      }
      var a := new TagEntry[|tags|](k requires 0 <= k < |tags| => tags[k]);
      assert a[..] == tags;
      SortByPriority(a, priorityAttribute.value);
      r := a[..];
      StableIsPermutation(r, tags, priorityAttribute.value);
    }

    /** `getServiceArgument`: the first call argument, and the flag the
        call mode sets on the tagged definition. */
    method GetServiceArgument(container: ContainerBuilder, id: string) returns (arg: Arg)
      requires container.Valid() && id in container.defs
      modifies container
      ensures container.Valid() && container.ids == old(container.ids)
      ensures arg == ServiceArgument(callMode, id)
      ensures container.defs == MarkService(old(container.defs), callMode, id)
    {
      if callMode == CALL_MODE_ID {
        container.SetPublic(id, true);
        return Val(Str(id));
      }
      if callMode == CALL_MODE_LAZY_SERVICE {
        container.SetLazy(id, true);
      }
      return Ref(id);
    }

    /** `collectAdditionalArguments`: walks the slots once with the
        `onlyOptional` flag, which is set by the first omitted required slot. */
    method CollectAdditionalArguments(attrs: Attributes, serviceId: string) returns (r: Result<seq<Value>>)
      ensures r.Failure? <==> MissingBeforePresent(parameters, attrs)
      ensures r.Failure? ==> r.error == MissingRequiredAttributes(serviceId, tagName)
      ensures r.Success? ==> r.value == Emitted(parameters, attrs)
    {
      var onlyOptional := false;
      var arguments: seq<Value> := [];
      var k := 0;
      while k < |parameters|
        invariant 0 <= k <= |parameters|
        invariant onlyOptional <==> exists i :: 0 <= i < k && Omitted(parameters[i], attrs)
        invariant forall i, j :: 0 <= i < j < k ==> !(Omitted(parameters[i], attrs) && HasAttribute(attrs, parameters[j].name))
        invariant arguments == Emitted(parameters[..k], attrs)
      {
        var p := parameters[k];
        var hasDefault := p.Defaulted?;
        var hasAttribute := p.name in attrs && !attrs[p.name].Null?;
        if hasAttribute && onlyOptional {
          var i :| 0 <= i < k && Omitted(parameters[i], attrs);
          assert Omitted(parameters[i], attrs) && HasAttribute(attrs, parameters[k].name);
          return Failure(MissingRequiredAttributes(serviceId, tagName));
        }
        if !hasAttribute && !hasDefault {
          onlyOptional := true;
        } else {
          arguments := arguments + [if hasAttribute then attrs[p.name] else p.default];
        }
        assert parameters[..k + 1][..k] == parameters[..k] && parameters[..k + 1][k] == p;
        assert Emitted(parameters[..k + 1], attrs) == Emitted(parameters[..k], attrs) + SlotOutput(p, attrs);
        k := k + 1;
      }
      assert parameters[..k] == parameters;
      return Success(arguments);
    }
  }
}
