/** The concrete cases of tests/Unit/AddTaggedCompilerPassTest.php and
    tests/Unit/TaggedCompilerPassTest.php, stated on the model. */
module Scenarios {
  import opened Wrappers
  import opened Errors
  import opened Container
  import opened Slots
  import opened Priority
  import opened TaggedPass

  const KeyColor: seq<Param> := [Required("key"), Required("color")]

  /** Parameters `['key', 'color']`: a tag with only a color skips the key and
      is refused; with both, both are passed; with only the key, the color
      slot emits nothing and the collector's own default applies. */
  lemma OptionalArguments()
    ensures MissingBeforePresent(KeyColor, map["color" := Str("green")])
    ensures !MissingBeforePresent(KeyColor, map["key" := Str("foo"), "color" := Str("light-green")])
    ensures Emitted(KeyColor, map["key" := Str("foo"), "color" := Str("light-green")]) == [Str("foo"), Str("light-green")]
    ensures !MissingBeforePresent(KeyColor, map["key" := Str("foo")])
    ensures Emitted(KeyColor, map["key" := Str("foo")]) == [Str("foo")]
  {
    var green := map["color" := Str("green")];
    assert Omitted(KeyColor[0], green) && HasAttribute(green, KeyColor[1].name);
  }

  /** The container of "Forbids skipping a non-optional argument": the
      collector, and one service tagged with a color but no key. */
  const SkippingDefs: map<string, Definition> := map[]
    ["collector" := Definition(false, false, [], [])]
    ["orange" := Definition(false, false, [Tag("fruit", map["color" := Str("orange")])], [])]

  /** The lookup finds the one occurrence, and wiring it fails on that service. */
  lemma SkippingFails(cfg: PassConfig)
    requires cfg.collectorServiceId == "collector" && cfg.tagName == "fruit" && cfg.parameters == KeyColor
    ensures var tagged := TaggedServiceIds(["collector", "orange"], SkippingDefs, "fruit");
      && Flatten(tagged) == [TagEntry("orange", map["color" := Str("orange")])]
      && Wirable(cfg, SkippingDefs, Flatten(tagged))
      && Wire(cfg, SkippingDefs, Flatten(tagged)) == Failure(MissingRequiredAttributes("orange", "fruit"))
  {
    var attrs := map["color" := Str("orange")];
    var ids := ["collector", "orange"];
    assert TagsNamed(SkippingDefs[ids[0]].tags, "fruit") == [];
    assert TagsNamed(SkippingDefs[ids[1]].tags, "fruit") == [attrs];
    assert ids[1..][1..] == [];
    var tagged := TaggedServiceIds(ids, SkippingDefs, "fruit");
    assert tagged == [TaggedService("orange", [attrs])];
    assert tagged[..0] == [];
    assert Omitted(KeyColor[0], attrs) && HasAttribute(attrs, KeyColor[1].name);
  }

  const SkippingText := "Some required attributes are missing in service orange tag fruit definition"

  /** The message the source builds for that failure. */
  lemma SkippingMessage()
    ensures Message(MissingRequiredAttributes("orange", "fruit")) == SkippingText
  {
    // The text, built up one formatted piece at a time.
    assert "Some required attributes are missing in service " + "orange"
      == "Some required attributes are missing in service orange";
    assert "Some required attributes are missing in service orange" + " tag "
      == "Some required attributes are missing in service orange tag ";
    assert "Some required attributes are missing in service orange tag " + "fruit"
      == "Some required attributes are missing in service orange tag fruit";
    assert "Some required attributes are missing in service orange tag fruit" + " definition" == SkippingText;
  }

  /** Registers the collector, then the orange service. */
  method SkippingContainer() returns (container: ContainerBuilder)
    ensures fresh(container) && container.Valid()
    ensures container.ids == ["collector", "orange"] && container.defs == SkippingDefs
  {
    container := new ContainerBuilder();
    container.SetDefinition("collector", SkippingDefs["collector"]);
    container.SetDefinition("orange", SkippingDefs["orange"]);
    assert container.ids == [] + ["collector"] + ["orange"];
  }

  /** "Forbids skipping a non-optional argument": with parameters `['key',
      'color']`, processing that container fails with the source's message
      naming the service and the tag. */
  method ForbidsSkipping() returns (outcome: Outcome)
    ensures outcome.Fail?
    ensures Message(outcome.error) == SkippingText
  {
    var container := SkippingContainer();
    var pass := new AddTaggedCompilerPass("collector", "fruit", "addFruit", KeyColor);
    SkippingFails(pass.Config());
    ghost var order;
    outcome, order := pass.Process(container);
    assert outcome == Fail(MissingRequiredAttributes("orange", "fruit"));
    SkippingMessage();
  }

  /** Parameters `['key' => 'default', 'color']`: an empty tag gets the
      default key; a tag with only a color gets the default key and that
      color; a tag with only a key gets that key. */
  lemma DefaultedAttributes()
    ensures var ps := [Defaulted("key", Str("default")), Required("color")];
      && !MissingBeforePresent(ps, map[])
      && Emitted(ps, map[]) == [Str("default")]
      && !MissingBeforePresent(ps, map["color" := Str("orange")])
      && Emitted(ps, map["color" := Str("orange")]) == [Str("default"), Str("orange")]
      && !MissingBeforePresent(ps, map["key" := Str("pear")])
      && Emitted(ps, map["key" := Str("pear")]) == [Str("pear")]
  {
  }

  /** Parameters `['key', 'color' => 'my default']`: the default fills an
      absent color, and a given color overrides it. */
  lemma OverriddenDefault()
    ensures var ps := [Required("key"), Defaulted("color", Str("my default"))];
      && Emitted(ps, map["key" := Str("orange")]) == [Str("orange"), Str("my default")]
      && Emitted(ps, map["key" := Str("pear"), "color" := Str("pear custom")]) == [Str("pear"), Str("pear custom")]
  {
  }

  /** A null attribute is treated as absent, both for a slot and for the priority. */
  lemma NullIsAbsent()
    ensures MissingBeforePresent(KeyColor, map["key" := Null, "color" := Str("green")])
    ensures PriorityOf(map["priority" := Null], "priority") == 0
  {
    var attrs := map["key" := Null, "color" := Str("green")];
    assert Omitted(KeyColor[0], attrs) && HasAttribute(attrs, KeyColor[1].name);
  }

  /** A defaulted slot after an omitted required slot still emits its
      default, and causes no error. */
  lemma DefaultAfterOmitted()
    ensures var ps := [Required("key"), Defaulted("color", Str("yellow"))];
      && !MissingBeforePresent(ps, map[])
      && Emitted(ps, map[]) == [Str("yellow")]
  {
  }

  function Occurrence(id: string, key: string, priority: Option<int>, color: string): TagEntry
  {
    match priority
    case None => TagEntry(id, map["key" := Str(key), "color" := Str(color)])
    case Some(p) => TagEntry(id, map["key" := Str(key), "priority" := Int(p), "color" := Str(color)])
  }

  /** "Works with priorities": priorities 1, none, -2, none, -1 on s1..s5 are
      processed as s3, s5, s2, s4, s1, and no other order is a stable sort. */
  lemma Priorities(r: seq<TagEntry>)
    requires IsPrioritized(r, [
      Occurrence("s1", "orange", Some(1), "orange-p1"),
      Occurrence("s2", "orange", None, "orange-default"),
      Occurrence("s3", "pear", Some(-2), "pear-p-2"),
      Occurrence("s4", "pear", None, "pear-default"),
      Occurrence("s5", "pear", Some(-1), "pear-p-1")], "priority")
    ensures r == [
      Occurrence("s3", "pear", Some(-2), "pear-p-2"),
      Occurrence("s5", "pear", Some(-1), "pear-p-1"),
      Occurrence("s2", "orange", None, "orange-default"),
      Occurrence("s4", "pear", None, "pear-default"),
      Occurrence("s1", "orange", Some(1), "orange-p1")]
  {
    var s1, s2, s3, s4, s5 :=
      Occurrence("s1", "orange", Some(1), "orange-p1"),
      Occurrence("s2", "orange", None, "orange-default"),
      Occurrence("s3", "pear", Some(-2), "pear-p-2"),
      Occurrence("s4", "pear", None, "pear-default"),
      Occurrence("s5", "pear", Some(-1), "pear-p-1");
    var s, expected := [s1, s2, s3, s4, s5], [s3, s5, s2, s4, s1];
    assert Key(s1, "priority") == 1 && Key(s2, "priority") == 0 && Key(s3, "priority") == -2;
    assert Key(s4, "priority") == 0 && Key(s5, "priority") == -1;
    forall p
      ensures WithPriority(expected, "priority", p) == WithPriority(s, "priority", p)
    {
      ClassOfFive(s1, s2, s3, s4, s5, "priority", p);
      ClassOfFive(s3, s5, s2, s4, s1, "priority", p);
    }
    PrioritizedIsUnique(r, expected, s, "priority");
  }

  lemma WithPriorityCons(x: TagEntry, t: seq<TagEntry>, attr: string, p: int)
    ensures WithPriority([x] + t, attr, p) == InClass(x, attr, p) + WithPriority(t, attr, p)
  {
    assert ([x] + t)[1..] == t;
  }

  /** The class of p in a five-entry sequence, entry by entry. */
  lemma ClassOfFive(a: TagEntry, b: TagEntry, c: TagEntry, d: TagEntry, e: TagEntry, attr: string, p: int)
    ensures WithPriority([a, b, c, d, e], attr, p) ==
      InClass(a, attr, p) + (InClass(b, attr, p) + (InClass(c, attr, p) + (InClass(d, attr, p) + InClass(e, attr, p))))
  {
    var t4, t3, t2 := [b, c, d, e], [c, d, e], [d, e];
    assert [a, b, c, d, e] == [a] + t4 && t4 == [b] + t3 && t3 == [c] + t2 && t2 == [d] + [e];
    assert WithPriority([e], attr, p) == InClass(e, attr, p);
    WithPriorityCons(d, [e], attr, p);
    WithPriorityCons(c, t2, attr, p);
    WithPriorityCons(b, t3, attr, p);
    WithPriorityCons(a, t4, attr, p);
  }


  /** "ID makes definitions public": in `id` mode the collector receives the
      id string and the key, and the tagged definition becomes public. */
  lemma IdMakesPublic()
    ensures var cfg := PassConfig("collector", "fruit", "addFruit", [Required("key")], CALL_MODE_ID, None);
      var s1 := Definition(false, false, [Tag("fruit", map["key" := Str("orange")])], []);
      var defs := map["collector" := Definition(false, false, [], []), "s1" := s1];
      var entries := [TagEntry("s1", map["key" := Str("orange")])];
      && Wirable(cfg, defs, entries)
      && Wire(cfg, defs, entries).Success?
      && Wire(cfg, defs, entries).value["s1"] == s1.(isPublic := true)
      && Wire(cfg, defs, entries).value["collector"].methodCalls
           == [MethodCall("addFruit", [Val(Str("s1")), Val(Str("orange"))])]
  {
    var cfg := PassConfig("collector", "fruit", "addFruit", [Required("key")], CALL_MODE_ID, None);
    var s1 := Definition(false, false, [Tag("fruit", map["key" := Str("orange")])], []);
    var defs := map["collector" := Definition(false, false, [], []), "s1" := s1];
    var e := TagEntry("s1", map["key" := Str("orange")]);
    assert cfg.parameters[..0] == [];
    assert Emitted(cfg.parameters, e.attributes) == [Str("orange")];
    assert AsArgs([Str("orange")]) == [Val(Str("orange"))];
    assert CallFor(cfg, e) == MethodCall("addFruit", [Val(Str("s1")), Val(Str("orange"))]);
    assert !MissingBeforePresent(cfg.parameters, e.attributes);
    assert [e][1..] == [];
    assert Wire(cfg, defs, [e]) == Wire(cfg, Record(cfg, defs, e), []);
  }
}
