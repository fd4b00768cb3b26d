# Tagged-service wiring and composite configuration, in Dafny

This project models two pieces of a Symfony dependency-injection helper
library.

`AddTaggedCompilerPass` is a compiler pass. It finds every service
definition that carries a given tag, once per tag occurrence. When a priority
attribute is enabled, it sorts the occurrences stably by that attribute,
lowest first, with a missing priority counting as 0. For each occurrence it
then registers one method call on a collector service. The call's first
argument depends on the call mode:

- `service` passes a reference to the tagged service;
- `lazy_service` passes a reference and also marks the service lazy;
- `id` passes the id string and also makes the service public.

The remaining arguments come from the tag's attributes, one per
configured parameter slot. A slot is either required (a bare name) or
defaulted (`name => default`). A required slot with no attribute emits
nothing. After such a slot, no later slot may have its attribute present;
if one does, the pass fails with "Some required attributes are missing in
service X tag Y definition". A missing collector fails the pass with "No such
service: X".

`CompositeConfigurator` holds an ordered list of configurators. Loading it
applies each configurator to the container in registration order. Its
compiler passes are those of the configurators that provide passes,
concatenated in registration order.

Modules:

- `Container` holds the container builder: service ids in registration
  order, and definitions with their tags, visibility, laziness and method
  calls. It also holds the tagged-service lookup.
- `Errors` holds the two configuration errors and their messages.
- `Slots` is the declarative meaning of parameter slots: what a tag's
  attributes emit, and when they are refused.
- `Priority` holds stable sorting by priority: the `Sorted` and `Stable`
  predicates and an in-place insertion sort on an array.
- `TaggedPass` holds the pass object as a class whose methods follow the
  source's loops. Its reference function `Wire` gives the definitions after
  the pass, and lemmas about `Wire` state what the pass does.
- `Composite` holds the composite configurator as a class.
- `Scenarios` restates some of the concrete unit-test cases as lemmas. It
  states one of them, "Forbids skipping a non-optional argument", as a
  method that calls `Process`. Two further lemmas, `NullIsAbsent` and
  `DefaultAfterOmitted`, are not tests: they state quirks of the source's
  slot and priority handling.

Symfony's tag lookup `findTaggedServiceIds` is not part of this model. In
its place `Container.TaggedServiceIds` computes the lookup from the
container's ids and definitions: one row per tagged service, in registration
order. Each configurator's compiler passes are a parameter of the model
rather than a computation.

The processing order is computed: `CollectTags` flattens the lookup and
`PrioritizeTags` sorts it with `Priority.SortByPriority`. `Process` also
returns that order as a ghost out-parameter, so that its contract can name
it. `Priority.PrioritizedIsUnique` shows the order is fully determined by
the input.

When the priority is enabled, the model's sort is stable, so equal
priorities keep discovery order. PHP's `usort` is stable only since PHP 8.0,
and the model assumes PHP 8.0 or later.

The doc comment of `getServiceArgument` in src/AddTaggedCompilerPass.php
(lines 122-123) says subclasses may override it, but the method is declared
`private` (line 129). Because `process` calls it from the class's own scope,
PHP never dispatches to a subclass method of that name. The comment and the
modifier disagree, and the model follows the modifier: every call mode
behaves as written in that class.

## Model

| member | source | states |
|---|---|---|
| Container.TaggedServiceIds | src/AddTaggedCompilerPass.php:82 | Each row is a registered service carrying the tag, with its attribute bags in declaration order and at least one bag. Every registered service carrying the tag has a row. The row ids are a subsequence of the registered ids, so rows follow registration order |
| Container.TaggedServiceIdsDistinct | src/AddTaggedCompilerPass.php:82 | When the registered ids are distinct, so are the rows' ids: each tagged service has exactly one row |
| Container.ContainerBuilder.SetDefinition | tests/Unit/AddTaggedCompilerPassTest.php:30-33 | Symfony's `setDefinition` as the tests use it: the definition of the id is replaced; a known id keeps its place in the registration order and a new id goes last |
| Container.ContainerBuilder.SetPublic | src/AddTaggedCompilerPass.php:132 | Only the named definition's public flag changes; the ids stay the same |
| Container.ContainerBuilder.SetLazy | src/AddTaggedCompilerPass.php:138 | Only the named definition's lazy flag changes; the ids stay the same |
| Container.ContainerBuilder.AddMethodCall | src/AddTaggedCompilerPass.php:88 | The call is appended to the named definition's calls; nothing else changes |
| Slots.EmittedLength | src/AddTaggedCompilerPass.php:168-172 | A slot emits at most one value; the output has one value per slot exactly when no required slot is missing its attribute |
| Slots.EmittedAllResolved | src/AddTaggedCompilerPass.php:168-171 | With no omitted slot, output i is slot i's attribute when present, else its default |
| Slots.EmittedNoAttributes | src/AddTaggedCompilerPass.php:168-171 | When no slot's attribute is present, the output is exactly the defaults in parameter order |
| Slots.EmittedShape | src/AddTaggedCompilerPass.php:159-172 | An accepted tag gives, up to the first omitted slot, each slot's attribute or default, followed by only the defaults of the later defaulted slots |
| Slots.NothingPresentFrom | src/AddTaggedCompilerPass.php:159-166 | An accepted tag has no attribute present for any slot from the first omitted one on |
| Priority.StableIsPermutation | src/AddTaggedCompilerPass.php:113-117 | A reordering that keeps each priority class in order is a permutation: no occurrence is lost or duplicated |
| Priority.PrioritizedIsUnique | src/AddTaggedCompilerPass.php:113-117 | There is only one stable sort by priority: ties keep discovery order |
| Priority.SortByPriority | src/AddTaggedCompilerPass.php:113-117 | The array ends up in non-decreasing priority, with each priority class in its original order |
| Priority.SinkInto | src/AddTaggedCompilerPass.php:113-117 | Sinking one entry grows the sorted prefix by one and keeps every priority class in order |
| TaggedPass.FlattenLength | src/AddTaggedCompilerPass.php:92-102 | The flattened list has one entry per tag occurrence |
| TaggedPass.FlattenAt | src/AddTaggedCompilerPass.php:92-102 | Occurrence j of service i sits at position (occurrences before i) + j, with that service's id and that bag |
| TaggedPass.FlattenMembers | src/AddTaggedCompilerPass.php:92-102 | An entry is in the flattened list exactly when it is an occurrence of some service, in both directions: no entry is invented and none is dropped |
| TaggedPass.OrderingIsPermutation | src/AddTaggedCompilerPass.php:104-119 | With priority off, the order is discovery order; in both cases the order is a permutation of the occurrences |
| TaggedPass.WireCalls | src/AddTaggedCompilerPass.php:83-89 | On success, the collector's calls are its old calls followed by one call per occurrence in order: method name, service argument, emitted values. Services and tags are unchanged, and so are the calls of every other service |
| TaggedPass.WireFlags | src/AddTaggedCompilerPass.php:129-142 | On success, a service is public exactly when it was public before or the mode is `id` and it is tagged; it is lazy exactly when it was lazy before or the mode is `lazy_service` and it is tagged |
| TaggedPass.WireFails | src/AddTaggedCompilerPass.php:159-166 | The pass fails exactly when some occurrence has an attribute present after an omitted required slot |
| TaggedPass.WireFirstError | src/AddTaggedCompilerPass.php:161-165 | The failure names the service of the first refused occurrence, together with the tag name |
| TaggedPass.OneCallPerOccurrence | src/AddTaggedCompilerPass.php:82-102 | A successful pass adds exactly as many collector calls as there are tag occurrences |
| TaggedPass.AddTaggedCompilerPass.constructor | src/AddTaggedCompilerPass.php:40-47 | Stores collector id, tag, method and parameters (default none); the call mode is `service` and priority is off |
| TaggedPass.AddTaggedCompilerPass.EnablePriority | src/AddTaggedCompilerPass.php:57-61 | Turns priority on with the given attribute (default `priority`); nothing else changes |
| TaggedPass.AddTaggedCompilerPass.SetCallMode | src/AddTaggedCompilerPass.php:69-73 | Sets the call mode as given; nothing else changes |
| TaggedPass.AddTaggedCompilerPass.Process | src/AddTaggedCompilerPass.php:75-90 | A missing collector fails with NoSuchService and changes nothing. Otherwise the processing order is the tag occurrences, stably sorted by priority when priority is on, and the outcome and new definitions are those of `Wire` |
| TaggedPass.AddTaggedCompilerPass.AddCalls | src/AddTaggedCompilerPass.php:83-89 | The per-occurrence loop yields the outcome and definitions of `Wire` over the order given |
| TaggedPass.AddTaggedCompilerPass.CollectTags | src/AddTaggedCompilerPass.php:92-105 | The result orders the flattened occurrences as priority demands, and is a permutation of them |
| TaggedPass.AddTaggedCompilerPass.PrioritizeTags | src/AddTaggedCompilerPass.php:107-120 | Disabled priority returns the input unchanged; enabled priority returns it stably sorted by priority, which is a permutation |
| TaggedPass.AddTaggedCompilerPass.GetServiceArgument | src/AddTaggedCompilerPass.php:129-142 | Returns the id string in mode `id`, else a reference; marks the service public (`id`) or lazy (`lazy_service`), and nothing else |
| TaggedPass.AddTaggedCompilerPass.CollectAdditionalArguments | src/AddTaggedCompilerPass.php:144-175 | Fails exactly when an attribute is present after an omitted required slot, naming the service and tag. Otherwise it returns the values the slots emit |
| Composite.ProviderPassesLength | src/CompositeConfigurator.php:43-52 | The collected passes number exactly the passes the providers expose |
| Composite.ProviderPassesAppend | src/CompositeConfigurator.php:46-50 | Collecting over two lists of configurators is collecting over each in turn |
| Composite.ProviderPassesMembers | src/CompositeConfigurator.php:46-50 | A pass is collected exactly when some pass-providing configurator exposes it |
| Composite.LoadConfigurator | src/ConfiguratorLoader.php:47-55 | The configurator is applied to the container after those already applied |
| Composite.CompositeConfigurator.constructor | src/CompositeConfigurator.php:20-25 | Registers the given configurators in order (default none) |
| Composite.CompositeConfigurator.RegisterConfigurator | src/CompositeConfigurator.php:27-30 | Appends the configurator to the list |
| Composite.CompositeConfigurator.Load | src/CompositeConfigurator.php:32-38 | Every registered configurator is applied once, in registration order, after those applied before |
| Composite.CompositeConfigurator.GetCompilerPasses | src/CompositeConfigurator.php:43-52 | The passes of the pass providers, concatenated in registration order |
| Scenarios.OptionalArguments | tests/Unit/TaggedCompilerPassTest.php:82-102 | Parameters key, color: color alone is refused; key and color give both values; key alone gives just the key |
| Scenarios.ForbidsSkipping | tests/Unit/AddTaggedCompilerPassTest.php:128-141 | Processing a container whose one tagged service has a color but no key fails, with the message "Some required attributes are missing in service orange tag fruit definition" |
| Scenarios.SkippingContainer | tests/Unit/AddTaggedCompilerPassTest.php:128-141 | Registering the collector and then the orange service, as the test does, gives the ids in that order and exactly the test's two definitions |
| Scenarios.SkippingFails | tests/Unit/AddTaggedCompilerPassTest.php:128-141 | In that container the lookup yields the single occurrence, and wiring it fails on service orange and tag fruit |
| Scenarios.SkippingMessage | src/AddTaggedCompilerPass.php:161-165 | The message for that failure is the literal text "Some required attributes are missing in service orange tag fruit definition", the source's format string with orange and fruit in place |
| Scenarios.DefaultedAttributes | tests/Unit/AddTaggedCompilerPassTest.php:143-165 | With a defaulted key and a required color, the three tags of the test give the expected arguments |
| Scenarios.OverriddenDefault | tests/Unit/AddTaggedCompilerPassTest.php:167-186 | A defaulted color fills in when absent, and a given color overrides it |
| Scenarios.NullIsAbsent | src/AddTaggedCompilerPass.php:114 | A null attribute counts as absent: for a slot, a null key then a present color is refused; a null priority counts as 0 |
| Scenarios.DefaultAfterOmitted | src/AddTaggedCompilerPass.php:168-171 | A defaulted slot after an omitted required slot still emits its default without error |
| Scenarios.Priorities | tests/Unit/AddTaggedCompilerPassTest.php:188-216 | Priorities 1, none, -2, none, -1 on s1..s5 force the order s3, s5, s2, s4, s1 |
| Scenarios.IdMakesPublic | tests/Unit/AddTaggedCompilerPassTest.php:301-322 | In mode `id` the collector receives the id string and the key, and the tagged service becomes public |

## Left out

- `ConfiguratorLoader` and `DefinitionsConfigurator` are not modelled beyond `Composite.LoadConfigurator`. They are thin plumbing over Symfony's `ContainerBuilder`, which is not part of this model. `ConfiguratorLoader::load` registers the configurator as an object resource and hands it the container. `createContainer` also adds compiler passes, merges parameters and compiles. `DefinitionsConfigurator::load` makes a single `addDefinitions` call.
- What a configurator's own `load` does to the container is not modelled. The container records only which configurators were applied, in which order.
- The `instanceof CompilerPassProviderInterface` test becomes the `passes` field of a configurator being present. A composite registered inside another composite is a configurator whose passes field is a snapshot of the inner list's collected passes. PHP's outer composite holds the inner one by reference and asks it for passes only when collecting. A configurator registered on the inner composite after it joined the outer one is therefore seen by PHP, but missed by the model's copied value.
- Symfony's `findTaggedServiceIds` is replaced by `Container.TaggedServiceIds`, which returns services in registration order. Symfony's own internals, such as service aliases, are not modelled.
- Definitions are values in a map keyed by service id, which the container rewrites. PHP's object aliasing of a `Definition` that is shared between ids is not modelled.
- TaggedPass.AddTaggedCompilerPass.Process: on failure, nothing is said about the definitions at that point. The source leaves behind the calls added for earlier occurrences and the public or lazy flags set for them. It also leaves the refused occurrence's own flag, because `getServiceArgument` runs (src/AddTaggedCompilerPass.php line 85) before `collectAdditionalArguments` throws (line 86).
- TaggedPass.AddTaggedCompilerPass.Process: the failure for service ids written as canonical decimal integers, such as `"42"`, is not modelled. Such an id becomes an integer array key in PHP. Under `declare(strict_types=1)`, passing it back as the `string` service id raises a TypeError before that entry's flag or call is applied. The model wires such a service like any other.
- Priority.PriorityOf: priorities that are floats or numeric strings are not modelled. A string priority counts as 0 in the model, but that is not PHP's behaviour: under PHP 8, a non-numeric string makes the subtraction at src/AddTaggedCompilerPass.php line 116 throw a TypeError. Two integer priorities whose difference passes `PHP_INT_MAX` overflow to a float, which `usort` converts back to an integer; that is not modelled either, since the model's integers are unbounded. A boolean counts as 0 or 1.
- Slots.Param: a parameter array with a numeric-string key is modelled as slots that are already required or defaulted. PHP's `is_numeric` key test itself is not modelled.
- Composite.CompositeConfigurator.GetCompilerPasses: pass arrays are modelled as lists, concatenated. PHP's `array_merge` overwrites string keys: if one provider returns `['main' => $p1]` and a later one `['main' => $p2]`, only `$p2` is collected. Neither the interface nor the composite rules this out. So `Composite.ProviderPassesLength` and the "some provider exposes it" direction of `Composite.ProviderPassesMembers` hold only for integer-keyed pass arrays.
- A call mode other than the three constants is accepted, as in the source, and then behaves like `service`.
