# BladeDice trick store and generator, in Dafny

BladeDice is an inline-skating "name that trick" app. This project models its
core: the catalog of trick attributes, the store that keeps an enabled flag for
each of them, and the generator that draws a random trick from the enabled
attributes.

- `tricks.dfy` (module `Tricks`): the two trick types (soul plate, H-block),
  the nine bases, four sides and ten spins, each base, side and spin with its
  `IsSoulPlateTrick` family, the four attribute categories with their section
  titles, the tagged union `TrickAttribute` with its category and family, and
  the `Trick` record.
- `catalog.dfy` (module `Catalog`): the catalog lists per category, their
  concatenation in catalog order, and the grouping of that list by category,
  built by a loop that appends to a dictionary.
- `context.dfy` (module `Context`): the enablement store. A class
  `TrickContext` holds the map `enabledState: map<TrickAttribute, bool>`; its
  constructor fills it with every catalog attribute, enabled, and
  `UpdateEnabledState` is the one mutator, with the family cascade as a loop
  over a snapshot of the map. The read-only queries (`IsTrickTypeEnabled`, the
  `Enabled*` projections, the soul-plate and H-block filters,
  `CanDisableTrickAttribute`) are functions of the map. `Updated` is the new
  map as a function of the old one, and the store invariant is `Invariant`:
  every attribute has an entry, some trick type is enabled, and every enabled
  trick type has an enabled base, side and spin of its family.
- `generator.dfy` (module `Generator`): `MakeRandomTrick`, with each random
  draw a nondeterministic choice from the candidate set.

Behaviour as the code has it:

- Toggling a trick type also writes the flag of every base, side and spin of
  that type's family; the sub-attribute flags are not left untouched.
- The generated trick's `trickType` is always soul plate, also when the
  H-block type was drawn and the base, side and spin are H-block ones.
  `MakeRandomTrick` states both facts.
- The per-type candidate queries the generator calls
  (`enabledTrickSpinsWithTrickType` and its side and base twins) are not part
  of this model's sources. They are modelled as the soul-plate filter for the
  soul-plate type and the H-block filter for the H-block type
  (`EnabledTrickSpinsWithTrickType` and its twins). This is an assumption.

## Model

| member | source | states |
|---|---|---|
| `Tricks.TrickAttribute.Category` | BladeDice/Trick.swift:55-66 | each attribute case maps to its own category, in both directions |
| `Tricks.TrickAttribute.IsSoulPlateAttribute` | BladeDice/Trick.swift:68-79 | a type attribute is soul-plate iff it is the soul-plate type; any other attribute has its payload's `IsSoulPlateTrick` |
| `Tricks.TrickType.Other` | BladeDice/TrickContext.swift:170 | the other trick type differs from the given one |
| `Tricks.TrickAttributeType.AllCases` | BladeDice/Trick.swift:22-26 | four categories, in the order type, base, side, spin |
| `Tricks.AllTrickTypesListed` | BladeDice/Trick.swift:83-86 | every trick type is among the listed cases (there are two) |
| `Tricks.AllBasesListed` | BladeDice/Trick.swift:88-98 | every base is among the listed cases |
| `Tricks.AllSidesListed` | BladeDice/Trick.swift:110-115 | every side is among the listed cases |
| `Tricks.AllSpinsListed` | BladeDice/Trick.swift:127-138 | every spin is among the listed cases |
| `Tricks.AllCasesDistinct` | BladeDice/Trick.swift:83-138 | no enumeration lists a case twice |
| `Tricks.BaseFamilies` | BladeDice/Trick.swift:100-107 | soul-plate bases are exactly soul, acid, mizou, pornstar; the other five are H-block |
| `Tricks.SideFamilies` | BladeDice/Trick.swift:117-124 | sides split two soul-plate, two H-block |
| `Tricks.SpinFamilies` | BladeDice/Trick.swift:140-147 | spins split eight soul-plate, two H-block |
| `Tricks.CategoryNames` | BladeDice/Trick.swift:28-39 | the section titles are "Types", "Bases", "Sides", "Spins" and tell the categories apart |
| `Tricks.FamilyBase` | BladeDice/Trick.swift:100-107 | each trick type's family has a base |
| `Tricks.FamilySide` | BladeDice/Trick.swift:117-124 | each trick type's family has a side |
| `Tricks.FamilySpin` | BladeDice/Trick.swift:140-147 | each trick type's family has a spin |
| `Catalog.AttributeListsFollowCases` | BladeDice/TrickContext.swift:32-43 | each category's attribute list wraps its enumeration's cases one for one, in order |
| `Catalog.CategoryListMembership` | BladeDice/TrickContext.swift:32-43 | an attribute is in a category's list iff it has that category |
| `Catalog.CatalogComplete` | BladeDice/TrickContext.swift:45-47 | the flattened catalog holds every attribute |
| `Catalog.OfCategoryConcat` | BladeDice/TrickContext.swift:49-59 | filtering by category distributes over concatenation |
| `Catalog.GroupedCatalog` | BladeDice/TrickContext.swift:45-59 | the in-order subsequence of the flattened catalog with category c is exactly c's catalog list |
| `Catalog.GroupByType` | BladeDice/TrickContext.swift:49-59 | the appending loop yields, for each category present, the in-order subsequence of that category, and no key for an absent one |
| `Catalog.TrickAttributesByType` | BladeDice/TrickContext.swift:49-59 | the grouping has all four categories as keys, each with its non-empty catalog list |
| `Context.IsTrickTypeEnabled` | BladeDice/TrickContext.swift:80-82 | a missing entry reads as enabled; a present one reads as its flag |
| `Context.EnabledTrickTypesAgree` | BladeDice/TrickContext.swift:80-91 | with every attribute present, the enabled-types projection agrees with `IsTrickTypeEnabled` |
| `Context.FamilyFiltersPartition` | BladeDice/TrickContext.swift:130-152 | the soul-plate and H-block filters partition the enabled bases, sides and spins |
| `Context.EnabledTrickSpinsWithTrickType` | BladeDice/TrickGenerator.swift:28 | a spin is a candidate iff its entry is present and true and its family is the given type |
| `Context.EnabledTrickSidesWithTrickType` | BladeDice/TrickGenerator.swift:29 | a side is a candidate iff its entry is present and true and its family is the given type |
| `Context.EnabledTrickBasesWithTrickType` | BladeDice/TrickGenerator.swift:30 | a base is a candidate iff its entry is present and true and its family is the given type |
| `Context.CanDisableIff` | BladeDice/TrickContext.swift:156-164 | a trick type can always be disabled; any other attribute iff two different enabled attributes share its category and family |
| `Context.CanDisableLeavesPeer` | BladeDice/TrickContext.swift:156-164 | when a base, side or spin may be disabled, another enabled member of its group exists |
| `Context.TypeUpdateCascade` | BladeDice/TrickContext.swift:166-199 | toggling type T to b sets T's whole family to b; the other family is unchanged, except that disabling T while the other type is disabled enables the whole other family; no key is added or removed |
| `Context.AttributeUpdateLocal` | BladeDice/TrickContext.swift:174-179 | a base, side or spin toggle changes only its own entry: to b when enabling or when disabling is allowed, otherwise nothing |
| `Context.LastOneStanding` | BladeDice/TrickContext.swift:174-177 | disabling the last enabled member of a (category, family) group is refused and leaves the map unchanged |
| `Context.NeverBothTypesDisabled` | BladeDice/TrickContext.swift:168-173 | after any type toggle at least one trick type is enabled; other toggles keep that |
| `Context.DisableBothTypesInTurn` | BladeDice/TrickContext.swift:168-173 | from all-enabled, disabling T leaves only the other type enabled; then disabling the other re-enables T |
| `Context.AllEnabledInvariant` | BladeDice/TrickContext.swift:203-227 | the all-enabled map satisfies the store invariant |
| `Context.UpdatePreservesInvariant` | BladeDice/TrickContext.swift:166-199 | every update keeps the store invariant |
| `Context.TypeUpdatePreservesInvariant` | BladeDice/TrickContext.swift:168-173 | trick-type toggles keep the store invariant |
| `Context.AttributeUpdatePreservesInvariant` | BladeDice/TrickContext.swift:174-179 | base, side and spin toggles keep the store invariant |
| `Context.AllEnabled` | BladeDice/TrickContext.swift:209-212 | the per-category loop yields a map holding exactly the listed attributes, all enabled |
| `Context.AllEnabledOfCategory` | BladeDice/TrickContext.swift:209-212 | one category's map holds exactly the attributes of that category, all enabled |
| `Context.MergeInto` | BladeDice/TrickContext.swift:214-224 | copying one dictionary's entries over another gives their union, the copied entries winning |
| `Context.CatalogEnabled` | BladeDice/TrickContext.swift:203-227 | merging the four per-category maps covers every attribute, enabled |
| `Context.TrickContext.constructor` | BladeDice/TrickContext.swift:203-227 | every attribute has an entry, every entry is true, and the store invariant holds |
| `Context.TrickContext.UpdateEnabledStateForAllTrickAttributesForTrickType` | BladeDice/TrickContext.swift:182-199 | the loop over a snapshot sets exactly the entries of the type's family to the value |
| `Context.TrickContext.UpdateEnabledState` | BladeDice/TrickContext.swift:166-180 | the new map is `Updated` of the old one, and the store invariant is kept |
| `Generator.RandomElement` | BladeDice/TrickGenerator.swift:24 | a random element is absent iff the set is empty, otherwise a member |
| `Generator.MakeRandomTrick` | BladeDice/TrickGenerator.swift:23-37 | no result iff no type is enabled or the drawn type lacks an enabled spin, side or base; on success the spin, side and base are enabled members of the drawn type's family and the trick type is soul plate; under the store invariant a trick is always produced; the context is only read |

## Left out

- The attribute display names (`name`, the enumerations' raw-value strings and their capitalisation): display data built on a platform string routine.
- The shared singletons and the lazily initialised catalog properties: the model uses one explicitly constructed `TrickContext` and catalog functions.
- The convenience flags `isSoulPlateTricksEnabled` and `isHBlockTricksEnabled`: they are `IsTrickTypeEnabled` for the soul-plate and H-block types and have no members of their own.
- Dictionary iteration order: the `enabled*` projections are sets, and the cascade loop visits the snapshot's keys in an unspecified order (the result does not depend on it).
- The settings screen, its cells, its section headers and the main view controller: presentation code.
- MakeRandomTrick: the draws are nondeterministic choices, so uniformity, and the converse fact that every candidate combination can be drawn, are not stated.
- MakeRandomTrick: the drawn trick type is returned as a ghost value for the contract; the original code does not return it.
