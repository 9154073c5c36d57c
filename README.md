# A verified model of the core of a Paradox-script checker

The modelled program is a static checker for the script files of Paradox
games (Crusader Kings III, with a table from Imperator). It parses mod and
game files into a tree of blocks, fields and values, keeps registries of
the items they define, and reports what is wrong with them through a
deduplicating diagnostics sink. This project models the core of it in
Dafny and proves what that core promises:

- **the script tree**: the accessors of fields and block items, their
  `get_`/`expect_` pairs, and structural equivalence (`tree.dfy`,
  `fields.dfy`, `blockitems.dfy`);
- **the diagnostics sink**: report deduplication, abbreviated reports,
  the "from here" expansion of macro links, and the line-length setting
  (`report.dfy`);
- **scripted triggers and effects**: their registries, the `scope_override`
  configuration, and the memo of validated contexts per call site that
  stops a recursive macro from expanding forever (`scripted_triggers.dfy`,
  `scripted_effects.dfy`);
- **events**: the registry keyed by namespace and 16-bit number, the
  three-state reader of event files, file-local triggers and effects, the
  validation order, and the main rules of an event block (`events.dfy`);
- **registries with override and duplicate rules**: defines, men-at-arms
  types, character interactions, genes and law groups (`defines.dfy`,
  `maa.dfy`, `interactions.dfy`, `genes.dfy`, `laws.dfy`);
- **table lookups**: data-function resolution by partition point over a
  name-sorted table, the alternative-spelling search, the datatype-to-scope
  map, and the case-insensitive Imperator scope-effect map
  (`datafunctions.dfy`, `imperator_effects.dfy`);
- **the hub**: the ignore rules and output styles read from the
  configuration, the file loaders, item existence, and the combined
  trigger, effect and define lookups (`everything.dfy`);
- **smaller validators**: byte-order-mark handling when a file is read
  (`pdxfile.dfy`), cooldowns, colours and scope references (`validate.dfy`),
  the `.mod` descriptor (`modfile.dfy`), and portrait modifier groups and
  animations (`portrait.dfy`).

Shared vocabulary (tokens, locations, file kinds, string and integer
parsing) is in `base.dfy`, and scope sets and the scope context are in
`scopes.dfy`.

The modelling follows the shape of the code. Pure matches and lookups
become functions whose contracts state their meaning. Code that updates
state becomes classes whose methods are tied to a value-level function of
the old state, for example the registries, the sink, the memo caches and
the warned-defines set. Loops become methods with invariants, proved
equal to a recursive specification. Lemmas then prove the promised
properties about those specifications. Diagnostics are returned as
sequences of report values instead of going to a global sink. Collaborators
whose code is not modelled become function parameters, for example macro
expansion, trigger and effect validation, the database and the parsing of
error keys and datatypes.

## Model

| member | source | states |
|---|---|---|
| Base.KindAtLeastTotal | src/data/defines.rs:21 | file kinds are totally ordered, so the "at least as late" comparison always decides one way |
| Base.Lower | src/imperator/tables/effects.rs:14 | ASCII lower-casing keeps the length and lowers each character on its own |
| Base.StripSuffix | src/everything.rs:421 | a stem exists iff the name ends with the suffix, and stem plus suffix is the name |
| Base.SplitOnce | src/data/events.rs:38 | no split iff the separator is absent; otherwise the text is the part before the first separator, the separator and the rest |
| Base.Split | src/data/genes.rs:296 | splitting gives at least one part, and no part holds the separator |
| Base.SplitJoin | src/data/genes.rs:296 | joining the parts with the separator gives back the text |
| Base.PartStartsAt | src/data/scripted_effects.rs:60 | part `i` of a joined text is found exactly `PartsWidth(parts[..i])` characters in, the width of the earlier parts and their separators |
| Base.SplitPartStartsAt | src/data/scripted_effects.rs:60 | every part of `split` is found in the text at that offset, so the offset names where the part was read |
| Base.ParseU16 | src/data/events.rs:39 | a parsed event number is within the 16-bit range |
| Base.ParseIsize | src/validate.rs:62 | a parsed integer is within the 64-bit signed range |
| Base.LeadingZeroValue | src/data/events.rs:39 | a leading zero does not change the value of a digit string |
| Base.ParseU16Meaning | src/data/events.rs:39 | over every input: accepted iff the text is digits, after at most one `+`, whose value is at most 65535, and the result is that value |
| Base.ParseIsizeMeaning | src/validate.rs:62 | over every input: digits within range give their value; `-` and digits give the negated value iff it is not below the 64-bit minimum; a negative result always comes from `-` and digits |
| Base.StrLtIrreflexive | src/tables/datafunctions.rs:83 | the string order used by the table search is irreflexive |
| Base.StrLtTransitive | src/tables/datafunctions.rs:83 | the string order used by the table search is transitive |
| Base.StrLtTotal | src/tables/datafunctions.rs:83 | any two different strings are ordered one way or the other |
| Base.LocLeTotal | src/data/events.rs:119 | any two locations are ordered one way or the other, so sorting by location is defined |
| Base.LocLeTransitive | src/data/events.rs:119 | the location order is transitive |
| Report.FromHereShape | src/report/errors.rs:182-193 | the chain added for a location has one entry per link; the i-th has length 1, the note "from here", and points at the location reached after i + 1 links, nearest link first |
| Report.ExpandCount | src/report/errors.rs:167-193 | after `log`'s expansion the pointer count is the original count plus the total length of all link chains |
| Report.ExpandAppend | src/report/errors.rs:167-176 | expansion works pointer by pointer: each original pointer is followed by its own chain, in the original order |
| Report.RecursiveExpansion | src/report/errors.rs:182-193 | the recursive insertion appends exactly the pointer's "from here" chain to the vector, nearest link first, in spite of inserting each link before the ones beyond it |
| Report.PushIdempotent | src/report/errors.rs:77-90 | pushing the same report twice writes it at most once; `seen` only grows; an allowed report's record is seen afterwards |
| Report.SameRecordSuppressed | src/report/errors.rs:80-88 | two reports with the same (location, key, message, second and third location) record: the second one writes nothing |
| Report.Errors.constructor | src/report/errors.rs:22-47 | a new sink has seen nothing, written nothing, and no maximum line length |
| Report.Errors.GetLine | src/report/errors.rs:50-73 | line 0 gives None; a line that is found is the (line − 1)-th line of the file the location names |
| Report.Errors.PushReport | src/report/errors.rs:77-90 | the new state is the old one when the filter refuses or the record was seen; otherwise the record is added to `seen` and the report written; `seen` never shrinks |
| Report.Errors.LogAbbreviated | src/report/errors.rs:92-101 | a whole-file location writes `(key) path`, any other writes `(key) line` if its line can be read, and nothing otherwise |
| Report.Errors.PushAbbreviated | src/report/errors.rs:103-111 | deduplicates on (loc, key, "", None, None) without consulting the filter: a seen record changes nothing, an unseen one is added and exactly what `log_abbreviated` writes is written: `(key) path` for a whole-file location, `(key) line` if its line can be read, nothing otherwise |
| Report.Errors.Log | src/report/errors.rs:167-176 | the pushed report is the original with its pointers replaced by their expansion |
| Report.Errors.SetMaxLineLength | src/report/errors.rs:408-414 | 0 stores None and any n > 0 stores Some(n) |
| Tree.FieldEquivalentReflexive | src/block/field.rs:61-63 | every field is equivalent to itself (its key equals itself, its comparator too, and its value is equivalent to itself) |
| Tree.FieldEquivalentSymmetric | src/block/field.rs:61-63 | if field f is equivalent to g then g is equivalent to f |
| Tree.ItemEquivalentReflexive | src/block/blockitem.rs:163-187 | every block item is equivalent to itself, through blocks and fields nested to any depth |
| Tree.ItemEquivalentSymmetric | src/block/blockitem.rs:163-187 | equivalence of block items is symmetric, through blocks and fields nested to any depth |
| Fields.ExpectEq | src/block/field.rs:39-48 | the result is true iff the comparator is a plain `=`; then nothing is reported, otherwise exactly one Validation error at the field |
| Fields.Describe | src/block/field.rs:50-59 | "assignment" iff `=`/`?=` with a token value, "definition" iff `=`/`?=` with a block, "comparison" iff any other comparator |
| Fields.GetDefinition | src/block/field.rs:93-112 | Some iff describe is "definition", and then exactly the field's key and block (`get_definition` and `into_definition`) |
| Fields.GetAssignment | src/block/field.rs:114-122 | Some iff describe is "assignment", and then exactly the field's key and token |
| Fields.DefinitionOrAssignment | src/block/field.rs:31-37 | a field is never both a definition and an assignment; `is_eq` implies `is_eq_qeq`, and a plain `=` field is one of the two |
| Fields.ExpectDefinition | src/block/field.rs:65-91 | returns exactly what `get_definition` returns and reports one Structure error "expected definition, found <describe>" at the field iff that is None |
| Fields.ExpectAssignment | src/block/field.rs:124-137 | returns exactly what `get_assignment` returns and reports one Structure error "expected assignment, found <describe>" iff that is None |
| Fields.EquivalentMeaning | src/block/field.rs:61-63 | two fields are equivalent iff their keys are equal, their comparators are equal and their values are equivalent; also reflexive and symmetric |
| BlockItems.GetField | src/block/blockitem.rs:34-40 | Some iff the item is a field, and then that field |
| BlockItems.GetValue | src/block/blockitem.rs:46-52 | Some iff the item is a value, and then that token |
| BlockItems.GetBlock | src/block/blockitem.rs:74-81 | Some iff the item is a block, and then that block |
| BlockItems.Describe | src/block/blockitem.rs:155-161 | "value" for a value, "block" for a block, the field's own description for a field |
| BlockItems.ExactlyOneVariant | src/block/blockitem.rs:34-81 | exactly one of `get_value`, `get_block`, `get_field` is Some, and `is_field` agrees with `get_field` |
| BlockItems.ExpectField | src/block/blockitem.rs:14-32 | returns what `get_field` returns and reports one Structure error "unexpected <describe>" at the item iff it is None |
| BlockItems.ExpectValue | src/block/blockitem.rs:54-72 | returns what `get_value` returns and reports one Structure error "expected value, found <describe>" iff it is None |
| BlockItems.ExpectBlock | src/block/blockitem.rs:83-101 | returns what `get_block` returns and reports one Structure error "expected block, found <describe>" iff it is None |
| BlockItems.GetDefinition | src/block/blockitem.rs:103-109 | None for values and blocks; the field's `get_definition` for a field |
| BlockItems.ExpectDefinition | src/block/blockitem.rs:111-125 | returns what `get_definition` returns, with exactly one Structure report iff that is None (from whichever of the two expectations failed) |
| BlockItems.GetAssignment | src/block/blockitem.rs:143-153 | None for values and blocks; the field's `get_assignment` for a field |
| BlockItems.ExpectAssignment | src/block/blockitem.rs:127-141 | returns what `get_assignment` returns with one Structure report iff None; on a field of the wrong shape that report is "expected assignment, found <describe>" at the item |
| BlockItems.EquivalentByVariant | src/block/blockitem.rs:163-187 | items of different variants are never equivalent; two values are equivalent iff their texts are equal, two blocks iff the blocks are, two fields iff the fields are |
| ScriptedTriggers.CachedCompat | src/data/scripted_triggers.rs:104-111 | true iff the cache holds an entry for exactly that location; only then is the caller's context checked against the cached one, otherwise it is untouched |
| ScriptedTriggers.HitOnlyChecksCompatibility | src/data/scripted_triggers.rs:124-126 | at a cached call site nothing expands and the cache is unchanged; the caller's context is only checked against the cached one |
| ScriptedTriggers.FailedExpansionKeepsCache | src/data/scripted_triggers.rs:126-127 | when the macro cannot be expanded, neither the cache nor the caller's context changes |
| ScriptedTriggers.MissCachesPlaceholderThenResult | src/data/scripted_triggers.rs:128-134 | on a miss the body is validated against a cache that already maps the call site to the placeholder (so a recursive expansion there is a hit); afterwards the site maps to the validated context, which the caller's context is checked against |
| ScriptedTriggers.SecondCallDoesNotExpand | src/data/scripted_triggers.rs:121-134 | once a call site has been expanded or was cached, a second call at that site does not expand again, whatever its arguments |
| ScriptedTriggers.Trigger.constructor | src/data/scripted_triggers.rs:76-83 | a new trigger has its key and block, no stored context and an empty cache |
| ScriptedTriggers.Trigger.Validate | src/data/scripted_triggers.rs:85-92 | a block that is not a macro is validated from all scopes, unrooted, and the resulting context stored; a macro block leaves the state unchanged |
| ScriptedTriggers.Trigger.ValidateScopeCompatibility | src/data/scripted_triggers.rs:94-98 | no change before `validate` has stored a context; afterwards the caller's context is checked against it |
| ScriptedTriggers.Trigger.CachedCompatAt | src/data/scripted_triggers.rs:104-111 | the method agrees with `CachedCompat` on the trigger's current cache: a hit iff the location is cached |
| ScriptedTriggers.Trigger.ValidateMacroExpansion | src/data/scripted_triggers.rs:114-137 | the new cache, context and "expanded" flag are those of the cache discipline above, keyed by the first argument's location (a non-empty argument list is required) |
| ScriptedTriggers.Triggers.constructor | src/data/scripted_triggers.rs:15-18 | the registry starts empty |
| ScriptedTriggers.Triggers.LoadItem | src/data/scripted_triggers.rs:21-29 | the key now maps to a fresh trigger for the new block, all other keys are unchanged, and one duplicate error is reported iff a trigger was stored under the key from a file kind at least as late |
| ScriptedTriggers.Triggers.Get | src/data/scripted_triggers.rs:31-37 | Some iff `exists`, and then the stored trigger |
| ScriptedEffects.FinalContext | src/data/scripted_effects.rs:136-139 | with a scope override the context checked and cached is a fresh unrooted, non-strict one with exactly the override's scopes and no names; without one it is the context the body produced |
| ScriptedEffects.HitOnlyChecksCompatibility | src/data/scripted_effects.rs:149-159 | on a cache hit the body is not validated again and the cache is unchanged; the caller's context is only checked against the cached one (for `validate_call` and for macro expansion) |
| ScriptedEffects.MissCachesPlaceholderThenResult | src/data/scripted_effects.rs:127-142 | on a miss the body is validated against a cache that already holds the starting context under the same (key, args, tooltipped) key; afterwards that key holds the final context, which has exactly the override's scopes when there is one |
| ScriptedEffects.FailedExpansionKeepsCache | src/data/scripted_effects.rs:171-172 | when the macro cannot be expanded, neither the cache nor the caller's context changes |
| ScriptedEffects.KnownUnionMeaning | src/data/scripted_effects.rs:60-63 | a scope is in the override iff some known `|`-separated part names it |
| ScriptedEffects.UnknownPartsWarned | src/data/scripted_effects.rs:60-66 | there is one Config warning per unknown part; every unknown part is warned about, with its name in the message, at the part's own location, and every warning is one of those |
| ScriptedEffects.UnknownPartWarnedAtItsText | src/data/scripted_effects.rs:56-66 | for an override other than "all", each unknown part is warned about at the location of the part's own text within the token |
| ScriptedEffects.AllIsEveryScope | src/data/scripted_effects.rs:57-58 | "all" in any letter case gives every scope and no warning |
| ScriptedEffects.OverridesStep | src/data/scripted_effects.rs:55-71 | one more assignment sets its name's override and appends its reports after the earlier ones |
| ScriptedEffects.ApplyOverridesLastWins | src/data/scripted_effects.rs:69-70 | every assignment ends up in the override map unless a later assignment has the same name |
| ScriptedEffects.ParseOverride | src/data/scripted_effects.rs:56-68 | the loop computes exactly the override's scopes and its warnings, each at its own part's location, as stated by the lemmas above |
| ScriptedEffects.Effect.constructor | src/data/scripted_effects.rs:100-107 | a new effect has its key, block and override, and an empty cache |
| ScriptedEffects.Effect.CachedCompat | src/data/scripted_effects.rs:149-159 | a hit iff the (key, args, tooltipped) key is cached; only then is the caller's context checked, otherwise it is untouched |
| ScriptedEffects.Effect.ValidateMiss | src/data/scripted_effects.rs:128-141 | the cache and the caller's context after a miss are those the placeholder-then-result discipline gives |
| ScriptedEffects.Effect.ValidateCall | src/data/scripted_effects.rs:120-143 | the new cache and the caller's context are the hit or miss outcome for the key with no arguments |
| ScriptedEffects.Effect.Validate | src/data/scripted_effects.rs:109-118 | a block that is not a macro is validated as a call of itself from all scopes with strict scopes off (no-warn when overridden); a macro block changes nothing |
| ScriptedEffects.Effect.ValidateMacroExpansion | src/data/scripted_effects.rs:161-192 | the new cache, context and "validated" flag are the hit, failed-expansion or miss outcome keyed by (key, args, tooltipped) |
| ScriptedEffects.Effects.constructor | src/data/scripted_effects.rs:19-23 | the registry starts with no effects and no overrides |
| ScriptedEffects.Effects.LoadItem | src/data/scripted_effects.rs:26-35 | the key now maps to a fresh effect for the block with the override registered under that name; other keys unchanged; one duplicate error iff the stored effect's file kind is at least the new one's |
| ScriptedEffects.Effects.Get | src/data/scripted_effects.rs:37-43 | Some iff `exists`, and then the stored effect |
| ScriptedEffects.Effects.Config | src/data/scripted_effects.rs:53-73 | without a `scope_override` block nothing changes; otherwise the overrides are the old ones updated by every assignment in order, with their warnings in order, each at the location of its unknown part |
| Events.NewEvent | src/data/events.rs:229-241 | an event keeps its key and block; it expects Character without a `scope` field, all non-primitive scopes for an unknown scope name, and the named scope otherwise |
| Events.RulesMeaning | src/data/events.rs:243-366 | `option` is required iff not `hidden = yes`; `sender` is required iff the type is letter_event; without `type` the event is a character_event with a window choice; the debug namespace turns both tooltip modes off, any other uses Yes and Past; the trigger context is rooted and not strict |
| Events.EventIndex | src/data/events.rs:87-94 | the namespace an event key is stored under is the text before its first '.', so it never contains '.' |
| Events.EventIndexOf | src/data/events.rs:38-39 | a key `NS.REST` with no '.' in NS is stored under NS and REST read as a `u16`, or under nothing if REST is not one |
| Events.LeadingZeroSameNumber | src/data/events.rs:39 | "1" and "01" are read as the same `u16` 1 |
| Events.OutOfRangeNoNumber | src/data/events.rs:39 | "65536" is not a `u16` |
| Events.LetterNoNumber | src/data/events.rs:39 | "x" is not a `u16` |
| Events.IndexCollision | src/data/events.rs:38-45 | "a.1" and "a.01" are stored under the same index ("a", 1) |
| Events.NotNumberNoIndex | src/data/events.rs:37-49 | "a.x" has no index |
| Events.OutOfRangeNoIndex | src/data/events.rs:37-49 | "a.65536" has no index |
| Events.NoDotNoIndex | src/data/events.rs:37-49 | "a1", with no '.', has no index |
| Events.NoIndex | src/data/events.rs:37-49 | "a.x", "a.65536" and "a1" are all stored under no index |
| Events.SwitchThenLoad | src/data/events.rs:168-190 | a bare `scripted_trigger` (or `scripted_effect`) while expecting an event switches mode; the next `key = { ... }` is loaded as that kind and the reader expects events again |
| Events.OtherTokenUnexpected | src/data/events.rs:186-198 | any other bare token, or a switch token while not expecting an event, is one "unexpected token" Validation error and leaves the mode alone |
| Events.FieldActions | src/data/events.rs:161-185 | `namespace = X` declares X; `scripted_trigger = ...` or `scripted_effect = ...` is one Validation error; a non-block value under any other key is one UnknownField error; none changes the mode |
| Events.StepLoads | src/data/events.rs:168-180 | one step loads a file-local trigger or effect only from a `key = { ... }` field with that key and block, read in that item's mode |
| Events.ModeFollowsSwitch | src/data/events.rs:186-190 | the reader is in trigger (effect) mode only after a bare `scripted_trigger` (`scripted_effect`) token read while expecting an event |
| Events.LoadSite | src/data/events.rs:159-200 | every file-local load comes from a later `key = { ... }` field with its key and block, read in its mode, after the switch token for that mode |
| Events.RunLoadsLocalsOnlyAfterSwitch | src/data/events.rs:159-200 | over a whole file, a file-local trigger (effect) is loaded only from a `key = { ... }` field with its key and block, read in trigger (effect) mode, which an earlier bare `scripted_trigger` (`scripted_effect`) token switched on |
| Events.BadEventName | src/data/events.rs:48 | the report for a key without an index is an EventNamespace warning at the key |
| Events.LoadEventF | src/data/events.rs:37-49 | a key without an index changes nothing and gives one EventNamespace warning; otherwise the event is stored under its index, replacing any earlier one, with one duplicate error iff the index was taken |
| Events.LoadLocalF | src/data/events.rs:51-65 | a file-local item is stored under (its file, its name), with one duplicate report iff that pair was taken |
| Events.LocalItemsPerFile | src/data/events.rs:51-65 | same-named file-local items of different files never collide: loading one does not change what loading the other reports |
| Events.SecondSpellingIsDuplicate | src/data/events.rs:38-45 | loading "a.1" and then "a.01" reports the second as a duplicate of the first and leaves the second stored under ("a", 1) |
| Events.SortByLoc | src/data/events.rs:118-131 | the keys of a registry come out sorted by location, each exactly once |
| Events.VisitsOrdered | src/data/events.rs:117-135 | when each group is sorted, effects come before triggers before events, and within a group by location |
| Events.VisitsMembers | src/data/events.rs:117-135 | an item is visited iff it is one of the effects, triggers or events, as the kind it is |
| Events.Events.constructor | src/data/events.rs:28-34 | the registry starts with no events, namespaces, triggers or effects |
| Events.Events.GetEvent | src/data/events.rs:87-94 | Some iff the key has an index and an event is stored under it, and then that event |
| Events.Events.ExistsIffGetEvent | src/data/events.rs:106-115 | `exists(k)` iff `get_event(k)` is Some |
| Events.Events.GetTrigger | src/data/events.rs:67-75 | a file-local trigger is found iff `trigger_exists` for (its file, its name) |
| Events.Events.GetEffect | src/data/events.rs:77-85 | a file-local effect is found iff `effect_exists` for (its file, its name) |
| Events.Events.ValidationOrder | src/data/events.rs:117-135 | every stored effect, trigger and event is visited exactly once: all effects, then all triggers, then all events, each group in file order |
| Events.Events.LoadEvent | src/data/events.rs:37-49 | the new event map and the reports are those of `LoadEventF` on the old map |
| Events.Events.LoadScriptedTrigger | src/data/events.rs:51-57 | the trigger is stored fresh under (file, name), other entries unchanged, with the reports of `LoadLocalF` |
| Events.Events.LoadScriptedEffect | src/data/events.rs:59-65 | the effect is stored fresh under (file, name) with no override, other entries unchanged, with the reports of `LoadLocalF` |
| Events.Events.ApplyAction | src/data/events.rs:160-185 | one action of the reader changes the store as the value-level `Apply` says |
| Events.Events.ApplyActions | src/data/events.rs:159-200 | the actions of one item are applied after those of the items before it |
| Events.Events.HandleFile | src/data/events.rs:143-201 | a file that is not `.txt` or could not be read changes nothing; otherwise the store and reports are those of running the three-state reader over the file's items and applying its actions in order |
| Defines.DefineKeySplits | src/data/defines.rs:18-19 | for a group name without '\|', the stored key `group\|name` splits back into the group and the define name |
| Defines.DefineKeyInjective | src/data/defines.rs:18-19 | for group names without '\|', two defines share a key iff their groups and names are equal |
| Defines.LoadItemF | src/data/defines.rs:18-27 | the new define always replaces the stored one; exactly one duplicate error iff one was stored from a file kind at least as late with a value that is not equivalent |
| Defines.IdenticalRedefinitionSilent | src/data/defines.rs:20-24 | loading the same value again under the same name, from any file, reports nothing |
| Defines.DifferentRedefinitionReported | src/data/defines.rs:20-24 | a redefinition with a value that is not equivalent, from the same or an earlier file kind, is reported as a duplicate of the first |
| Defines.LoadGroupDefines | src/data/defines.rs:55-58 | after loading a group, every name in it is defined and everything defined before still is |
| Defines.Defines.constructor | src/data/defines.rs:12-15 | the registry starts empty |
| Defines.Defines.LoadItem | src/data/defines.rs:18-27 | the new map and reports are those of `LoadItemF` on the old map |
| Defines.Defines.GetString | src/data/defines.rs:39-41 | Some iff a define is stored under the key and its value is a token, and then that token; blocks and missing keys give None |
| Defines.Defines.LoadGroup | src/data/defines.rs:55-58 | loads every `name = value` of the group in order, and keeps every define stored under its own `Define::key` (src/data/defines.rs:75-77) |
| Defines.Defines.HandleFile | src/data/defines.rs:49-60 | a file that is not `.txt` or could not be read changes nothing; otherwise every group and every name in it is loaded in order, and every define stays stored under its own key |
| DataFunctions.Nargs | src/tables/datafunctions.rs:38-47 | the count is the number of arguments the variant carries, at most 5 |
| DataFunctions.PartitionPoint | src/tables/datafunctions.rs:83 | on a name-sorted table, every name before the result is before the key and none from it on is |
| DataFunctions.BinarySearch | src/tables/datafunctions.rs:57-59 | a position found holds an entry with exactly that name; None only if no entry has it |
| DataFunctions.LookupGlobalPromote | src/tables/datafunctions.rs:56-68 | when the sorted table has the name, some entry of that name gives the result; otherwise a name that parses as a datatype gives (no arguments, that datatype), and anything else None |
| DataFunctions.LookupGlobalFunction | src/tables/datafunctions.rs:70-76 | Some iff the sorted table has an entry of that name, and then that entry's arguments and return type; no datatype fallback |
| DataFunctions.MatchesMeaning | src/tables/datafunctions.rs:87-91 | the run scanned consists exactly of the table's entries of that name; it is empty iff no entry has the name |
| DataFunctions.CollapseMeaning | src/tables/datafunctions.rs:92-98 | over an Unknown input type the return type is the first entry's if all entries of the name agree, else Unknown |
| DataFunctions.FirstWithInputMeaning | src/tables/datafunctions.rs:99-101 | the entry chosen for a known input type is one whose input type matches, and there is none iff no entry's input type matches |
| DataFunctions.PromoteOrFunctionMeaning | src/tables/datafunctions.rs:78-113 | NotFound iff no entry has the name; WrongType iff the input type is known, the name exists, and no entry of it takes that type; for Unknown, the first entry's arguments and the agreed return type or Unknown |
| DataFunctions.RunEnds | src/tables/datafunctions.rs:83-90 | in a name-sorted table, once an entry after the partition point has another name, no later entry has the name, so breaking there loses nothing |
| DataFunctions.DecideRun | src/tables/datafunctions.rs:104-112 | after a full scan: no entry gives NotFound, an Unknown input gives Found with the first arguments and the collapsed return type, a known input no entry takes gives WrongType |
| DataFunctions.ScanRun | src/tables/datafunctions.rs:84-112 | the loop with `found_any`, `possible_args`, `possible_rtype` and its early return gives exactly the decision on the run of entries with that name |
| DataFunctions.LookupPromoteOrFunction | src/tables/datafunctions.rs:78-113 | on a name-sorted table, partition point plus scan gives exactly the result the meaning lemma above describes |
| DataFunctions.FirstCaseMatch | src/tables/datafunctions.rs:134-139 | a suggestion is one of the names, equals the query once lower-cased, and is not skipped; None iff there is no such name |
| DataFunctions.FindCaseVariant | src/tables/datafunctions.rs:135-139 | the linear search with early return finds the first name that `FirstCaseMatch` describes |
| DataFunctions.LookupAlternative | src/tables/datafunctions.rs:127-165 | the method with its four loops gives exactly the value-level alternative |
| DataFunctions.AlternativeMeaning | src/tables/datafunctions.rs:127-165 | a suggestion equals the query ignoring case; for the first element it is a global promote, or a global function that is not a game concept when `last`; otherwise a promote, or a function when `last`; without `last` only promotes are searched |
| DataFunctions.ScopeFromDatatype | src/tables/datafunctions.rs:167-209 | a datatype that has a scope has exactly one non-primitive scope; Unknown and the unlisted datatypes have none |
| DataFunctions.ScopeFromDatatypeRoundTrip | src/tables/datafunctions.rs:167-209 | the scope of each listed datatype is read back as that datatype, so no two listed datatypes share a scope |
| Everything.ParsedKeys | src/everything.rs:312-322 | each `key` name gives exactly one kept key or one warning |
| Everything.ParsedKeysMeaning | src/everything.rs:310-322 | every kept key comes from a `key` name that parses, every name that parses is kept, and each name that does not parse yields one Config warning |
| Everything.KeysEverywhere | src/everything.rs:325-328 | with no `file` names, one ignore-everywhere rule per parsed key, in order |
| Everything.PathsEntirely | src/everything.rs:329-332 | with no keys, one ignore-entire-file rule per path name, in order |
| Everything.KeysFor | src/everything.rs:334-337 | for one path, one ignore-key-for-path rule per key, in order |
| Everything.CrossProductSize | src/everything.rs:333-339 | with both keys and paths, exactly paths × keys rules, all of the key-for-path kind |
| Everything.CrossProductMembers | src/everything.rs:333-339 | a key-for-path rule is issued iff its path was named in `file` and its key in `key` |
| Everything.BlockRulesShape | src/everything.rs:324-339 | the three cases of one `ignore` block: keys only, paths only, or the full cross product, with the matching rule kind and count |
| Everything.ParseKeyNames | src/everything.rs:312-322 | the parsing loop yields exactly the specified kept keys and warnings |
| Everything.IgnoreKeys | src/everything.rs:326-328 | the loop issues exactly the keys-everywhere rules |
| Everything.IgnorePaths | src/everything.rs:330-332 | the loop issues exactly the entire-file rules |
| Everything.IgnoreKeysIn | src/everything.rs:334-338 | the nested loops issue exactly the cross product, outer loop over paths |
| Everything.IgnoreBlock | src/everything.rs:309-339 | one `ignore` block's loop issues exactly the specified rules and warnings |
| Everything.OutputStyles | src/everything.rs:349-365 | no setting without an `output_style` block; no-color exactly when `enable` is given and is not `yes`; otherwise a severity has a colour iff its lower-case block holds a `color` |
| Everything.PdxItemsFilter | src/everything.rs:397-411 | only readable files ending in the extension contribute, and everything added is a definition of one of them |
| Everything.LoadPdxItemsExt | src/everything.rs:397-411 | the loop over files adds exactly the specified definitions in file order |
| Everything.PdxFilesNamed | src/everything.rs:414-430 | at most one item per file, keyed by the file name with `.txt` stripped, holding that file's block |
| Everything.LoadPdxFilesOptionalBom | src/everything.rs:414-430 | the loop adds exactly the specified one-item-per-file list |
| Everything.SkillIsFixed | src/everything.rs:700 | a skill exists iff it is one of the six fixed skill names, whatever the registries hold |
| Everything.ItemExists | src/everything.rs:656-712 | kinds with a constant list exist iff the key is in that list; a define, namespace, scripted trigger or effect iff its registry holds the key; an event iff its key parses to a stored (namespace, number) index; any other kind iff registered |
| Everything.LoadedEventExists | src/everything.rs:675 | after `load_event` of a well-formed key, the event exists under that key and under every other spelling of the same index |
| Everything.EventSpellingsExist | src/data/events.rs:106-115 | once `a.1` is stored, `a.1` and `a.01` both exist |
| Everything.VerifyExistsImplied | src/everything.rs:726-749 | file, localization, music, province and sound are delegated; a texture is an error iff missing; any other kind gets exactly one MissingItem error iff it does not exist |
| Everything.DefinedStringWarn | src/everything.rs:791-803 | the lookup result is returned unchanged; a missing name is remembered and warned about only if not warned before |
| Everything.WarnOnce | src/everything.rs:794-801 | asking twice for the same missing define warns at most once, and never the second time |
| Everything.Everything.constructor | src/everything.rs:235-263 | a fresh checker holds its config and registries and has warned about no define yet |
| Everything.Everything.LoadErrorkeyConfig | src/everything.rs:308-341 | the rules and warnings of every `ignore` block, in order |
| Everything.Everything.GetTrigger | src/everything.rs:767-775 | the global scripted trigger wins; otherwise the one of the event file; none iff neither exists |
| Everything.Everything.GetEffect | src/everything.rs:777-785 | the global scripted effect wins; otherwise the one of the event file; none iff neither exists |
| Everything.Everything.ItemExistsNow | src/everything.rs:656-712 | on the hub, a define, event, namespace, scripted trigger or effect exists iff that registry's own `exists` says so (for events also iff `get_event` finds it); constant-list kinds by their list, other kinds iff registered |
| Everything.Everything.GetDefinedStringWarn | src/everything.rs:787-803 | the warned set and the reports change exactly as the value-level warn-once rule says |
| Genes.TemplateMapKeys | src/data/genes.rs:146-156 | the templates of a morph or accessory gene are exactly its definition names other than `ugliness_feature_categories`, each keyed by its own name |
| Genes.TemplateDupsCount | src/data/genes.rs:152-155 | every template is either new or reported once as a duplicate: reports plus distinct templates equal the templates listed |
| Genes.TemplateTagsMeaning | src/data/genes.rs:295-299 | an accessory tag is registered iff some template (other than the ugliness setting) lists it in `set_tags` |
| Genes.CollectTemplates | src/data/genes.rs:285-300 | the loop yields exactly the specified templates, tags and duplicate errors |
| Genes.AddedGeneProperties | src/data/genes.rs:189-197 | the gene a morph or accessory definition registers has a property iff the property names one of its templates; colour genes and age presets have none |
| Genes.UnknownGeneType | src/data/genes.rs:60 | an unknown gene-type key adds nothing and gives exactly one ParseError warning at the key |
| Genes.AddEachItems | src/data/genes.rs:18-42 | each definition of a gene-type block registers one gene, in order, after the earlier ones; `decal_atlases` registers none |
| Genes.AddEachSilent | src/data/genes.rs:18-32 | colour genes, age presets and decal atlases are added without any report and register no tag |
| Genes.SpecialUnknownOnly | src/data/genes.rs:43-58 | under `special_genes`, each definition that is neither `morph_genes` nor `accessory_genes` adds nothing and gives its own ParseError warning |
| Genes.SpecialGenesKinds | src/data/genes.rs:43-58 | everything registered under `special_genes` is a special morph gene or an accessory gene |
| Genes.AddEachKinds | src/data/genes.rs:46-55 | adding special morph genes or accessory genes registers only those kinds |
| Genes.GeneDb.constructor | src/data/genes.rs:16 | an empty gene database holds no gene and no tag |
| Genes.GeneDb.AddKind | src/data/genes.rs:76-78 | adding one gene of a kind changes the database as the value-level rule says |
| Genes.GeneDb.AddAll | src/data/genes.rs:19-41 | the loop over definitions changes the database as the value-level rule says |
| Genes.GeneDb.Add | src/data/genes.rs:16-62 | the gene-type dispatch changes the database and reports as the value-level rule says |
| Genes.UseReportsShort | src/data/genes.rs:218-241 | with at most four values, each value is checked and an error for too few values follows iff there are fewer than four |
| Genes.UseReportsLong | src/data/genes.rs:218-241 | with five or more values, the first five are checked and the fifth gets a too-many-values error |
| Genes.ValidateUse | src/data/genes.rs:210-242 | the loop over a morph or accessory gene's call values gives exactly the specified reports |
| Genes.AgePresetUse | src/data/genes.rs:123-136 | using an age-preset gene always gives exactly one Validation warning at the call key |
| Genes.UseChecksPositions | src/data/genes.rs:220-230 | among the first five values, an odd-position weight outside 0..=256 is warned about and an even-position name that is not a template is an error |
| Genes.UseStopsAtFive | src/data/genes.rs:232-235 | values after the fifth are never looked at |
| Genes.UseFourValid | src/data/genes.rs:218-241 | exactly four values that are each fine give no report |
| Genes.SearchTemplateSetting | src/data/genes.rs:304-330 | the search returns true iff the template's body-type blocks assign the setting, never for `empty` or the ugliness setting |
| Genes.RequiredTags | src/data/genes.rs:582-590 | one tag to verify per comma-separated part of `required_tags` |
| Genes.NegatedTag | src/data/genes.rs:584-586 | a part `not(x)` is verified as the tag `x` |
| Genes.PlainTag | src/data/genes.rs:587-589 | any part not starting with `not(` is verified as itself |
| Laws.TriggeredFlagsMeaning | src/data/laws.rs:25-29 | a flag is registered from the `triggered_flag` blocks iff one of them names it in `flag` |
| Laws.LawsFlagsMeaning | src/data/laws.rs:21-31 | a flag comes from the laws of a group iff some law names it, directly or through a `triggered_flag` |
| Laws.GroupAddMeaning | src/data/laws.rs:20-36 | a group registers every law it defines, in order, and exactly the flags named by a law, by a law's `triggered_flag` or by the group itself |
| Laws.LawDb.constructor | src/data/laws.rs:20 | an empty law database holds no law, group or flag |
| Laws.LawDb.AddFlags | src/data/laws.rs:22-24 | the loop adds exactly the named flags |
| Laws.LawDb.AddTriggeredFlags | src/data/laws.rs:25-29 | the loop adds exactly the flags of the `triggered_flag` blocks |
| Laws.LawDb.AddLaw | src/data/laws.rs:21-31 | one law is appended with its flags; the groups are unchanged |
| Laws.LawDb.AddGroup | src/data/laws.rs:20-36 | the database changes exactly as the value-level group rule says |
| Laws.DefaultCheck | src/data/laws.rs:43-48 | exactly one MissingItem error, at the `default` value, iff `default` names no law of the group |
| Laws.TitleNamed | src/data/laws.rs:131-147 | `scope:title` is defined in `on_pass` iff the law has `can_title_have`, and always in `on_revoke` |
| Laws.OrderOfSuccession | src/data/laws.rs:175-177 | the order of succession is the field's value, or `none` when absent |
| Laws.PartitionCheck | src/data/laws.rs:166-173 | exactly one Validation error, at `title_division`, iff both fields are given and partition is used without `traversal_order = children` |
| Laws.SuccessionBans | src/data/laws.rs:178-193 | `pool_character_config` is banned iff the order is not theocratic, company or generate; `election_type` iff it is not election |
| Laws.NoOrderBansBoth | src/data/laws.rs:175-193 | a succession without an order bans both fields |
| MenAtArms.LoadItemF | src/data/maa.rs:28-41 | the new type always replaces the stored one and its base type is remembered; exactly one duplicate error iff a type of that name came from the same kind of file |
| MenAtArms.LoadItemKeepsBasesKnown | src/data/maa.rs:35-40 | loading keeps the invariant that every stored type's base type is a known base type |
| MenAtArms.OverrideIsSilent | src/data/maa.rs:29-33 | a type redefined from a different kind of file is replaced without any report |
| MenAtArms.ImpliedModifiers | src/data/maa.rs:91-140 | a base type implies exactly 24 modifier names: ten `stationed_` ones, then fourteen plain ones, in the order checked |
| MenAtArms.MissingModifiers | src/data/maa.rs:91-141 | the reported modifiers are exactly the implied ones that are not known; a type without a base type implies none |
| MenAtArms.Icon | src/data/maa.rs:147-163 | without the icon path nothing is checked; an explicit `icon` must exist under it; otherwise the base type's icon is used and the type's own icon is required iff the base icon is missing |
| MenAtArms.WinterReportsMeaning | src/data/maa.rs:240-249 | no report iff every winter key is `harsh_winter` or `normal_winter`; each report is a Validation warning at an unknown key |
| MenAtArms.ValidateWinterBonus | src/data/maa.rs:240-249 | the loop over winter-bonus fields gives exactly the specified warnings |
| MenAtArms.UnknownCountersMeaning | src/data/maa.rs:260-265 | a `counters` key is left unknown iff it is not a known base type |
| MenAtArms.LoadAllLastWins | src/data/maa.rs:68-71 | after a file is loaded, the last definition of each name is the one stored |
| MenAtArms.MenAtArmsTypes.constructor | src/data/maa.rs:21-25 | a fresh registry holds no type and no base type |
| MenAtArms.MenAtArmsTypes.LoadItem | src/data/maa.rs:28-41 | the registry changes exactly as the value-level rule says and keeps its invariant |
| MenAtArms.MenAtArmsTypes.LoadedBaseExists | src/data/maa.rs:35-45 | the base type of any loaded type exists as a base type |
| MenAtArms.MenAtArmsTypes.HandleFile | src/data/maa.rs:63-72 | a file not ending in `.txt` or unreadable changes nothing; otherwise all its definitions are loaded in order |
| Interactions.LoadItemF | src/data/interactions.rs:30-38 | the new interaction always replaces the stored one; exactly one duplicate error iff one of that name came from the same kind of file |
| Interactions.TargetNames | src/data/interactions.rs:91-121 | only the first present of `target_type`, `interface` and `special_interaction` decides the target names, which are among `target`, `landed_title`, `war` and `scheme` |
| Interactions.DefineFlagsMeaning | src/data/interactions.rs:122-126 | after the `send_option` flags, a name is defined iff it was before or is a flag; every flag is a yes/no scope and other names keep their scopes |
| Interactions.SeededNames | src/data/interactions.rs:83-126 | actor, recipient and the secondary ones are characters and hook is yes/no unless a flag takes the name over; every flag is yes/no; target names are as the target fields say |
| Interactions.BaseNames | src/data/interactions.rs:83-121 | no target name clashes with a fixed name, so each keeps its own scope |
| Interactions.SeedScopes | src/data/interactions.rs:83-126 | the sequence of `define_name` calls builds exactly the specified scope context |
| Interactions.DefineTargets | src/data/interactions.rs:91-121 | the target names are added to the context, nothing else changes |
| Interactions.DefineTargetType | src/data/interactions.rs:91-97 | `target_type` adds exactly its names: artifact target, or title target and `landed_title` |
| Interactions.DefineInterface | src/data/interactions.rs:98-107 | `interface` adds exactly its names |
| Interactions.DefineSpecial | src/data/interactions.rs:108-120 | `special_interaction` adds exactly its names |
| Interactions.DefineSendOptions | src/data/interactions.rs:122-126 | the loop defines every `send_option` flag as a yes/no scope, in order |
| Interactions.AiPotentialCheck | src/data/interactions.rs:349-356 | exactly one Unneeded warning at `ai_potential` iff it is present, `ai_frequency` is absent or 0, and the key is not `revoke_title_interaction` |
| Interactions.LocalizationExemption | src/data/interactions.rs:238-240 | an interaction's name needs no localization iff it starts with `ai_` |
| Interactions.BoolOrTrigger | src/data/interactions.rs:435-446 | a token warns iff it is neither yes nor no; a block gives no report and is handed on as a trigger |
| Interactions.Interactions.constructor | src/data/interactions.rs:25-27 | a fresh registry is empty |
| Interactions.Interactions.LoadItem | src/data/interactions.rs:30-38 | the registry and reports change exactly as the value-level rule says |
| Interactions.Interactions.LoadedExists | src/data/interactions.rs:36-41 | after loading, the interaction exists and is the one just loaded |
| ImperatorEffects.TableMapKeys | src/imperator/tables/effects.rs:19-25 | the map's names are exactly the names in the table |
| ImperatorEffects.TableMapLastWins | src/imperator/tables/effects.rs:21-23 | a name maps to the scope and effect of its last table row |
| ImperatorEffects.BuildScopeEffectMap | src/imperator/tables/effects.rs:19-25 | the insertion loop builds exactly the specified map |
| ImperatorEffects.ScopeEffectMeaning | src/imperator/tables/effects.rs:13-16 | the lookup ignores ASCII case, and finds a name iff its lower-case form is in the table, so an absent name gives none |
| ImperatorEffects.RepeatedEntry | src/imperator/tables/effects.rs:48-51 | the doubled `add_loyal_veterans` row gives one map entry, also found in mixed case |
| PdxFile.StripPrefix | src/pdxfile.rs:58 | a remainder exists iff the text starts with the prefix, and prefix plus remainder is the text |
| PdxFile.ReadUtf8 | src/pdxfile.rs:20-33 | read contents are passed on without report; a failed read gives nothing to parse and exactly one ReadError |
| PdxFile.ReadNoBom | src/pdxfile.rs:51-54 | the contents are parsed unchanged, with no report of its own |
| PdxFile.Read | src/pdxfile.rs:56-68 | text starting with U+FEFF is parsed without it and silently; otherwise the whole text is parsed with exactly one Encoding warning |
| PdxFile.ReadOptionalBom | src/pdxfile.rs:70-77 | read contents never give a report |
| PdxFile.ReadCp1252 | src/pdxfile.rs:79-93 | the three-character mis-decoded BOM is stripped with exactly one Encoding advice; other text is unchanged and silent; a failed read gives one ReadError |
| PdxFile.BomRoundTrip | src/pdxfile.rs:56-77 | a text written behind a BOM is read back unchanged and silently by both readers |
| PdxFile.ReadersAgree | src/pdxfile.rs:56-77 | `read` and `read_optional_bom` parse the same text and differ only in the warning |
| PdxFile.OneBomStripped | src/pdxfile.rs:58-59 | only one BOM is stripped: a doubled one leaves the second in the parsed text |
| Validate.UnitCount | src/validate.rs:40-43 | the count of cooldown units never exceeds the number of units asked about |
| Validate.CooldownReports | src/validate.rs:44-50 | at most one warning, and none iff exactly one unit is given |
| Validate.CooldownExactlyOne | src/validate.rs:37-52 | a cooldown passes iff exactly one of `years`, `months` and `days` is present |
| Validate.ValidateCooldown | src/validate.rs:37-52 | the counting code gives exactly the specified warning |
| Validate.ColorItemMeaning | src/validate.rs:56-85 | each keyed item and each block item is one error; an integer value is reported iff outside 0..=255; at most one report per item |
| Validate.ColorItemsCount | src/validate.rs:56-88 | at most one report per item, and at least one per item that is not a value |
| Validate.ValidateColor | src/validate.rs:54-92 | the counting loop gives exactly the specified reports |
| Validate.ColorCountChecked | src/validate.rs:60-91 | every value item is counted, parseable or not, and the final "expected 3 color values" error comes iff the count is not 3 |
| Validate.ColorThreeInRange | src/validate.rs:54-92 | three integer values in 0..=255 and nothing else give no report |
| Validate.ScopeReference | src/validate.rs:94-106 | a registry is checked iff the prefix is one of the seven known ones; `faith` and `religion` go to their own registries |
| Validate.ScopeReferenceInjective | src/validate.rs:96-104 | distinct prefixes are checked against distinct registries |
| ModFile.ReplacePathCheck | src/modfile.rs:50-63 | one report iff the path is `history` (Unneeded advice) or `history/province_mapping` (Crash error) |
| ModFile.PictureCheck | src/modfile.rs:40-48 | exactly one Packaging warning iff a picture other than `thumbnail.png` is given |
| ModFile.ValidateModfile | src/modfile.rs:28-69 | the descriptor holds exactly the block's fields, and the reports are the picture check followed by one check per `replace_path` in order |
| ModFile.ReplacePathCount | src/modfile.rs:50-63 | at most one report per path |
| ModFile.ReplacePathQuiet | src/modfile.rs:50-63 | paths other than the two named ones draw no report |
| ModFile.ReplacePathSources | src/modfile.rs:50-63 | every report is caused by a `history` or `history/province_mapping` path |
| ModFile.CrashReported | src/modfile.rs:55-61 | a `history/province_mapping` path is always reported as a Crash error |
| ModFile.ReplacePaths | src/modfile.rs:103-108 | the replace paths keep the number and order of the `replace_path` values |
| ModFile.DisplayNameExt | src/modfile.rs:110-116 | the name quoted after a space when the mod has one, else the empty string |
| Portrait.SearchProperty | src/data/portrait.rs:75-103 | the early-return search is true iff the property is not `fallback` or `add_accessory_modifiers` and is a block field of the group or is offered by the template of some accessory entry's gene |
| Portrait.EmptyOnlyAsBlock | src/data/portrait.rs:75-103 | since no gene template offers `empty`, a group has the property `empty` iff it has an `empty` block |
| Portrait.GroupContext | src/data/portrait.rs:30-41 | a group's triggers are rooted in a character and know exactly the eleven named scopes, each with its own type |
| Portrait.GroupCaller | src/data/portrait.rs:49-54 | the caller is the group's key, and empty iff the key is empty or `usage` is `game` or `none` |
| Portrait.ModifierCaller | src/data/portrait.rs:114-119 | inside a modifier the caller is kept, and cleared iff the modifier's `usage` is `game` |
| Portrait.FallbackReports | src/data/portrait.rs:61-66 | exactly one MissingItem warning at `fallback` iff it names no key of the same group |
| Portrait.ValidateGroup | src/data/portrait.rs:26-73 | the validation steps give exactly the specified context, localization keys, template uses and reports |
| Portrait.SeedGroup | src/data/portrait.rs:30-41 | the `define_name` calls build exactly the group context |
| Portrait.CollectUses | src/data/portrait.rs:185-197 | the loop declares exactly the specified template uses |
| Portrait.CollectModifierKeys | src/data/portrait.rs:115-123 | the loop asks for exactly the specified modifier localization keys |
| Portrait.ModifierLocalizationSound | src/data/portrait.rs:115-123 | every required modifier key has a caller and is named after a modifier whose own `usage` is not `game` |
| Portrait.ModifierLocalizationComplete | src/data/portrait.rs:115-123 | with a caller, every modifier whose `usage` is not `game` requires its key |
| Portrait.AccessoryUsesSound | src/data/portrait.rs:185-197 | every template use carries the non-empty caller and comes from an entry naming that gene and template |
| Portrait.AccessoryUsesComplete | src/data/portrait.rs:185-197 | with a caller, every entry naming a gene and a template declares its use |
| Portrait.SilentGroup | src/data/portrait.rs:49-59 | a group whose `usage` is `game` or `none` requires no localization and declares no template use |
| Portrait.ReferenceReportsMeaning | src/data/portrait.rs:308-316 | no report iff every `group = modifier` reference names a property of the group; each report is a MissingItem error at an unknown modifier |
| Portrait.ValidateAnimation | src/data/portrait.rs:217-237 | the pass over the body types gives exactly the specified missing fields and reports |
| Portrait.MissingTypesMeaning | src/data/portrait.rs:221-222 | a body type is reported missing iff the animation has no field of that name |
| Portrait.AnimationComplete | src/data/portrait.rs:221-222 | an animation lacks nothing iff it has all four body types |
| Portrait.TypeReportsMeaning | src/data/portrait.rs:223-230 | a body-type field is silent iff each of its values names a body type |
| Portrait.AllTypeReportsMeaning | src/data/portrait.rs:221-236 | the animation is silent iff each of the four body-type checks is |
| Portrait.AnimationValuesKnown | src/data/portrait.rs:217-237 | an animation gives no warning iff every body-type field holding a value names one of the four body types |

## Left out

- Reading files, scanning the file set and decoding Windows-1252 are not modelled. The outcome of a read is a parameter, and each reader yields the text it would parse.
- The parser (`parse_pdx`) is not part of this model. Blocks are given as values.
- The Cap'n Proto `serialize`/`deserialize` of fields and block items is foreign generated code and is left out.
- The global `ERRORS` singleton is replaced by an explicit `Errors` object. Printing, colouring and the file cache behind `get_line` are left out. File contents are a map parameter.
- Location order: the sort key of `Events::validate` is taken to be (path, line, column). File-kind order is taken to be the declaration order of `FileKind`. Both derives are in files that are not part of this model.
- Case folding: `lookup_alternative` uses Unicode `to_lowercase`, which is modelled as ASCII lower-casing. `scope_effect` is ASCII in the source as well.
- `binary_search` may return any matching position. `DataFunctions.BinarySearch` promises only that some entry of that name is found, and the lookups are proved for any such choice.
- The data-function tables, the game-concept list and `Datatype::from_str` are generated or unseen code. They are parameters, and the tables are assumed sorted by name, as `partition_point` requires.
- Of the Imperator `SCOPE_EFFECT` table only an excerpt around the repeated `add_loyal_veterans` row is written out. The map construction and lookup are proved for any table.
- The unseen `Validator`, `ScopeContext` internals, `MacroCache` and the trigger and effect validators are parameters. Only what the modelled code sets on a scope context (root, rootedness, strictness, named scopes) is recorded.
- The long `vd.field_*` sequences of events, interactions, genes, laws, men-at-arms and portraits are not modelled. Only the rules named in the table are.
- `Events::validate` runs each item's own validation through the unseen validator. The model states the order in which items are visited and the rules of `Event::validate` listed above, not the composed reports.
- The warnings of `drain_definitions_warn` for non-definition items are not modelled. Loaders take the definitions of a block.
- `validate_color`'s floating-point branch is a parameter that says whether a text parses as a float and whether it lies in 0.0..=1.0. The floating-point range checks of genes are left out.
- Genes: `ColorGene::validate_use` (the exact count of four numbers) and the `validate` functions of gene kinds only call into the unseen validator and are left out. So are `verify_has_template` and `validate_portrait_modifier_use`. Colour and age-preset genes inherit `has_property` from the database kind in src/db.rs, which is not part of this model; it is taken to be false.
- Genes.UseChecksPositions: an odd-position value that is not an integer is reported by `expect_integer`, which is in src/token.rs, not part of this model. Its report is written as one Validation error "expected integer", and no lemma states its message.
- Portraits: trigger and weight validation inside groups, `validate_animation`'s internals, `PortraitModifierPack`'s own fields and `PortraitCamera` are left out. The scope context a group's triggers change is the one seeded by `validate`.
- Portrait `has_property` looks a gene up in the database, and the lookup is a parameter. `item_has_property` and `verify_exists` of the hub are parameters too.
- `ModFile::modpath` depends on the file system and is left out.
- Everything: registries other than triggers, effects, events and defines are represented by a set of registered (kind, key) pairs. Those four registries answer `item_exists` for their own kinds. The delegated `verify_exists_implied` of files, localization, music, provinces and sounds is only marked as delegated.
- `Triggers::validate`/`handle_file` and `Effects::validate`/`handle_file` only iterate over the registry or call the modelled `load_item`, and are not modelled separately.
- ScriptedEffects.ParseOverride: the column arithmetic of `Token::split` is in src/token.rs, not part of this model. Where a `|`-part of a scope override is located is a parameter, applied to the token's location and the part's character offset in the token.
- BlockItems.ExpectDefinition: states only that its report has the Structure key. It does not state the report's location or message, which come from `expect_field` or the field's own `expect_definition`.
- The GUI and command-line front ends and the thin field-table consumers of other games are not part of this model.
- `Lazy` initialisation and `RefCell` borrowing are modelled as plain fields.
