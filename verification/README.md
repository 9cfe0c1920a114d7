# Verified model of apiverity

apiverity compares revisions of API contracts, generates requests from them, and checks responses against them. All of
this rests on one recursive type, the schema node, and on several pieces of code that must agree about what a schema
means. This project models those pieces and proves how they agree; it also models the pairwise case generator, the
language server, the failure minimizer, CODEOWNERS matching and the watch loop.

`dafny verify dfyconfig.toml` checks everything. Lemmas carry `{:induction false}`: each states its own induction.

## How the model is laid out

Every piece of code that changes things step by step is a method or a class here, proved against a function or predicate
that says what it computes; theorems are about those functions.

- `Model` has the values (with Python's `==`, which equates `1`, `1.0` and `True`) and the schema tree.
- `Validation.Valid` says which values `validate_value` accepts, keyword by keyword, with its blind spots: string, number,
  array and object keywords apply only under the very type that names them, `allOf` and `not` are not looked at, `oneOf`
  is read as `anyOf`. `Meaning.Sat` is what the schema states under JSON Schema 2020-12, with keywords of its own: JSON
  equality (section 4.2.2 of JSON Schema Core), sub-schemas applied in place to every value (10.2), whole floats as
  integers (section 6.1.1 of JSON Schema Validation), `multipleOf` without tolerance; `null` is decided by the model's
  `nullable` flag. The two share no keyword's reading. `Agreement` says where they agree, and keyword by keyword where they
  part.
- `Canonical` gives canonicalization as functions of trees: `MergeNode`, `Collapse`, `Canon`, and `WriteBack`, which is
  what a branch becomes when a merge that is later given up has already written into nodes it shares with that branch.
  `Aliasing` and `Canonicalize` have the code itself, on mutable nodes with real sharing, and prove that it computes
  these functions. `Clashes` says of the schemas alone when a composition collapses, and `Collapsed` to what.
  `MergeMeaning` and `CanonicalMeaning` prove that meaning is kept, `Leftovers` where a merge that was given up changes
  it. `CanonicalForm` proves the result a fixed point, `FixedPoints` which schemas are fixed, `BranchOrder` when the
  order of branches shows, `Inlining` that merging by hand does not; `Refactoring` puts these together at any node, any
  number of times.
- `Diff` says, as an ordered list, what the comparison of two schemas reports; `Changes` what the comparison of two services
  records; `ChangeIds` how records are numbered. `Engine` has the class that walks, appends and counts. `DiffExact` and
  `ServiceExact` say independently which differences are reported, with which kind and values; `DiffOnce` and `ServiceOrder`
  in which order. The other theorems are in `DiffMeaning`, `DiffSilence`, `DiffMirror`, `WireSafety`, `ChangeIds` and
  `ServiceDiff`.
- `Generate`, `GenerateInvalid` and `Leaves` treat the random source as an arbitrary choice, so what is proved holds for
  every seed.
- `Pairwise`, `PairwiseCount`, `Framing`, `FramingExact`, `LanguageServer`, `Serving`, `Minimize`, `Ownership` and `Watch`
  stand alone.
- `Limits` has exact conditions and concrete schemas where the code does less than its documentation says.

## Where the code and its documentation differ

The model follows the code in each of these.

- A merge ORs `nullable`, although a conjunction accepts `null` only where every branch does. `Limits.NullExactly` says
  exactly when the collapsed form is right about `null`.
- A collapse without a finding can still lose a branch's `multipleOf`, `uniqueItems`, `anyOf`, `oneOf`, `not` and
  `additionalProperties`, and opens a host that forbids other properties (`Limits.DropsMultipleOf`,
  `Limits.DropsVariants`, `Limits.OpensClosedHost`).
- `_stable_unique` tells `true` from 1, but the intersection of enums does not: `[true]` meets `[1]` in `[true]`
  (`Limits.TakesBooleansForNumbers`; exactly when, `MergeMeaning.IntersectionExactly`).
- A composition that is reported is said to be left intact. The merge that was given up has already written into nodes the
  branches share with the target: `null` can be let in, a closed object opened, `items` moved off its tuple
  (`Leftovers.KeptLetsNullIn`, `Leftovers.KeptOpensClosed`, `Leftovers.KeptMovesItems`; exactly when,
  `Leftovers.KeptNullExactly`, `Leftovers.KeptClosedExactly`, `Leftovers.KeptItemsExactly`).
- Canonicalizing twice is not always canonicalizing once: an outer merge can write into a node that still holds a kept
  composition (`Limits.NotIdempotent`; what is fixed, exactly, `FixedPoints.FixedExactly`).
- The order of branches shows where the first one wins (`Limits.OrderShows`; exactly when, `BranchOrder.CommutesExactly`).
- The validator takes `true` for 1, tells 1 from 1.0, allows a multiple to be missed by a tolerance, and looks at `if` only
  under `type: object` (`Limits.BooleanPassesForOne`, `Limits.WholeFloatRefused`, `Limits.WholeFloatDistinct`,
  `Limits.ToleranceAccepts`, `Limits.ConditionUnchecked`).
- The differ says nothing when `items` appears on one side only, when a variant is added or removed, when an undeclared
  name becomes required, and when `additionalProperties` changes (`Limits.ItemsAppearUnseen` and its neighbours).
- `generate_valid` is documented to satisfy the schema. `Generate.GeneratorAgrees` gives the condition, which is computed
  from the schema alone.
- `generate_invalid` means to break a constraint with every case. A lower bound of zero on a length leaves nothing
  shorter (`GenerateInvalid.TooShortExactly`, `GenerateInvalid.TooFewExactly`), and where the type does not name one kind
  the validator looks at no limit (`GenerateInvalid.UntypedAccepts`). `GenerateInvalid.InvalidAgrees` gives the condition
  on the cases that are returned; nested ones are cut off after two (`GenerateInvalid.DeepFlawsCutOff`).
- A revision that loses a field number, a reservation or explicit presence is reported in that direction only
  (`Limits.NumberingNotMirrored`, `Limits.PresenceNotMirrored`; exactly when, `DiffMirror.MirrorExactly`).
- The pairwise generator covers every pair only if no choice list mixes values that are `==` without being the same
  (`Pairwise.CoverageExactly`).
- The unicode generator's cases are meant to be valid. `_set_at` puts in a field that was absent, which can call for
  another, and `_fits` looks at lengths alone (`Leaves.NewFieldBreaksBody`, `Leaves.FittingTextRefused`; exactly when a case
  is valid, `Leaves.SetLeafExactly`). A property called `$` is listed under the path that stands for the whole body
  (`Leaves.DollarReplacesTheBody`).
- `owners_of` normalises its path and `rule_for` does not (`Ownership.QueriesDiffer`; when it does not matter,
  `Ownership.TargetsExactly`).
- The watch loop takes its first snapshot after the first run, so an edit during that run is never reported against what
  was there before (`Watch.EditDuringFirstRun`).
- After `shutdown` a waiting edit is never analysed (`LanguageServer.StaleAfterShutdown`).

## Model

| member | source | states |
|---|---|---|
| Validation.ValidateValue | apiverity/core/validation.py:38-199 | the list of violations is empty exactly for the accepted values, `forbid_undeclared_fields` included, and every violation is reported at or below the caller's path; which values are accepted is said independently by `Agreement` |
| Validation.ValidateVariants | apiverity/core/validation.py:191-197 | a missing variant list passes; otherwise some variant must accept the value |
| Validation.ValidateItems | apiverity/core/validation.py:105-110 | `items` is applied to exactly the positions after `prefixItems` |
| Validation.CountMatching | apiverity/core/validation.py:112-124 | the number of members without violations is the number of positions the `contains` schema accepts |
| Validation.ValidatePatterns | apiverity/core/validation.py:153-166 | a pattern that does not compile is a violation; the fields collected are exactly those some compilable pattern matches |
| Validation.ValidateConditional | apiverity/core/validation.py:168-175 | the branch applied is `then` if the value satisfies `if`, else `else` |
| Validation.ValidateExtra | apiverity/core/validation.py:177-189 | fields neither declared nor matched are refused, checked against the schema for extras, or let through, as `additionalProperties` and the caller say |
| Meaning.Congruence | apiverity/core/canonical.py:100-136 | replacing sub-schemas by equivalent ones, and permuting what is a set written as a list, keeps the meaning of the whole schema |
| Meaning.HostAndBranches | apiverity/core/canonical.py:184-188 | a composition is the conjunction of its host and its branches |
| Agreement.ValidatorAgrees | apiverity/core/validation.py:38-199 | on schemas whose keywords sit under the type that makes the validator look at them and whose enums cannot take a boolean for a number, `validate_value` accepts exactly the values the schema states, each keyword read as the standard reads it: all values, or those without whole floats where the schema says `integer` or `uniqueItems` |
| Agreement.TypesExactly | apiverity/core/validation.py:16-35 | the validator and the standard read a type alike at a value if and only if the value is not a whole float or the type does not depend on taking one for an integer |
| Agreement.ConstExactly | apiverity/core/validation.py:59-61 | they read `const` alike at every value if and only if no boolean and no 0 or 1 is in it |
| Agreement.ConditionalExactly | apiverity/core/validation.py:168-175 | where the type is not `object`, the validator agrees with what is stated exactly at the values it refuses and those that meet the conditional |
| Agreement.IntervalsExactly | apiverity/core/validation.py:76-91 | with a minimum and a maximum alone exactly the numbers of the closed interval are accepted, with exclusive limits those of the open one |
| Agreement.CountsExactly | apiverity/core/validation.py:67-98 | likewise the lengths of texts and lists, both limits included |
| Agreement.LooksAt | apiverity/core/validation.py:38-199 | what the validator looks at: every other part of a node can be taken away without changing any verdict, and `oneOf` asks for no more than `anyOf` would |
| Agreement.ForbiddingCloses | apiverity/core/validation.py:177-189 | `forbid_undeclared_fields` is the same as closing the outermost node where it does not say itself what it does with other fields; no schema accepts everything |
| Limits.BooleanPassesForOne | apiverity/core/validation.py:55-57 | `true` is accepted for the enum `[1]` |
| Limits.WholeFloatRefused | apiverity/core/validation.py:29-30 | 1.0 is refused as an integer |
| Limits.WholeFloatDistinct | apiverity/core/validation.py:99-100 | 1 and 1.0 pass for unique items |
| Limits.ToleranceAccepts | apiverity/core/validation.py:86-91 | a value that misses a multiple by less than the tolerance is accepted |
| Limits.ConditionUnchecked | apiverity/core/validation.py:125-175 | a conditional on a text is not looked at |
| Agreement.CanonicalFormDecides | apiverity/core/canonical.py:100-136 | validating against the canonical form decides the conjunction that was originally written |
| Canonicalize.StableUniqueOf | apiverity/core/canonical.py:287-311 | duplicates are told by type and value; scalar members are put in order, and a list with other members is left in first-occurrence order |
| Ordering.SortedSetSame | apiverity/core/canonical.py:133-135 | `sorted(set(...))` depends only on which elements are present |
| Aliasing.Attach | apiverity/core/canonical.py:222-225 | a property the target lacks becomes the very node the branch holds, and nothing else is written |
| Aliasing.MergeProperty | apiverity/core/canonical.py:222-230 | one property is attached, refused, or merged one level down, without disturbing any property still to come or already shared |
| Aliasing.MergeHead | apiverity/core/canonical.py:232-273 | required names are united, enums intersected, bounds tightened, first-come keywords and `items` filled in, `nullable` ORed; a branch with an unmergeable keyword is reported |
| Aliasing.UnmergeableKeywords | apiverity/core/canonical.py:254-268 | a branch is reported exactly when it carries one of the seven keywords that cannot be merged |
| Aliasing.MergeInto | apiverity/core/canonical.py:214-273 | in place: the target ends as the merge of the two trees, the branch ends linked to it where nodes are shared, nothing outside the target's tree is written, and a conflict is appended exactly when the two clash: at some place both have, they state different types or the branch carries one of the seven keywords |
| Aliasing.LinkedReads | apiverity/core/canonical.py:222-225 | what a branch reads as, once later merges have written through the nodes it shares with the target |
| Canonicalize.Copy | apiverity/core/canonical.py:187 | a deep copy is a tree of new nodes that reads as the original |
| Canonicalize.MergeBranches | apiverity/core/canonical.py:190-192 | after each branch the target reads as the branches merged so far, earlier branches are linked to it and later ones untouched |
| Canonicalize.ReadBack | apiverity/core/canonical.py:209 | the branches that are kept are the ones the abandoned merge left behind |
| Canonicalize.CollapseAllOf | apiverity/core/canonical.py:184-211 | the merged node without a conflict, the written-through composition with one; a conflict exactly when some branch clashes with the host or an earlier branch, and otherwise a node that says at every place what all parts say there |
| Canonicalize.Canonicalize2020 | apiverity/core/canonical.py:139-181 | the 2020-12 sub-schemas are canonicalized and dependency lists sorted; a finding appears exactly if one of them has one |
| Canonicalize.CanonicalizeSchema | apiverity/core/canonical.py:100-136 | the code on mutable nodes returns the canonical form; findings are emitted exactly when some node at any depth has a composition two parts of which clash, and the root's composition is collapsed exactly when no two of its parts do |
| Clashes.MergeClashes | apiverity/core/canonical.py:214-273 | a merge records a conflict if and only if, at some place both trees have, they state different types or the branch carries `dependentRequired`, `dependentSchemas`, `patternProperties`, `prefixItems`, `if`, `contains` or `propertyNames` |
| Clashes.ConflictsExactly | apiverity/core/canonical.py:190-194 | a composition is kept if and only if some branch clashes in that way with the host or with a branch before it |
| Clashes.KeptExactly | apiverity/core/canonical.py:184-211 | the canonical form has no composition left if and only if no two of the canonicalized parts clash |
| Clashes.TroubledWithin | apiverity/core/canonical.py:100-136 | there is a finding if and only if some node at any depth has a composition whose parts clash |
| Clashes.CollapsesExactly | apiverity/core/canonical.py:184-211 | of parts that hold no composition themselves the same is decided on the schema as written |
| Clashes.FindingsExactly | apiverity/core/canonical.py:194-208 | where no composition is nested in another, there is a finding if and only if some composition clashes as written |
| Collapsed.SaysTogether | apiverity/core/canonical.py:184-273 | a composition no two parts of which clash collapses to a node that has, at every place, exactly what some part has there, and says of it what they say together: the first type, format, pattern, `const`, default, example and `items` that are stated, of every bound the tightest, every required name, the values of the first enum that are in all, `nullable` if one is, and the rest from the first part |
| MergeMeaning.MeetEnumsSat | apiverity/core/canonical.py:234-240 | an intersected enum accepts nothing the target's refuses and all that both accept, and only that where no boolean is taken for a number |
| MergeMeaning.IntersectionExactly | apiverity/core/canonical.py:234-240 | the intersection is what both enums accept, for every value, if and only if no member of the one is in the other only by taking booleans for numbers |
| Limits.TakesBooleansForNumbers | apiverity/core/canonical.py:234-240 | `[true]` and `[1]` collapse, without a finding, to a schema that accepts `true` |
| MergeMeaning.MergeAt | apiverity/core/canonical.py:214-273 | at every value: the merge is entailed by target and branch, never weaker than the target, and as strong as the branch when nothing was dropped and no conflict recorded |
| CanonicalMeaning.CollapseKeepsMeaning | apiverity/core/canonical.py:184-211 | a collapse with no finding accepts exactly the values of the conjunction |
| CanonicalMeaning.WriteBackEntailed | apiverity/core/canonical.py:222-225 | what a given-up merge has written into a branch is entailed by the branches together |
| CanonicalMeaning.WriteBackStrong | apiverity/core/canonical.py:222-225 | a branch written through still states all it stated |
| CanonicalMeaning.WriteBacksKeepMeaning | apiverity/core/canonical.py:190-210 | the kept branches accept together exactly the values they accepted before the merge wrote into them |
| CanonicalMeaning.ConflictKeepsMeaning | apiverity/core/canonical.py:194-210 | a reported conflict leaves a schema that accepts the same values |
| CanonicalMeaning.CanonKeepsMeaning | apiverity/core/canonical.py:100-136 | canonicalization preserves meaning at every value, through all sub-schemas, collapsed or kept |
| Leftovers.KeptLetsNullIn | apiverity/core/canonical.py:222-225 | a kept composition that accepts a `null` the written one refuses |
| Leftovers.KeptOpensClosed | apiverity/core/canonical.py:222-225 | a kept composition in which a closed object has gained a field |
| Leftovers.KeptMovesItems | apiverity/core/canonical.py:251-252 | a kept composition that refuses a list the written one accepts |
| Leftovers.KeptNullExactly | apiverity/core/canonical.py:194-210 | of a field one of the branches gave to the target, the kept branches are right about `null` if and only if not: the giver alone refuses it and another branch's field was merged into the one given away |
| Leftovers.KeptClosedExactly | apiverity/core/canonical.py:222-225 | a closed object merged with fields it does not declare: the kept composition is right about every value of the shared field if and only if no value is acceptable for any of those fields |
| Leftovers.KeptItemsExactly | apiverity/core/canonical.py:251-252 | `items` moved off its tuple: the kept composition is right about every value of the shared field if and only if, at each position of the tuple an array can reach, whatever is acceptable there is acceptable as an item |
| Leftovers.HostNullSame | apiverity/core/canonical.py:187-188 | of a field the host has itself they always are |
| CanonicalForm.Absorbs | apiverity/core/canonical.py:214-273 | a branch, as it was written through, adds nothing to what it was merged into |
| CanonicalForm.OverStep | apiverity/core/canonical.py:214-273 | merging a written-through branch again goes through the same stages, over the final state of what was shared |
| CanonicalForm.WritesRest | apiverity/core/canonical.py:190-210 | merging the kept branches again conflicts again and writes nothing new |
| CanonicalForm.CanonSettled | apiverity/core/canonical.py:100-136 | canonicalizing reaches a fixed point, kept compositions included, where no merge changes a node whose composition survives |
| CanonicalForm.CanonIdempotent | apiverity/core/canonical.py:100-136 | canonicalizing twice is canonicalizing once, conflicts included, under the same condition |
| CanonicalForm.UnreportedGentle | apiverity/core/canonical.py:100-136 | the condition holds wherever nothing is reported, and then no `allOf` is left |
| FixedPoints.FixedExactly | apiverity/core/canonical.py:100-136 | a schema is its own canonical form if and only if its sets are sorted, its sub-schemas are settled, and every composition it holds conflicts and has already taken in all that a merge would write |
| FixedPoints.IdempotentExactly | apiverity/core/canonical.py:100-136 | canonicalizing twice is canonicalizing once if and only if the first form is settled in that sense |
| FixedPoints.MergeRestsExactly | apiverity/core/canonical.py:214-273 | merging two fixed points gives a fixed point again if and only if every kept composition the merge writes into conflicts again and has nothing more to take in |
| FixedPoints.WrittenFixed | apiverity/core/canonical.py:194-210 | a branch whose canonical form was written into and reads as the branch did before was canonical |
| Limits.NotIdempotent | apiverity/core/canonical.py:194-210 | outside it: an outer merge gives a type to a kept composition, and canonicalizing again changes it |
| BranchOrder.EnumsExactly | apiverity/core/canonical.py:234-240 | two enums are intersected into a third alike either way if and only if the host has one, a branch has none, or the two intersections coincide |
| BranchOrder.ScalarEnumsExactly | apiverity/core/canonical.py:234-240 | for scalars they coincide if and only if members that are `==` are in both lists |
| BranchOrder.SwapExactly | apiverity/core/canonical.py:214-273 | two nodes merge alike either way if and only if what a merge leaves behind is the same on both, no slot is stated differently and the enums intersect alike, here and on every shared property |
| BranchOrder.CommutesExactly | apiverity/core/canonical.py:214-273 | two branches merge into a host alike either way if and only if the host refuses one, or every first-come slot is filled by the host or not stated differently, the enums meet, and the same holds of every property both have |
| BranchOrder.CommutesLater | apiverity/core/canonical.py:214-273 | branches that commute over a host in pairs still do once another of them is merged |
| BranchOrder.ConflictsEither | apiverity/core/canonical.py:214-273 | commuting branches that merge without conflict in one order do in the other |
| BranchOrder.OrderIrrelevant | apiverity/core/canonical.py:190-192 | any permutation of any number of branches that commute in pairs merges to the same node |
| BranchOrder.PeacefulPermuted | apiverity/core/canonical.py:190-192 | and records no conflict if one order records none |
| Refactoring.BranchOrderIrrelevant | apiverity/core/canonical.py:184-211 | permuting branches that commute in pairs and do not conflict gives the same canonical form and no finding |
| Refactoring.TwoBranchesExactly | apiverity/core/canonical.py:184-211 | with two branches and no conflict, both orders have the same canonical form if and only if the branches commute |
| Inlining.CanonMerges | apiverity/core/canonical.py:100-136 | canonicalizing what was merged is merging what was canonicalized, where no merge meets another composition |
| Inlining.InliningIrrelevant | apiverity/core/canonical.py:184-211 | merging the branches of a conflict-free composition into its host by hand leaves the canonical form as it was |
| Refactoring.CanonRefactored | apiverity/core/canonical.py:100-181 | permuting or inlining compositions at any nodes of a schema leaves its canonical form as it was |
| Refactoring.CanonEquivalent | apiverity/core/canonical.py:100-181 | however often that is done |
| Refactoring.RefactoringIsSilent | apiverity/diff/engine.py:1025-1347 | the differ reports nothing about any such refactoring, in either direction |
| Refactoring.PermutingIsSilent | apiverity/diff/engine.py:1025-1347 | the differ reports nothing about a composition and its permutation, in either direction |
| Refactoring.InliningIsSilent | apiverity/diff/engine.py:1025-1347 | the differ reports nothing about a composition and the same merged by hand, in either direction |
| Limits.NullExactly | apiverity/core/canonical.py:269-273 | a collapse is right about `null` if and only if host and branches agree on `nullable` |
| Limits.DropsMultipleOf | apiverity/core/canonical.py:241-252 | a branch's `multipleOf` is lost without a finding, with the value that shows it |
| Limits.DropsVariants | apiverity/core/canonical.py:241-268 | so are its variants |
| Limits.OpensClosedHost | apiverity/core/canonical.py:222-225 | a host that forbids other properties accepts the ones merged in |
| Limits.OrderShows | apiverity/core/canonical.py:247-249 | with two different patterns and none on the host, the order of the branches decides which stays |
| Limits.UntypedUnchecked | apiverity/core/validation.py:67-74 | without a stated type the validator accepts a text that `minLength` refuses |
| Engine.DiffEngine.Add | apiverity/diff/engine.py:126-164 | appends one record; the list of changes stays the numbering of the records, and each counter the number of times its scope occurred |
| Engine.DiffEngine.DiffSchema | apiverity/diff/engine.py:1025-1592 | the walk records exactly the entries of the comparison, in order |
| Engine.DiffEngine.DiffNumbers | apiverity/diff/engine.py:587-725 | renamed and reused numbers, numbers dropped without a reservation, explicit presence lost, fields moved into and out of a `oneof`, reservations dropped, in that order, and only where one side numbers its fields |
| Engine.DiffEngine.DiffKeywords | apiverity/diff/engine.py:1044-1144 | every difference of a node's own keywords is reported once, in order |
| Engine.DiffEngine.DiffFields | apiverity/diff/engine.py:1147-1190 | removed, added and shared properties |
| Engine.DiffEngine.DiffRequired | apiverity/diff/engine.py:1208-1251 | a field is reported as becoming required or optional only when it is on both sides |
| Engine.DiffEngine.DiffMiddle | apiverity/diff/engine.py:1253-1345 | items, discriminator and variants; variants only when the lists are equally long |
| Engine.DiffEngine.DiffDiscriminator | apiverity/diff/engine.py:1264-1336 | the discriminating property, then removed, added and re-pointed mapping keys |
| Engine.DiffEngine.DiffDependents | apiverity/diff/engine.py:1372-1428 | dependent names and dependent schemas |
| Engine.DiffEngine.DiffTuples | apiverity/diff/engine.py:1430-1473 | tuple length, or positions, where a changed type is reported once and not compared further |
| Engine.DiffEngine.DiffPatterns | apiverity/diff/engine.py:1475-1503 | pattern schemas added, removed or compared |
| Engine.DiffEngine.DiffSingles | apiverity/diff/engine.py:1505-1592 | `propertyNames`, `contains` with its counts, and the conditional branches |
| Engine.DiffEngine.DiffParameter | apiverity/diff/engine.py:464-530 | requiredness, then a changed summary, or else the comparison of the schemas |
| Engine.DiffEngine.DiffBody | apiverity/diff/engine.py:742-816 | a body added or removed, or its media types compared and its requiredness |
| Engine.DiffEngine.DiffReply | apiverity/diff/engine.py:818-880 | headers, shared media types, and media types on one side |
| Engine.DiffEngine.DiffSecurity | apiverity/diff/engine.py:1002-1021 | the operation's own schemes or else the service's, as sorted lists |
| Engine.DiffEngine.DiffOperation | apiverity/diff/engine.py:229-255 | records exactly what the two revisions and the two inherited security lists determine |
| Engine.DiffEngine.Run | apiverity/diff/engine.py:168-225 | the returned list is the numbering of the records of the two services |
| ServiceExact.IndexExactly | apiverity/diff/engine.py:168-196 | of several elements with one key the last is compared |
| ServiceExact.SchemesExactly | apiverity/diff/engine.py:1002-1007 | the schemes compared are, in ascending order, those of the operation's own list where it has one, even an empty one, and of the service's otherwise |
| ServiceExact.KindsExactly | apiverity/diff/engine.py:1025-1592 | which kind a difference of schemas goes by, for each subject and direction |
| ServiceExact.OperationExactly | apiverity/diff/engine.py:229-1021 | of two revisions of an operation exactly the differences are recorded, each with its kind, its direction, and what was there before and is there now: parameters, streaming, bodies, responses, headers, schemas, security and deprecation |
| ServiceExact.ServiceExactly | apiverity/diff/engine.py:168-225 | likewise of two services: operations on one side, shared operations, version and servers |
| ServiceExact.QuietServices | apiverity/diff/engine.py:168-225 | nothing is recorded if and only if the services agree: the same keys, and for each the same parameters, bodies, responses, streaming, deprecation and effective security, with quiet schemas throughout; the same version and servers |
| ServiceExact.CanonicalServices | apiverity/core/canonical.py:65-98 | the services compared are those written, with every schema of their parameters, bodies and responses in canonical form and nothing else changed |
| ServiceExact.ChangesExactly | apiverity/diff/engine.py:1595-1616 | of the list `diff_services` returns: it is empty if and only if the canonical forms agree in that sense, and otherwise holds exactly the differences |
| ServiceOrder.ServiceInOrder | apiverity/diff/engine.py:168-255 | the order of the records: operations gone, new, shared by key, then the service; within an operation section by section, in each by name |
| ServiceOrder.RecordsOnce | apiverity/diff/engine.py:168-255 | nothing but a difference inside two schemas is recorded twice |
| ServiceDiff.DiffServices | apiverity/diff/engine.py:1595-1616 | both services are put in canonical form and then compared |
| ServiceDiff.ServiceSelf | apiverity/diff/engine.py:168-225 | a service compared with itself yields nothing |
| ServiceDiff.RewritingIsSilent | apiverity/diff/engine.py:1595-1616 | permuting and inlining compositions anywhere in any schemas of a service, any number of times, yields no change at all |
| DiffMeaning.SilentIsQuiet | apiverity/diff/engine.py:1025-1592 | the report is empty if and only if no compared keyword differs at any level reached |
| DiffExact.NotesExactly | apiverity/diff/engine.py:1025-1592 | at two nodes exactly the differences are reported, with what was there before and is there now |
| DiffExact.ChildrenExactly | apiverity/diff/engine.py:1025-1592 | which sub-schemas are compared: those both sides have, and variants and tuple positions only of lists of one length |
| DiffExact.ReportExactly | apiverity/diff/engine.py:1025-1592 | an entry is in the report if and only if its path leads to two nodes that are compared and it says what differs between them |
| DiffOnce.EntriesInOrder | apiverity/diff/engine.py:1025-1592 | of any two entries the one listed first comes first at some node on the way to both: by kind of difference, within a kind by name or number |
| DiffOnce.EntriesOnce | apiverity/diff/engine.py:1025-1592 | no entry is reported twice |
| DiffSilence.EmptyDiffMeansEquivalence | apiverity/diff/engine.py:1025-1592 | an empty report means both revisions accept the same values, outside the four blind spots |
| Limits.ItemsAppearUnseen | apiverity/diff/engine.py:1253-1262 | `items` on one side only: silence, and a value only one side accepts |
| Limits.VariantAddedUnseen | apiverity/diff/engine.py:1338-1345 | likewise a variant added |
| Limits.UndeclaredRequiredUnseen | apiverity/diff/engine.py:1208-1251 | likewise an undeclared name required |
| Limits.ClosingUnseen | apiverity/diff/engine.py:1146-1262 | likewise `additionalProperties` forbidden |
| DiffMirror.Mirror | apiverity/diff/engine.py:1025-1592 | where neither direction loses anything, the two report the same multiset with before and after exchanged, numbers renamed and reused and fields moved between groups included |
| DiffMirror.MirrorExactly | apiverity/diff/engine.py:587-725 | they do so if and only if, in both directions and at every pair of nodes compared, either no side numbers its fields, or a number dropped is reserved, no reservation of an unused number is dropped, and no field kept loses explicit presence |
| DiffMirror.HeldExactly | apiverity/diff/engine.py:587-725 | one report is free of losses if and only if the two schemas, read node by node, are |
| DiffMirror.UnnumberedMirror | apiverity/diff/engine.py:1041-1042 | schemas without field numbers always mirror each other |
| Limits.NumberingNotMirrored | apiverity/diff/engine.py:645-664 | a dropped field number is reported, the same number added is not |
| Limits.PresenceNotMirrored | apiverity/diff/engine.py:666-680 | explicit presence lost is reported, the same presence gained is not |
| DiffOnce.EachFieldOnce | apiverity/diff/engine.py:1146-1251 | at every node a property name is in at most one of added, removed, became required, became optional |
| WireSafety.CleanShape | apiverity/diff/engine.py:574-585 | two revisions of a field with no reported change on the wire are encoded alike if and only if they say what they hold alike along the chain of arrays, or a format reads as if they did |
| WireSafety.CleanExactly | apiverity/diff/engine.py:573-643 | with no reused number and no type or format change, every shared number keeps its wire shape at every level reached by name if and only if the fields of numbers that keep their names are spelled alike |
| WireSafety.SpelledExactly | apiverity/diff/engine.py:574-585 | a text is the wire shape of a field if and only if it spells the field: `repeated` once for every array that says what it holds, then the format, else the type |
| Limits.ItemsChangeTheWire | apiverity/diff/engine.py:574-585 | an array that starts saying what it holds changes its wire shape and is not reported |
| ChangeIds.IdsDetermine | apiverity/diff/engine.py:150-153 | kind, digest and ordinal can be read back from an id |
| ChangeIds.IdsExactly | apiverity/diff/engine.py:126-153 | an id says the kind, the digest of the operation or `global`, and one more than the number of earlier changes of that kind and digest |
| ChangeIds.IdsUnique | apiverity/diff/engine.py:126-164 | no two changes of a run have one id, even when two operations share a digest |
| ChangeIds.NumberedLocally | apiverity/diff/engine.py:139-153 | an operation's changes and ids are those it would have on its own |
| ChangeIds.ServiceFor | apiverity/diff/engine.py:195-196 | what a run records about a shared operation is the comparison of its two revisions |
| ChangeIds.IdsLocal | apiverity/diff/engine.py:126-225 | whatever else differs between two runs, nothing of an unchanged pair of revisions is renumbered |
| ChangeIds.OperationOrderIrrelevant | apiverity/diff/engine.py:168-196 | reordering the operations of either service changes no change and no id |
| ChangeIds.PartOrderIrrelevant | apiverity/diff/engine.py:464-530 | reordering an operation's parameters or responses, in either revision or both, changes nothing in its comparison |
| Generate.GenerateValid | apiverity/fuzz/generate.py:32-88 | for every draw, what is returned is one of the values described by the schema's keywords |
| Generate.GeneratorAgrees | apiverity/fuzz/generate.py:32-88 | every value that can be drawn is accepted if and only if the schema leaves room for what is generated, at every node visited |
| Generate.SomeDraw | apiverity/fuzz/generate.py:32-88 | the generator can always return something |
| Generate.StatedFirst | apiverity/fuzz/generate.py:36-43 | the first of example, `const`, a member of the enum and default that is stated, and nothing else |
| Generate.TextsDrawn | apiverity/fuzz/generate.py:49-56 | texts are any lower-case letters, of the length nearest three that the bounds allow |
| Generate.SamplesDrawn | apiverity/fuzz/generate.py:15-24 | the eight formats with a sample, and the sample drawn for each |
| Generate.IntegersDrawn | apiverity/fuzz/generate.py:58-65 | of whole bounds that allow an integer exactly the integers they allow are drawn, up to 100 above the minimum where no maximum is stated |
| Generate.NumbersDrawn | apiverity/fuzz/generate.py:67-70 | a number lies between the bounds but for rounding, a hundred above the minimum where no maximum is stated |
| Generate.ListsDrawn | apiverity/fuzz/generate.py:75-78 | lists are as long as `minItems` asks, of one element where it asks for none |
| Generate.FieldsDrawn | apiverity/fuzz/generate.py:80-88 | an object can be drawn with any set of declared fields that holds the required ones, and with no other |
| Generate.UnionsDrawn | apiverity/fuzz/generate.py:34-47 | a union is drawn as its first member, no type as an object; past the ninth level everything is null |
| GenerateInvalid.GenerateInvalid | apiverity/fuzz/generate.py:91-185 | for every draw, the flaws of the cases returned are exactly those the schema calls for, in order: the node's own, then the first two of the items' list, or of each of the first four fields' lists; every value exhibits the flaw it is labelled with; and every keyword stated about the node's own kind is violated by some case |
| GenerateInvalid.NothingUnviolated | apiverity/fuzz/generate.py:91-185 | some case violates the kind, the enum, the minimum and maximum length, the pattern, each numeric limit, a nonzero `multipleOf`, `minItems`, each required name, and what is stated of the items and the first four fields: each said by the validator's own condition |
| GenerateInvalid.FlawedRefused | apiverity/fuzz/generate.py:91-185 | a flawed value is refused at any nesting, whatever was drawn around it |
| GenerateInvalid.RefusedCases | apiverity/fuzz/generate.py:91-185 | every case returned is refused by the validator, and no keyword stated about the node's own kind goes unviolated |
| GenerateInvalid.InvalidAgrees | apiverity/fuzz/generate.py:91-185 | every case of every list that can be returned is refused if and only if each flaw listed is refused, read off the schema: the limit leaves something outside it and the type names one kind |
| GenerateInvalid.DeepFlawsCutOff | apiverity/fuzz/generate.py:164-166 | two levels down a text that would be accepted is never returned: the cut after two cases leaves three cases, all refused |
| GenerateInvalid.UntypedAccepts | apiverity/fuzz/generate.py:102-115 | without a type, the value of the wrong kind is accepted |
| GenerateInvalid.TooShortExactly | apiverity/fuzz/generate.py:123-129 | the too-short case is refused if and only if something can be shorter or the empty text breaks another rule |
| GenerateInvalid.TooFewExactly | apiverity/fuzz/generate.py:159-163 | the same for the array with too few items |
| Leaves.StringFields | apiverity/fuzz/generators.py:110-121 | lists exactly the text leaves with their dotted paths |
| Leaves.SetAt | apiverity/fuzz/generators.py:137-166 | the cursor's walk has the effect of the recursive assignment; a path that leads nowhere changes nothing |
| Leaves.ListedRoute | apiverity/fuzz/generators.py:110-121 | every listed path renders a route of properties and items to a text leaf |
| Leaves.ListedExactly | apiverity/fuzz/generators.py:110-121 | a leaf is listed under a path if and only if some route of properties and items leads to it, it is a text, and the path renders the route |
| Leaves.RoutePartsOf | apiverity/fuzz/generators.py:144 | splitting a rendered path at dots recovers the route |
| Leaves.FittingTextKeepsValid | apiverity/fuzz/generators.py:137-166 | a valid body stays valid when a listed leaf gets a text that fits, whatever the schema states away from the leaf and the way to it |
| Leaves.SetLeafExactly | apiverity/fuzz/generators.py:137-166 | a valid body stays valid if and only if the path leads nowhere, or the leaf accepts the text and the field was there or nothing on its object depends on it that is not met |
| Leaves.NewFieldBreaksBody | apiverity/fuzz/generators.py:164-165 | an absent field that is put in calls for another: the valid empty body becomes invalid |
| Leaves.FittingTextRefused | apiverity/fuzz/generators.py:202-212 | a leaf with an enum or a pattern gets fitting texts it refuses |
| Leaves.OthersUnchanged | apiverity/fuzz/generators.py:137-166 | every place neither above nor below the target holds what it held |
| Leaves.UnicodeBodies | apiverity/fuzz/generators.py:271-285 | the bodies are those of every leaf with every sample that fits it, and no others |
| Leaves.UnicodeAccepted | apiverity/fuzz/generators.py:271-285 | all of them are accepted where nothing on the leaves and the ways to them could mind |
| Leaves.DollarReplacesTheBody | apiverity/fuzz/generators.py:139-140 | a property called `$` makes the replacement swallow the body, which is then invalid |
| Pairwise.PairwiseCases | apiverity/fuzz/boundary.py:138-198 | fewer than two names, an empty list, an unhashable choice, or the deduplicated result of visiting all pairs from some base draw; where values can be told apart, exactly the assignments near that base, each once, and every pair of values together in some case |
| Pairwise.VisitPairs | apiverity/fuzz/boundary.py:160-189 | the four nested loops visit every pair of choices once, in order, with this set of cases and marks |
| Pairwise.DropRepeats | apiverity/fuzz/boundary.py:190-198 | first occurrences, in order |
| Pairwise.ProducesExactlyNear | apiverity/fuzz/boundary.py:152-198 | the result is exactly the assignments that differ from the base in at most two names |
| Pairwise.UniqueNear | apiverity/fuzz/boundary.py:190-198 | dropping duplicates loses no assignment and no pair |
| Pairwise.CoverageExactly | apiverity/fuzz/boundary.py:138-198 | all pairs are covered for every base draw if and only if no list has two members that are `==` without being the same |
| PairwiseCount.CaseCount | apiverity/fuzz/boundary.py:138-198 | one case, plus one for every other value, plus one for every two other values of two names |
| PairwiseCount.FiveOfSix | apiverity/fuzz/boundary.py:32-38 | five names with six values give 276 cases |
| Framing.ReadMessage | apiverity/lsp/protocol.py:37-76 | for every way of splitting reads: the result and the bytes consumed are those of the byte sequence |
| Framing.ReadHeader | apiverity/lsp/protocol.py:44-51 | stops right after the first blank line, or at the end of the stream |
| Framing.ReadBody | apiverity/lsp/protocol.py:63-68 | all the bytes asked for, or none when the stream is short |
| Framing.WriteMessage | apiverity/lsp/protocol.py:79-90 | appends one frame |
| Framing.RoundTrip | apiverity/lsp/protocol.py:37-90 | reading the concatenation of any written messages returns them in order, then the end |
| Framing.CutFrameBreaks | apiverity/lsp/protocol.py:44-68 | a frame cut anywhere inside is an error, never a message |
| Framing.Truncated | apiverity/lsp/protocol.py:37-90 | a stream cut anywhere yields the complete messages, then the end between frames and an error inside one |
| FramingExact.IntExactly | apiverity/lsp/protocol.py:57 | which texts say which number: white space around an optional sign and digits, with single underscores between some of them |
| FramingExact.LengthExactly | apiverity/lsp/protocol.py:53-61 | no length, a line that is no number, or the length the last line named `content-length:`, in whatever case, says |
| FramingExact.FramesExactly | apiverity/lsp/protocol.py:37-76 | a header of any lines: refused if no line states a length or one states what is no number, and otherwise as many bytes are the message as the last one says |
| FramingExact.NoHeader | apiverity/lsp/protocol.py:44-51 | without a blank line the stream has ended if it is all white space, and is broken otherwise |
| LanguageServer.ReachedKeeps | apiverity/lsp/server.py:180-267 | in every reachable state recorded timers are the running ones, what is published is what is shown, and open documents are fresh or waiting |
| LanguageServer.Freshness | apiverity/lsp/server.py:180-267 | until shutdown an open document shows the diagnostics of its current text or has exactly one timer; one that is not open shows nothing |
| LanguageServer.ShownAtOnce | apiverity/lsp/server.py:180-204 | right after an open or a save, or a change without debouncing, no timer runs and what is shown is what the rules say about the text; where they raise, that is logged and what was shown stays |
| LanguageServer.ChangeWaits | apiverity/lsp/server.py:187-196 | right after a debounced change nothing new is shown for any document, and exactly one timer, a new one, runs for this one |
| LanguageServer.FiringShows | apiverity/lsp/server.py:238-258 | a timer that goes off leaves none for its document and shows what the rules say about the text there is then |
| LanguageServer.ClosingClears | apiverity/lsp/server.py:206-215 | after closing an empty list is shown and no timer runs |
| LanguageServer.OthersUndisturbed | apiverity/lsp/server.py:123-215 | a message changes nothing that is shown of another document, and, shutdown apart, no timer of another |
| LanguageServer.BuffersTracked | apiverity/lsp/server.py:180-215 | the stored text is the one the messages alone determine; timers never disturb it |
| LanguageServer.Settles | apiverity/lsp/server.py:228-258 | left alone, each running timer fires once and none starts another |
| LanguageServer.SettledShowsCurrent | apiverity/lsp/server.py:238-258 | with no timer left, what is shown is what the rules say about the editor's text |
| LanguageServer.EveryRequestAnswered | apiverity/lsp/server.py:123-144 | every request is answered once, in order, with an error exactly where nothing handles it or its handler fails; notifications are never answered |
| LanguageServer.StaleAfterShutdown | apiverity/lsp/server.py:169-172 | a change waiting at shutdown is never analysed |
| Serving.Server.Run | apiverity/lsp/server.py:238-258 | an analysis forgets its timer, publishes, logs, or does nothing for a closed or unlintable file |
| Serving.Server.AnalyzeDocument | apiverity/lsp/server.py:228-236 | the old timer is stopped; then an analysis at once or one new timer |
| Serving.Server.Handle | apiverity/lsp/server.py:146-224 | each handler's effect on the dictionaries |
| Serving.Server.CancelTimers | apiverity/lsp/server.py:265-267 | every recorded timer is stopped and no other |
| Serving.Server.HoverAt | apiverity/lsp/server.py:217-224 | exactly the published diagnostics that start on the line |
| Serving.Server.Dispatch | apiverity/lsp/server.py:123-144 | one message is one step of the state machine |
| Serving.Server.Turn | apiverity/lsp/server.py:108-119 | whatever timers fire in between, one turn handles the next message of the stream or ends |
| Serving.Server.Serve | apiverity/lsp/server.py:108-121 | the handled messages are those of the stream, in order, up to exit, the end or a broken frame; only a broken frame leaves timers running |
| Minimize.MinimizeBody | apiverity/fuzz/minimize.py:37-68 | terminates with a sub-map that keeps required fields, still fails if anything was removed, is 1-minimal, and took at most n(n+1)/2 probes |
| Minimize.RemoveOne | apiverity/fuzz/minimize.py:49-68 | one pass finds the first removal that still fails, or shows there is none |
| Minimize.MinimizeCase | apiverity/fuzz/minimize.py:18-98 | only object bodies are minimized; a failing case is reported as failing |
| Minimize.MinimalWhenMonotone | apiverity/fuzz/minimize.py:46-68 | where adding fields never cures a failure, no proper part of the result that keeps the required fields fails |
| Ownership.ToRegex | apiverity/core/ownership.py:42-68 | the loops build the expression: prefix, one group of tokens per segment, tail |
| Ownership.SegmentConsumed | apiverity/core/ownership.py:54-61 | the tokens of one pattern segment use up exactly one path segment |
| Ownership.MatchesAligned | apiverity/core/ownership.py:42-68 | a pattern matches a path on one line if and only if its segments span the path's: from the start if rooted, from any segment otherwise, with `**` taking one segment or more and something after them for a directory |
| Ownership.SpansAligned | apiverity/core/ownership.py:42-68 | without `**`, spanning is segment against segment |
| Ownership.SpansBetween | apiverity/core/ownership.py:49-51 | `p/**/q` matches where p aligns with the start and q with a later place, at least one segment between them |
| Ownership.StrippedExactly | apiverity/core/ownership.py:42-48 | only slashes are stripped from a pattern, and all of them at either end |
| Ownership.SlashedExactly | apiverity/core/ownership.py:107-114 | every backslash of a path, and nothing else, becomes a slash |
| Ownership.LastMatch | apiverity/core/ownership.py:108-111 | the reverse scan finds the highest-numbered matching rule |
| Ownership.OwnersOf | apiverity/core/ownership.py:101-111 | the owners of the highest-numbered rule that matches the normalised path, or nobody |
| Ownership.RuleFor | apiverity/core/ownership.py:113-118 | the same rule for the path as written |
| Ownership.OneDecides | apiverity/core/ownership.py:101-118 | at most one rule decides |
| Ownership.TargetsExactly | apiverity/core/ownership.py:107-114 | the two queries look at the same text if and only if the path has, after its leading slashes, no empty and no `.` segment and no trailing slash, or is `.` or slashes alone |
| Ownership.QueriesAgree | apiverity/core/ownership.py:101-118 | of such a path, under any rules, the owners are those of the rule |
| Ownership.QueriesDiffer | apiverity/core/ownership.py:107-114 | `./a` is owned under one query and not the other |
| Watch.Diff | apiverity/cli/watch.py:135-147 | the loop yields the difference of two snapshots |
| Watch.DifferenceExact | apiverity/cli/watch.py:135-147 | a path is reported, with the right kind, exactly when its state differs |
| Watch.DifferenceSorted | apiverity/cli/watch.py:147 | changes come in the order of their paths, each path once |
| Watch.Settle | apiverity/cli/watch.py:185-191 | the inner loop stops at agreement, and its changes are the difference between the baseline and what was agreed |
| Watch.Run | apiverity/cli/watch.py:150-200 | the re-runs are those of the specification, and the command ran once more than there were re-runs |
| Watch.SettledTwice | apiverity/cli/watch.py:185-191 | what settles is the first snapshot shown twice in a row |
| Watch.Chained | apiverity/cli/watch.py:174-199 | each re-run's baseline is what the one before settled on, and it reports exactly its difference |
| Watch.NothingMissed | apiverity/cli/watch.py:174-199 | a path whose last state differs from the baseline was reported by some re-run, edits during re-runs included |
| Watch.EditDuringFirstRun | apiverity/cli/watch.py:171-174 | a path that changed between the start and the first snapshot, during the first run, is never reported against the state it had unless it is shown in that state again |

## Left out

Theorems with a condition that is sufficient and not shown to be necessary. Each condition is an explicit predicate; the
lemma that shows why it is there is named where there is one:

- CanonicalMeaning.CanonKeepsMeaning: assumes `Faithful`, that each merge drops nothing and widens nothing; a dropped keyword may be implied by another one, so the exact condition is semantic. Exact for `null` (`Limits.NullExactly`) and for enums (`MergeMeaning.IntersectionExactly`); see also `Limits.DropsMultipleOf`, `Limits.DropsVariants` and `Limits.OpensClosedHost`.
- CanonicalMeaning.CollapseKeepsMeaning: assumes `Mergeable`, the same for one composition.
- CanonicalMeaning.ConflictKeepsMeaning: assumes `SafelyShared` (`Leftovers.KeptLetsNullIn`, `Leftovers.KeptOpensClosed`, `Leftovers.KeptMovesItems`); exact for each of the three at one field the branches share (`Leftovers.KeptNullExactly`, `Leftovers.KeptClosedExactly`, `Leftovers.KeptItemsExactly`), and not for fields nested in it.
- CanonicalMeaning.WriteBacksKeepMeaning: likewise.
- MergeMeaning.MergeAt: assumes `Writable`, which excludes the same three inputs.
- Agreement.ValidatorAgrees: assumes `Plain`; a keyword under the wrong type can be harmless by accident (`Limits.UntypedUnchecked`). The keywords that are read differently have exact lemmas beside it. A type name the standard does not know states nothing in either reading.
- Agreement.CanonicalFormDecides: assumes both `Faithful` and `Plain`.
- CanonicalForm.CanonSettled: assumes `Gentle`; `FixedPoints.MergeRestsExactly` is exact for one merge into a kept composition, but what one merge disturbs a later one may settle.
- CanonicalForm.CanonIdempotent: likewise (`Limits.NotIdempotent` where it fails); `FixedPoints.IdempotentExactly` is exact, read off the first form.
- Refactoring.BranchOrderIrrelevant: exact for two branches (`Refactoring.TwoBranchesExactly`); for more, commuting in pairs is sufficient.
- Inlining.InliningIrrelevant: assumes that no merge meets another composition; merging by hand drops a branch's own `allOf`.
- DiffSilence.EmptyDiffMeansEquivalence: assumes `Aligned`, which closes the four blind spots; a blind spot does not always matter for the accepted values (`Limits.ItemsAppearUnseen`, `Limits.VariantAddedUnseen`, `Limits.UndeclaredRequiredUnseen`, `Limits.ClosingUnseen`).
- ChangeIds.IdsUnique: the digest is a parameter, of which only hexadecimal output is assumed.
- ChangeIds.IdsLocal: assumes that no other recorded operation has the same digest, and distinct keys through the index.
- GenerateInvalid.FlawedRefused: assumes `Refusable`, one concrete type at each node visited; `GenerateInvalid.InvalidAgrees` is exact, on schemas without the keywords the generators never look at, without enums and constants, and with sound draws beside a nested flaw.
- GenerateInvalid.RefusedCases: likewise.
- Generate.GeneratorAgrees: schemas without the keywords the generator never looks at, and without `number`, whose draws are rounded to two places.
- Leaves.SetLeafExactly: names are plain, since dots and brackets make paths ambiguous (`Leaves.DollarReplacesTheBody` for the name `$`), and nodes on the way look inside values only through properties and items.
- Ownership.MatchesAligned: paths have no line break.
- Collapsed.SaysTogether: said of a collapse; what kept branches have taken in is said by `CanonicalForm.OverStep`.
- Clashes.FindingsExactly: nested compositions are decided on their canonical parts (`Clashes.TroubledWithin`).
- FramingExact.FramesExactly: header lines hold no carriage return of their own and are not empty.
- Generate.IntegersDrawn: bounds are whole numbers.
- Generate.NumbersDrawn: a minimum is stated, and it is not above the maximum; two places of rounding are a half hundredth either way.
- ServiceOrder.ServiceInOrder: what a comparison reports about a parameter's schema names the parameter without its location, so two parameters of one name are told apart only by what is recorded about themselves.
- PairwiseCount.CaseCount: choice lists without repeated or `==` members.

Members that leave out a part of the lines they model:

- Canonicalize.StableUniqueOf: a list of arrays that Python could compare with each other is not sorted.
- Engine.DiffEngine.DiffBody: streaming media types are not compared.
- Engine.DiffEngine.DiffReply: streaming media types are not compared.
- Engine.DiffEngine.DiffOperation: descriptions, examples, and the MCP and SOAP parts are not compared.
- Engine.DiffEngine.Run: the MCP manifest is not compared.
- Minimize.MinimizeCase: the status an HTTP error gives the last request is left out.

Not modelled:

- Regular expressions of `pattern` and `patternProperties` are a parameter; a `pattern` that does not compile raises in the code and here simply does not match.
- Numbers are integers and exact reals; the tolerance of `multipleOf` is on the exact quotient, and rounding of floats does not occur.
- For the validator `uniqueItems` compares values, where the code compares their printed form, which shows the order in which an object's fields were inserted.
- Dictionaries have no order. Where the code iterates over one, the model visits names in an arbitrary order, or sorted where the code sorts.
- The comparison of enums with unhashable members, which raises when its message is built, is reported as a difference.
- `not` is kept as written by canonicalization, as in the code, and is not compared by the differ.
- Texts: titles, descriptions, messages, hints, source locations. A parameter's schema summary is a tuple rather than the text made from it.
- `Operation.key` is given with the operation.
- The choice lists of the pairwise generator (`boundary_values`), its cap on the number of cases, and the other generators.
- A list with an unhashable choice is refused before any case is built, where the code raises on meeting it; either way there is no result.
- A request and the check of its response are one deterministic predicate in the minimizer; an HTTP error counts as not failing.
- JSON text is an encoding and decoding that are inverse to each other. Framing is about bytes and lengths.
- Language server handlers and timer firings are atomic steps; interleavings inside one analysis and the write lock are left out.
- `_set_at` works on values: a replaced body is a new value, and identity of the copied parts is not expressed.
- The other sub-schemas of a mutable node (`items`, variants and the 2020-12 keywords) are values, because merging never writes inside them.
- The watch loop's `should_continue` is a number of polls, and the file system a finite list of snapshots after which nothing changes.
- Reading the CODEOWNERS file, finding it, and expanding watched directories.
- Parsers, the breaking-change rules, drift, performance, mock servers, reports and the command line.
