# Cuco Assets Creator — conversion pass, modelled in Dafny

The Blender add-on "Cuco Assets Creator" turns a Sollumz-imported GTA V
scene into Blender assets with one operator, `cuco_convert_to_asset`. This
project models that pass and proves properties of the model.

### The pass, step by step

1. **Classify.** It collects the *first parents*: tagged objects that have children and no parent, in scene order.
2. **Dispatch.** Each first parent goes to the rule for its tag:
   - `sollumz_drawable` goes to `process_drawable_objects`;
   - `sollumz_fragment` goes to `process_fragment_objects`;
   - any other tag is skipped.
3. **Rules.** The rules flatten, rename, asset-mark, merge and delete objects. They add objects to a removal list.
4. **Drain.** Each object on the removal list is deleted together with its subtree, unless it is already in the set of removed objects.
5. **Normalise.** `re.sub(r"\.\d+$", "", name)` is applied to every remaining name.

### How the scene is modelled

- **Entities.** The scene is a class `SceneGraph.Scene`:
  - a map from a stable object identity to a `Node` record holding the name, the `sollum_type` tag, the parent, the asset mark, and whether the host attaches asset data;
  - the scene's enumeration order.
- **Child lists.** `obj.children` is derived: the scene order filtered by parent, so it lists only children in the scene (see "Left out").
- **Forest invariant.** A ghost rank map witnesses that the parent relation is a forest.
- **Removal log.** A ghost log records every object handed to `bpy.data.objects.remove`.

### How the operations are modelled

- Every operation of `init.py` is a method that updates that class in place. It is proved against a ghost function on a value-level pass state `Forest.World`, which holds the objects, the order, `removed_objects` and `objects_to_remove`.
- **Host calls:**
  - `obj.parent = None`, attribute assignment, `asset_mark` and `bpy.data.objects.remove` are small host methods;
  - `bpy.ops.object.join` is `Join`: the active object survives and the others leave the scene.
- **Exceptions:**
  - an exception caught by a per-object handler skips that object;
  - an exception that reaches the outer handler of `cuco_convert_to_asset` stops the pass, reported by the flag `ok`.

### What is proved

- **Classifier.** It is an exact filter.
- **Deletion helper** (`remove_object_and_children`):
  - it removes exactly the subtree;
  - it hands each object to the host once.
- **Drawable rule.** It flattens, renames and marks every child. It queues exactly the bound boxes and the children without asset data, then the first parent.
- **Fragment rule.** Each child ends as its suffix prescribes:
  - `.col`: its subtree is removed;
  - `.mesh` with several drawable models: the models are merged, the merged object is renamed and marked, and only the `.mesh` child is queued;
  - `.mesh` with at most one model: the model is renamed, marked and queued;
  - any other name: the subtree is untouched.
- **Locality.** Each rule changes only its first parent's subtree, so rules for different first parents do not interfere, and skipped first parents are neither changed nor queued.
- **Drain.** It removes exactly the subtrees of the queued objects.
- **Whole pass.** On every well-formed scene it runs to the end, and its final scene is given in closed form. For each first parent's children, the final scene is stated outright:
  - a drawable child survives exactly when it is no bound box and got asset data, with no parent, the first parent's stripped name and an asset mark;
  - no fragment child survives; of a `.mesh` child's models, only the merged survivor does, and a lone model is removed after being renamed and marked.
- **Suffix stripper.** It removes exactly the match of `\.\d+$`, where `\d` is any Unicode decimal digit (Unicode 15.0, as in Python 3.12).

Rule outcomes are proved for one rule application, starting from the state the rule sees. `TurnOutcomes` restates them for the whole dispatch loop, judged against the scene before the pass.

### Files

- `forest.dfy`: values, subtrees, the pass state.
- `names.dfy`: `EndsWith` and the regex.
- `scene.dfy`: the scene class, host operations, `remove_object_and_children`, `merge_objects`.
- `classify.dfy`: the first-parent scan.
- `drawable.dfy`: the drawable rule.
- `fragment.dfy`: the fragment rule.
- `pass.dfy`: the dispatch, drain and suffix loops.
- `convert.dfy`: the whole operator.
- `regions.dfy`, `rules.dfy`, `facts.dfy`: frames and worklist invariants.
- `outcomes.dfy`: per-rule outcomes.
- `turns.dfy`: outcomes across the dispatch loop.
- `final.dfy`: what the whole pass leaves of each first parent's children.

### Modelling decisions

- **Unchanged first-parent name.** The first parent's name is read once, before each rule's loop. The source reads `first_parent.name` at every use, but the first parent is never renamed while its own rule runs, so the value is the same.
- **Tags.** An empty `sollum_type` is `None`, the one falsy value of the `if obj.sollum_type` test. Every `Tag` is a non-empty string: `OtherTag` holds only values other than the four named tags, so comparing tags is comparing the strings (`Forest.TagValueInjective`).
- **Join keeps the last model.** `merge_objects` makes each object active in turn, so the last model in `drawable_models` is the one that survives the join. Children of the joined-away models become roots, as they do for `bpy.data.objects.remove`.
- **Trailing newline.** Python's `$` also matches before a final `\n`, and `Names.StripSuffix` models that case exactly.
- **Stale objects.** Some loops can meet an object that has already left the scene:
  - a stale child in the fragment loop raises inside the per-child `try` and is skipped;
  - a stale first parent or a stale removal-list entry raises outside every inner handler and stops the pass.

  The model proves that neither stopping case arises.

## Model

| member | source | states |
|---|---|---|
| Forest.ChildrenIn | init.py:14 | `obj.children` restricted to the scene: exactly the scene objects whose parent is `x`, listed without duplicates when the order has none |
| Forest.UnlinkedRanked | init.py:18 | deleting objects keeps the parent relation a forest, and the only change to the objects that remain is a cleared parent |
| Forest.TagValueInjective | init.py:51-60 | two tags have the same `sollum_type` string exactly when they are the same tag, and no tag is the falsy empty string |
| Forest.RemovedSubtree | init.py:12-19 | removing a subtree keeps the removed set disjoint from the scene and keeps the forest ranked; objects are only dropped, and parents are only cleared |
| Forest.SiblingsDisjoint | init.py:54-61 | two distinct roots (or two distinct children of one parent) have disjoint subtrees, so rules for different first parents work on disjoint objects |
| Names.ColMeshExclusive | init.py:114-116 | no name passes both the `.col` test and the `.mesh` test, so the order of the two tests does not matter |
| Names.EndsWith | init.py:91 | `s.endswith(suffix)` holds exactly when `s` is some string followed by `suffix` |
| Names.MatchesAt | init.py:78 | a match of `\.\d+$` at `[i, j)`: a dot, one or more decimal digits, then the end or a final newline |
| Names.TrailingDigits | init.py:78 | the length of the maximal run of decimal digits at the end of a name: all digits, preceded by a non-digit or the start |
| Names.StripSuffix | init.py:78 | the result is either the name itself or the name with one match of `\.\d+$` cut out (`\d`: any Unicode decimal digit) |
| Names.MatchIsMaximal | init.py:78 | every match of `\.\d+$` starts just before the maximal trailing digit run, so there is only one match |
| Names.StripSuffixRemovesMatch | init.py:78 | whenever `\.\d+$` matches at `[i, j)`, the substitution returns the name with exactly that match removed |
| Names.StripSuffixUnchanged | init.py:78-80 | the name is unchanged if and only if the pattern does not match |
| Names.StripSuffixPrefix | init.py:78 | for names without a newline, the result is a prefix of the name |
| Names.StripSuffixExamples | init.py:78 | `x.123.456` becomes `x.123`, `Cube.001` becomes `Cube`, and `x.` followed by the Arabic-Indic digit three becomes `x` |
| Names.StripSuffixKeepsExamples | init.py:78-80 | `abc.`, `abc` and `abc1` keep their names |
| Names.StripSuffixOnce | init.py:78 | one call strips only one suffix: `x.1.2` becomes `x.1`, and only a second call gives `x` |
| SceneGraph.Scene.Children | init.py:14 | the child list, restricted to the scene, has no duplicates and holds exactly the scene objects whose parent is `x` |
| SceneGraph.Scene.Unparent | init.py:92 | only the parent of `x` changes, to none |
| SceneGraph.Scene.Rename | init.py:93 | only the name of `x` changes |
| SceneGraph.Scene.AssetMark | init.py:94 | only the asset mark of `x` changes |
| SceneGraph.Scene.Delete | init.py:18 | `x` leaves the scene and the order, its children become roots, and `x` is logged as handed to the host once |
| SceneGraph.Scene.Join | init.py:29 | the active object survives, the other selected objects leave the scene and the order, and their children become roots |
| SceneGraph.Scene.RemoveSubtree | init.py:12-19 | exactly the subtree of `obj` leaves the scene and the order and joins `removed_objects`; the host log gains exactly that subtree, each object once |
| SceneGraph.Scene.RemoveChildren | init.py:14-16 | the loop over the children snapshot removes a set of objects inside the subtree (below `obj`) that covers every child's subtree, each once |
| SceneGraph.Scene.RemoveChild | init.py:15-16 | one turn of the children loop: a child not yet removed loses its whole subtree, and what has been removed stays a down-closed part of `obj`'s subtree below `obj` |
| SceneGraph.Scene.MergeObjects | init.py:21-35 | fewer than two objects: returns `None` and changes nothing; otherwise the last object survives, renamed to `new_name` with no parent, the others leave, and it is returned |
| Classify.Potentials | init.py:50-52 | the potential parents are exactly the tagged objects with at least one child, in scene order |
| Classify.Roots | init.py:54 | the comprehension keeps exactly the potential parents with no parent |
| Classify.RootsOfPotentials | init.py:50-54 | the scan followed by the comprehension is one filter by the first-parent test |
| Classify.FirstParentsInMembers | init.py:50-54 | an object is listed if and only if it is in the scene order and is a first parent |
| Classify.FirstParentsInNoDup | init.py:50-54 | no first parent is listed twice |
| Classify.HasChild | init.py:51 | `len(obj.children) > 0`, over children in the scene, holds exactly when some scene object has `x` as parent |
| Classify.FirstParents | init.py:45-54 | returns exactly the tagged, childful, root objects of the scene, in scene order and without duplicates |
| DrawableRule.DrawableQueueMembers | init.py:88-104 | a child is queued exactly when it is a bound box or got no asset data |
| DrawableRule.FlattenAllAt | init.py:86-104 | flattening changes the listed children and nothing else; every object stays |
| DrawableRule.FlattenChild | init.py:92-97 | one child is flattened, and it is queued exactly when it got no asset data |
| DrawableRule.DrawableChild | init.py:88-104 | one child is flattened in either branch, and it is queued for being a bound box and again for lacking asset data |
| DrawableRule.ProcessDrawable | init.py:84-108 | the scene becomes the children flattened in snapshot order; the list gains the children's entries, then the first parent |
| DrawableRule.DrawableEffect | init.py:84-108 | the drawable rule deletes nothing itself: every object stays in the scene and the removed set is unchanged |
| FragmentRule.DrawableModels | init.py:117 | exactly the children tagged as drawable models, in child order |
| FragmentRule.Promote | init.py:127-128 | only the model's record changes: it gets the first parent's name and an asset mark, and its parent and tag are kept |
| FragmentRule.PromoteModels | init.py:126-130 | each model is renamed and marked in turn, and all models are queued in order |
| FragmentRule.MergeModels | init.py:118-124 | the scene becomes the merged scene, the models other than the last leave the order, and the `.mesh` child is queued |
| FragmentRule.FragmentChild | init.py:112-132 | one child's turn of the loop, including the skip of a child no longer in the scene |
| FragmentRule.ProcessFragment | init.py:110-134 | the children are handled in snapshot order, then the first parent is queued |
| FragmentRule.KidEffect | init.py:112-132 | one child's turn keeps the parent relation a forest and the removed set apart from the scene; it only drops objects and clears parents |
| FragmentRule.FragmentEffect | init.py:110-134 | the whole fragment rule keeps the parent relation a forest and the removed set apart from the scene; it only drops objects and clears parents |
| RuleFrames.PromoteAllAt | init.py:126-130 | only the models change, each renamed and marked |
| RuleFrames.KidEffectEvolved | init.py:112-132 | one fragment child changes only its own subtree; the removed set and the list gain only objects of that subtree |
| RuleFrames.FragmentEffectSafe | init.py:110-134 | the fragment rule changes only the first parent's subtree, and every queued object stays in the scene or in the removed set |
| RuleFrames.DrawableEffectSafe | init.py:84-108 | the drawable rule changes only the first parent's subtree, and every queued object stays in the scene or in the removed set |
| RuleFrames.RuleEffectSafe | init.py:56-61 | dispatching a present first parent never stops the pass and changes only its subtree |
| Regions.RemovedSubtreeEvolved | init.py:12-19 | removing a subtree changes nothing outside it, and keeps queued objects tracked |
| Conversion.DispatchOne | init.py:57-61 | one turn: a drawable or fragment first parent gets its rule, other tags change nothing, and a first parent no longer present stops the pass |
| Conversion.RuleEffect | init.py:56-61 | one first parent's turn keeps the forest and the removed set apart from the scene, and only drops objects and clears parents |
| Conversion.Dispatched | init.py:56-61 | the same for any number of turns of the dispatch loop |
| Conversion.Dispatch | init.py:56-61 | the loop runs each first parent's rule in order; other tags are skipped; a first parent no longer present stops the pass |
| Conversion.Drain | init.py:63-65 | entries already removed are skipped, present entries lose their subtree, and an entry that left by a join stops the pass |
| Conversion.Drained | init.py:63-65 | draining any prefix of the removal list keeps the forest and the removed set apart from the scene, and only drops objects and clears parents |
| Conversion.NormalizedAt | init.py:76-80 | every listed object gets its stripped name, and all other objects are unchanged |
| Conversion.NormalizeOne | init.py:77-80 | the object gets the stripped name, and a rename happens exactly when the name differs |
| Conversion.RemoveSuffixes | init.py:74-82 | every object is renamed to its stripped name; exactly the objects whose name changes are renamed |
| PassFacts.DispatchSafe | init.py:56-61 | on distinct root first parents the loop never stops; every subtree still to come, and every skipped one, is untouched and unqueued |
| PassFacts.RuleSeesScene | init.py:56-61 | when its turn comes, a first parent finds its subtree exactly as in the original scene: same objects, same records, same child lists, nothing queued |
| PassFacts.AfterTurn | init.py:56-61 | once a first parent has had its turn, later turns change no record in its subtree, and remove and queue nothing there |
| PassFacts.SkippedUntouched | init.py:56-61 | a first parent with another tag keeps every record of its subtree, and none of it is queued |
| PassFacts.QueuedSubtreesMembers | init.py:63-65 | the drained region is exactly the objects reaching some queued entry |
| PassFacts.DrainExact | init.py:63-65 | the removal loop never stops, and removes exactly the union of the queued entries' subtrees, and nothing else |
| PassFacts.DrainRemovesEntries | init.py:63-65 | every entry of the removal list ends in the removed set and out of the scene |
| RuleOutcomes.DrawableOutcome | init.py:84-108 | children are flattened with the parent's name and the rest is unchanged; the list gains exactly the bound boxes and the children without asset data, then the parent |
| RuleOutcomes.DrawableKidResult | init.py:86-104 | one child is flattened, and it is queued exactly when it is a bound box or lacks asset data |
| RuleOutcomes.KidOutcomeNow | init.py:112-132 | right after its turn, a fragment child ends as its suffix prescribes; in the merge case the merged survivor is not queued |
| RuleOutcomes.MergeNow | init.py:118-124 | merging a `.mesh` child's models keeps the child, leaves only the last model with no parent, the first parent's name and a mark, drops the others without entering the removed set, and queues the child but not the survivor |
| RuleOutcomes.KidOutcomePersists | init.py:112-132 | a child's outcome survives any later steps that leave its subtree settled |
| RuleOutcomes.FragmentKidOutcome | init.py:110-134 | after the whole fragment rule, every child in the snapshot ends as its suffix prescribes, judged from the state the rule started from; a merged survivor is not queued |
| RuleOutcomes.FragmentQueuesLast | init.py:134 | the fragment rule only appends to the list, and the first parent comes last |
| TurnOutcomes.FragmentTurn | init.py:110-134 | after the whole dispatch loop, each child of a fragment first parent ends as its suffix prescribes, judged from the original scene; a merged survivor is not queued |
| TurnOutcomes.DrawableTurn | init.py:84-108 | after the whole dispatch loop, each child of a drawable first parent is flattened, and it is queued exactly when it is a bound box or lacks asset data |
| TurnOutcomes.RuleParentQueued | init.py:108 | every drawable and fragment first parent is on the removal list after dispatch |
| Pass.DispatchCompletes | init.py:56-61 | on a well-formed scene, dispatch runs to the end, and every queued object is in the scene or removed |
| Pass.PassResult | init.py:37-72 | the final scene is the scene after dispatch, minus the subtrees of all queued objects, with every name stripped |
| Pass.Converted | init.py:37-72 | the pass never creates an object: the final scene's objects are among the original ones |
| PassOutcomes.PassFinal | init.py:37-80 | the final scene holds exactly the objects left after dispatch outside the queued subtrees, each with its name stripped |
| PassOutcomes.DrawableChildFinal | init.py:56-108 | after the pass, a child of a drawable first parent is present exactly when it is no bound box and got asset data; it then has no parent, the stripped first-parent name, and an asset mark |
| PassOutcomes.FragmentChildFinal | init.py:56-134 | after the pass, no child of a fragment first parent is present; for a `.mesh` child, the merged survivor is present with no parent, the stripped first-parent name and a mark, and every other model is gone, as is a lone model; a child with another suffix (`.col` included) loses its whole subtree |
| Pass.PassCompletes | init.py:39-72 | on every well-formed scene the pass never stops at the outer handler |
| Pass.Convert | init.py:37-72 | the operator's effect is exactly the final scene of the pass, and it runs to the end |

## Left out

- Undo pushes and `mode_set` (init.py:40-42, 69) are host plumbing with no effect on the objects.
- `select_all` and `select_set` (init.py:23-25, 43) are not modelled. Selection only decides which objects `join` consumes, and `MergeObjects` models that effect directly.
- `asset_generate_preview` is not modelled: it changes no object attribute the pass reads.
- Asset data is modelled as the host's fixed answer, `attachesAsset`, not as an effect of `asset_mark`.
- Blender's unique-name rule is not modelled. Blender appends `.001` to a name that is taken; the model lets names coincide, which is why the final suffix pass exists.
- Geometry is left out. `join` merges mesh data, and here only the object records are modelled.
- `print` in the exception handlers is logging only.
- Exceptions are not modelled as values. A per-object handler is a skip, and the outer handler is the `ok` flag.
- Registration, the operator class and the UI panel (init.py:1-7, 136-168) are not part of this model.
- SceneGraph.Scene.RemoveSubtree: requires that the removed set holds no object still in the scene, which every call in the pass satisfies. It does not model a call made with stale entries.
- A missing `sollum_type` attribute is not modelled. In Python it raises `AttributeError` at init.py:51, and the outer handler then ends the pass; the model gives every object a tag value, with `None` for the empty string.
- The host's child lists are not modelled in their own order. `obj.children` is taken as the scene order filtered by parent, while Blender builds it from the file's objects in an order of its own. That order decides which drawable model is made active last and so survives the join (init.py:24-26, 117); the model always keeps the last model in scene order.
- Parents outside the scene are not modelled. `SceneGraph.Scene.Valid` requires every parent to be an object of the scene, while Blender allows a parent that is linked to another scene only.
- Names.IsDigit: `\d` is the decimal digits of the Unicode 15.0 database (Python 3.12); a Blender build whose Python has another Unicode version matches a slightly different set.
- Forest.ChildrenIn: children outside the scene are not modelled. Blender's `obj.children` lists every object of the file whose parent is `obj`, including one linked only to another scene or unlinked from every collection; the model lists scene objects only. For such a child the source differs in every step: its parent can pass `len(obj.children) > 0` at init.py:51 and become a first parent, the drawable rule flattens it (init.py:86-97), and the parent is then queued and drained.
- SceneGraph.Scene.Children: the same restriction; the method returns the children in the scene only.
- Classify.HasChild: `len(obj.children) > 0` is modelled over children in the scene, so an object whose only children are outside the scene is not a potential parent here, while it is one in the source.
