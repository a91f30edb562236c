# ch0p1n motif engine in Dafny

A model of the motif transformation engine of ch0p1n: the rules by which a
melodic motif is elaborated, varied and checked. The model covers
`ch0p1n/motif.py` and the earlier copies of the same rules in `z.py`,
`vary.py`, `lead.py`, `transpose.py`, `transform.py`, `select.py` and
`elaborate.py`.

A motif is a pitch line paired with a duration line. A pitch line is a
sequence of events:

- `Rest` is Python's `None`.
- `Note(p)` is a single MIDI pitch.
- `Chord(ps)` is a cluster of simultaneous pitches.

A cluster's entries are optional pitches, because `transpose` can turn them
into `None`. Durations are exact `real`s. A position is `Item(i)` or
`InChord(i, j)`, the Python `i` or `(i, j)`. Its field `i` is `_get_i`.

The modules follow the program:

| module | file | what it holds |
|---|---|---|
| `Seqs` | seqs.dfy | `Option`, ascending lists, `list.sort()` (an insertion sort), `list.index()`, exact sums, and the ordered product of `itertools.product` |
| `Structure` | structure.dfy | events, `_extract`, `_replace` (copying and in place), `_access`, `_modify` (copying and in place) |
| `Scale` | scale.dfy | `_reify`, `_move`, `_move2` |
| `Variation` | variation.dfy | `rescale`, `transpose`, `lead` |
| `Checks` | checks.dfy | `_is_complete`, `is_complete`, `_get_directions`, `_get_ordinals`, `_measure`, `_get_steps`, `is_similar` |
| `Editors` | editors.dfy | `elaborate`, `divide`, `fragment` |
| `EditorExamples` | editor_examples.dfy | worked examples of `elaborate` and `divide` |
| `Lines` | lines.dfy | the multi-line motifs of the older modules, with `flatten`, `replace`, `access` and `modify` as line-by-line lifts of the single-line primitives |
| `Z` | z.dfy | `z.py` |
| `Vary` | vary.dfy | `vary.py` |
| `NearestLead` | nearest_lead.dfy | `lead.py` |
| `EarlyTranspose` | early_transpose.dfy | `transpose.py` |
| `Transform` | transform.dfy | `transform.py` |
| `Select` | select.dfy | `select.py` |
| `Embellish` | embellish.dfy | `elaborate.py` |

Where the source changes state, the model changes state too.

- `_move` and `_measure` append to the caller's pitch list and re-sort it. `_reify` sorts the caller's class list in place. That list is a `Scale.PitchList` object here. `ReifyAlong`, `MoveAlong`, `Move2Along`, `MeasureAlong` and `TransposePitchAlong` update it, and each one's `ensures` ties the new contents to a pure specification function.
- `rescale`, `transform`, `is_complete`, the generation loop of `elaborate` and `divide` are loops. They are methods with loop invariants.
- The comprehensions of `transpose` and `lead` thread one shared list through all their moves. They are functions that return the pitches together with the list they leave (`Moved`, `MovedAll`).

The copies in the older modules are modelled once:

- `z._reify`, `vary.expand` and `transpose.expand_scale` are `_reify` (`Scale.Reify`).
- `z._move`, `z._extract`, `z._replace` and `z.transpose` are motif.py's, modelled in `Scale`, `Structure` and `Variation`.

Where a copy behaves differently, the model has its own member and a lemma relating it to motif.py's version:

- `z._move2` tests for an empty step list first.
- `transpose_pitch` keeps the pitch on step 0.
- `vary.move` expands afresh on every call.
- `transform` has its own octave rule.
- `select.is_complete` hears the pitch 0.
- `embellish` expands the scale twice.

`flatten`, `replace`, `modify` and `access` are imported by the older modules from a version of `ch0p1n/motif.py` that is not part of this model. They are modelled as the line-by-line lifts of `_extract`, `_replace`, `_modify` and `_access`. Their rows below cite the primitive each one lifts.

Where the documented intent and the code disagree, the model follows the code. The disagreements are listed under Findings.

## Model

| member | source | states |
|---|---|---|
| Seqs.Sort | ch0p1n/motif.py:30 | `list.sort()` keeps the number of entries |
| Seqs.SortSpec | ch0p1n/motif.py:30 | `list.sort()` returns an ascending permutation of its input |
| Seqs.SortUnique | ch0p1n/motif.py:394 | sorting returns the one ascending list with exactly the given values, so the result depends only on the multiset |
| Seqs.SortAppend | ch0p1n/motif.py:61-62 | appending a pitch and re-sorting is the sorted insertion of the pitch into the sorted list |
| Seqs.SortKeeps | ch0p1n/motif.py:61-62 | sorting keeps every value it was given |
| Seqs.SortAscending | ch0p1n/motif.py:394 | sorting a list that is already ascending leaves it unchanged |
| Seqs.InsertMultiset | ch0p1n/motif.py:61-62 | the sorted insertion adds exactly the one pitch |
| Seqs.InsertAscending | ch0p1n/motif.py:61-62 | the sorted insertion keeps an ascending list ascending |
| Seqs.InsertIndex | ch0p1n/motif.py:61-62 | after the insertion, entries below the insertion point are unchanged, the pitch sits at that point, and the rest shift up by one |
| Seqs.InsertionPointBounds | ch0p1n/motif.py:61-62 | every entry before the insertion point is smaller than the pitch, and the entry at that point is not smaller |
| Seqs.InsertionPointUnique | ch0p1n/motif.py:61-62 | in an ascending list the insertion point is fixed by the values alone |
| Seqs.IndexOf | ch0p1n/motif.py:64 | `list.index` returns an in-range index that holds the pitch |
| Seqs.IndexOfFirst | ch0p1n/motif.py:64 | no earlier index holds the pitch |
| Seqs.IndexOfStrict | ch0p1n/motif.py:64 | in a strictly ascending list, `index(s[i])` is `i` |
| Seqs.IndexOfMonotone | ch0p1n/motif.py:396 | along a strictly ascending list, indices are ordered, and equal, exactly as the pitches they hold |
| Seqs.Repeat | ch0p1n/motif.py:544 | `[x] * n` has `n` entries, each `x` |
| Seqs.SumRepeat | ch0p1n/motif.py:544 | `n` copies of `x` add up to `n * x` |
| Seqs.SumReplace | ch0p1n/motif.py:561-562 | replacing one duration by a list changes the sum by the list's sum minus that duration |
| Seqs.Product | ch0p1n/motif.py:233 | `product()` of no lists is the one empty combination, and in general there are as many combinations as the product of the list lengths |
| Seqs.ProductLength | ch0p1n/motif.py:233 | `product(*lists)` has as many entries as the product of the list lengths |
| Seqs.ProductMembers | ch0p1n/motif.py:233 | the entries of the product are exactly the choices of one element from each list |
| Seqs.ProductEmptyFactor | ch0p1n/motif.py:233 | one empty factor makes the whole product empty |
| Structure.Flat | ch0p1n/motif.py:108-112 | one item contributes `Width` flat pitches: one for a rest or a note, the cluster's size for a cluster |
| Structure.Extract | ch0p1n/motif.py:100-114 | `_extract` yields as many pitches as there are single items plus the total cluster size |
| Structure.ExtractAt | ch0p1n/motif.py:108-112 | item `i`'s pitches sit in the extracted list at that item's offset |
| Structure.ExtractEntry | ch0p1n/motif.py:108-112 | entry `j` of item `i` is the extracted pitch at that item's offset plus `j` |
| Structure.ExtractSplit | ch0p1n/motif.py:108-112 | the extracted list splits around any item: the items before it, its own pitches, then the items after it |
| Structure.Refill | ch0p1n/motif.py:133-138 | an item rebuilt from `Width` pitches keeps its kind and cluster size and holds exactly those pitches |
| Structure.Replace | ch0p1n/motif.py:117-142 | `_replace` returns a line with as many items as the input |
| Structure.ReplaceShape | ch0p1n/motif.py:130-139 | `_replace` keeps the line's shape: single items stay single, and every cluster keeps its length |
| Structure.ReplaceAt | ch0p1n/motif.py:130-139 | item `i` of the refilled line is rebuilt from the entries at its offset, which is where the running index `k` stands |
| Structure.ReplaceOffsets | ch0p1n/motif.py:130-139 | the refilled line has the same size, and item `i` keeps its kind and offset |
| Structure.ReplaceSnoc | ch0p1n/motif.py:132-139 | refilling a line with one more item appends that item's refill from the entries after the shorter line's entries |
| Structure.ReplaceExtract | ch0p1n/motif.py:117-142 | round trip: `_replace(m, _extract(m)) == m` |
| Structure.ExtractReplace | ch0p1n/motif.py:117-142 | the other round trip: a refilled line extracts to the first `Size(m)` pitches it was given |
| Structure.ShapeExtract | ch0p1n/motif.py:100-142 | two lines with the same shape and the same extracted pitches are the same line |
| Structure.ReplaceIs | ch0p1n/motif.py:117-142 | refilling gives the one line that has the input's shape and holds the given pitches |
| Structure.RefillFlat | ch0p1n/motif.py:133-138 | any item of the same kind rebuilds an item from that item's own pitches |
| Structure.ShapeSize | ch0p1n/motif.py:100-114 | lines of one shape have one size |
| Structure.ReplaceInPlace | ch0p1n/motif.py:127-139 | `_replace(in_place=True)` writes the line slot by slot, ending as the copying `_replace` of the old line |
| Structure.Access | ch0p1n/motif.py:278-299 | a position inside a cluster reads a single pitch or a rest; a whole cluster is read only as the item itself |
| Structure.AccessDuration | ch0p1n/motif.py:287-299 | reading a duration line gives one of its durations |
| Structure.AccessExtract | ch0p1n/motif.py:287-299 | `_access` reads the extracted pitch at the item's offset, plus `j` for an entry of a cluster |
| Structure.Modify | ch0p1n/motif.py:254-275 | after `_modify` the position reads the written value and every other item is unchanged; writing a cluster entry keeps the shape and every other entry of that cluster |
| Structure.ModifyInPlace | ch0p1n/motif.py:265-272 | `_modify(in_place=True)` leaves the line as the copying `_modify` of the old line |
| Structure.StructureExamples | test/test_motif.py:46-111 | the test examples of `_extract`, `_replace` and `_access` on a pitch line and on a duration line |
| Scale.Shift | ch0p1n/motif.py:32-36 | one octave of the reified scale is each class raised by `d` |
| Scale.Octaves | ch0p1n/motif.py:32-36 | `n` octaves of `|cs|` classes make `n * |cs|` pitches |
| Scale.OctavesAt | ch0p1n/motif.py:32-36 | entry `o * |cs| + k` is class `k` raised by `o` octaves |
| Scale.ShiftMembers | ch0p1n/motif.py:32-36 | a pitch is in octave `o` exactly when it lies in that octave's range and its class is listed |
| Scale.OctavesMembers | ch0p1n/motif.py:32-36 | a pitch is among `n` octaves exactly when it lies in `0 .. 12n - 1` and its class is listed |
| Scale.OctavesAscending | ch0p1n/motif.py:32-36 | octaves of ascending classes ascend, and strictly when the classes do |
| Scale.SortStrict | ch0p1n/motif.py:30 | sorting classes with no repeats gives a strictly ascending list |
| Scale.Reify | ch0p1n/motif.py:24-38 | `_reify` gives eleven pitches per class |
| Scale.ReifySpec | ch0p1n/motif.py:24-38 | `_reify` gives `11 * |classes|` pitches, exactly those in `0 .. 131` whose class is listed, ascending, and strictly ascending when no class repeats |
| Scale.ReifyPermutation | ch0p1n/motif.py:30 | the order of the classes does not matter: the same multiset gives the same pitches |
| Scale.ReifyAt | ch0p1n/motif.py:32-36 | entry `o * |classes| + k` is the `k`-th smallest class plus `12 * o` |
| Scale.PitchList.constructor | ch0p1n/motif.py:43 | a pitch list holding the given pitches |
| Scale.ReifyAlong | ch0p1n/z.py:22-36 | `_reify` (also `z._reify`, `vary.expand`, `transpose.expand_scale`) sorts the caller's class list in place and returns a fresh list of the reified pitches |
| Scale.Placed | ch0p1n/motif.py:55-62 | once an off-scale pitch is placed, the list holds it |
| Scale.PlacedSpec | ch0p1n/motif.py:55-62 | placing a pitch adds that pitch and nothing else; an on-scale pitch leaves the list unchanged, an off-scale pitch leaves it sorted with exactly one more entry; placing is idempotent |
| Scale.PlacedInsert | ch0p1n/motif.py:61-62 | on an ascending list, placing an absent pitch is a sorted insertion |
| Scale.Move | ch0p1n/motif.py:41-69 | `_move` returns no pitch exactly when the pitch or the step is missing, or when an off-scale pitch has step 0; the list changes only when an off-scale pitch is moved, and then it is the list with that pitch placed |
| Scale.MoveSpec | ch0p1n/motif.py:55-67 | after `_move` the caller's list holds the pitch and its target; moving an off-scale pitch adds exactly that pitch and leaves the list sorted |
| Scale.MoveAlong | ch0p1n/motif.py:41-69 | `_move` on the caller's list: the result and the list's new contents are those of `Move` on the old contents |
| Scale.MoveOnScale | ch0p1n/motif.py:64-67 | on a strictly ascending list, an on-scale pitch moved by `k` lands exactly `k` entries away and the list is unchanged |
| Scale.MoveBetween | ch0p1n/motif.py:64-67 | any pitch on a strictly ascending list reaches any other by the difference of their indices |
| Scale.MoveRoundTrip | ch0p1n/motif.py:55-67 | moving an on-scale pitch by `k` and then by `-k` returns it and leaves the list unchanged |
| Scale.InsertStrict | ch0p1n/motif.py:61-64 | inserting an absent pitch keeps the list strictly ascending, with the pitch at its insertion point |
| Scale.MoveOffScale | ch0p1n/motif.py:55-67 | an off-scale pitch moved by `k != 0` reaches the `k`-th scale pitch above it or the `|k|`-th below it, exactly when that pitch exists; the list becomes the sorted insertion of the pitch |
| Scale.MoveIs | ch0p1n/motif.py:55-67 | a pitch placed at index `c` moves to entry `c + k` of the placed list |
| Scale.InsertAround | ch0p1n/motif.py:61-67 | around the insertion point, the list with the pitch inserted holds the old entries, shifted by one above the pitch |
| Scale.MoveExamples | test/test_motif.py:16-36 | on `_reify([11])`, 60 moves to 59 by -1 and to 71 by +1, gives `None` by 0, and `None` stays `None` |
| Scale.ReifyExample11 | test/test_motif.py:18 | `_reify([11])` is 11 pitches, strictly ascending, without 60, with 59 and 71 on either side of where 60 goes |
| Scale.ReifySingle | ch0p1n/motif.py:32-36 | a single reified class `c` is the eleven pitches `c + 12 * o`, ascending |
| Scale.MoveSteps | ch0p1n/motif.py:93 | the comprehension of `_move2` yields one pitch per step, and its list is either the input list or the input list with the pitch placed |
| Scale.NonZero | ch0p1n/motif.py:86 | dropping zero steps keeps exactly the nonzero steps |
| Scale.NonZeroUnchanged | ch0p1n/motif.py:85-86 | without a zero step, nothing is dropped |
| Scale.Move2 | ch0p1n/motif.py:72-94 | `_move2` returns `[None]` for a missing pitch, one result per step for an on-scale pitch with the list unchanged, and one result per nonzero step for an off-scale pitch |
| Scale.Move2Along | ch0p1n/motif.py:72-94 | `_move2` on the caller's list: the results and the new contents are those of `Move2` |
| Scale.InRangeNext | ch0p1n/motif.py:93 | the steps up to `k + 1` stay in range, and the last of them can move from the placed list |
| Scale.MoveStepsNext | ch0p1n/motif.py:93 | one more step of the comprehension moves the pitch along the list the earlier steps left |
| Scale.MoveLast | ch0p1n/motif.py:55-67 | the last move of a run starts from the pitch's place on the placed list |
| Scale.InRangeInit | ch0p1n/motif.py:93 | dropping the last step keeps the steps in range, and keeps the zero step out if it was out |
| Scale.MoveStepsSnoc | ch0p1n/motif.py:93 | one more step appends its move, which is taken from the pitch's place on the placed list |
| Scale.MoveStepsSpec | ch0p1n/motif.py:93 | every step moves the pitch from its place on the placed list, so the moves of one call never disturb each other |
| Scale.MoveStepsAt | ch0p1n/motif.py:93 | move `k` is the target of step `k` from the pitch's place |
| Scale.MoveStepsScale | ch0p1n/motif.py:93 | the list ends up holding the pitch exactly when some step was a number |
| Scale.AnyNumberSnoc | ch0p1n/motif.py:93 | some step is a number exactly when one of the earlier steps is, or the last one is |
| Scale.Move2Spec | ch0p1n/motif.py:82-94 | `_move2` gives one result per kept step, in step order, each the target of its step from the pitch's place |
| Scale.NeighboursInRange | ch0p1n/motif.py:214 | the default steps `[-1, 0, 1]` stay on the list for an off-scale pitch with a neighbour on each side, reaching those neighbours |
| Scale.Move2Neighbours | ch0p1n/motif.py:85-94 | an off-scale pitch moved by `[-1, 0, 1]` yields its two neighbours on the scale, lower first |
| Scale.Move2Pair | ch0p1n/motif.py:93 | when two steps are kept, `_move2` yields their two targets in order |
| Scale.Move2Example | test/test_motif.py:39-43 | `_move2(60, _reify([11]), [-1, 0, 1]) == [59, 71]` |
| Variation.Remap | ch0p1n/motif.py:160-182 | `rescale` maps `None` to `None` and a pitch to a pitch, and a pitch whose class is a key gets the class it is mapped to |
| Variation.RemapKeeps | ch0p1n/motif.py:160-168 | `rescale` leaves a `None` and a pitch whose class is not a key unchanged |
| Variation.RemapNearest | ch0p1n/motif.py:164-182 | a mapped pitch lands on the mapped class, at most six semitones away, and no pitch of that class is nearer |
| Variation.OctaveFarther | ch0p1n/motif.py:175-180 | a distance of at most six semitones only grows when the pitch moves by whole octaves |
| Variation.RemapAll | ch0p1n/motif.py:160-182 | the loop remaps every flat pitch and keeps the list's length |
| Variation.Rescale | ch0p1n/motif.py:148-185 | `rescale` keeps the line's shape, and its flat pitch `k` is input pitch `k` remapped |
| Variation.RescaleExample | test/test_motif.py:63-69 | `[60, [59, 61], None]` under `{0: 11, 11: 0, 1: 10}` becomes `[59, [60, 58], None]` |
| Variation.ExampleRemap | test/test_motif.py:63-69 | the flat pitches of that example remap to 59, 60, 58 and `None` |
| Variation.MoveAll | ch0p1n/motif.py:202-205 | the comprehension of `transpose` yields one pitch per flat pitch when no move runs off the list |
| Variation.Transpose | ch0p1n/motif.py:188-208 | `transpose` keeps the line's shape |
| Variation.TransposeFresh | ch0p1n/motif.py:188-208 | corrected, `transpose` keeps the line's shape |
| Variation.TransposeShape | ch0p1n/motif.py:188-208 | `transpose` keeps the line's shape, and its flat pitches are the moved ones |
| Variation.MoveAllZero | ch0p1n/motif.py:202-205 | `transpose` by 0 never leaves the list and never changes it: an on-scale pitch stays, and a rest or an off-scale pitch becomes `None` |
| Variation.MoveGrows | ch0p1n/motif.py:55-62 | one move keeps a strictly ascending list strictly ascending, keeps every entry, and adds at most the moved pitch |
| Variation.MoveAllScale | ch0p1n/motif.py:199-205 | after `transpose` the shared list is still strictly ascending, keeps every pitch it had, and holds only scale pitches and motif pitches |
| Variation.MoveAllHolds | ch0p1n/motif.py:199-205 | after `transpose` the shared list holds every pitch that was moved and its target |
| Variation.MoveAllHoldsLast | ch0p1n/motif.py:199-205 | the last pitch moved, and its target, are on the list the run leaves |
| Variation.MoveAllHoldsInit | ch0p1n/motif.py:199-205 | an earlier pitch and its target stay on the list through the later moves |
| Variation.MoveKeeps | ch0p1n/motif.py:61-62 | a move keeps every entry of the list it moves along |
| Variation.MoveAllSnoc | ch0p1n/motif.py:202-205 | a successful run is the run on all but the last pitch, then the last pitch's move along the list that run left |
| Variation.MoveAllStep | ch0p1n/motif.py:202-205 | one more pitch appends its move along the list the earlier moves left |
| Variation.Between | ch0p1n/motif.py:55-62 | a pitch strictly between two neighbouring entries is off the list and would be inserted between them |
| Variation.StepUpOff | ch0p1n/motif.py:55-67 | an off-scale pitch moved up one step reaches the next entry above it, and is inserted into the list |
| Variation.InsertBetween | ch0p1n/motif.py:61-62 | inserting between neighbours keeps the list strictly ascending and shifts only the entries above |
| Variation.RunTwo | ch0p1n/motif.py:202-205 | around the entries 60, 62 and 64, 61 moves to 62 and stays on the list, and 62 then steps over it to 64 |
| Variation.MoveAllRun | ch0p1n/motif.py:202-205 | around 60, 62 and 64, one step up moves 61, 62, 63 and a rest to 62, 64, 64 and a rest |
| Variation.CMajor | test/test_motif.py:86-90 | reified C major is strictly ascending, has 77 pitches, and holds 59, 60, 62 and 64 at indices 34 to 37 |
| Variation.TransposeIs | ch0p1n/motif.py:199-208 | a motif transposes to the one motif with its shape that holds the moved pitches |
| Variation.ExampleMoves | test/test_motif.py:86-90 | on C major, the flat pitches 61, 62, 63 and a rest, moved up one step, are 62, 64, 64 and a rest |
| Variation.TransposeExample | test/test_motif.py:86-90 | on C major, `[61, [62, 63], None]` transposed up one step is `[62, [64, 64], None]` |
| Variation.ZeroMoves | test/test_motif.py:76-79 | on `[0, 4]`, the flat pitches 61, 62, 63 and a rest, moved by 0, all become `None` |
| Variation.ZeroOff | test/test_motif.py:77 | 61, 62 and 63 are not pitches of the classes `[0, 4]` |
| Variation.TransposeZeroExample | test/test_motif.py:76-79 | on `[0, 4]`, `[61, [62, 63], None]` transposed by 0 is `[None, [None, None], None]` |
| Variation.LeakMoves | ch0p1n/motif.py:202-205 | below an entry 62 whose lower neighbour is 60, moving 61 and then 60 up one step gives 62 and then the inserted 61 |
| Variation.TransposeLeak | ch0p1n/motif.py:199-205 | as written, on C major `[61, 60]` transposed up one step is `[62, 61]`, and 61 is not a C major pitch |
| Variation.MoveFresh | ch0p1n/motif.py:202-205 | the corrected comprehension moves every pitch along the original list, and yields one pitch per flat pitch |
| Variation.FreshOnScale | ch0p1n/motif.py:202-205 | moved along the scale itself, every pitch produced is a scale pitch |
| Variation.OneOnScale | ch0p1n/motif.py:64-67 | one move along a strictly ascending list lands on the list |
| Variation.TransposeFreshIs | ch0p1n/motif.py:199-208 | the corrected `transpose` gives the one motif with the input's shape that holds the freshly moved pitches |
| Variation.FreshMoves | ch0p1n/motif.py:202-205 | moved along the list itself, 61 and 60 both land on 62 |
| Variation.MoveFreshPair | ch0p1n/motif.py:202-205 | two pitches moved along the same list, each on its own |
| Variation.FreshExampleMovable | ch0p1n/motif.py:202-205 | on C major, 61 and 60 can each be moved up one step along the scale itself |
| Variation.TransposeFreshExample | ch0p1n/motif.py:199-208 | corrected, C major `[61, 60]` up one step is `[62, 62]` |
| Variation.Move2All | ch0p1n/motif.py:227-230 | the comprehension of `lead` yields one candidate list per flat pitch |
| Variation.CompleteOnly | ch0p1n/motif.py:235-239 | the `complete` filter keeps exactly the combinations that sound every class of the harmony, in order |
| Variation.Lead | ch0p1n/motif.py:211-248 | `lead` returns one motif per kept combination |
| Variation.LeadSpec | ch0p1n/motif.py:233-246 | every motif `lead` returns has the input's shape, its flat pitches are one choice of candidate per flat pitch, and with `complete` they sound every class of the harmony |
| Variation.LeadMembers | ch0p1n/motif.py:233-246 | every choice of candidates (that sounds the whole harmony, with `complete`) gives one of the motifs `lead` returns |
| Variation.LeadCount | ch0p1n/motif.py:233-246 | without the filter, `lead` returns as many motifs as the product of the candidate counts |
| Variation.LeadNone | ch0p1n/motif.py:227-233 | a flat pitch with no candidate leaves `lead` with no motif |
| Variation.Move2AllOnScale | ch0p1n/motif.py:224-230 | when every pitch is a rest or on the scale and every step stays on it, the shared list never changes, and each pitch's candidates are its `_move2` on the scale |
| Variation.Move2Around | ch0p1n/motif.py:72-94 | an on-scale pitch led by `[-1, 0, 1]` is offered the scale pitch below, itself and the one above, and the list is left as it was |
| Variation.Move2Inserts | ch0p1n/motif.py:72-94 | an off-scale pitch between two scale pitches, led by `[-1, 0, 1]`, is offered those two neighbours and is inserted into the list |
| Variation.Move2Places | ch0p1n/motif.py:72-94 | an off-scale pitch that is offered some pitch first leaves the list with that pitch placed on it |
| Variation.Move2AllStep | ch0p1n/motif.py:226-229 | one more flat pitch adds its candidates, taken along the list the earlier pitches have left |
| Variation.Move2AllPair | ch0p1n/motif.py:226-229 | for two flat pitches, the second's candidates are taken along the list the first has left |
| Variation.LeakCandidates | ch0p1n/motif.py:226-229 | around scale pitches 59, 60 and 62, `[61, 60]` by `[-1, 0, 1]` is offered `[60, 62]` and then `[59, 60, 61]` |
| Variation.LeadLeakCandidates | ch0p1n/motif.py:222-229 | as written, on C major `[61, 60]` by `[-1, 0, 1]` is offered `[60, 62]` and then `[59, 60, 61]`, and 61 is not a C major pitch |
| Variation.LeadLeak | ch0p1n/motif.py:211-248 | as written, one of the motifs `lead` returns for `[61, 60]` on C major, without the completeness filter, is `[62, 61]` |
| Variation.LeakChoice | ch0p1n/motif.py:222-233 | as written, picking 62 for the 61 and 61 for the 60 of `[61, 60]` on C major is one choice of `lead`'s candidates |
| Variation.LeadHas | ch0p1n/motif.py:233-246 | a motif of the input's shape whose flat pitches are one choice of candidates is among those `lead` returns |
| Variation.Move2Fresh | ch0p1n/motif.py:226-229 | corrected, one candidate list per flat pitch, each taken along the scale itself |
| Variation.LeadFresh | ch0p1n/motif.py:211-248 | corrected, `lead` returns one motif per kept combination of the fresh candidates |
| Variation.Move2Offers | ch0p1n/motif.py:72-94 | along a strictly ascending scale, every pitch `_move2` offers is a scale pitch, for on-scale and off-scale pitches alike |
| Variation.Move2FreshOnScale | ch0p1n/motif.py:226-229 | corrected, every candidate of every flat pitch is a scale pitch |
| Variation.LeadFreshOnScale | ch0p1n/motif.py:211-248 | corrected, every motif `lead` returns has the input's shape and holds only rests and pitches whose class is in the harmony |
| Variation.FreshCandidates | ch0p1n/motif.py:226-229 | corrected, around scale pitches 59, 60 and 62, 61 is offered `[60, 62]` and 60 is offered `[59, 60, 62]` |
| Variation.Move2FreshPair | ch0p1n/motif.py:226-229 | corrected, two flat pitches are each offered their candidates along the same list |
| Variation.LeadFreshExample | ch0p1n/motif.py:222-229 | corrected, on C major `[61, 60]` by `[-1, 0, 1]` is offered `[60, 62]` and then `[59, 60, 62]` |
| Variation.LeakMovesCMajor | ch0p1n/motif.py:199-205 | as written, on C major 61 then 60 moved up one step along the shared list reach 62 and then 61, and 61 is not a C major pitch |
| Checks.SoundingSpec | ch0p1n/motif.py:315 | a class is heard exactly when some nonzero pitch of that class is present, so neither `None` nor the pitch 0 counts |
| Checks.Sounding | ch0p1n/motif.py:314-315 | every class `_is_complete` hears is in `0 .. 11`, Python's `%` never being negative here |
| Checks.IsCompleteFlat | ch0p1n/motif.py:305-320 | an empty harmony is always complete, and a harmony naming anything outside `0 .. 11` never is |
| Checks.SoundingSubset | ch0p1n/motif.py:315 | fewer pitches are heard as fewer classes |
| Checks.Excluded | ch0p1n/motif.py:337-338 | blanking the excluded positions keeps the line's length |
| Checks.ExcludedPrefix | ch0p1n/motif.py:337-338 | each further exclusion is one more `_modify` writing `None` |
| Checks.IsComplete | ch0p1n/motif.py:323-342 | `is_complete` is `_is_complete` of the line with every excluded position blanked, in order |
| Checks.ExtractHas | ch0p1n/motif.py:100-114 | a value in the extracted pitches comes from one of the items |
| Checks.BlankKeepsPitches | ch0p1n/motif.py:338 | blanking a position leaves no pitch that was not there before |
| Checks.ExcludeShrinks | ch0p1n/motif.py:337-341 | each further exclusion can only shrink the set of classes heard |
| Checks.ExcludeMonotone | ch0p1n/motif.py:323-342 | adding exclusions never turns an incomplete line into a complete one |
| Checks.IsCompleteExamples | test/test_motif.py:114-127 | `[60, None, 62, [64, 67]]` completes `{0, 4, 7}`, but not with `(3, 0)` excluded |
| Checks.ExampleWhole | test/test_motif.py:121-123 | `[60, None, 62, [64, 67]]` sounds the classes 0, 4 and 7 |
| Checks.ExampleCut | test/test_motif.py:125-127 | excluding `(3, 0)` blanks the 64 and nothing else |
| Checks.ExampleMissing | test/test_motif.py:125-127 | without the 64, the class 4 is not heard |
| Checks.Directions | ch0p1n/motif.py:348-366 | there is one direction per adjacent pair |
| Checks.DirectionsSpec | ch0p1n/motif.py:356-364 | direction `i` is 1, -1 or 0 as the next pitch is higher, lower or the same |
| Checks.GetDirections | ch0p1n/motif.py:348-366 | the loop appending one direction per pair computes `Directions` |
| Checks.DedupSpec | ch0p1n/motif.py:375 | `set(pitches)` holds each pitch once, and nothing else |
| Checks.Ranking | ch0p1n/motif.py:375 | `sorted(set(pitches))` holds every pitch |
| Checks.RankingStrict | ch0p1n/motif.py:375 | `sorted(set(pitches))` is strictly ascending |
| Checks.Ordinals | ch0p1n/motif.py:369-377 | there is one ordinal per pitch |
| Checks.OrdinalsOrder | ch0p1n/motif.py:369-377 | ordinals are ordered, and equal, exactly as the pitches they rank |
| Checks.OrdinalsDirections | ch0p1n/motif.py:348-377 | lines with equal ordinals have equal directions |
| Checks.Measure | ch0p1n/motif.py:380-397 | after `_measure` the list holds both pitches |
| Checks.MeasureAlong | ch0p1n/motif.py:380-397 | `_measure` on the caller's list: the step and the new contents are those of `Measure` |
| Checks.MeasureOnScale | ch0p1n/motif.py:390-396 | on a strictly ascending list holding both pitches, `_measure` leaves the list unchanged and returns the difference of their indices |
| Checks.MeasureMove | ch0p1n/motif.py:380-397 | measuring inverts moving: `_move` by the measured step takes the start to the end |
| Checks.MeasureSorted | ch0p1n/motif.py:390-396 | when the extended list sorts to a strictly ascending list, the measure is the distance between the two pitches' places in it |
| Checks.Steps | ch0p1n/motif.py:400-414 | `_get_steps` gives one measure per adjacent pair |
| Checks.Intervals | ch0p1n/motif.py:409-412 | there is one scale interval per adjacent pair |
| Checks.IntervalsAt | ch0p1n/motif.py:409-412 | interval `i` is how many scale entries pitch `i + 1` lies above pitch `i` |
| Checks.IntervalsLast | ch0p1n/motif.py:409-412 | the last interval splits off the end |
| Checks.StepsLast | ch0p1n/motif.py:409-412 | the last measure is taken along the list the earlier measures left |
| Checks.StepsOnScale | ch0p1n/motif.py:400-414 | on a strictly ascending list holding every pitch, the steps are the scale intervals and the list is unchanged |
| Checks.Highest | ch0p1n/motif.py:434 | `max(item)` is an entry of the cluster, and no entry is higher |
| Checks.Tops | ch0p1n/motif.py:432-437 | `_get_contour` reads at most one pitch per item |
| Checks.Contour | ch0p1n/motif.py:429-445 | directions and ordinals leave the pitch list as it was; there is one ordinal per pitch, and one direction or one step per adjacent pair |
| Checks.Top | ch0p1n/motif.py:434-436 | one item gives at most one pitch: its highest, or nothing when it is falsy |
| Checks.IsSimilar | ch0p1n/motif.py:417-453 | by direction or by ordinal, `is_similar` as written gives the corrected answer, and every motif is similar to itself |
| Checks.IsSimilarFresh | ch0p1n/motif.py:417-453 | corrected, every motif is similar to itself, by any of the three methods |
| Checks.IsSimilarAgrees | ch0p1n/motif.py:440-443 | directions and ordinals do not touch the list, so the as-written and the corrected `is_similar` agree on them |
| Checks.IsSimilarFreshSteps | ch0p1n/motif.py:444-452 | corrected, every motif is similar to itself by steps; on a reified scale holding the top pitches, two motifs are similar by steps exactly when their top pitches move by the same scale distances |
| Checks.IsSimilarStepsOnScale | ch0p1n/motif.py:444-452 | as written, when the reified scale already holds every top pitch of both lines, two motifs are similar by steps exactly when their top pitches move by the same scale distances, as in the corrected comparison |
| Checks.TopsLine | ch0p1n/motif.py:432-437 | the pitches read from a three-item line are those of its three items |
| Checks.IsSimilarExamples | test/test_motif.py:130-140 | `[60, 50, [70, 40]]` and `[60, 50, [40, 60]]` are similar by direction but not by ordinal |
| Checks.TopsExamples | test/test_motif.py:130-132 | those two lines read as `[60, 50, 70]` and `[60, 50, 60]` |
| Checks.StepsTwo | ch0p1n/motif.py:409-412 | on two pitches, `_get_steps` is one measure |
| Checks.StepsThree | ch0p1n/motif.py:409-412 | on three pitches it is two measures, the second along the list the first left |
| Checks.MeasureFirst | ch0p1n/motif.py:390-396 | measuring 60 to 64 on an empty list gives 1 and leaves `[60, 64]` |
| Checks.MeasureSecond | ch0p1n/motif.py:390-396 | measuring 64 down to 62 on `[60, 64]` gives -1 and inserts the 62 |
| Checks.MeasureThird | ch0p1n/motif.py:390-396 | measuring 60 to 64 on `[60, 62, 64]` gives 2 |
| Checks.IsSimilarStepsNotReflexive | ch0p1n/motif.py:444-452 | as written, `[60, 64, 62]` is not similar to itself by steps with no scale |
| Checks.TopsExample | ch0p1n/motif.py:432-437 | `[60, 64, 62]` reads as `[60, 64, 62]` |
| Checks.StepsExample | ch0p1n/motif.py:400-414 | starting from no list, the steps of `[60, 64, 62]` are `[1, -1]`, leaving `[60, 62, 64]` |
| Checks.StepsExampleAgain | ch0p1n/motif.py:400-414 | along `[60, 62, 64]`, the steps of the same pitches start with 2 |
| Editors.MoveEvent | ch0p1n/motif.py:514-517 | a nonzero step keeps the item's kind and cluster size, and a rest stays a rest |
| Editors.Generated | ch0p1n/motif.py:504-522 | `elaborate` generates one item per step |
| Editors.GeneratedWalk | ch0p1n/motif.py:504-522 | from a pitch on the scale, item `k` is a rest for a `None` step and otherwise the scale entry as far from the reference as the steps so far (relative) or step `k` alone (absolute) |
| Editors.WalkCons | ch0p1n/motif.py:504-522 | the walk is its first item followed by the walk from the next reference |
| Editors.ReachFirst | ch0p1n/motif.py:504-522 | the first item lies one step away |
| Editors.ReachTail | ch0p1n/motif.py:521-522 | later items lie as far as the first step (when relative) plus their own place among the remaining steps |
| Editors.GeneratedFirst | ch0p1n/motif.py:504-522 | the first step from a scale entry lands `Distance` entries away |
| Editors.Reversed | ch0p1n/motif.py:526 | `pitches.reverse()` mirrors the list |
| Editors.Spliced | ch0p1n/motif.py:525-529 | the new items go before the reference item (reversed) or after it, and taking them out gives the original line back |
| Editors.Negated | ch0p1n/motif.py:491-492 | a given duration becomes non-positive and keeps its size |
| Editors.ReferenceDuration | ch0p1n/motif.py:534-540 | the shared time is the reference item's for 'left' and 'right', the neighbour's for 'previous' and 'next' when there is one, and otherwise the caller's |
| Editors.NewDurations | ch0p1n/motif.py:543-548 | there is one duration for the reference and one per new item |
| Editors.PortionsSum | ch0p1n/motif.py:544 | `n` equal parts of a time add up to it |
| Editors.Shares | ch0p1n/motif.py:546-548 | `n` shares and what is kept after or before them add up to their sum |
| Editors.NewDurationsSum | ch0p1n/motif.py:543-548 | the new durations add up to the time they share |
| Editors.Take | ch0p1n/motif.py:527-529 | `s[:j]` clamps the end to the length |
| Editors.Drop | ch0p1n/motif.py:527-529 | `s[j:]` is empty past the end |
| Editors.Slice | ch0p1n/motif.py:628-629 | `s[a:b]` is the slice when it is in range |
| Editors.Generate | ch0p1n/motif.py:500-522 | the loop generating items, reifying the classes at the first real move, yields `Generated` |
| Editors.Elaborate | ch0p1n/motif.py:471-564 | `elaborate` returns `Elaborated`: the generated items spliced into the pitch line and their durations spliced into the duration line |
| Editors.ElaboratedIs | ch0p1n/motif.py:524-562 | once the generated items are known, the result is the spliced pitch line with the retimed duration line |
| Editors.Elaborated | ch0p1n/motif.py:471-562 | `elaborate` adds one pitch item per step, and taking the new items out of the pitch line gives the motif back |
| Editors.Retimed | ch0p1n/motif.py:550-562 | for a reference inside the line, the duration line grows by one less than the number of new durations |
| Editors.ElaborateAligned | ch0p1n/motif.py:524-562 | `elaborate` adds `len(steps)` items to each line, so aligned lines stay aligned |
| Editors.RetimedLength | ch0p1n/motif.py:550-562 | away from the edges the new durations replace one duration, and at the edges all but one of them are added |
| Editors.ElaborateTotal | ch0p1n/motif.py:533-562 | for 'left', 'right', and an inner 'previous' or 'next', `elaborate` keeps the motif's total duration |
| Editors.RetimedTotal | ch0p1n/motif.py:555-562 | replacing the timed duration by durations that add up to it keeps the total |
| Editors.Divide | ch0p1n/motif.py:570-612 | the loop of `divide` computes `Divided` with part length `total / n` |
| Editors.DivideStep | ch0p1n/motif.py:588-608 | one item closes at most one part, and parts already closed are never changed |
| Editors.Divided | ch0p1n/motif.py:570-610 | after `k` items `divide` has closed at most `k` parts |
| Editors.DivideStepKept | ch0p1n/motif.py:588-610 | with a positive duration no longer than the part length, every closed part lasts exactly that length, the open part lasts less, each part has a pitch per duration, and everything adds up to the time so far |
| Editors.ClosedPart | ch0p1n/motif.py:596-598 | closing a part of full length adds one part and that length to the closed time |
| Editors.DividedParts | ch0p1n/motif.py:588-610 | `divide` keeps that invariant from the first item to the last |
| Editors.DividedEmpty | ch0p1n/motif.py:581 | a nonempty duration line that is divisible by `l` has `l > 0` |
| Editors.DivideCount | ch0p1n/motif.py:570-612 | with positive durations none longer than `total / n`, `divide` returns exactly `n` parts, each lasting `total / n`, with a pitch per duration |
| Editors.PartsCount | ch0p1n/motif.py:588-610 | with `n` parts' worth of time, exactly `n` parts are closed |
| Editors.WholeParts | ch0p1n/motif.py:588-610 | `p` whole parts plus less than one more make `n` parts' worth only when `p == n` |
| Editors.Multiples | ch0p1n/motif.py:588-610 | a nonzero whole multiple of a positive length is at least that length away from zero |
| Editors.Fragment | ch0p1n/motif.py:615-642 | with a ratio and `fit` naming an end, the fragment has one duration per sliced item and lasts `ratio` of the whole duration line; with any other `fit` its durations are the slice |
| Editors.FragmentSpec | ch0p1n/motif.py:615-642 | a fragment holds items `start..end` of both lines; with a ratio and `fit` naming an end it lasts `ratio` of the whole motif and differs from the slice only at that end; without a ratio, or with a `fit` other than `'left'` and `'right'`, it is the slice |
| Editors.StretchedSpec | ch0p1n/motif.py:637-640 | the stretched list adds up to the target and differs from the slice at the fitted entry only |
| EditorExamples.ExampleScale | ch0p1n/motif.py:24-38 | on the classes `[0, 1, 4, 5, 7, 8, 10]`, 80 is entry 47 of the reified list, and 76, 77 and 79 lie just below it |
| EditorExamples.ExampleSorted | ch0p1n/motif.py:30 | those classes are already sorted |
| EditorExamples.ExampleOctave | ch0p1n/motif.py:32-36 | entries 44 to 47 of eleven octaves of those classes are 76, 77, 79 and 80 |
| EditorExamples.ExampleItems | ch0p1n/motif.py:504-522 | from 80, three relative steps down reach 79, 77 and 76 |
| EditorExamples.ElaborateExample | ch0p1n/motif.py:471-564 | `[80, 77, None]` timed `[2, 1, 1]`, with three relative steps down from item 0, to the right, ratio 1/4, gives `[80, 79, 77, 76, 77, None]` timed `[3/2, 1/6, 1/6, 1/6, 1, 1]` |
| EditorExamples.ExamplePitches | ch0p1n/motif.py:528-529 | the generated items go after the reference item |
| EditorExamples.ExampleDurations | ch0p1n/motif.py:546-562 | the reference keeps 3/2 and the three new items share 1/2 |
| EditorExamples.DivideExample | ch0p1n/motif.py:570-612 | `[60, 61, 62]` timed `[2, 2, 2]` in two parts gives `[60, 61]` timed `[2, 1]` and `[61, 62]` timed `[1, 2]` |
| Lines.Flatten | ch0p1n/motif.py:100-114 | `flatten` yields as many pitches as the motif holds |
| Lines.ReplaceLines | ch0p1n/motif.py:117-142 | `replace` returns as many lines as the motif has |
| Lines.ReplaceLinesShape | ch0p1n/motif.py:130-139 | `replace` keeps every line's shape |
| Lines.ReplaceFlatten | ch0p1n/motif.py:117-142 | round trip: `replace(m, flatten(m)) == m` |
| Lines.FlattenReplace | ch0p1n/motif.py:117-142 | a refilled motif flattens to the first `Count(m)` pitches it was given |
| Lines.ReplaceLinesSpec | ch0p1n/motif.py:117-142 | refilling with exactly as many pitches as the motif holds keeps the line shapes and flattens to those pitches |
| Lines.ShapeFlatten | ch0p1n/motif.py:100-142 | two motifs with the same line shapes and the same flat pitches are the same motif |
| Lines.ShapesAgree | ch0p1n/motif.py:100-142 | two motifs with a third motif's line shapes and the same flat pitches are the same |
| Lines.ReplaceLinesIs | ch0p1n/motif.py:117-142 | refilling gives the one motif with the input's line shapes that holds the given pitches |
| Lines.AccessFlatten | ch0p1n/motif.py:287-299 | `access` reads the flat pitch at the line's start, plus the item's start, plus the cluster entry |
| Lines.FlattenEntry | ch0p1n/motif.py:108-112 | entry `k` of line `l` sits at the line's start plus `k` in the flat list |
| Lines.FlattenAt | ch0p1n/motif.py:108-112 | the flat list is the lines before `l`, then line `l`, then the rest |
| Lines.ModifyAt | ch0p1n/motif.py:254-275 | after `modify` the position reads the written value; every other line, every other item of that line, and every other entry of a cluster written into, is unchanged |
| Lines.PitchOf | ch0p1n/motif.py:287-299 | the pitch a single item stands for turns back into that item |
| Lines.ModifyAccess | ch0p1n/motif.py:254-299 | writing back what a position reads changes nothing |
| Z.Somes | ch0p1n/z.py:42 | z.py's plain steps are motif.py's optional steps, entry for entry |
| Z.Nonzero | ch0p1n/z.py:86 | dropping zero steps keeps exactly the nonzero steps |
| Z.NonzeroSomes | ch0p1n/z.py:85-86 | dropping zero steps commutes with seeing the steps as optional |
| Z.KeptZ | ch0p1n/z.py:85-86 | z.py's `_move2` keeps only steps it was given |
| Z.KeptInRange | ch0p1n/z.py:85-88 | the kept steps stay in range when every step does |
| Z.Move2Z | ch0p1n/z.py:69-89 | z.py's `_move2` gives `[None]` for a missing pitch and leaves the list alone; for a pitch, the list ends up as it was or with that pitch placed, and there is one pitch per step when the pitch is on the list or no step is 0 |
| Z.Move2ZAgrees | ch0p1n/z.py:69-89 | z.py's `_move2`, which tests for no steps before dropping zeros, equals motif.py's `_move2` |
| Vary.MoveClasses | ch0p1n/vary.py:30-53 | for any class list, `move` gives `None` exactly for a missing pitch or an off-scale pitch with step 0 |
| Vary.MoveClassesOnScale | ch0p1n/vary.py:30-53 | on distinct classes, `move` gives `None` exactly for a missing pitch or an off-scale pitch with step 0, and otherwise a scale pitch in `0 .. 131` |
| Vary.MoveClassesRoundTrip | ch0p1n/vary.py:30-53 | moving a scale pitch by `step` and back by `-step` returns it |
| Vary.SpanSteps | ch0p1n/vary.py:66-67 | `span` keeps only steps it was given |
| Vary.Span | ch0p1n/vary.py:56-72 | `span` gives `[None]` for a missing pitch and otherwise one `move` per kept step |
| Vary.SpanAgrees | ch0p1n/vary.py:56-72 | within the reified octaves, `span` computes what `_move2` computes on the expanded scale, so re-expanding on every move gives the same pitches as one shared list |
| Vary.SpanInRange | ch0p1n/vary.py:66-70 | the steps `span` drops stay in range too |
| Vary.SpanMoves | ch0p1n/vary.py:70 | each move of `span` is the move from the pitch's place on the scale |
| Vary.SpanNoZero | ch0p1n/vary.py:66-67 | off the scale, `span` keeps no zero step |
| Vary.SpanAt | ch0p1n/vary.py:70 | move `k` of `span` is the target of its step from the pitch's place |
| Vary.Spans | ch0p1n/vary.py:86-89 | there is one span per flat pitch |
| Vary.Lead | ch0p1n/vary.py:78-101 | every motif `lead` returns has the input's number of lines |
| Vary.LeadSpec | ch0p1n/vary.py:78-101 | every motif `lead` returns keeps the line shapes, and its flat pitches are one choice from each span |
| Vary.LeadMembers | ch0p1n/vary.py:92-99 | every choice of one spanned pitch per flat pitch gives one of the motifs |
| Vary.LeadCount | ch0p1n/vary.py:92-99 | `lead` returns as many motifs as the product of the span lengths |
| Vary.Rescale | ch0p1n/vary.py:104-141 | `rescale` keeps the line shapes, and its flat pitches are the remapped input pitches |
| Vary.RescaleExample | test/test_vary.py:5-11 | `[[60], [[59, 61], None]]` under `{0: 11, 11: 0, 1: 10}` becomes `[[59], [[60, 58], None]]` |
| Vary.ExampleShapes | test/test_vary.py:7-10 | the example's input and output have the same line shapes |
| NearestLead.WindowMembers | ch0p1n/lead.py:41-44 | a pitch is in the window exactly when it is in range and its class is in the harmony |
| NearestLead.WindowAscending | ch0p1n/lead.py:41-44 | the window lists its pitches in strictly ascending order |
| NearestLead.NearestPitches | ch0p1n/lead.py:33-46 | `get_nearest_pitches` offers `[None]` for a missing pitch and only pitches otherwise |
| NearestLead.NearestSpec | ch0p1n/lead.py:33-46 | the offers for a pitch are exactly the pitches at most `semitone` away whose class is in the harmony, from low to high |
| NearestLead.NearestExamples | test/test_lead.py:12-30 | for `None` the offers are `[None]`; for 60 in `[7, 11, 2]`, semitones 0, 1 and 2 give `[]`, `[59]` and `[59, 62]` |
| NearestLead.Offers | ch0p1n/lead.py:15-18 | there is one offer list per flat pitch |
| NearestLead.Lead | ch0p1n/lead.py:5-30 | every motif `lead` returns has the input's number of lines |
| NearestLead.LeadSpec | ch0p1n/lead.py:5-30 | every motif `lead` returns keeps the line shapes; each flat pitch is `None` exactly where the input's is, and otherwise a harmony pitch at most `semitone` from the input's |
| NearestLead.OfferSpec | ch0p1n/lead.py:37-44 | an offer is `None` exactly for a missing pitch, and otherwise a harmony pitch within reach |
| NearestLead.LeadMembers | ch0p1n/lead.py:21-28 | every choice of one offer per flat pitch gives one of the motifs |
| NearestLead.LeadCount | ch0p1n/lead.py:21-28 | `lead` returns as many motifs as the product of the offer counts |
| NearestLead.LeadNone | ch0p1n/lead.py:21-28 | a pitch with no harmony pitch within reach leaves `lead` with no motif |
| NearestLead.NearestHas | ch0p1n/lead.py:41-44 | a pitch that is offered anything has a harmony pitch within reach |
| EarlyTranspose.TransposePitch | ch0p1n/transpose.py:44-62 | `transpose_pitch` returns the pitch unchanged, with the list unchanged, for step 0 or a missing pitch, even off the scale; otherwise it returns a pitch, and the list has the pitch placed |
| EarlyTranspose.TransposePitchAlong | ch0p1n/transpose.py:44-62 | `transpose_pitch` on the shared list: the result and the new contents are those of `TransposePitch` |
| EarlyTranspose.TransposeAll | ch0p1n/transpose.py:15-18 | the comprehension yields one pitch per flat pitch |
| EarlyTranspose.TransposeAllAgrees | ch0p1n/transpose.py:48-62 | for a step other than 0, the earlier comprehension is motif.py's |
| EarlyTranspose.TransposeAllZero | ch0p1n/transpose.py:48-49 | for step 0 every pitch is kept and the list is untouched |
| EarlyTranspose.Transpose | ch0p1n/transpose.py:4-21 | `transpose` keeps the number of lines |
| EarlyTranspose.TransposeShape | ch0p1n/transpose.py:4-21 | `transpose` keeps every line's shape, and its flat pitches are the moved ones |
| EarlyTranspose.TransposeZero | ch0p1n/transpose.py:48-49 | transposing by 0 steps gives the motif back, whatever the scale |
| EarlyTranspose.TransposeOneLine | ch0p1n/transpose.py:4-21 | on a one-line motif and a nonzero step, this `transpose` is motif.py's |
| EarlyTranspose.TransposeAllOnScale | ch0p1n/transpose.py:52-60 | pitches already on the list are moved by index alone, and the list is unchanged |
| EarlyTranspose.OnScaleLast | ch0p1n/transpose.py:52-60 | a pitch on the list moves by index and leaves the list alone |
| EarlyTranspose.SnocSteps | ch0p1n/transpose.py:15-18 | the moved pitches of all but the last, followed by the last one moved, are all of them moved |
| EarlyTranspose.Chromatic | test/test_transpose.py:15 | the reified chromatic scale holds every pitch `0 .. 131` at its own index |
| EarlyTranspose.TransposeExamples | test/test_transpose.py:9-23 | on `[[61, [62, 63], None]]`: by 0 the motif itself, chromatic -1 gives `[[60, [61, 62], None]]`, C major +1 gives `[[62, [64, 64], None]]` |
| EarlyTranspose.ChromaticExample | test/test_transpose.py:14-17 | chromatically down one step, `[[61, [62, 63], None]]` becomes `[[60, [61, 62], None]]` |
| EarlyTranspose.ChromaticMoves | test/test_transpose.py:14-17 | the flat pitches 61, 62, 63 and a rest move to 60, 61, 62 and a rest |
| EarlyTranspose.MajorExample | test/test_transpose.py:19-23 | on C major up one step, `[[61, [62, 63], None]]` becomes `[[62, [64, 64], None]]` |
| Transform.MirrorAll | ch0p1n/transform.py:17-35 | the loop remaps every flat pitch and keeps the list's length |
| Transform.TransformAsWritten | ch0p1n/transform.py:4-38 | `transform` keeps the line shapes, and its flat pitches are the input's under the `12 - to` rule |
| Transform.Mirror | ch0p1n/transform.py:17-35 | `transform` maps `None` to `None` and a pitch to a pitch |
| Transform.MirrorKeeps | ch0p1n/transform.py:17-25 | `None` and pitches whose class is not a key are left alone, as by `rescale` |
| Transform.MirrorAgrees | ch0p1n/transform.py:27-35 | the `12 - to` rule agrees with `rescale`'s nearest-octave rule exactly when the class moves by less than six or is mapped to 0 |
| Transform.MirrorComment | ch0p1n/transform.py:29-31 | the comment's example, 59 under `{11: 0}`, gives 60 |
| Transform.TransformCounterexample | test/test_transform.py:5-11 | under `{0: 11, 11: 0, 1: 10}`, `[[60], [[59, 61], None]]` becomes `[[61], [[60, 62], None]]`, not the expected `[[59], [[60, 58], None]]` |
| Transform.MirrorExample | ch0p1n/transform.py:32-35 | under that mapping 60, 59 and 61 go to 61, 60 and 62 |
| Select.HeardSpec | ch0p1n/select.py:20-23 | a class is heard exactly when some pitch of that class is present |
| Select.HeardSounding | ch0p1n/select.py:20 | this test hears everything `_is_complete` hears, and the same classes when no pitch is 0 |
| Select.ZeroHeard | ch0p1n/select.py:20 | `[[0]]` completes `[0]` here but not under `_is_complete` |
| Select.Excluded | ch0p1n/select.py:13-14 | blanking keeps the number of lines and each line's length |
| Select.IsComplete | ch0p1n/select.py:5-28 | `is_complete` is the superset test on the motif with every excluded position blanked, in order |
| Select.FlattenHas | ch0p1n/select.py:17 | a value in the flat pitches comes from one of the lines |
| Select.BlankKeepsPitches | ch0p1n/select.py:14 | blanking a position leaves no pitch that was not there before |
| Select.HeardSubset | ch0p1n/select.py:20-26 | fewer pitches are heard as fewer classes |
| Select.ExcludeOne | ch0p1n/select.py:13-14 | one exclusion can only shrink the classes heard |
| Select.ExcludeShrinks | ch0p1n/select.py:13-26 | exclusions can only shrink the classes heard |
| Select.ExcludedConcat | ch0p1n/select.py:13-14 | excluding one list and then another is excluding their concatenation |
| Select.ExcludeMonotone | ch0p1n/select.py:13-26 | adding exclusions never turns an incomplete motif into a complete one |
| Select.IsCompleteExamples | test/test_select.py:5-18 | `[[60, None, 62], [64, 67]]` completes `{0, 4, 7}`, but not with `(1, 0)` excluded |
| Select.ExampleCut | test/test_select.py:16-18 | excluding `(1, 0)` blanks the 64 and nothing else |
| Embellish.EmbellishAsWritten | ch0p1n/elaborate.py:6-21 | as written, `embellish` changes only the line at `position`; a cluster read at the reference and moved by 0 steps is written as a rest |
| Embellish.Embellish | ch0p1n/elaborate.py:6-21 | corrected, with one expansion, `embellish` changes only the line at `position`; a cluster read at the reference and moved by 0 steps is written as a rest |
| Embellish.EmbellishSpec | ch0p1n/elaborate.py:12-19 | the position reads a rest exactly when the reference is a rest, or when an off-scale pitch or a cluster is moved by 0; otherwise it reads a scale pitch; every other item is unchanged |
| Embellish.EmbellishRoundTrip | ch0p1n/elaborate.py:12-19 | embellishing from an on-scale reference, then writing back at the reference the result moved by the opposite step, restores the reference pitch |
| Embellish.DoubleStart | ch0p1n/elaborate.py:15-16 | the twice-expanded list starts with the expanded scale |
| Embellish.DoubleOnScale | ch0p1n/elaborate.py:15-16 | for an on-scale reference moved within range, the double expansion moves as the single one does |
| Embellish.EmbellishOnScale | ch0p1n/elaborate.py:12-19 | for an on-scale reference, `embellish` as written equals the corrected one |
| Embellish.OctavesClass | ch0p1n/vary.py:18-22 | every pitch of the octaves has the class of one of the entries |
| Embellish.DoubleClasses | ch0p1n/elaborate.py:15-16 | the twice-expanded list holds only the scale's classes |
| Embellish.StepDownPastRepeat | ch0p1n/vary.py:45-51 | along a list holding `p - 1` twice and not `p`, two steps down from `p` reach `p - 1` |
| Embellish.PlacedRepeat | ch0p1n/vary.py:45-46 | placing an absent pitch sorts the list and keeps how often `p - 1` occurs |
| Embellish.BelowFirst | ch0p1n/vary.py:48-51 | in an ascending list holding `p - 1` twice, the two entries before the first `p` are `p - 1` |
| Embellish.DoubleOffScale | ch0p1n/elaborate.py:15-16 | on C major, 61 moved two steps down reaches 59 along the scale but 60 along the twice-expanded list |
| Embellish.DoubleMisses | ch0p1n/elaborate.py:15-16 | a pitch whose class is not in C major is missing from the twice-expanded list |
| Embellish.DoubleRepeats | ch0p1n/elaborate.py:15-16 | on C major the twice-expanded list holds 60 at least twice |
| Embellish.DoubleSecond | ch0p1n/elaborate.py:15-16 | the second octave of the twice-expanded list is the expanded scale raised by an octave |
| Embellish.EmbellishCounterexample | ch0p1n/elaborate.py:12-19 | on C major, writing the pitch two steps below the reference 61 gives `[[61, 60]]` as written and `[[61, 59]]` along the scale |
| Embellish.EmbellishExample | test/test_elaborate.py:5-11 | on C major, the 64 of `[[60, [64, 67], None]]` becomes 62, one step above the reference 60 |
| Embellish.EmbellishClusterExample | ch0p1n/vary.py:39-42 | a cluster read at the reference and moved by 0 steps is written as a rest: `[[[64, 67], 60]]` becomes `[[[64, 67], None]]` |

## Left out

- Python's negative indices: `scale[i + step]` with `i + step < 0` wraps around to the end of the list. The model requires `0 <= i + step < len(scale)` (`CanMove`, `InRange`, `CanSpan`, `CanTransposePitch`). An index past the end raises in Python and is excluded by the same precondition.
- Floating point: durations are exact `real`s. `divide`'s exact-equality close is exact here, and no rounding is modelled.
- `deepcopy` and the `in_place` flag as mechanisms: the copying variants are functions on values, and the in-place variants of `_replace` and `_modify` are methods on an array. Because values cannot alias, "the caller's motif is unchanged" holds by construction and is not stated as a lemma.
- Mutable default arguments: `steps=[-1, 0, 1]` and `exclude=[]` are never mutated, so they are plain parameters. `is_similar`'s default `scale=[]` is extended by `_measure` and keeps those pitches between calls in Python. The model starts every call from an empty list, as the first call does.
- `itertools.product` is lazy. It is modelled as the ordered list of its combinations.
- Values of other types: `_replace` accepts any values (the test pours in floats), and `_access` reads any duration. The model uses optional integer pitches and `real` durations.
- An `is_similar` method other than the three named ones leaves `contour` unbound and raises. The model has one constructor per named method.
- `elaborate` with a `position` other than the four named ones skips the insertion and later fails for lack of `durations`. It is not modelled.
- `Editors.Elaborated`: the clamped slices `pitch_motif[:i+1]` and `duration_motif[i+1:]` are modelled with `Take` and `Drop`, but a reference past the end of the duration line is excluded by `CanElaborate`.
- `Editors.Divide`: a trailing part that never fills up is dropped, as in the source. Its contents are not stated.
- `Editors.Divide`: requires `n != 0` and a duration line no longer than the pitch line. With `n == 0` the source raises `ZeroDivisionError` at `total / n` (motif.py:581). With more durations than pitches it raises `IndexError` when it reads the pitch of an extra item (motif.py:594, 604). Neither error path is modelled.
- `Editors.Fragment`: with a ratio and `fit` naming an end, requires a nonempty slice. For an empty slice (`start > end`, or `start` past the end of the line) the source raises `IndexError` at `dm[-1]` or `dm[0]` (motif.py:638, 640). That error path is not modelled.
- `Vary.Span`: the recursive `span(pitch, scale, steps)` at ch0p1n/vary.py:68 discards its result, so it is not modelled. It has no effect on the returned list.
- `Embellish.EmbellishSpec` and `Embellish.EmbellishRoundTrip` are stated for the corrected single expansion. For the double expansion as written, `Embellish.EmbellishOnScale` ties the two together on scale pitches only.
- `Embellish.Embellish` and `Embellish.EmbellishAsWritten`: a reference that reads a whole cluster hands a list to `move`. The list is never on the scale, so with step 0 `move` returns `None` and a rest is written, as modelled. With any other step, `scale.sort()` at ch0p1n/vary.py:46 raises a `TypeError` comparing a list with integers, so those calls are excluded by `CanEmbellish` and `CanEmbellishAsWritten`. The one exception, an empty class list with step -1, wraps round to the cluster itself; it falls under the negative indices above.
- `Structure.Access`, `Structure.Modify` and `Editors.Fragment`: positions and slice bounds are natural numbers. Python's negative indices in `_access`, `_modify` and `fragment`'s slices, which count from the end of the line, are not modelled.
- `Structure.Modify`: `_modify` accepts any item, so a whole cluster can be written at an item position. The model writes a single pitch or a rest only.
- `Checks.Tops`, `Checks.IsSimilar` and `Checks.IsSimilarFresh` require `Comparable`: every cluster holds pitches only. In Python, `max(item)` at ch0p1n/motif.py:434 raises a `TypeError` on a cluster that mixes `None` with pitches or holds several `None`s, as `is_complete`'s blanking can leave behind. A lone `[None]` cluster does pass through `max` and reads as a `None` top. A line whose tops are all such `None`s compares without error: `is_similar([[None]], [[None]])` is true, and several of them compare by ordinal. Any `None` top next to a pitch raises in `_get_directions`, `sorted` or `_measure`. None of these lines is modelled.
- `Structure.Modify`, `Lines.ModifyAt`, and through them `Checks.IsComplete` and `Select.IsComplete`, require a cluster under an `(i, j)` position (`CanModify`). In Python, `pitch_motif[i][j] = item` at ch0p1n/motif.py:272 raises a `TypeError` on a single pitch or `None`, so those calls fail there.
- `Editors.Elaborated`: `elaborate`'s default `scale=None` (ch0p1n/motif.py:476) is not modelled; the class list is always a list. In Python, `_reify(None)` raises at the first nonzero step. With only `None` and 0 steps the scale is never read, and the model's result does not depend on it either.
- `Structure.Replace`: the model requires at least one pitch per flat slot. In Python, a list that runs short inside trailing clusters is sliced short without an error, leaving those clusters shorter; a list that runs short at a single item raises an `IndexError`.
- music21 rendering (ch0p1n/music.py, ch0p1n/show.py) is not part of this model. That includes the `abs(duration)` by which a negative duration is rendered as a rest. Note-name parsing (ch0p1n/utils) is not part of this model either.
- `thread`, `reduce`, `stretch` and a contour filter inside `lead` belong to the wider system but are not defined in the source files modelled.

## Findings

| source | as written | input that shows it | evidently intended | confidence | as-written member | corrected member |
|---|---|---|---|---|---|---|
| ch0p1n/transform.py:32-33 | when the class moves by six or more, `to` becomes `12 - to`, the mirror of the class | `[[60], [[59, 61], None]]` under `{0: 11, 11: 0, 1: 10}` gives `[[61], [[60, 62], None]]`, but the module's test expects `[[59], [[60, 58], None]]` | the nearest pitch of class `to`: `to - 12` or `to + 12`, as in vary.py and motif.py | high, not executed | Transform.TransformCounterexample | Vary.RescaleExample |
| ch0p1n/elaborate.py:15-16 | the expanded scale is passed to `vary.move`, which expands it again: a list of eleven copies of the scale, unsorted, with repeats | on C major, reference 61 moved by -2 is written as 60 instead of 59 | expand the classes once and move along the scale | high, not executed | Embellish.EmbellishCounterexample | Embellish.EmbellishSpec |
| ch0p1n/motif.py:199-205 | `transpose` moves every pitch along one shared list, into which each off-scale pitch is inserted, so a later pitch can step onto an earlier off-scale pitch | on C major, `[61, 60]` up one step gives `[62, 61]`, and 61 is not a C major pitch | move every pitch along the scale itself, giving `[62, 62]` | medium, not executed | Variation.TransposeLeak | Variation.TransposeFreshExample |
| ch0p1n/motif.py:226-229 | `lead` takes every flat pitch's candidates along one shared list, into which each off-scale pitch is inserted, so a later pitch is offered an earlier off-scale pitch, against the docstring's nearest chordal tone rule | on C major by `[-1, 0, 1]`, `[61, 60]` offers 59, 60 or 61 for the 60, and `lead` without the completeness filter returns `[62, 61]` | take every pitch's candidates along the scale itself, offering 59, 60 or 62 for the 60 | medium, not executed | Variation.LeadLeak | Variation.LeadFreshOnScale |
| ch0p1n/motif.py:444-452 | with `method='step'` the prototype's contour is measured along the list the motif's contour has already extended | `is_similar([60, 64, 62], [60, 64, 62], 'step')` is false: the steps are `[1, -1]`, then `[2, -1]` | measure both contours on the same starting list, so that every motif is similar to itself | high, not executed | Checks.IsSimilarStepsNotReflexive | Checks.IsSimilarFreshSteps |
