# vgrid, modelled in Dafny

vgrid is a widget that shows a grid of video clips. Each clip is a "block": a
video with one or more named sets of time intervals drawn over it. The user
labels the grid from the keyboard and mouse:

- select blocks as positive or negative;
- draw boxes on frames;
- add, split, merge and delete intervals on a timeline;
- undo and redo.

The repository has three parts:

- `vgridjs/` is the current TypeScript front end.
- `src/` is an older front end. It has views for labelling groups of clips
  and editing face tracks.
- `vgridpy/` is the Python package. It builds the grid's specification
  (videos, blocks, settings) as JSON and reads the user's labels back.

This project models the sequential logic under the React views of all three
parts, one Dafny module per source file:

| module | source |
|---|---|
| `Js`, `Text`, `Lodash` | the JSON values, dictionaries, strings and lodash helpers the other modules share |
| `Intervals` | the rekall `Bounds`/`Interval`/`IntervalSet` the front end imports, as sequences |
| `Undo` | vgridjs/src/undo.tsx |
| `Viewport`, `Timeline` | vgridjs/src/timeline_track.tsx (the window arithmetic is shared with src/timeline_track.tsx) |
| `LegacyTimeline` | src/timeline_track.tsx |
| `CaptionTrack` | src/caption_track.tsx |
| `VBlock`, `LegacyVBlock` | vgridjs/src/vblock.tsx, src/vblock.tsx |
| `VGrid`, `LegacyVGrid` | vgridjs/src/vgrid.tsx, src/vgrid.tsx |
| `LabelState` | vgridjs/src/label_state.tsx |
| `BboxLabel` | vgridjs/src/spatial/bbox.tsx |
| `Pagination` | vgridjs/src/pagination.tsx |
| `Keyboard` | vgridjs/src/keyboard.tsx, src/keyboard.tsx |
| `Database` | vgridjs/src/database.tsx; src/database.tsx has the same `Table` and the same `Database` constructor, but its `Database` has no `table()` accessor and no `from_json`, and its `tables` field is public (see "## Left out") |
| `LegacyInterval` | src/interval.tsx |
| `VData`, `Drawable`, `Metadata`, `Spatial`, `Keypoints` | the front end's decoders: vgridjs/src/interval.tsx, drawable.tsx (both trees), metadata.tsx (both trees), spatial/mod.tsx, keypoints.tsx |
| `TrackEditor`, `Groups`, `Clip` | src/views/Timeline.jsx, src/views/Groups.jsx, src/views/Clip.jsx |
| `PySpec`, `PyVisFormat`, `PyIntervalBlock`, `PySpatialType`, `PyMetadata`, `PyLabelState`, `PySettings` | the vgridpy/vgrid files of the same names |
| `Exchange`, `LabelExchange` | a Python writer against the front-end reader of the same value: spatial types (`SpatialType.to_json` and `spatial_type_from_json`), metadata (`Metadata.to_json` and `metadata_from_json`), interval blocks (`IntervalBlock.to_json` and `interval_blocks_from_json`), and the label export (`LabelState.to_json` and vgridpy's `LabelState` reader) |

Conventions:

- Code that computes a value is written as functions, with lemmas about them.
- Code that updates state is written as classes, whose methods state the new
  state and the invariant they keep.
- Loops in the source are `while`/`for` loops, proved against a function
  that specifies them.
- A JavaScript object or Python dict is a sequence of key/value pairs in
  insertion order, with each key present once.
- JavaScript `undefined` is `None`.
- A thrown exception is an `Err` result.
- Times and pixel positions are `real`.

The older `src/` tree is modelled as written where it differs from
`vgridjs/`, with the exceptions named under "## Left out":

- `new Bounds(time)` in src/vblock.tsx binds the time to the `domain`
  parameter (src/interval.tsx:40). The bounds it builds therefore have
  undefined `t1`/`t2`.
- The caption search in src/vblock.tsx reads `.data.draw_type` of an
  interval that has no `data`. So building a block with any set throws
  (`LegacyVBlock.NewBlock`). The intended search is modelled beside it
  (`LegacyVBlock.NewBlockIntended`).
- The track editor's key handler returns at once unless the video is playing
  or the mouse is over the editor (src/views/Timeline.jsx:313). Nothing sets
  `_videoPlaying`, so only the mouse decides (`TrackEditor.TrackEditor.KeyPress`).
- src/interval.tsx's `IntervalSet` has no `to_list` or `time_overlaps`. This
  is the one place the model departs from the code as written: it reads them
  as the stored list and the overlap filter (see "## Left out").

`BlockLabelState` (vgridjs/src/label_state.tsx:12-16) declares
`new_positive_intervals` and `new_negative_intervals`, but no `new_intervals`.
Every reader and writer of the block's new intervals uses `new_intervals`:
vgridjs/src/vblock.tsx:129, vgridjs/src/timeline_track.tsx:252, 356 and 366,
vgridjs/src/spatial/bbox.tsx:104 and vgridjs/src/vgrid.tsx:83. As written, each
of these reads `undefined` and throws a TypeError when it calls `add`,
`remove`, `length` or `time_overlaps` on it. The model gives the block state a
`new_intervals` set, so these calls succeed, and keeps `to_json` as written.

Several discrepancies between the Python writers and the front-end readers
are proved as lemmas:

- A keypoints spatial type and a flag written by Python do not decode in the
  front end (`Exchange.KeypointsNotDecodable`, `Exchange.FlagNotDecodable`).
- Python writes a block's sets under `interval_sets`, but the front end reads
  `interval_dict`. A written block decodes with no sets
  (`Exchange.WrittenBlockHasNoSets`).
- Python writes a payload's kind under `spatial_type`, but the front end
  reads `draw_type`. No written payload decodes
  (`Exchange.WrittenPayloadNotDecodable`).
- The front end's label export has no `new_intervals` key. So the Python
  reader's `block_labels()` raises (`LabelExchange.BlockLabelsUnreadable`).
- `VGridSettingsBuilder` cannot set `blocks_per_page`, which `VGridSpec`
  writes (`PySettings.SettingsBuilder.Build`).


## Model

| member | source | states |
|---|---|---|
| BboxLabel.MakeInterval | vgridjs/src/spatial/bbox.tsx:92-99 | the new interval is an instant at the play time whose box runs from the press point to the current point as they are, with a box payload and no metadata |
| BboxLabel.DraggedBackwardsIsInverted | vgridjs/src/spatial/bbox.tsx:92-99 | a box dragged leftwards is stored with its left edge right of its right edge (corners are not normalised) |
| BboxLabel.BboxLabelView.constructor | vgridjs/src/spatial/bbox.tsx:44-48 | the tool starts with Shift released and no press or current point |
| BboxLabel.BboxLabelView.OnKeyDown | vgridjs/src/spatial/bbox.tsx:50-54 | Shift arms the tool, any other key leaves all state as it was |
| BboxLabel.BboxLabelView.OnKeyUp | vgridjs/src/spatial/bbox.tsx:56-60 | releasing Shift disarms the tool, any other key leaves all state as it was |
| BboxLabel.BboxLabelView.ResetState | vgridjs/src/spatial/bbox.tsx:62-90 | leaving the view or resetting clears Shift and both points |
| BboxLabel.BboxLabelView.OnMouseDown | vgridjs/src/spatial/bbox.tsx:66-74 | with Shift held the press point, scaled to fractions of the view, becomes both the press and current point; without Shift nothing changes |
| BboxLabel.BboxLabelView.OnMouseMove | vgridjs/src/spatial/bbox.tsx:76-82 | while a box is being drawn the current point follows the mouse; otherwise nothing changes |
| BboxLabel.BboxLabelView.OnMouseUp | vgridjs/src/spatial/bbox.tsx:101-107 | a box being drawn is appended to the block's new intervals and the tool resets; without one nothing is added; the selection is untouched |
| BboxLabel.MouseUpAddsOne | vgridjs/src/spatial/bbox.tsx:101-107 | finishing a box adds exactly one interval at the end of that block's new intervals and leaves every other block and the key order unchanged |
| Drawable.BboxFromJson | vgridjs/src/drawable.tsx:39-42 | a box draw type decodes whatever its arguments, to a box |
| Drawable.CaptionFromJson | vgridjs/src/drawable.tsx:48-61 | a caption draw type takes `args.text`, and fails with a TypeError exactly when there are no arguments |
| Drawable.DrawTypeFromJson | vgridjs/src/drawable.tsx:63-70 | decoding succeeds exactly for a box tag, or a caption tag with arguments; every other tag (keypoints included) and a missing object end in a TypeError |
| Drawable.DecodedViews | vgridjs/src/drawable.tsx:35-70 | a decoded draw type has a view exactly when its tag named the box, and its tag is one the registry lists |
| LegacyDrawable.NewCaption | src/drawable.tsx:42-51 | a caption draw type keeps its text and has no view |
| LegacyDrawable.DrawTypeFromJson | src/drawable.tsx:53-59 | the older registry builds a box for the box tag, a plain object for the inherited `constructor` name, and fails with a TypeError for every other tag |
| Spatial.CaptionFromJson | vgridjs/src/spatial/caption.tsx:14-16 | a caption spatial type takes `args.text` and fails exactly when there are no arguments |
| Spatial.SpatialTypeFromJson | vgridjs/src/spatial/mod.tsx:13-26 | an unlisted name is reported as an invalid spatial type; a box, temporal type or caption with arguments decodes to its kind; a keypoints name fails because its class has no `from_json` |
| Spatial.SpatialTypeFromJsonIntended | vgridjs/src/spatial/mod.tsx:13-26 | with a decoder for keypoints, keypoints decode and every other name decodes as before |
| Exchange.SpatialRoundTrip | vgridpy/vgrid/spatial_type.py:21-47 | a caption, box or temporal type written by Python's `SpatialType.to_json` decodes with the front end's `spatial_type_from_json` to the same kind, a caption with the same text |
| Exchange.KeypointsNotDecodable | vgridpy/vgrid/spatial_type.py:53-54 | a keypoints type written by Python does not decode in the front end |
| Exchange.IntendedSpatialRoundTrip | vgridpy/vgrid/spatial_type.py:21-54 | with a keypoints decoder every spatial type Python writes decodes to its counterpart |
| Exchange.CategoricalRoundTrip | vgridpy/vgrid/metadata.py:34-41 | categorical metadata written by Python decodes with the same category type and category |
| Exchange.FlagNotDecodable | vgridpy/vgrid/metadata.py:13-14 | a flag written by Python is rejected by the front end's metadata registry |
| Exchange.GenericRoundTrip | vgridpy/vgrid/metadata.py:23-24 | generic metadata, once written from the stored value, decodes to an object whose `data` is that value |
| PySpatialType.ToJson | vgridpy/vgrid/spatial_type.py:4-54 | every concrete type writes an object with its own `type` name and distinct keys; `args` holds the text for a caption and for a box only when the text is truthy; the abstract base fails |
| PyMetadata.ToJson | vgridpy/vgrid/metadata.py:4-41 | a flag writes only its type, categorical metadata writes its type and both arguments; generic metadata always raises a NameError, and the base fails |
| PyMetadata.IntendedToJson | vgridpy/vgrid/metadata.py:17-24 | generic metadata written from its stored value gives its type and `args.data`; every other kind is unchanged |
| Keyboard.KeyDispatch | vgridjs/src/keyboard.tsx:14-25 | only the current mode's table is read; a key runs a binding exactly when its lower-cased form is bound, and that binding is the one stored; a mode without a table fails |
| Keyboard.DispatchIgnoresCase | vgridjs/src/keyboard.tsx:19-24 | keys that lower-case alike run the same binding |
| Keyboard.DispatchReadsOnlyMode | src/keyboard.tsx:8-16 | the tables of other modes do not affect dispatch |
| Exchange.WrittenBlockHasNoSets | vgridjs/src/vblock.tsx:28-36 | a block as Python's `to_json` writes it decodes in the front end to a block of the same video with no interval sets, because the front end reads `interval_dict` while Python writes `interval_sets` |
| Exchange.WrittenPayloadNotDecodable | vgridjs/src/interval.tsx:22-27 | no payload Python writes, default or converted, decodes with `vdata_from_json`, because the front end reads `draw_type` while Python writes `spatial_type` |
| Metadata.FlagFromJson | vgridjs/src/metadata.tsx:14-18 | a flag decodes from any input |
| Metadata.GenericFromJson | vgridjs/src/metadata.tsx:24-35 | generic metadata keeps the whole input as its data |
| Metadata.CategoricalFromJson | vgridjs/src/metadata.tsx:48-50 | categorical metadata takes `category_type` and `category` by name, and fails exactly when the input is missing |
| Metadata.NotYetImplemented | vgridjs/src/metadata.tsx:66-82 | caption and box metadata cannot be decoded: they always throw "Not yet implemented" |
| Metadata.Iterated | vgridjs/src/metadata.tsx:122 | `for ... of` walks the items of an array or the characters of a string, and fails on every other value |
| Metadata.EdgeOf | vgridjs/src/metadata.tsx:123-127 | an edge takes items 0, 1 and 2 of its tuple; indexing `null` fails |
| Metadata.EdgesOf | vgridjs/src/metadata.tsx:122-128 | the edges decode exactly when no item is `null`, one edge per item in order |
| Metadata.PushEdges | vgridjs/src/metadata.tsx:109-128 | the push loop ends with exactly the decoded edge list, or the error of the first item that cannot be indexed |
| Metadata.KeypointsFromJson | vgridjs/src/metadata.tsx:107-131 | keypoint metadata decodes when the keypoints object is present and the edges iterate and index; no node is ever stored, because object keys are strings; the edges are the decoded list |
| Metadata.MetadataFromJson | vgridjs/src/metadata.tsx:134-142 | only the three listed names decode, each by its class's decoder applied to `args` |
| Metadata.FlagNotRegistered | vgridjs/src/metadata.tsx:134-142 | a flag tag is not decoded, although its class has a decoder |
| LegacyMetadata.FlagFromJson | src/metadata.tsx:5-9 | a flag decodes from any input |
| LegacyMetadata.GenericFromJson | src/metadata.tsx:13-24 | generic metadata keeps the whole input as its data |
| LegacyMetadata.CategoricalFromJson | src/metadata.tsx:27-40 | each field gets the input field of the same name; decoding fails exactly when the input is missing |
| LegacyMetadata.NewCaptionMeta | src/metadata.tsx:48-53 | the caption metadata keeps its inner metadata and both character offsets |
| LegacyMetadata.CaptionMetaFromJson | src/metadata.tsx:55-57 | caption metadata cannot be decoded: it always throws |
| Keypoints.EdgesOf | vgridjs/src/keypoints.tsx:72-122 | one stored edge per (start, end, colour) triple, in order |
| Keypoints.Slots | vgridjs/src/keypoints.tsx:63-116 | copying `n` points gives exactly `n` slots |
| Keypoints.FillSlots | vgridjs/src/keypoints.tsx:63-116 | the copy loop appends the `n` slots filled from the input, `undefined` past its end |
| Keypoints.PushShifted | vgridjs/src/keypoints.tsx:93-123 | the push loop appends one edge per pair, both ends shifted by the current point count, in one colour |
| Keypoints.BodyEdges | vgridjs/src/keypoints.tsx:66-73 | the body loop produces the 17 pose edges, each in the left-side colour exactly when colouring is on and one end is a left-side point |
| Keypoints.EdgesOfSnoc | vgridjs/src/keypoints.tsx:66-73 | one more triple gives one more edge at the end |
| Keypoints.FromOpenpose | vgridjs/src/keypoints.tsx:39-128 | the OpenPose constructor yields exactly the body slots then each given hand's slots, and the body, face and hand edges in that order |
| Keypoints.AddHand | vgridjs/src/keypoints.tsx:110-125 | a non-empty hand adds 21 slots after the current points and its 20 edges shifted to them; an empty hand adds nothing |
| Keypoints.OpenposeCounts | vgridjs/src/keypoints.tsx:56-125 | 18 body points plus 21 per hand given; 17 body edges, 63 face edges when a face is given, 20 per hand |
| Keypoints.OpenposeBodyNodes | vgridjs/src/keypoints.tsx:63-65 | body point `i` keeps the node given for it, `undefined` past the input's end |
| Keypoints.OpenposeColors | vgridjs/src/keypoints.tsx:66-123 | body edge `i` joins the `i`-th pose pair and takes the left-side colour exactly when colouring is on and one end is a left-side point; face edges are white and left-hand edges take the left-hand colour |
| Keypoints.FaceEdgesDangle | vgridjs/src/keypoints.tsx:88-100 | with a face given, some edge starts at an index that has no keypoint, because the face loop never runs |
| Keypoints.PairTablesWithin | vgridjs/src/keypoints.tsx:56-108 | every pair of the body, face and hand tables joins points of its own part |
| Keypoints.IntendedEdgesHaveNodes | vgridjs/src/keypoints.tsx:88-125 | with the face loop copying the 68 face points, every edge joins two existing keypoints whatever parts are given |
| Keypoints.FromFaceLandmarks | vgridjs/src/keypoints.tsx:131-137 | the face-landmark constructor always throws "Not yet implemented" |
| Intervals.Instant | vgridjs/src/vblock.tsx:123 | `new Bounds(t)` is the instant `t` |
| Intervals.Add | vgridjs/src/timeline_track.tsx:259 | adding appends the interval and keeps the set before it |
| Intervals.Remove | vgridjs/src/timeline_track.tsx:260 | removing drops every entry that is that interval, keeps only members of the set, and keeps every other interval |
| Intervals.TimeOverlaps | vgridjs/src/vblock.tsx:126-129 | the query keeps exactly the members whose closed span meets the query's |
| Intervals.RemoveAdded | vgridjs/src/timeline_track.tsx:259-260 | removing the interval just added to a set that did not hold it gives the set back (what undoing an added interval relies on) |
| Intervals.RemoveAbsent | vgridjs/src/timeline_track.tsx:357 | removing an interval that is not a member changes nothing |
| Intervals.OverlapFacts | vgridjs/src/vblock.tsx:123-129 | overlap is symmetric, and an instant meets exactly the spans that contain it |
| Intervals.TimeOverlapsKeepsOrder | vgridjs/src/vblock.tsx:126-129 | two overlapping members appear in the query's result in their original order |
| Intervals.PositionFound | vgridjs/src/vblock.tsx:126-129 | an overlapping member sits in the result at the count of overlapping members before it |
| Intervals.PositionGrows | vgridjs/src/vblock.tsx:126-129 | a later member lands later in the result |
| Intervals.TimeOverlapsCons | vgridjs/src/vblock.tsx:126-129 | the result for a non-empty set is its first member when that overlaps, followed by the result for the rest |
| LegacyInterval.NewBoundingBox | src/interval.tsx:26-31 | each edge given as a truthy number is kept; a missing or zero edge takes the full frame's value |
| LegacyInterval.BoundingBoxDefaults | src/interval.tsx:26-31 | no arguments, or all zeros, give the full frame |
| LegacyInterval.NewBounds | src/interval.tsx:40-45 | domain and start are stored as given; a missing or zero end takes the start; a missing box is the full frame |
| LegacyInterval.OneArgumentBounds | src/interval.tsx:40-45 | `new Bounds(t)` stores `t` as the domain and holds no time |
| LegacyInterval.BoundsUnordered | src/interval.tsx:40-45 | a start after the end is stored as it is |
| LegacyInterval.TimeOverlaps | src/vblock.tsx:79-82 | the query keeps exactly the members whose times are defined and whose spans meet the query's |
| LegacyInterval.NoTimesNoOverlap | src/vblock.tsx:79-82 | a query built with `new Bounds(t)` meets nothing |
| Lodash.Entries | vgridjs/src/interval.tsx:25 | an object's own entries are iterated as they are; a missing value has none |
| Lodash.IndexEntries | vgridjs/src/interval.tsx:25 | an array is iterated as its indices, written as strings, with its items |
| Lodash.MapValues | vgridjs/src/interval.tsx:25 | mapping keeps every key in order and decodes each value; it fails exactly when some value fails to decode |
| VData.VDataFromJson | vgridjs/src/interval.tsx:22-27 | the payload decodes exactly when the draw type and every metadata entry decode, keeping the metadata keys in order; without metadata it has none |
| Undo.ActionStack.constructor | vgridjs/src/undo.tsx:7-9 | a new stack has nothing done and nothing undone |
| Undo.ActionStack.Push | vgridjs/src/undo.tsx:11-14 | pushing runs the action's `do_` once and puts it on top of the done stack; the undone stack is kept |
| Undo.ActionStack.Undo | vgridjs/src/undo.tsx:16-25 | undo pops the top done action, runs its `undo` once and moves it onto the undone stack; with nothing done, nothing changes |
| Undo.ActionStack.Redo | vgridjs/src/undo.tsx:27-36 | redo pops the top undone action, runs its `do_` once and moves it back onto the done stack; with nothing undone, nothing changes |
| Undo.PushThenUndo | vgridjs/src/undo.tsx:11-25 | undoing right after a push restores the state and the done stack and leaves the action ready to be redone |
| Undo.PushUndoRedo | vgridjs/src/undo.tsx:11-36 | push, undo, redo ends where the push ended |
| Undo.SizeKept | vgridjs/src/undo.tsx:11-36 | undo and redo move one action between the stacks and never lose one; a push adds exactly one |
| Undo.PushKeepsRedo | vgridjs/src/undo.tsx:11-36 | a push does not clear the undone stack: an action undone before a push can still be redone after it, and is then run on top of the pushed one |
| Undo.PushAllShape | vgridjs/src/undo.tsx:11-14 | pushing a list of actions appends them, in order, to the done stack |
| Undo.UndoAllAfterPushAll | vgridjs/src/undo.tsx:11-25 | undoing as many times as actions were pushed restores the state and the done stack, and the undone stack gains exactly those actions on top of what it held, most recent lowest |
| LabelState.SelectTypeName | vgridjs/src/label_state.tsx:7-10 | each selection type is written as its own name, and the two names differ |
| LabelState.UpdateNewIntervals | vgridjs/src/spatial/bbox.tsx:103-104 | a tool's change to one block's new intervals touches only that block's new intervals; every other block, and the key order, stay as they were; an unknown block changes nothing |
| LabelState.SameKeysAfterPut | vgridjs/src/label_state.tsx:24 | overwriting a block's state keeps the list of blocks |
| LabelState.LabelState.constructor | vgridjs/src/label_state.tsx:19-24 | a new label state has no selections and no block labels |
| LabelState.LabelState.ToJson | vgridjs/src/label_state.tsx:26-37 | the export has exactly `blocks_selected` and `block_labels`, each keyed by the printed block index, listed in the maps' insertion order; a selection is written as its name and a block as its own export |
| LabelState.BlockJson | vgridjs/src/label_state.tsx:29-35 | a block's export holds exactly its selected captions, its positive set and its negative set, under those three keys |
| PyLabelState.FromString | vgridpy/vgrid/label_state.py:9-14 | the two names map to their selection types and anything else to `None` |
| PyLabelState.Index | vgridpy/vgrid/label_state.py:25-31 | indexing a dictionary by a key it holds gives that key's value; a missing key raises KeyError; a value that is not a dictionary raises TypeError |
| PyLabelState.Iterate | vgridpy/vgrid/label_state.py:31 | a list iterates over its items; a dictionary or string also iterates, and nothing else does |
| PyLabelState.Items | vgridpy/vgrid/label_state.py:63-70 | only a dictionary has `items()`, which gives its entries |
| PyLabelState.IntervalFromJson | vgridpy/vgrid/label_state.py:24-30 | an exported interval gives its two times and four box edges, each read from its own field |
| PyLabelState.MapList | vgridpy/vgrid/label_state.py:23-32 | the list comprehension succeeds exactly when every element converts, one result per element in order |
| PyLabelState.BlockFromJson | vgridpy/vgrid/label_state.py:22-34 | a block's state is its `new_intervals` converted in order, with no selected captions; a block without `new_intervals` raises KeyError |
| PyLabelState.ParseEntries | vgridpy/vgrid/label_state.py:61-71 | the dict comprehension succeeds exactly when every key parses as an integer and every value converts; it then builds one entry per distinct integer key, ordered by each key's first occurrence, holding the value converted from the last entry with that key |
| PyLabelState.BlocksSelected | vgridpy/vgrid/label_state.py:66-71 | reading succeeds exactly when `blocks_selected` is a dictionary whose every key parses as an integer; the result maps each integer key to `from_string` of its last value, keys in first-occurrence order |
| PyLabelState.BlockLabels | vgridpy/vgrid/label_state.py:59-64 | reading succeeds exactly when `block_labels` is a dictionary whose every key parses as an integer and whose every block converts; the result maps each integer key to the `BlockLabelState` of its last entry, keys in first-occurrence order |
| LabelExchange.SelectionsRoundTrip | vgridpy/vgrid/label_state.py:66-71 | reading exported selections gives back every block index with its selection type, in the order the export lists them |
| LabelExchange.SelectionsReadLast | vgridpy/vgrid/label_state.py:68-71 | the selections read from a longer export end with the last block's |
| LabelExchange.BlocksSelectedRoundTrip | vgridjs/src/label_state.tsx:26-28 | `blocks_selected()` on the front end's export is the front end's selection dictionary, entry for entry in the export's order |
| LabelExchange.FirstEntryFails | vgridpy/vgrid/label_state.py:61-64 | the first block whose value cannot be read decides the error |
| LabelExchange.BlockLabelsUnreadable | vgridpy/vgrid/label_state.py:31-64 | the export holds no `new_intervals`, so `block_labels()` raises KeyError as soon as one block has a label state |
| LabelExchange.LabelsAt | vgridjs/src/label_state.tsx:26-36 | the export's block labels are found under `block_labels` |
| LabelExchange.BlockJsonKeys | vgridjs/src/label_state.tsx:29-35 | a block's export has no `new_intervals` key |
| Js.Get | vgridpy/vgrid/label_state.py:25-31 | a dictionary lookup finds a value exactly when the key is present, and that value is stored under the key |
| Js.Put | vgridpy/vgrid/settings.py:11 | `d[k] = v` keeps an existing key in its place and appends a new one last, without moving any other key |
| Js.Delete | vgridjs/src/vgrid.tsx:102-109 | deleting a key leaves only entries of the dictionary without that key, and keeps every other entry |
| Js.GetPut | vgridpy/vgrid/settings.py:11 | after `d[k] = v`, `k` holds `v` and every other key holds what it held |
| Js.PutPut | vgridpy/vgrid/settings.py:11 | writing a key twice keeps the second value |
| Js.PutGet | vgridjs/src/vgrid.tsx:90-95 | writing back the value a key holds changes nothing |
| Js.GetDelete | vgridjs/src/vgrid.tsx:102-109 | after deleting `k`, `k` is absent and every other key holds what it held |
| Js.PutKeepsDistinct | vgridpy/vgrid/settings.py:11 | a write keeps every key present once and makes the written key present |
| Js.Prop | vgridjs/src/drawable.tsx:69 | reading a property of `undefined` or `null` fails with a TypeError; otherwise it gives the field, `undefined` when absent |
| Js.At | vgridjs/src/metadata.tsx:124-126 | indexing `undefined` or `null` fails with a TypeError, and nothing else fails; an array gives its item, a string its one-character string, both `undefined` past the end; an object gives what it holds under the index printed as a decimal key; a number or boolean gives `undefined` |
| Js.Field | vgridjs/src/drawable.tsx:69 | a field is present only on an object that holds that key |
| Js.Round | vgridjs/src/timeline_track.tsx:435-439 | `Math.round` gives an integer more than half below and at most half above the number |
| Text.Split | src/caption_track.tsx:52 | splitting yields at least one piece |
| Text.JoinSplit | src/caption_track.tsx:52 | joining the pieces of a split with the same separator gives the string back |
| Text.SplitOnePieceIff | src/caption_track.tsx:52 | a string splits into more than one piece exactly when it contains the separator |
| Text.ContainsPastFirst | src/caption_track.tsx:52 | past a first character that does not start the separator, a string contains it exactly when its tail does |
| Text.ToLower | vgridjs/src/keyboard.tsx:19 | lower-casing keeps the length, maps each ASCII capital to its small letter and keeps every other character |
| Text.TrimStartSkipsSpace | src/views/Clip.jsx:207 | trimming the start drops exactly the leading white space |
| Text.TrimEndSkipsSpace | src/views/Clip.jsx:207 | trimming the end drops exactly the trailing white space |
| Text.Trim | src/views/Clip.jsx:207 | the trimmed string neither starts nor ends with white space |
| Js.NatToString | vgridjs/src/timeline_track.tsx:439 | a number prints as its decimal digits, most significant first, with no leading zero |
| Text.PadStart2 | vgridjs/src/timeline_track.tsx:439 | padding to two places gives at least two characters and keeps the string at the end |
| Text.ParseIntToString | vgridpy/vgrid/label_state.py:62-69 | `int(str(n)) == n` for every integer |
| Text.JsParseIntToString | vgridjs/src/timeline_track.tsx:158 | `parseInt(String(n)) == n` for every integer |
| Text.LeadingDigitsStop | vgridjs/src/timeline_track.tsx:158 | `parseInt` reads a prefix of digits and stops at the first non-digit |
| Text.ParseInt | vgridpy/vgrid/label_state.py:62-69 | `int(s)` succeeds exactly when what follows an optional leading sign is a non-empty run of decimal digits, and gives their value, negated after a minus; anything else raises `ValueError` naming the string |
| Text.JsParseInt | vgridjs/src/pagination.tsx:34-36 | `parseInt(s)` is `NaN` exactly when no digit follows the leading white space and sign (hexadecimal digits after `0x` or `0X`, decimal ones otherwise); a number read is negative only after a minus and positive only without one |
| Text.HexParses | vgridjs/src/pagination.tsx:34-36 | `0x` followed by hexadecimal digits reads as their base-16 value, and `0x` alone is `NaN` |
| VGrid.Toggled | vgridjs/src/vgrid.tsx:102-109 | a block already selected with the same type is unselected; any other block becomes selected with that type; other blocks keep their selection and keys stay distinct |
| VGrid.DeleteKeepsDistinct | vgridjs/src/vgrid.tsx:106 | deleting a selection keeps every key present once |
| VGrid.ToggleTwice | vgridjs/src/vgrid.tsx:102-109 | selecting a block twice with the same type gives back its lookup when it was unselected or selected with that type (and the exact map when it was unselected); a block selected with the other type ends up unselected |
| VGrid.DeleteAppended | vgridjs/src/vgrid.tsx:106-108 | deleting a key that was just added at the end gives back the original map |
| VGrid.PaletteAt | vgridjs/src/vgrid.tsx:72-75 | a palette index inside the palette gives one of its colours; outside it gives `undefined` |
| VGrid.AssignColors | vgridjs/src/vgrid.tsx:73-75 | the colour loop gives the `i`-th name the `i`-th palette entry and leaves every other key's colour as it was |
| VGrid.AssignStep | vgridjs/src/vgrid.tsx:73-75 | one more name coloured keeps the loop's invariant |
| VGrid.ColorMapAsWritten | vgridjs/src/vgrid.tsx:72-75 | as written the colour map always throws a TypeError: the first block's `interval_sets` is a plain object without `forEach`, and with no blocks there is no first block |
| VGrid.SetNames | vgridjs/src/vgrid.tsx:73 | the names coloured are the first block's set names in key order, none without blocks |
| VGrid.ColorMapFor | vgridjs/src/vgrid.tsx:71-75 | as intended, the `i`-th set of the first block gets the `i`-th palette entry, new intervals get the last entry unless a set has that name, and no other key has a colour |
| VGrid.Settings.constructor | vgridjs/src/vgrid.tsx:90 | a settings object holds the entries it is given |
| VGrid.CopySettings | vgridjs/src/vgrid.tsx:89-95 | every provided key takes the provided value and every other key keeps the value it had, in the shared default object; keys stay distinct |
| VGrid.CopyStep | vgridjs/src/vgrid.tsx:91-93 | one more key copied keeps the loop's invariant |
| VGrid.GetAppend | vgridjs/src/vgrid.tsx:91-93 | looking a key up after appending an entry finds the earlier entry first |
| VGrid.FreshBlockLabels | vgridjs/src/vgrid.tsx:66-69 | each block index from 0 to n-1, and no other, gets a fresh label state |
| VGrid.ExpandAfter | vgridjs/src/vgrid.tsx:135-141 | expanding the expanded block collapses it (`-1`); any other block becomes the expanded one |
| VGrid.VGrid.constructor | vgridjs/src/vgrid.tsx:63-100 | a new grid has no selections, a fresh label state per block, the intended colour map, the provided settings copied into the shared defaults it then holds, an empty undo stack and no expanded block |
| VGrid.VGrid.OnBlockSelected | vgridjs/src/vgrid.tsx:102-109 | selecting toggles the block's selection as `Toggled` says and leaves the block labels alone |
| VGrid.VGrid.OnKeyUp | vgridjs/src/vgrid.tsx:126-132 | `z` undoes and `y` redoes the last labelling action on the block labels; any other key changes nothing; selections are untouched |
| VGrid.VGrid.OnChildExpand | vgridjs/src/vgrid.tsx:135-141 | the expanded block changes as `ExpandAfter` says |
| VBlock.BlockFromJson | vgridjs/src/vblock.tsx:29-35 | an entry decodes exactly when it is not `null` and every set of its `interval_dict` decodes; the block keeps the entry's `video_id` and the decoded sets, in key order |
| VBlock.IntervalBlocksFromJson | vgridjs/src/vblock.tsx:28-37 | anything but an array fails; an array decodes exactly when each of its entries does, giving one block per entry with that entry's `video_id` and the keys of its `interval_dict` |
| VBlock.BlocksFromJson | vgridjs/src/vblock.tsx:29-36 | the `map` over the entries: succeeds exactly when every entry decodes, and then holds each entry's block at the entry's own position |
| VBlock.ShowInTimelineIff | vgridjs/src/vblock.tsx:62-63 | a set is hidden from the timeline exactly when its key starts with `_` |
| VBlock.TimelineSets | vgridjs/src/vblock.tsx:83-85 | the picked sets are sets of the block with shown keys, and every set with a shown key is picked |
| VBlock.FirstTime | vgridjs/src/vblock.tsx:81-88 | no start (the `Infinity` of the source) exactly when no shown set is non-empty; otherwise the start of some shown set's first interval that is at most the start of every shown set's first interval |
| VBlock.FirstTimeIgnoresHidden | vgridjs/src/vblock.tsx:82-88 | adding a set with a hidden key leaves the start time unchanged |
| VBlock.FindCaptions | vgridjs/src/vblock.tsx:91-99 | no captions exactly when no set is non-empty with a caption first interval; otherwise the result is such a set and no later set is one |
| VBlock.DecodedSetsHoldNoCaptions | vgridjs/src/vblock.tsx:93-97 | when every payload was decoded from JSON, no set is taken for captions |
| VBlock.CurrentIntervals | vgridjs/src/vblock.tsx:122-135 | the keys are the block's keys, plus `__new_intervals` when new intervals meet the time; each key holds its set cut down to the intervals meeting the time, and `__new_intervals` the new intervals meeting it when there are any |
| VBlock.CurrentStep | vgridjs/src/vblock.tsx:125-127 | one round of the copy loop keeps the keys equal to the processed prefix and each processed key holding its cut-down set |
| VBlock.SelectClass | vgridjs/src/vblock.tsx:162-167 | `select-positive` exactly for a positive selection, `select-negative` exactly for a negative one, and the empty class exactly when the block is not selected |
| VBlock.BlockSize | vgridjs/src/vblock.tsx:143-152 | the drawn size keeps the video's aspect ratio; collapsed it is 100 high, expanded it is as wide as the narrower of the video and the container |
| VBlock.Block.constructor | vgridjs/src/vblock.tsx:73-100 | the block starts collapsed, its clock at the first time; its captions are the last set, in key order, that is non-empty with a caption first interval, and none exactly when no set is |
| VBlock.Block.OnKeyUp | vgridjs/src/vblock.tsx:102-119 | an error exactly when the dispatch fails; the toggle key flips `expand` and nothing else, a select key leaves `expand` and hands the type to the grid, an unbound key changes nothing |
| VBlock.BindingsTable | vgridjs/src/vblock.tsx:106-115 | standalone `f`, `s`, `x` toggle, select positive and select negative; in a notebook `=` toggles and `s` does nothing |
| LegacyVBlock.Min | src/vblock.tsx:47 | `Math.min` of the running value and a start: `NaN` when either is missing or `NaN`, the start itself against `Infinity`, otherwise the smaller of the two |
| LegacyVBlock.FirstTime | src/vblock.tsx:46-47 | throws exactly when some set is empty; `Infinity` exactly for a block with no sets, `NaN` exactly when some first interval has no start, and otherwise a first-interval start that is at most every set's |
| LegacyVBlock.CaptionsAsWritten | src/vblock.tsx:50-56 | as written the search reads `.data.draw_type` of an interval that has no `data`: it throws exactly when the block has a set, and otherwise finds no captions |
| LegacyVBlock.FindCaptions | src/vblock.tsx:50-56 | as intended (reading the interval's own `draw_type`), throws exactly when some set is empty; otherwise the last set whose first interval is drawn as a caption, or none when there is no such set |
| LegacyVBlock.CurrentIntervals | src/vblock.tsx:78-85 | the result has the block's keys, and every key holds the empty set: the `new Bounds(time)` query meets no interval |
| LegacyVBlock.BlockSize | src/vblock.tsx:91-100 | the drawn size keeps the video's aspect ratio; collapsed it is 100 high, expanded it is the video's own size |
| LegacyVBlock.Block.constructor | src/vblock.tsx:37-43 | a block starts collapsed with the given sets, start time, captions and key mode |
| LegacyVBlock.Block.OnKeyUp | src/vblock.tsx:59-76 | an error exactly when the dispatch fails; the toggle key flips `expand`, a select key hands the type to the grid and leaves `expand`, an unbound key changes nothing |
| LegacyVBlock.NewBlock | src/vblock.tsx:43-57 | as written, building fails exactly when the block has a set, with the start-time error when a set is empty; a built block has no sets, starts at `Infinity`, has no captions and is collapsed |
| LegacyVBlock.NewBlockIntended | src/vblock.tsx:43-57 | as intended, building fails exactly when some set is empty; a built block is collapsed, starts its clock at the first time and shows as captions the last set whose first interval is a caption, or none exactly when no set starts with one |
| LegacyVGrid.LegacyVGrid.constructor | src/vgrid.tsx:31-34 | a new grid has no block selected |
| LegacyVGrid.LegacyVGrid.OnBlockSelected | src/vgrid.tsx:36-44 | the selection becomes the newer grid's toggle of the old one: the entry is deleted when the block was already selected with that type, and set to it otherwise |
| LegacyVGrid.ColorMap | src/vgrid.tsx:47-51 | the map has distinct keys; the `i`-th set name of the first block gets the `i`-th palette entry, and no other name (no name at all when the grid is empty) gets a colour |
| LegacyVGrid.RenderedBlocks | src/vgrid.tsx:55-59 | one drawn block per element, in order; a block is drawn selected exactly when its index is in the selection, with the type stored there |
| LegacyVGrid.SelectionShown | src/vgrid.tsx:36-59 | after a block is selected with a type, it is drawn with that type unless it already was (then unselected), and every other block is drawn as before |
| Viewport.PixelRoundTrip | vgridjs/src/timeline_track.tsx:33-39 | `x_to_time` undoes `time_to_x` and the other way round, and the window's start and end land on pixels 0 and `width` |
| Viewport.ZoomIn | vgridjs/src/timeline_track.tsx:465-498 | with the play time in the window the new window is half as long and inside the old one, centred on the play time when neither edge gets in the way; otherwise it is three quarters as long around the same middle |
| Viewport.ZoomOut | vgridjs/src/timeline_track.tsx:500-531 | the whole video once twice the span does not fit; a window inside the video stays inside it; snapped to the start when the left edge would cross 0; otherwise twice as long around the same middle when it fits |
| Viewport.ZoomInThenOut | vgridjs/src/timeline_track.tsx:465-531 | zooming in on a time well inside the window and out again restores the span, centred on that time unless the start of the video is in the way |
| Viewport.ShiftEarlier | vgridjs/src/timeline_track.tsx:533-545 | the span is kept; nothing moves when the window starts at 0; otherwise it moves earlier but not before 0, snapping to 0 when half a span would cross it |
| Viewport.ShiftLater | vgridjs/src/timeline_track.tsx:547-562 | the span is kept; nothing moves when the window reaches the end; otherwise it moves later but not past the end, snapping to the end when half a span would cross it |
| Viewport.ShiftBackAndForth | vgridjs/src/timeline_track.tsx:533-562 | away from both edges, shifting earlier and then later gives back the window |
| Viewport.Navigate | vgridjs/src/timeline_track.tsx:155-171 | the slider keeps the span, keeps a window no longer than the video inside it, and centres it on the slider's time when it fits |
| Viewport.DragTo | vgridjs/src/timeline_track.tsx:316-329 | a drag only moves the window to one that starts at or after 0 and ends before the video does; the moved window has the clicked span, shifted against the mouse by the time it moved over |
| Viewport.DragBackToClick | vgridjs/src/timeline_track.tsx:316-329 | dragging back to the click point gives the window of the click |
| Viewport.TickParts | vgridjs/src/timeline_track.tsx:436-438 | minutes and seconds are below 60 and the three parts add up to the whole seconds of the tick's time |
| Viewport.TickLabelShape | vgridjs/src/timeline_track.tsx:439 | in the first hundred hours a tick's label is `hh:mm:ss`: eight characters with colons at positions 2 and 5 |
| Viewport.ClockShape | vgridjs/src/timeline_track.tsx:439 | three two-character parts joined by colons make an eight-character label with colons at positions 2 and 5 |
| Viewport.TwoDigits | vgridjs/src/timeline_track.tsx:439 | a number below 100 padded to two places is two characters long |
| Timeline.TimeState.constructor | vgridjs/src/vblock.tsx:89 | the play time starts at the given time |
| Timeline.TimelineBounds.constructor | vgridjs/src/timeline_track.tsx:124-126 | a window starts as `[0, 0]` |
| Timeline.TimelineBounds.SetBounds | vgridjs/src/timeline_track.tsx:132-136 | the window becomes the given one |
| Timeline.TimelineTrack.constructor | vgridjs/src/timeline_track.tsx:614-620 | the timeline starts by showing the whole video, `[0, num_frames / fps]` |
| Timeline.TimelineControls.constructor | vgridjs/src/timeline_track.tsx:456-461 | the controls share the given play time and window |
| Timeline.TimelineControls.ZoomIn | vgridjs/src/timeline_track.tsx:465-498 | the shared window becomes the zoom-in of the old one around the play time, with the properties stated for `Viewport.ZoomIn` |
| Timeline.TimelineControls.ZoomOut | vgridjs/src/timeline_track.tsx:500-531 | the shared window becomes the zoom-out of the old one within the video |
| Timeline.TimelineControls.ShiftEarlier | vgridjs/src/timeline_track.tsx:533-545 | the shared window becomes the earlier shift of the old one |
| Timeline.TimelineControls.ShiftLater | vgridjs/src/timeline_track.tsx:547-562 | the shared window becomes the later shift of the old one |
| Timeline.TimelineNavigator.constructor | vgridjs/src/timeline_track.tsx:150-153 | the navigator shares the given window |
| Timeline.TimelineNavigator.HandleChange | vgridjs/src/timeline_track.tsx:155-174 | the shared window becomes the old span placed at the slider's time, with the properties stated for `Viewport.Navigate` |
| Timeline.RowRect | vgridjs/src/timeline_track.tsx:106-113 | an interval is drawn exactly when it reaches into the window; its rectangle is never left of the canvas and at least a pixel wide, starts at its start's pixel when that is on the canvas, and ends at its end's pixel when that is at least a pixel further |
| Timeline.RowRects | vgridjs/src/timeline_track.tsx:106-114 | at most one rectangle per interval, none exactly when no interval reaches into the window, one for each when all do, each on the canvas and at least a pixel wide |
| Timeline.DrawRow | vgridjs/src/timeline_track.tsx:98-117 | the drawing loop fills exactly the rectangles of `RowRects`, in order |
| Timeline.PointInterval | vgridjs/src/timeline_track.tsx:254-255 | the created interval is the instant of the play time, with a box and no metadata |
| Timeline.AddIntervalUndoes | vgridjs/src/timeline_track.tsx:257-261 | the pushed action's `undo` takes back its `do_` for an interval the block's new intervals do not already hold |
| Timeline.RecycleKeepsMembers | vgridjs/src/timeline_track.tsx:354-358 | taking the stretched interval out and putting it back keeps which intervals the block's set holds, and the blocks the label state has |
| Timeline.ReAddKeepsIds | vgridjs/src/timeline_track.tsx:357-358 | removing an interval and adding it again leaves the set holding exactly the old identities and the re-added one |
| Timeline.Timeline.constructor | vgridjs/src/timeline_track.tsx:241-247 | a timeline starts with Shift not held, no drag and no interval being created |
| Timeline.Timeline.CreateInterval | vgridjs/src/timeline_track.tsx:249-267 | with no interval in progress the add action for an instant at the play time is pushed and run, and that interval is remembered; otherwise only creation stops; the selection, Shift and the drag are untouched |
| Timeline.Timeline.DidUpdate | vgridjs/src/timeline_track.tsx:342-361 | while creating, once the play time is past the interval's start and differs from its end, the end becomes the play time and the interval is cycled through the block's set; otherwise nothing changes |
| Timeline.Timeline.OnKeyDown | vgridjs/src/timeline_track.tsx:279-283 | pressing Shift holds it, and nothing else changes |
| Timeline.Timeline.OnKeyUp | vgridjs/src/timeline_track.tsx:285-291 | releasing Shift lets it go; the bound key, with no interval in progress, pushes the add action for an instant at the play time onto the undo stack and adds that instant to the block's new intervals; with one in progress it only clears the slot; an unbound key changes no interval and no undo stack |
| Timeline.Timeline.OnMouseLeave | vgridjs/src/timeline_track.tsx:293-297 | leaving ends any drag and lets Shift go |
| Timeline.Timeline.OnMouseDown | vgridjs/src/timeline_track.tsx:299-314 | with Shift held a drag starts, remembering the click and the window; otherwise the drag is unchanged |
| Timeline.Timeline.OnMouseMove | vgridjs/src/timeline_track.tsx:316-329 | while dragging the window becomes `Viewport.DragTo` of the drag when that gives one; otherwise the window is unchanged |
| Timeline.Timeline.OnMouseUp | vgridjs/src/timeline_track.tsx:331-340 | a plain click moves the play time to the clicked time; the end of a drag only ends the drag |
| Timeline.RowKeys | vgridjs/src/timeline_track.tsx:364-369 | one row per named set, in order, then a `__new_intervals` row when there are new intervals |
| Timeline.RowSet | vgridjs/src/timeline_track.tsx:387-390 | a row keyed `__new_intervals` draws the new intervals, any other row the set at its own position |
| LegacyTimeline.ShallowCompare | src/timeline_track.tsx:33-37 | true exactly when both have as many keys and every key of the first holds the identical value in the second |
| LegacyTimeline.EveryKeyMatches | src/timeline_track.tsx:35-37 | true exactly when every key of the first holds the identical value in the second |
| LegacyTimeline.ShallowCompareFacts | src/timeline_track.tsx:33-37 | props compare equal to themselves, and changing one prop's value makes them differ |
| LegacyTimeline.IntervalList.constructor | src/timeline_track.tsx:50-54 | a list starts with the given intervals and not dirty (the `dirty` property is unset until the timeline writes it) |
| LegacyTimeline.ShouldRowUpdate | src/timeline_track.tsx:49-51 | a row redraws exactly when its set is dirty or its props changed |
| LegacyTimeline.RowRect | src/timeline_track.tsx:56-60 | an interval gets a rectangle exactly when both its times are set; the rectangle starts at its start's share of the whole video's width |
| LegacyTimeline.RenderRow | src/timeline_track.tsx:53-63 | one rectangle per interval, in order, and the dirty mark cleared, the intervals untouched |
| LegacyTimeline.RowsLineUpWithCursor | src/timeline_track.tsx:246-259 | on the canvas shifted left by the window's start, an interval's rectangle starts at the cursor's pixel for its start time |
| LegacyTimeline.CreatedInterval | src/timeline_track.tsx:132 | the interval `i` pushes has the play time as its domain and no times, draw type or metadata |
| LegacyTimeline.LegacyTimeline.constructor | src/timeline_track.tsx:117-125 | a timeline starts with Shift not held and nothing being created from time 0 |
| LegacyTimeline.LegacyTimeline.CreateInterval | src/timeline_track.tsx:127-142 | the first press appends the created interval to the block's list, marks it dirty and remembers the play time; the second only stops creating |
| LegacyTimeline.LegacyTimeline.DidUpdate | src/timeline_track.tsx:218-233 | throws exactly when creating with an empty list and the play time past the start (the last interval is read only then); while creating, once the play time is past the start and differs from the last interval's end, that end becomes the play time and the list is dirty; otherwise nothing changes |
| LegacyTimeline.LegacyTimeline.OnKeyDown | src/timeline_track.tsx:154-158 | pressing Shift holds it; creation state is unchanged |
| LegacyTimeline.LegacyTimeline.OnKeyUp | src/timeline_track.tsx:160-166 | releasing Shift lets it go; fails exactly when the dispatch does; the bound key flips creation, any other key leaves creation and the list as they were |
| LegacyTimeline.CreatedIntervalHasNoStart | src/timeline_track.tsx:132-228 | the created interval, even stretched to a later time, has no start and meets no query by time |
| TrackEditor.FrameAt | src/views/Timeline.jsx:247-355 | the frame of a play time is the frame count `t * fps` rounded, within half a frame of it |
| TrackEditor.Pushed | src/views/Timeline.jsx:215-223 | the snapshot goes on top; with ten already stored the oldest is dropped |
| TrackEditor.PushedBounded | src/views/Timeline.jsx:215-223 | the stack never holds more than ten snapshots, and the newest is on top |
| TrackEditor.Merged | src/views/Timeline.jsx:235-239 | one track fewer; the previous track now ends where track `i` ended, the tracks before it are unchanged and the later ones move up by one |
| TrackEditor.SplitAt | src/views/Timeline.jsx:241-253 | one track more; track `i` ends at the frame and is followed by a copy of it without topics that starts there; the other tracks keep their order |
| TrackEditor.Deleted | src/views/Timeline.jsx:256-259 | one track fewer; the tracks before `i` are unchanged and the later ones move up by one |
| TrackEditor.IndexOf | src/views/Timeline.jsx:231 | the first position of the gender among the keys, or -1 exactly when it has none or is not among them |
| TrackEditor.NextGender | src/views/Timeline.jsx:229-231 | no genders give none; a track with no known gender or the last one gets the first key; otherwise the next larger key |
| TrackEditor.NextKey | src/views/Timeline.jsx:230-231 | in ascending keys the key after position `i` is the least key above the one at `i` |
| TrackEditor.GenderCycle | src/views/Timeline.jsx:227-232 | from the first gender, pressing `g` `n` times gives the `n`-th, and once per gender comes back to the first |
| TrackEditor.IndexOfDistinct | src/views/Timeline.jsx:231 | in ascending keys a key's first position is its position |
| TrackEditor.Trimmed | src/views/Timeline.jsx:362-378 | a track that ends inside or encloses the new one is cut back to its start; one that starts inside it is moved to its end; any other is unchanged |
| TrackEditor.NewTrack | src/views/Timeline.jsx:389-396 | the inserted track covers the marked frames of the group's video and has no gender, topics or identity |
| TrackEditor.InsertByMin | src/views/Timeline.jsx:397 | inserting into tracks ordered by first frame keeps them ordered and adds exactly that track |
| TrackEditor.ConsSorted | src/views/Timeline.jsx:397 | putting back the smallest track in front keeps the order and the tracks |
| TrackEditor.SortByMin | src/views/Timeline.jsx:397 | the result is ordered by first frame and holds exactly the same tracks |
| TrackEditor.AfterInsert | src/views/Timeline.jsx:386-397 | the tracks after the second `i` are ordered by first frame and are exactly the kept tracks, the second parts of enclosing tracks and the new track |
| TrackEditor.CoveredKept | src/views/Timeline.jsx:381-387 | as written, a track inside the new one is among the kept tracks |
| TrackEditor.CoveredTrackSurvives | src/views/Timeline.jsx:381-387 | as written, a track lying strictly inside the new one survives the insertion unchanged, overlapping the new track |
| TrackEditor.KeptClear | src/views/Timeline.jsx:359-384 | with covered tracks deleted, every kept track ends by the new track's start or starts from its end |
| TrackEditor.AddedClear | src/views/Timeline.jsx:373-378 | every second part starts at the new track's end |
| TrackEditor.InsertClears | src/views/Timeline.jsx:348-400 | with covered tracks deleted, the new track is present and every other track ends by its start or begins at or after its end |
| TrackEditor.CoveredIndices | src/views/Timeline.jsx:380-383 | exactly the indices of the tracks lying inside the new one, ascending |
| TrackEditor.CutAround | src/views/Timeline.jsx:357-387 | as written, the trimming loop keeps every track, trimmed, yields the second parts of enclosing tracks, and lists the covered tracks for a deletion that removes none |
| TrackEditor.TracksAt | src/views/Timeline.jsx:411-412 | exactly the indices of the tracks holding the frame, ascending |
| TrackEditor.LastStarted | src/views/Timeline.jsx:325-328 | the last track started by the frame: it has started and no later track has; none exactly when no track has started |
| TrackEditor.ToggleSpeed | src/views/Timeline.jsx:338-346 | away from normal speed it goes to normal and remembers the old speed; at normal speed it goes back to the remembered one |
| TrackEditor.ToggleSpeedTwice | src/views/Timeline.jsx:338-346 | pressing `r` twice away from normal speed gives back that speed |
| TrackEditor.TrackEditor.constructor | src/views/Timeline.jsx:142-157 | the editor starts at time 0, with no undo snapshots, no mark, no display time, the mouse away and the video not playing; the remembered speed is the speed the first render finds (Timeline.jsx:460-462) |
| TrackEditor.TrackEditor.PushState | src/views/Timeline.jsx:215-223 | the undo stack becomes the push of the current tracks and nothing else changes |
| TrackEditor.TrackEditor.TrackKeyPress | src/views/Timeline.jsx:225-267 | `g`, `m`, `n`, `d` snapshot first and then change the gender, merge, split at the play time's frame or delete; merging the first track throws after the snapshot; `t` opens the topic selection; any other key changes nothing |
| TrackEditor.TrackEditor.UndoKey | src/views/Timeline.jsx:403-408 | the last snapshot replaces the tracks and leaves the stack; with none nothing changes |
| TrackEditor.TrackEditor.InsertKey | src/views/Timeline.jsx:348-401 | the first press marks the play time; the second pushes a snapshot, inserts the track between the two marks' frames as written (tracks inside it stay, see `CoveredTrackSurvives`) and clears the mark |
| TrackEditor.TrackEditor.EnterKey | src/views/Timeline.jsx:324-336 | throws exactly when no track has started by the play time; otherwise it jumps a tenth of a second into the track after (with Shift, before) that one, when there is one |
| TrackEditor.TrackEditor.SpeedKey | src/views/Timeline.jsx:338-346 | the playback speed and the remembered speed become the toggle of the old ones |
| TrackEditor.TrackEditor.KeyPress | src/views/Timeline.jsx:313-421 | nothing changes unless the video plays or the mouse is over the editor; then an empty group throws and changes nothing; Enter jumps to the start of the track after (Shift: before) the last one started, throwing when none has started; `r` toggles the speed; the first `i` marks the play time and the second snapshots and inserts as written; `z` restores the last snapshot, or changes nothing without one; any other key acts as `_onTrackKeyPress` on the one track under the play time (`g` cycles its gender, `t` opens the topic selection, `m`, `n`, `d` as there) and changes nothing when there are zero or several; each key leaves every field it does not name as it was |
| TrackEditor.TrackEditor.OnMouseOver | src/views/Timeline.jsx:424-426 | the mouse is over the editor, so it listens to keys |
| TrackEditor.TrackEditor.OnMouseOut | src/views/Timeline.jsx:428-430 | the mouse has left, so keys are heard only while the video plays |
| Groups.Span | src/views/Groups.jsx:182-319 | exactly the indices from `lo` up to but not including `hi` |
| Groups.SpanStep | src/views/Groups.jsx:182-186 | one more round of a counting loop adds exactly the next index |
| Groups.RangeSelectionIsInterval | src/views/Groups.jsx:41-47 | in RANGE mode with no start nothing is selected; otherwise a group is selected exactly when it lies from the start to the end (the start alone with no end) |
| Groups.RangeSelect | src/views/Groups.jsx:137-164 | clicking the start clears the range; otherwise the new start is the click or the earlier of the click and the old start; a well-formed range stays well formed and holds the click |
| Groups.Toggled | src/views/Groups.jsx:165-221 | the clicked group's membership flips; when it joins, it leaves the other set; every other group is unchanged; disjoint sets stay disjoint |
| Groups.ToggledTwice | src/views/Groups.jsx:165-221 | toggling twice gives back the first set and leaves the group out of the other |
| Groups.PageToggled | src/views/Groups.jsx:191-248 | the page's groups all leave the set when all were in it and all join it otherwise; they leave the other set; groups off the page are unchanged; disjoint sets stay disjoint |
| Groups.LabelledAsWritten | src/views/Groups.jsx:68-92 | as written, `a` labels nothing in INDIVIDUAL mode, and in RANGE mode the unignored groups of the range |
| Groups.IndividualLabelsNothing | src/views/Groups.jsx:69-87 | a group can be selected in INDIVIDUAL mode while `a` labels nothing |
| Groups.Labelled | src/views/Groups.jsx:73-92 | as intended, `a` labels in INDIVIDUAL mode the selected unignored groups, and in RANGE mode the unignored groups of the range, or none with no start |
| Groups.LabelledAreSelected | src/views/Groups.jsx:41-92 | as intended, `a` labels exactly the groups that are selected and not ignored |
| Groups.LastPage | src/views/Groups.jsx:250-252 | the last page index is -1 with no groups; otherwise it is the page whose range holds the last group |
| Groups.Visible | src/views/Groups.jsx:317-319 | a page shows exactly the indices from its first up to the lesser of the next page's first and the number of groups |
| Groups.NextPage | src/views/Groups.jsx:254-257 | never past the last page, and one on when there is a next page |
| Groups.PrevPage | src/views/Groups.jsx:259-262 | never below 0, and one back when there is a previous page |
| Groups.TypedPage | src/views/Groups.jsx:303-306 | the `NaN` page exactly when `parseInt` reads no number (hexadecimal after `0x` included); otherwise never past the last page nor, when a page exists, below the first, and the typed page when it exists |
| Groups.OnPage | src/views/Groups.jsx:317-319 | a group is on a page exactly when the page is its index divided by the page size |
| Groups.PagesCoverGroups | src/views/Groups.jsx:250-319 | with at least one group, every group is on exactly one page, which exists, and the page buttons stay on pages that exist |
| Groups.EmptyNextPageGoesNegative | src/views/Groups.jsx:250-319 | with no groups the next-page button goes to page -1, whose indices are negative |
| Groups.GroupsView.constructor | src/views/Groups.jsx:26-34 | the grid starts on page 0 with no range, no selection, nothing ignored and no examples |
| Groups.GroupsView.ColorClassOf | src/views/Groups.jsx:49-60 | ignored wins over selected, selected over positive, positive over negative |
| Groups.GroupsView.OnSelect | src/views/Groups.jsx:137-178 | RANGE mode moves the range as `RangeSelect` does, INDIVIDUAL mode toggles the group against the ignored set, any other mode changes nothing; the grid stays valid |
| Groups.GroupsView.OnIgnore | src/views/Groups.jsx:215-224 | the group is toggled in the ignored set, leaving the selection when it joins; the grid stays valid |
| Groups.GroupsView.OnSelectUpTo | src/views/Groups.jsx:180-189 | every unignored group from 0 to the clicked one joins the selection, and nothing else changes |
| Groups.GroupsView.PageSpan | src/views/Groups.jsx:192-229 | the current page's indices, up to the number of groups |
| Groups.GroupsView.OnSelectPage | src/views/Groups.jsx:191-213 | the page's groups are toggled in the selection as `PageToggled` does, and leave the ignored set |
| Groups.GroupsView.OnIgnorePage | src/views/Groups.jsx:226-248 | the page's groups are toggled in the ignored set as `PageToggled` does, and leave the selection |
| Groups.GroupsView.OnNextPage | src/views/Groups.jsx:254-257 | the page becomes the next page, and nothing else changes |
| Groups.GroupsView.OnPrevPage | src/views/Groups.jsx:259-262 | the page becomes the previous page, and nothing else changes |
| Groups.GroupsView.LabelKey | src/views/Groups.jsx:68-92 | as intended, the labelled groups are `Labelled` of the state, and they join the positive examples at once |
| Groups.GroupsView.OnSaved | src/views/Groups.jsx:102-110 | a successful save clears the range and the selection, and keeps the rest |
| Groups.LabelledAreShownSelected | src/views/Groups.jsx:49-92 | in a valid grid, as intended, `a` labels exactly the groups drawn as selected |
| Groups.KeyAction | src/views/Groups.jsx:347-383 | `?` selects up to the group in both key sets, and no other key does |
| Groups.KeyTableInverse | src/views/Groups.jsx:347-363 | in each key set every action has exactly one key and every bound key one action |
| Groups.GroupCard.constructor | src/views/Groups.jsx:338-340 | a group starts collapsed |
| Groups.GroupCard.KeyPress | src/views/Groups.jsx:342-384 | the key's action runs on this group: expand flips, select, ignore, the page actions and select-up-to change the grid as their handlers state, and other keys change no selection |
| Clip.TurnsOf | src/views/Clip.jsx:213-219 | one trimmed turn per piece, in order, every one with the given start and end |
| Clip.Middle | src/views/Clip.jsx:212-219 | the pieces between the first and last mark each become a turn from the cue's start to its end |
| Clip.Emitted | src/views/Clip.jsx:198-233 | every turn one cue emits ends where that cue ends |
| Clip.StepWithMarks | src/views/Clip.jsx:200-222 | a cue with marks emits the turn in progress from the start of its mark, then a turn per middle piece from the cue's start, and opens the next turn with the piece after its last mark |
| Clip.StepInsideTurn | src/views/Clip.jsx:200-204 | a cue without a mark inside a turn only extends the turn's text |
| Clip.StepOutsideTurn | src/views/Clip.jsx:223-232 | a cue without a mark outside a turn becomes a turn of its own with its own times |
| Clip.TurnsAsWritten | src/views/Clip.jsx:179-235 | the merge fails exactly when the server sends no cues |
| Clip.TrailingTextDropped | src/views/Clip.jsx:221-235 | as written, the cue `> >b` yields one empty turn, and the word after the mark is lost |
| Clip.Turns | src/views/Clip.jsx:179-235 | as intended, the merge fails exactly when there are no cues |
| Clip.LastTurnKept | src/views/Clip.jsx:221-235 | as intended, text after the last mark of the last cue becomes the last turn, with that cue's times |
| Clip.OnePerCue | src/views/Clip.jsx:223-232 | one turn per cue, in order, each the cue's trimmed text and times |
| Clip.MergeWithoutArrows | src/views/Clip.jsx:186-232 | merging cues without marks from an empty turn emits one turn per cue |
| Clip.NoArrowsOnePerCue | src/views/Clip.jsx:185-232 | when no cue holds a mark, every cue is a turn of its own |
| Clip.EndTimesFromCues | src/views/Clip.jsx:197-233 | the merge only appends, and every turn it emits ends where some cue ends |
| Clip.MergeSubtitles | src/views/Clip.jsx:178-235 | the loop builds exactly the turns of `TurnsAsWritten`, failing on no cues |
| Clip.AnyArrows | src/views/Clip.jsx:185-190 | true exactly when some cue holds a mark |
| Clip.MergeCue | src/views/Clip.jsx:198-232 | one round of the loop moves the state as one merge step does |
| Clip.PushMiddle | src/views/Clip.jsx:213-219 | appends exactly the middle turns |
| Clip.StartedBy | src/views/Clip.jsx:325-328 | a count of leading turns that all have started, with the next one (if any) not yet started |
| Clip.CurrentSub | src/views/Clip.jsx:325-330 | the turn before the first that has not started, or the first turn when none has |
| Clip.CurrentSubIsLastStarted | src/views/Clip.jsx:325-330 | with turns in start order and one started, the highlighted turn has started and every later one has not |
| Clip.DisplayFrame | src/views/Clip.jsx:276-282 | the clip's own frame when given; otherwise, with the middle-frame setting and a non-zero end, the midpoint of first and last frame rounded half up (within half a frame of it), so between them when the clip is ordered; otherwise the first frame |
| Clip.ClipView.constructor | src/views/Clip.jsx:20-174 | a clip starts with the video off, not looping, not loaded, with no captions and no highlighted turn |
| Clip.ClipView.OnKeyPress | src/views/Clip.jsx:37-61 | the play key loads the video to play once, the load key to loop, each in both key sets; other keys and disabled playback change nothing |
| Clip.ClipView.OnLoadedData | src/views/Clip.jsx:88-91 | a loading video is shown, a video in any other state switched off, and the video is marked loaded |
| Clip.ClipView.OnMouseLeave | src/views/Clip.jsx:80-86 | an unexpanded clip switches its video off; an expanded one keeps it |
| Clip.ClipView.DidUpdate | src/views/Clip.jsx:97-100 | after an update an unexpanded clip is not playing |
| Clip.ClipView.OnTimeUpdate | src/views/Clip.jsx:155-156 | the player's time is remembered and nothing else changes |
| Clip.ClipView.OnSubtitles | src/views/Clip.jsx:178-235 | the merged turns become the captions; an empty answer leaves them as they were |
| Clip.ClipView.RenderSubtitles | src/views/Clip.jsx:319-330 | with captions loaded, the highlighted turn is the one `CurrentSub` finds at the current time |
| CaptionTrack.CaptionText | src/caption_track.tsx:51-52 | a caption's text is readable exactly when its draw type is a caption holding a string; anything else makes `split` throw |
| CaptionTrack.WithText | src/caption_track.tsx:58-59 | a piece keeps the caption's bounds and metadata and carries the given text |
| CaptionTrack.Pieces | src/caption_track.tsx:52-65 | one caption per piece of the split text, each with the caption's bounds and metadata |
| CaptionTrack.PiecesRebuildText | src/caption_track.tsx:52-59 | the pieces of a caption, read back in order with the delimiter restored in front of all but the first, give the caption's text |
| CaptionTrack.Singletons | src/caption_track.tsx:57-64 | each middle piece is a group of its own |
| CaptionTrack.StepFacts | src/caption_track.tsx:50-66 | adding one caption appends exactly its pieces to the groups, and closes one group fewer than it has pieces |
| CaptionTrack.GroupedOkIff | src/caption_track.tsx:50-52 | the grouping fails exactly when some caption has no text, with the error of `split` |
| CaptionTrack.GroupedFacts | src/caption_track.tsx:43-69 | the groups hold every caption's pieces in input order, and the number of closed groups is the number of delimiters found |
| CaptionTrack.Finish | src/caption_track.tsx:69-73 | the trailing group is always added; the first group is dropped when its first caption's text is empty; with an empty first group reading its caption throws |
| CaptionTrack.CaptionGroups | src/caption_track.tsx:40-73 | the constructor's groups are `Finish` of the grouping, or the grouping's error |
| CaptionTrack.GroupCaptions | src/caption_track.tsx:48-67 | the loop builds the grouping of all the captions, stopping at the first without a text |
| CaptionTrack.GroupedStops | src/caption_track.tsx:50-52 | one caption without a text makes the whole grouping fail with its error |
| CaptionTrack.StepOneText | src/caption_track.tsx:54-55 | a caption without the delimiter joins the current group whole |
| CaptionTrack.AddPieces | src/caption_track.tsx:56-65 | the inner loop adds a caption's pieces as one grouping step does: the first piece ends the current group, each middle piece is a group, the last starts the next group |
| CaptionTrack.FirstGroupDropped | src/caption_track.tsx:50-73 | with at least one caption, the first group is never empty, and it is dropped exactly when the first caption's text is empty or starts with the delimiter |
| CaptionTrack.FirstGroupStart | src/caption_track.tsx:50-69 | the first group starts with the first piece of the first caption |
| CaptionTrack.FirstPieceEmpty | src/caption_track.tsx:52-71 | the first piece of a text is empty exactly when the text is empty or starts with the delimiter |
| CaptionTrack.CurrentGroup | src/caption_track.tsx:92-101 | the first group whose last caption starts at or after the play time, or group 0 when none does; every group before it is non-empty and starts earlier; it throws on no groups or on an empty group reached first |
| Pagination.LastPage | vgridjs/src/pagination.tsx:22-23 | -1 with no blocks; otherwise the page whose range holds the last block |
| Pagination.Clamp | vgridjs/src/pagination.tsx:49-50 | a position clipped into the list |
| Pagination.WindowIsSlice | vgridjs/src/pagination.tsx:49-50 | the filter keeps exactly the contiguous run of blocks from the lower index up to but excluding the upper, clipped to the list |
| Pagination.VisibleIsPage | vgridjs/src/pagination.tsx:49-50 | page `p` shows exactly the blocks with index from `p * bpp` up to `(p + 1) * bpp`, clipped to the list |
| Pagination.EveryBlockHasAPage | vgridjs/src/pagination.tsx:23-50 | every block lies on a page between the first and the last |
| Pagination.ShowButtons | vgridjs/src/pagination.tsx:44 | buttons are shown exactly when the setting asks for them or the last page index is above 1 |
| Pagination.TwoPagesNoButtons | vgridjs/src/pagination.tsx:23-44 | with more than one and at most two pages of blocks the last page index is 1, so by default no buttons are shown |
| Pagination.BlockPagination.constructor | vgridjs/src/pagination.tsx:19 | paging starts on page 0 |
| Pagination.BlockPagination.Prev | vgridjs/src/pagination.tsx:27-29 | one page back, never below 0; a `NaN` page stays `NaN` |
| Pagination.BlockPagination.Next | vgridjs/src/pagination.tsx:30-32 | one page on, never past the last; a valid page stays valid; a `NaN` page stays `NaN` |
| Pagination.BlockPagination.Typed | vgridjs/src/pagination.tsx:34-37 | the number `parseInt` reads (decimal, or hexadecimal after `0x`), counted from 1 and clamped to the pages; a valid page when it reads one and a page exists; `NaN` when it reads none |
| Database.IndexBy | vgridjs/src/database.tsx:25-48 | the dictionary a `forEach` fill builds never holds a key twice |
| Database.GetIndexByLast | vgridjs/src/database.tsx:26-48 | after the last element is stored, its key gives it and every other key gives what it gave before |
| Database.UntouchedKey | vgridjs/src/database.tsx:26-48 | elements with other keys stored later leave what a key gives unchanged |
| Database.LastWins | vgridjs/src/database.tsx:26-48 | a key gives the last element that has it: a later element overwrites an earlier one |
| Database.AbsentKey | vgridjs/src/database.tsx:26-48 | a key no element has is not stored |
| Database.IndexByDistinct | vgridjs/src/database.tsx:26-48 | with distinct keys nothing is overwritten and the elements are stored in their own order |
| Database.Table.constructor | vgridjs/src/database.tsx:23-27 | a table keeps its name and indexes every row by its `id` |
| Database.Table.Lookup | vgridjs/src/database.tsx:29-35 | a stored id gives the row stored under it; any other id throws the missing-row error |
| Database.LookupFindsLastRow | vgridjs/src/database.tsx:23-35 | in a table built from rows, looking up an id gives the last row with that id |
| Database.LookupMissingRow | vgridjs/src/database.tsx:23-35 | in a table built from rows, looking up an id no row has throws |
| Database.Database.constructor | vgridjs/src/database.tsx:46-49 | the database indexes every table by its name, a later table replacing an earlier one of the same name |
| Database.Database.TableNamed | vgridjs/src/database.tsx:51-56 | a stored name gives its table; a name inherited from `Object.prototype` passes the `in` test and gives no table; any other name throws the missing-table error |
| Database.Database.FromJson | vgridjs/src/database.tsx:58-60 | it succeeds exactly when every key holds an array without `null`; then with distinct keys the database holds one table per key, named by it and indexing the rows listed under it |
| Database.Database.BuildTables | vgridjs/src/database.tsx:59 | one new table per entry, in order, or a type error when an entry is not an array of rows |
| Database.TablesByName | vgridjs/src/database.tsx:46-59 | tables named after distinct keys are all kept, each under its own name, and under no other name |
| PyIntervalBlock.MetadataToJson | vgridpy/vgrid/interval_block.py:53-55 | the metadata keeps its keys in order with each value converted by its own `to_json`; it fails exactly when some value has none, with that value's error |
| PyIntervalBlock.Converted | vgridpy/vgrid/interval_block.py:51-56 | the returned dict holds the converted spatial type, then the converted metadata; a failing spatial type is reported first, then metadata without `items` |
| PyIntervalBlock.PayloadJson | vgridpy/vgrid/interval_block.py:41-56 | a payload that is not a dict holding a `SpatialType` under `'spatial_type'` is written as a box with no metadata; otherwise its own spatial type is written, with empty metadata when the key is missing |
| PyIntervalBlock.PayloadToJson | vgridpy/vgrid/interval_block.py:41-56 | the result is what the payload denoted before the call, and again after it; a dict that passes the check but lacks `'metadata'` gets a new empty dict appended under that key, and no other dict changes |
| PyIntervalBlock.WriteKeepsOthers | vgridpy/vgrid/interval_block.py:48-49 | when writing one payload leaves every other dict as it was and keeps its own spatial type, no dict's spatial type changes, every dict that had `'metadata'` keeps it, and when no metadata dict is itself among the dicts every dict converts as it did before |
| PyIntervalBlock.PayloadDicts | vgridpy/vgrid/interval_block.py:61 | every dict payload of the intervals is in the set |
| PyIntervalBlock.WriteInterval | vgridpy/vgrid/interval_block.py:41-61 | writing one interval fails exactly when its payload, as it stood before, does not convert; otherwise it gives the bounds and the payload converted with the spatial type it held; its dict then has `'metadata'`, and succeeds exactly when that dict converted before; no dict's spatial type changes |
| PyIntervalBlock.NamedSetToJson | vgridpy/vgrid/interval_block.py:58-62 | the name as given and one written interval per interval, in order, each with the spatial type its payload held before; afterwards every payload dict has `'metadata'` and no dict's spatial type changed; a value that is not an interval set has no `to_json`; when no metadata dict is itself a payload dict, it succeeds exactly when the value is an interval set whose every payload dict converts |
| PyIntervalBlock.WriteIntervals | vgridpy/vgrid/interval_block.py:61 | the intervals written in order, one item each with the spatial type its payload held, every payload dict then holding `'metadata'`; when no metadata dict is itself a payload dict, it succeeds exactly when every payload dict converts, and no dict's conversion changes |
| PyIntervalBlock.AllWrittenSnoc | vgridpy/vgrid/interval_block.py:61 | writing one more interval keeps every interval written so far |
| PyIntervalBlock.BlockToJson | vgridpy/vgrid/interval_block.py:15-19 | exactly the keys `interval_sets` and `video_id`: one set per named set, in order, each written as its own `to_json` writes it (name, then interval by interval with the spatial type its payload held before the call), then the video id unchanged; no payload's spatial type changes; any value that is not an interval set makes it fail, and when no metadata dict is itself a payload dict it succeeds exactly when every set is an interval set and every payload dict converts |
| PyIntervalBlock.WriteSets | vgridpy/vgrid/interval_block.py:17 | the named sets written in order, each as its own `to_json` writes it; when no metadata dict is itself a payload dict, it succeeds exactly when every set is an interval set and every payload dict converts |
| PyVisFormat.SetsFor | vgridpy/vgrid/vis_format.py:26-29 | one named set per `(name, imap)` pair, in order, holding `imap[video_key]`; it raises `KeyError` exactly when some mapping lacks the video |
| PyVisFormat.BlocksFor | vgridpy/vgrid/vis_format.py:23-31 | one block per video key, in order, with that video's sets and its id; it fails exactly when some video's sets fail |
| PyVisFormat.VideoBlocks | vgridpy/vgrid/vis_format.py:21-31 | no mappings raise `IndexError`; otherwise it succeeds exactly when every mapping has every video of the first, and then gives one block per video of the first mapping holding one set per pair |
| PyVisFormat.AllKeysPresent | vgridpy/vgrid/vis_format.py:22-31 | blocks are built for every video of the first mapping exactly when every mapping has all of them |
| PyVisFormat.Tagged | vgridpy/vgrid/vis_format.py:51-52 | each interval of one video paired with that video's id, in order |
| PyVisFormat.AllIntervals | vgridpy/vgrid/vis_format.py:51-52 | the intervals of every video, as many as the mapping holds |
| PyVisFormat.FlatBlocks | vgridpy/vgrid/vis_format.py:44-53 | one block per interval, video by video and in each video's order, each with one `'default'` set holding just that interval |
| PyVisFormat.NestedBlocks | vgridpy/vgrid/vis_format.py:69-78 | one block per top-level interval, in the same order, whose `'default'` set is that interval's payload |
| PyVisFormat.IntervalBlocks | vgridpy/vgrid/vis_format.py:7-78 | the abstract format always fails, the video format fails exactly when it has no mappings or a mapping lacks a video, and the flat and nested formats give one block per interval |
| PySpec.NewVideoMetadata | vgridpy/vgrid/spec.py:22-46 | with `fps` given every argument is stored unchanged; without it a missing file raises, a file without a video stream raises `IndexError`, a zero denominator divides by zero, and otherwise size, frame count and a frame rate whose product with the denominator is the numerator come from the stream |
| PySpec.Duration | vgridpy/vgrid/spec.py:48-49 | the length whose product with the frame rate is the frame count; a missing frame count raises `TypeError` and a zero frame rate divides by zero |
| PySpec.MetadataToJson | vgridpy/vgrid/spec.py:51-59 | exactly the six keys in order, each holding the stored value, `None` written as `null` |
| PySpec.MetadataEntriesKeys | vgridpy/vgrid/spec.py:52-59 | the six entries carry the six keys in order |
| PySpec.MetadataEntriesFound | vgridpy/vgrid/spec.py:52-59 | each of the six keys finds its own value |
| PySpec.VideoFoundById | vgridpy/vgrid/spec.py:51-133 | in the front end's videos table built from the written metadata, looking up a video's id finds that video's metadata when no later video shares the id |
| PySpec.Videos | vgridpy/vgrid/spec.py:133 | one written metadata object per video, in order |
| PySpec.KeyModeName | vgridpy/vgrid/spec.py:70-74 | `Standalone` and `Jupyter` get their own, different names |
| PySpec.SettingsOf | vgridpy/vgrid/spec.py:111-119 | exactly the seven settings keys in order, the key mode as its name, the other settings as given |
| PySpec.SettingsEntriesKeys | vgridpy/vgrid/spec.py:111-119 | the seven entries carry the seven keys in order |
| PySpec.SettingsEntriesFound | vgridpy/vgrid/spec.py:111-119 | the key mode, dev-mode and page-size keys find their own values |
| PySpec.NewSpec | vgridpy/vgrid/spec.py:82-121 | it raises exactly when both or neither of the blocks and the format are given; otherwise it stores them, the metadata and the settings dict |
| PySpec.NewSpecWithDefaults | vgridpy/vgrid/spec.py:82-92 | with the defaults the settings hold the Jupyter key mode, fifty blocks a page and the spinner dev mode off |
| PySpec.SpecBlocks | vgridpy/vgrid/spec.py:124-127 | the explicit blocks when given, otherwise what the format produces |
| PySpec.AllDicts | vgridpy/vgrid/spec.py:130 | every block's payload dicts are in the set |
| PySpec.SpecToJson | vgridpy/vgrid/spec.py:123-135 | the three keys in order: one block per block, each written in full as the block's own `to_json` writes it, then the stored settings, then the videos' metadata in order under `database.videos`; a failing format's error is passed on; when no metadata dict is itself a payload dict, writing succeeds exactly when every set of every block is an interval set and every payload dict converts |
| PySpec.WriteBlocks | vgridpy/vgrid/spec.py:130 | the blocks written in order, each as its own `to_json` writes it, no dict's spatial type changing; when no metadata dict is itself a payload dict, it succeeds exactly when every set of every block is an interval set and every payload dict converts |
| PySettings.PutKnown | vgridpy/vgrid/settings.py:10-12 | storing an accepted setting keeps every stored name accepted and stored once, and stores the name |
| PySettings.UnknownAbsent | vgridpy/vgrid/settings.py:2-17 | a builder's settings never hold a name it does not accept, such as `blocks_per_page` |
| PySettings.SettingsBuilder.constructor | vgridpy/vgrid/settings.py:7-8 | a builder starts with no settings |
| PySettings.SettingsBuilder.Set | vgridpy/vgrid/settings.py:10-17 | an accepted name stores the value and hands back the builder itself; any other name raises `Invalid setting` and stores nothing; every other name keeps its value |
| PySettings.SettingsBuilder.Build | vgridpy/vgrid/settings.py:19-20 | the stored settings, each under an accepted name and once, never `blocks_per_page` |
| PySettings.Chained | vgridpy/vgrid/settings.py:10-17 | a chain of setter calls goes through exactly when every name in it is accepted |
| PySettings.ChainedLastWins | vgridpy/vgrid/settings.py:10-20 | after a chain that goes through, only accepted names are stored, once each, and each holds the value of the last call that set it |
| PySettings.LastSet | vgridpy/vgrid/settings.py:11 | the value of the last call naming a setting: present exactly when some call names it, and one such call's value |

## Left out

- React, the DOM and canvas drawing are not modelled. This covers JSX, `forceUpdate`, `shouldComponentUpdate`, refs, scrolling, and the canvas calls of the timeline's rows, ticks and navigator. Where a render computes something, the computation is modelled: row rectangles, tick labels, the current caption group, the current subtitle, the visible page and block sizes.
- Video and image elements are not modelled: seeking, playing and pausing media. Clip's play/pause toggle key, its redraw timer and its subtitle scroll handler are therefore left out.
- mobx reactivity is not modelled. Observable cells are plain fields. The `autorun` that reports labels to the host (vgridjs/src/vgrid.tsx:79-87) and the label callback are left out.
- The rekall library is not part of this model. An interval set is a sequence of intervals with ids. `time_overlaps` is assumed to keep the intervals whose closed time span meets the query's, `a.t1 <= b.t2 && a.t2 >= b.t1` (`Intervals.TimeOverlap`). `LegacyInterval.TimeOverlap` assumes the same, on defined times only.
- LegacyInterval.TimeOverlaps: src/interval.tsx's `IntervalSet` declares neither `to_list` nor `time_overlaps`, yet src/vblock.tsx, src/timeline_track.tsx and src/caption_track.tsx call them. Those calls would throw. The model reads them as the stored list and the overlap filter instead. `LegacyVBlock.FirstTime`, `LegacyVBlock.FindCaptions`, `LegacyVBlock.CurrentIntervals`, `LegacyTimeline` and `CaptionTrack` rely on this reading.
- Database ids are kept as JSON values, not converted to strings. Ids that print the same but differ in type (`1` and `"1"`) are therefore distinct keys here, while a JavaScript object would merge them.
- vgridjs/src/color.tsx is not part of this model. The palette is a parameter.
- src/time_state.tsx and vgridjs/src/time_state.tsx are not part of this model. Their shape is taken from their uses.
- Times, pixels and frame rates are `real`. IEEE rounding and `Infinity` are not modelled. `NaN` is modelled as `None` only where the source relies on it: the page number, `Math.min` of `undefined`, and a missing gender index. `Math.round` is `floor(x + 1/2)`.
- Divisions by zero are not modelled. Members that divide by a width, a span, a frame rate, a page size or a video height require it to be non-zero: `Viewport.TimeToX`, `Viewport.XToTime`, `Viewport.Navigate`, `Viewport.DragTo`, `Timeline.RowRect`, `Timeline.RowRects`, `Timeline.DrawRow`, `Timeline.TimeState.constructor`, `Timeline.TimelineNavigator.HandleChange`, the `Timeline.Timeline` mouse handlers, `LegacyTimeline.RowRect`, `LegacyTimeline.RenderRow`, `BboxLabel.BboxLabelView.OnMouseDown`, `BboxLabel.BboxLabelView.OnMouseMove`, `VBlock.BlockSize`, `LegacyVBlock.BlockSize`, `Pagination.LastPage`, `Groups.LastPage` and `Groups.GroupsView.OnNextPage`.
- Text.Split: splitting on the empty string, which JavaScript does character by character, is not modelled. `CaptionTrack.CaptionGroups` and the other caption members therefore require a non-empty delimiter.
- Text.ParseInt: Python's `int` also accepts surrounding white space and digit underscores; these are not modelled.
- Text.ToLower: lower-cases ASCII capitals only. JavaScript's `toLowerCase` also folds other letters, such as the Kelvin sign U+212A to `k`, which the model keeps as they are.
- Text.JsParseInt: a number too large for a double keeps its exact value here; JavaScript rounds it.
- The keyboard manager's lock (`manager.locked()`) is not modelled. It stops key handlers in src/views/Clip.jsx, src/views/Timeline.jsx and src/views/Groups.jsx (lines 63 and 343) while a text field has focus.
- Adding and removing event listeners on mouse enter and leave is not modelled.
- TrackEditor: the broken `t` handler `_onSelect` (src/views/Timeline.jsx:269-311) is not modelled, and neither is `_onClick`. The start time set in `componentDidMount` is not modelled. Marker and track rendering are not modelled.
- TrackEditor: each track's own key handler (src/views/Timeline.jsx:49-64) and the forwarding set up in `render` (src/views/Timeline.jsx:541-546) are not modelled. `render` walks `group.elements[k].segments`, a different shape from the tracks the editor's handlers edit, and the index it forwards counts the flattened segments. The model's `TrackEditor.TrackEditor.KeyPress` takes the key and the Shift flag and finds the track under the play time with `TrackEditor.TracksAt`. `TrackEditor.TrackEditor.TrackKeyPress` takes the track index directly.
- TrackEditor: snapshots are values, so lodash `cloneDeep` is the identity.
- TrackEditor.SortByMin: lodash `sortBy` is modelled as a stable insertion sort on `min_frame`.
- Groups: the constructor's key listener and the selection callbacks to the parent are not modelled. The cached selections restored in `componentDidMount` and the reset in `componentDidUpdate` are not modelled either.
- Groups: for the `onSave` promise, only the state after a successful save is modelled (`Groups.GroupsView.OnSaved`). Alerts and failures are left out.
- Groups: `Set` iteration order is not modelled; sets are Dafny `set`s.
- Groups.GroupsView: the page is an integer. The page box's Enter handler is modelled as `Groups.TypedPage`, which computes the page to store and gives `None` for the `NaN` page of text `parseInt` cannot read. Storing that page in the view is not modelled.
- Clip: the axios fetch is not modelled. Its answer is the parameter of `Clip.ClipView.OnSubtitles`. The `onTimeUpdate` callback to the parent and the metadata table are not modelled.
- LabelState: block label states are shared by reference with the block's timeline and box tools. Here they are values in the grid's dictionary, named by block index, so aliasing is not captured.
- PySpec.NewVideoMetadata: ffprobe and the file system are parameters, namely whether the file exists and the first video stream.
- `VGridSpec.to_json_compressed` is not modelled, because zlib is not modelled.
- PySpec.SettingsOf: states the key order and the values of `key_mode`, `spinner_dev_mode` and `blocks_per_page`. The other four values are not stated.
- PyIntervalBlock.NamedSetToJson: states each interval's written spatial type, not its written metadata. An earlier interval that shares the payload dict may have inserted `'metadata'` into it.
- PyIntervalBlock.NamedSetToJson, PyIntervalBlock.BlockToJson and PySpec.SpecToJson: when the writing succeeds is stated only when no metadata dict is itself one of the payload dicts (`PyIntervalBlock.MetadataApart`). Otherwise an earlier interval can insert `'metadata': {}` into a dict that a later interval reads as its metadata, and the later conversion then fails although every payload converted before the call. The writers still write what they write in that case; only the exact condition for success is not stated.
- PySettings.SettingsBuilder.Set: treats every name outside `keys` as `__getattr__` does. Python consults `__getattr__` only after ordinary lookup fails, so the builder's own attributes (`settings`, `keys`, `build`, `_add_setting`, `__init__`, `__getattr__`) and those it inherits from `object` (such as `__eq__`) are found first. A call with a value then raises a `TypeError` or returns something other than the builder. Python attribute lookup is not modelled.
- PySettings.SettingsBuilder.Build: `build()` returns the builder's own dict by reference. The model returns its value.
- PyLabelState: the label-state getter that `LabelState` re-reads on every call is a parameter holding the JSON it returns.
- Viewport.TickParts: the tick positions, lodash `_.range` over the window, are not modelled. Only the label of one tick is.
- Timeline.Timeline.DidUpdate: the add action's `do_` and `undo` closures share the interval object that `componentDidUpdate` stretches (vgridjs/src/timeline_track.tsx:254-259, 353). The model's action holds the interval by value. Undo removes the interval by its id either way, but redo puts back the interval at the length it had when added, not the stretched one. This aliasing is not captured.
- Timeline.RowKeys and Timeline.RowSet take the named sets as a list of `{name, interval_set}` entries, which is what the row code reads. vgridjs/src/vblock.tsx:180-182 passes `_.pick(...)` instead, a plain object with no `map`, so `render` would throw at vgridjs/src/timeline_track.tsx:364. This call is not modelled.
- LabelState.LabelState.ToJson lists both dictionaries in the maps' insertion order. A JavaScript object lists integer-like keys in ascending order, so the export's real order is ascending by block index. `LabelExchange.SelectionsRoundTrip` and `LabelExchange.BlocksSelectedRoundTrip` hold for the model's order, and their contents do not depend on it.
- src/database.tsx's `Database` is not modelled separately. Its constructor is the one `Database.Database` models; it has no `table()` accessor and no `from_json`, and its `tables` field is public, so callers read `tables[name]` directly and get `undefined` for a missing name.
- Undo: the `console.log` calls of `undo` and `redo` (vgridjs/src/undo.tsx:19, 23, 30, 34) are not modelled.
- TrackEditor.TrackEditor.KeyPress, TrackEditor.TrackEditor.EnterKey and TrackEditor.TrackEditor.HandleKey require a non-zero frame rate, because Enter divides by it (src/views/Timeline.jsx:331). A zero frame rate is not modelled.
- VBlock.Block.constructor: the key mode is the two-valued `Keyboard.KeyMode`. A `key_mode` setting outside the enum makes `key_dispatch` read an undefined table and throw a TypeError (vgridjs/src/keyboard.tsx:18-19); that case is not modelled.
- LegacyTimeline.ShallowCompare compares values with `==` on Dafny values, where the source uses `===`, which compares objects by identity. Two distinct but equal objects are therefore the same here.
- Keypoints.FromOpenpose takes all five arguments. The defaults of `from_openpose` (`show_left_right = true`, empty face and hands) are not modelled as defaults; a caller passes them.
- TrackEditor.SortByMin: its ensures state sortedness and a permutation, not stability. The body is a stable insertion sort, so tracks with equal `min_frame` keep their order, but no contract states it.
- Timeline.Timeline.DidUpdate: the automatic shift of the window when the play time leaves it is an empty TODO in the source. The model adds nothing for it.

## Findings

| source | as written | input that shows it | evidently intended | confidence | as-written member | corrected member |
|---|---|---|---|---|---|---|
| vgridjs/src/vgrid.tsx:72-75 | the colour map calls `forEach` on the first block's `interval_sets`, a plain object, and reads the first block even when there is none | any grid: one block with any sets, or no blocks | the `i`-th set name of the first block gets the `i`-th palette colour, new intervals the last | not executed | VGrid.ColorMapAsWritten | VGrid.ColorMapFor |
| src/views/Timeline.jsx:387 | `splice(i, -1)` deletes nothing, so a track lying inside a new one survives | tracks [0,100] and [40,60]; insert [30,70] | covered tracks are removed, so the new track is the only one in its range | not executed | TrackEditor.CoveredTrackSurvives | TrackEditor.InsertClears |
| src/views/Groups.jsx:87 | the INDIVIDUAL branch of `a` tests the misspelt mode `SELECT_MODES.INDIVDIUAL`, which is `undefined`, and the `selected_start == -1` return before it always fires in INDIVIDUAL mode | INDIVIDUAL mode, group 0 selected, press `a` | `a` labels the selected, unignored groups | not executed | Groups.IndividualLabelsNothing | Groups.Labelled |
| src/views/Clip.jsx:221-235 | text after the last `> >` stays in `curSub` and is never emitted | one cue `> >b` | the last turn is flushed after the loop | not executed | Clip.TrailingTextDropped | Clip.LastTurnKept |
| vgridjs/src/keypoints.tsx:89-92 | the face loop's guard `i > FACE_POINTS` is false at once, so no face point is added, yet the face edges are | body pose plus any non-empty face | the loop copies the 68 face points, so every edge joins two keypoints | not executed | Keypoints.FaceEdgesDangle | Keypoints.IntendedEdgesHaveNodes |
| vgridjs/src/spatial/mod.tsx:16-25 | `SpatialType_Keypoints` is registered, but its class has no `from_json` | `{"type": "SpatialType_Keypoints"}` as Python writes it | keypoints decode like the other argument-free types | not executed | Exchange.KeypointsNotDecodable | Exchange.IntendedSpatialRoundTrip |
| src/vblock.tsx:50-56 | the caption search reads `is.to_list()[0].data.draw_type`, but an `Interval` has `draw_type` and no `data` | a block with one set holding one interval | the search reads the first interval's own `draw_type` | not executed | LegacyVBlock.NewBlock | LegacyVBlock.NewBlockIntended |
| vgridpy/vgrid/metadata.py:24 | `Metadata_Generic.to_json` reads the undefined name `data` and always raises `NameError` | `Metadata_Generic({})` | it writes the stored `self._data` | not executed | PyMetadata.ToJson | Exchange.GenericRoundTrip |
