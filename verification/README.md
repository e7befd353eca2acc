# A model of the tiling core of cwc

This project models, and proves properties of, the parts of the compositor that keep state in
step: the BSP layout tree, the hybrid hash map, the membership of windows in trees while outputs
come and go, and five smaller machines around them. `dafny verify dfyconfig.toml` checks it.

| files | what they model |
|---|---|
| `geometry.dfy`, `options.dfy`, `lists.dfy`, `division.dfy` | boxes, truncating products, options, sequences without repetition, remainders |
| `bsp_tree.dfy`, `bsp_layout.dfy`, `bsp_ops.dfy`, `bsp_runs.dfy`, `bsp_quiet.dfy`, `bsp_tag.dfy`, `bsp_lapse.dfy`, `bsp_fence.dfy` | the BSP tree of one tag as a value: layout, operations, changes that no layout follows, runs through changes of area, mode and view, runs that end out of date, resize fences |
| `bsp_meaning.dfy`, `bsp_still.dfy` | what the operations mean in boxes, orientations and flags, and which windows they do not move, said without the functions that compute them |
| `bsp_heap.dfy`, `bsp_nodes.dfy`, `bsp_workspace.dfy`, `bsp_drive.dfy`, `bsp_stray.dfy` | the same tree as nodes and containers with parent, child and back pointers, rewritten in place; each operation is proved equal to the operation on the value, and each run to a run of it; removal by way of the wrong entry |
| `hash_table.dfy`, `hash_refill.dfy`, `hash_map.dfy`, `hash_run.dfy`, `hash_loop.dfy` | coalesced chains in a slot array, insertion and rehashing as functions of it, the map over them, its runs, and one that closes a loop |
| `bsp_entry.dfy`, `membership.dfy`, `hotplug.dfy`, `hotplug_trees.dfy`, `hotplug_lapse.dfy`, `placement.dfy`, `server.dfy` | which tree and which list a window is in, over moves, layout changes and lost outputs, what the trees of a lost output are when it returns, runs to each step that goes wrong, and which leaf a window has after a move, and whether it is shown |
| `vector.dfy`, `master.dfy`, `keyboard.dfy`, `outputs.dfy`, `transaction.dfy` | the growable vector, master/stack tiling, taken keys, output order, deferred layouts |

## How the BSP tree is modelled

A tree is a `View`; a place in it is a `Ctx`, the path from the place up to the root, so that
climbing parent pointers is recursion on the context. In `bsp_heap.dfy` the shape of the tree is a
ghost companion of the pointers: `Hangs(k, s)` says that the objects of `s` hang in the hole of
`k`, that no node or container occurs twice, that parent, child and back pointers agree, and
`ViewOf` reads the value off the objects. `Workspace` holds the entry of one tag. Its methods are
the exported operations; each ends in a valid tree whose value is the one the state machine of
`bsp_tag.dfy` computes. `BspDrive.Execute` composes them: every run of calls on the pointers is a
run of that machine, and `BspDrive.Begin` starts it from a tag without windows, so what is proved
of its runs holds of the pointers.

What is proved of it:

* a root update covers every pixel of the usable area exactly once if and only if the root is
  enabled, no visible node is left without an enabled child, and the tree is not a single leaf
  that keeps a box of its own (`RootUpdateTiles`). Over every run of operations and changes of
  area, mode and view, that fails for an enabled root only after a removal that left a stale flag,
  or while the tree is a single leaf that keeps a box of its own (`BspTag.EveryRun`), as that of a
  first window that is maximized or fullscreen does (`FirstHidden`);
* "a node is enabled if and only if a child is" is kept by every operation but the removal of the
  only enabled node below its grandparent, and exactly then it is broken (`ApplyFlagged`,
  `RemoveFlagsExactly`). An enabled sibling of the destroyed parent suffices, equal flags of
  sibling and parent are not needed. `StaleHole` is an input that shows the hole;
* the partial relayouts leave the screen as a full one would, as long as the tag is current and no
  layout is asked for. Of the steps modelled three kinds can lapse, and the screen is out of date
  after exactly those whose condition holds (`StepUpToDate`), each of which has a run that leads
  to it (`BspLapse`):
  * the usable area changes while requests are served, when its request is dropped
    (`src/desktop/layer_shell.c:146-148` with `src/desktop/transaction.c:128`);
  * a window is destroyed that is not tiled, so that nothing is laid out
    (`src/layout/container.c:676-689`), and its sibling does not fit the place it takes
    (`RemovedInPlace`); a window with a disabled leaf does no harm when the sibling is shown or
    the parent hidden too (`HiddenCloses`);
  * a line is dragged so far that the parts no longer fit, before the refresh interval has passed
    (`src/input/cursor.c:161-176` and `225-252`); the end of the drag asks for nothing;
* a window that enters beside a shown one divides the longer side of its box: the two share the
  place by halves, side by side or stacked (`InsertDivides`), also as nodes on the heap
  (`Workspace.InsertContainer`). Toggling divides the other side and twice gives the tree back
  (`ToggleFlips`, `ToggleTwice`);
* no window moves by a step that does not lay out a tree that is shown (`StepStill`), and a step
  asks for a layout only when it has moved no window itself (`AskedStill`);
* insertion followed by removal is undone on every tree, the flags exactly when a condition on
  the ancestors holds (`InsertThenRemove`);
* the line of the fence found for an edge is always at that edge; it is the nearest one there
  except for certain empty leaves, which are characterized (`FenceIsTheEdge`).

## What is proved of the hash map

`Map()` is the finite map the slot array stands for. Insertion, lookup, rehash and removal act on
it as on a map whenever the lookup inside them ends, whatever tombstones and loops are about, and
the slots they leave are functions of the slots before (`Next`). So every run whose operations end
answers as the finite map does, and leaves exactly the slots described (`HashRun.Execute`); the
source does not return from any other run. All lookups end exactly when all chains do
(`AcyclicIsHalting`), and a step keeps that exactly when it is not an insertion into a slot whose
links lead to the end of the chain it extends (`StepKeeps`, `PutAcyclicExactly`). A run without such
an insertion ends (`SafeHalts`), and it has none exactly when at every point of it all lookups would
end (`SafeExactly`). Runs without removals never make one (`CleanIsSafe`), and `RunCanLoop` makes
one from an empty map of eight slots. The warning at `include/cwc/util.h:29-31` is thus made exact.

## What is proved of lost outputs

When an output is lost, each of its windows goes to its refuge on another one: the workspace that is
remembered for it or that it had, on the tags of that workspace, whatever the trees and modes
(`UnpluggedKeeps`); and no tiled window that is seen there is left without a node. An output and the
state kept under its name are one `Output`. `Sound` says that trees, lists and
containers agree; every event but two keeps it. `RoundTrip` brings every window back to its tag, its
workspace and its leaf whatever else happens meanwhile, also when it is moved by hand; `TreesWait`
keeps the trees of a lost output unchanged while it is gone. `TreesReturn` brings them back as they
were, with flags, factors and the boxes of their nodes, over every run in which no window of the
output is destroyed: the loss changes a tree exactly when a window of another lost output has a leaf
in one (`Lodges`), and the return exactly when a window on the fallback output that waits for
another output, or for none, enters one (`Settles`). Windows that wait for this output do not
count, so the only output can be lost and come back. Two steps are wrong in the code, and agreement is lost exactly when the
condition of one of them holds (`StepSound`):

* the destruction of a container looks for the leaf it left on the lost output in the tree of its
  *current* workspace (`src/layout/container.c:679-683` with `src/layout/bsp.c:435-437`). When that
  is another than it had there, a null pointer is dereferenced (`Crashes`), or the leaf goes but the
  entry of its tree may keep the focus on the destroyed container (`Dangles`).
  `BspStray.RemoveBy` is that removal on the pointers: it ends iff there is an entry where it looks
  and the leaf has a grandparent;
* dropping a dragged window beside another one gives the focus to that window in the entry of the
  *current* tag of its output (`src/input/cursor.c:874-877`), also when it is on another tag that is
  viewed too (`Misaims`).

`HotplugLapse` has a run from a fresh server to each of the three, and one to a drop that fails the
assertion of the source that a window which enters a tree has no node (`AssertReached`).

## Model

| member | source | states |
|---|---|---|
| Geometry.ScaleBounded | src/layout/bsp.c:137-201 | a truncated share of a length by a factor in [0, 1] lies between 0 and the length |
| BspTree.LocateIsUnique | src/layout/bsp.c:327-333 | in a tree without double containers, the place a container's node pointer leads to is the only one |
| BspLayout.SharesPartition | src/layout/bsp.c:137-201 | the boxes of the enabled children share out the pixels of their parent, none lost and none twice |
| BspLayout.PlaceConserves | src/layout/bsp.c:137-201 | a pixel of a laid out box is in one visible leaf or in one visible node without enabled child, never both or neither |
| BspLayout.RootUpdateTiles | src/layout/bsp.c:203-224 | after a root update of any tree each pixel of the area is in exactly one visible leaf iff the root is enabled, no stale node covers it, and the tree is not a single leaf of a maximized or fullscreen window whose box is elsewhere |
| BspLayout.PlaceErases | src/layout/bsp.c:137-201 | layout changes geometry only: shape, flags, split types, factors and containers stay |
| BspLayout.PlaceSettles | src/layout/bsp.c:137-201 | after a layout every visible box is the share its parent's box gives it |
| BspLayout.UpdateSettles | src/layout/bsp.c:137-201 | the same for the layout below a node that keeps its own box |
| BspLayout.SettledIsFixed | src/layout/bsp.c:137-224 | on a settled tree another layout moves no visible node and no window |
| BspLayout.SettledIsUnique | src/layout/bsp.c:137-224 | settled trees with the same flags, factors and root box look the same |
| BspMeaning.SharesInProportion | src/layout/bsp.c:137-178 | the first of two enabled children gets the fraction of width or height that is its share, but for less than a pixel, at the left or top, and the second the rest beside it |
| BspMeaning.LayoutSpares | src/layout/bsp.c:98-115 | a full layout moves no window that floats, is maximized or fullscreen, is not shown, or, unless it is the only one, whose leaf is disabled; one that moves gets the box of its leaf |
| BspOps.EnableFlags | src/layout/bsp.c:226-246 | enabling a node keeps "an enabled node has an enabled parent", and "iff a child is enabled" |
| BspOps.DisableFlags | src/layout/bsp.c:248-274 | disabling a node keeps both flag invariants |
| BspOps.InsertFlags | src/layout/bsp.c:327-393 | insertion keeps both flag invariants, hidden container or not |
| BspOps.RemoveFlags | src/layout/bsp.c:433-484 | removal keeps "an enabled node has an enabled parent" |
| BspOps.RemoveFlagsExactly | src/layout/bsp.c:433-484 | removal keeps "enabled iff a child is" exactly when the removed node was not the only enabled one below its grandparent |
| BspOps.ExactIsUnique | src/layout/bsp.c:226-274 | the flags of the leaves determine all flags of a tree that meets the invariant |
| BspOps.EnableRecomputes | src/layout/bsp.c:226-246 | climbing from one leaf gives the flags that a recomputation from all leaves gives |
| BspOps.DisableRecomputes | src/layout/bsp.c:248-274 | the same for disabling, which stops climbing early |
| BspOps.HeirIsNeighbour | src/layout/bsp.c:117-135 | the leaf found as closest sibling is the neighbour in leaf order, before a right child and after a left one |
| BspOps.RemoveLeaves | src/layout/bsp.c:433-484 | removal takes one leaf out and keeps the order of the others |
| BspOps.InsertLeaves | src/layout/bsp.c:327-393 | insertion puts the new leaf right beside its sibling, on the side asked for |
| BspMeaning.InsertDivides | src/layout/bsp.c:327-393 | a visible window and the enabled leaf it enters beside share the box of the new node by halves: side by side iff the old box of that leaf was at least as wide as high, stacked otherwise; that box is the usable area at the root, and otherwise, in a tree in place, the old box of the leaf |
| BspMeaning.AddedDivides | src/layout/bsp.c:327-431 | the same of the state machine's insertion beside the container focused last |
| BspMeaning.AddedBeside | src/layout/bsp.c:378-430 | a window of any state is paired with the leaf focused before, on the side asked for, and focused; its leaf is disabled iff it is maximized, fullscreen or minimized |
| BspMeaning.ToggleFlips | src/layout/bsp.c:486-503 | exactly the node above the leaf is divided the other way, shape, flags and factors stay; a root leaf is left alone |
| BspMeaning.ToggleTwice | src/layout/bsp.c:486-503 | toggling twice gives the tree back, but for boxes |
| BspMeaning.ClampMeans | src/objects/client.c:889-905 | the factor stored is the nearest one within [0.05, 0.95] |
| BspMeaning.AskedStill | src/layout/bsp.c:226-484 | an operation asks for a layout only when it has moved no window and no leaf itself |
| BspOps.InsertThenRemove | src/layout/bsp.c:327-484 | on any tree, insertion and removal of the same container restore shape, split types, factors and order and hand the focus back to the sibling; all flags too iff, for a hidden guest, the sibling is enabled or the climb finds nothing to disable, as on a tree with exact flags, and otherwise all ancestors were enabled, as they are when the sibling is enabled |
| BspOps.EnterErased | src/layout/bsp.c:226-274 | enabling sets the flags of all ancestors, disabling clears those below the first enabled sibling, and nothing else |
| BspRuns.EnableInPlace | src/layout/bsp.c:237-246 | enabling leaves every visible window where a full layout puts it |
| BspRuns.DisableInPlace | src/layout/bsp.c:264-274 | updating below the first still enabled ancestor equals a full layout |
| BspRuns.RemoveInPlace | src/layout/bsp.c:468-483 | updating below the grandparent equals a full layout |
| BspRuns.ToggleInPlace | src/layout/bsp.c:486-503 | updating below the toggled node equals a full layout |
| BspRuns.UpdateRootInPlace | src/layout/bsp.c:203-224 | a root update puts everything in place, whatever the boxes were |
| BspRuns.InPlaceIsFixed | src/layout/bsp.c:203-224 | a tree in place looks the same after a full layout |
| BspRuns.ApplyShaped | src/layout/bsp.c:327-503 | every operation keeps a tree without double containers whose last focused container is one of its leaves |
| BspRuns.ApplyFlagged | src/layout/bsp.c:226-484 | every operation keeps the flag invariants, the strict one exactly when it is not a removal that leaves a stale flag |
| BspRuns.ApplyFresh | src/layout/bsp.c:226-503 | while no full layout is scheduled, what is visible is where a full layout would put it |
| BspTag.StepSound | src/layout/bsp.c:327-503 | operations, removals without update, dragged lines and changes of area, mode and view keep a proper tree and the flag invariants, the strict one exactly when no stale flag is left |
| BspTag.StepUpToDate | src/layout/container.c:676-689 | while the tag is current and no layout is asked for, the screen is up to date; a step keeps that exactly when it is not a change of area whose request is dropped, a destruction without layout after which the parts do not fit, or a drag without request after which they do not |
| BspTag.HiddenCloses | src/layout/container.c:676-689 | destroying a window whose leaf is disabled leaves the screen up to date, if the sibling is shown or the parent is hidden too |
| BspTag.TiledCloses | src/layout/container.c:676-689 | destroying a tiled window of the tag that is viewed leaves everything in place at once, and asks for nothing |
| BspStill.StepStill | src/layout/bsp.c:98-115 | no window of the tree moves by any event while tiled windows are not shown, by a move to another output, a dragged line, a change of setting or state at any time, nor, in a tag that is not in BSP mode, by the idle callback, a destruction or a first window |
| BspTag.RunKeeps | src/layout/bsp.c:327-503 | all of this over every run |
| BspTag.EveryRun | src/layout/bsp.c:137-503 | over every run from an empty tag: a full layout covers each pixel of the area once iff the root is enabled and the tree is no single leaf with a box elsewhere, unless a stale flag was left; the screen shows that layout unless one is asked for or a step has lapsed |
| BspTag.FirstHidden | src/layout/bsp.c:101-104 | a first window that is maximized or fullscreen leaves the area without owner although no flag is stale |
| BspRuns.SettledReplacing | src/layout/bsp.c:137-201 | when a part of a settled tree is replaced by one with the same box, the tree stays settled iff the boxes of the new part fit, or nothing of it is looked at |
| BspQuiet.RemovedInPlace | src/layout/bsp.c:453-483 | a removal without update leaves everything visible in place iff the sibling has the box of the place it takes and the node beside it keeps its own |
| BspQuiet.HiddenIsSnug | src/layout/bsp.c:180-199 | so it is for a disabled leaf whose sibling is shown or whose parent is hidden too |
| BspQuiet.DraggedInPlace | src/input/cursor.c:225-252 | a factor set without layout leaves everything visible in place iff the node gives its children the boxes they have |
| BspQuiet.DraggedExactly | src/input/cursor.c:225-252 | a dragged line sets the factor of exactly one ancestor, the one named |
| BspLapse.DropsReached | src/desktop/layer_shell.c:146-148 | a run after which the area grows while requests are served, and a pixel of it has no owner |
| BspLapse.GapesReached | src/layout/container.c:676-689 | a run after which a maximized window with an enabled leaf is closed, and a pixel of the area has no owner |
| BspLapse.SlipsReached | src/input/cursor.c:161-176 | a run after which a line is dragged to any factor below a half, and the windows are not where a layout puts them |
| BspRuns.StaleHole | src/layout/bsp.c:446-475 | a tree where the removal of the last visible window of a branch leaves a part of the screen without owner |
| BspFence.FenceFollowsEdge | src/layout/bsp.c:553-578 | the line of the node found is the edge of the reference box that was asked for |
| BspFence.FenceTouches | src/layout/bsp.c:553-578 | with or without extent, the line of the fence is at the edge, and without a fence the edge is that of the root |
| BspFence.FenceIsTheEdge | src/layout/bsp.c:553-612 | with all nodes enabled, the fence is the nearest ancestor whose line is at the edge iff the leaf has an extent across it, or no ancestor is divided along it, or the nearest one has the leaf on the side asked for |
| BspFence.EmptyLeafMisses | src/layout/bsp.c:553-578 | an empty leaf whose edge has a line that is not its fence, for every factor below 1 |
| BspFence.ResizeFenceEdges | src/layout/bsp.c:580-612 | of the edges grabbed top goes before bottom and left before right; the line found lies on that edge of the box, and when there is none the edge is one of the whole tree |
| BspHeap.PlugHangs | src/layout/bsp.c:54-76 | pointers that agree around a hole and below it agree in the whole tree |
| BspHeap.LocateViews | src/layout/bsp.c:327-333 | the node a container points back to is its leaf in the tree |
| BspNodes.LeafConfigure | src/layout/bsp.c:98-115 | a maximized or fullscreen container keeps box and node; a floating one, or one not shown, is only recorded |
| BspNodes.UpdateNode | src/layout/bsp.c:137-201 | the cascade over the nodes computes the layout of the value, and touches geometry only |
| BspNodes.UpdateInside | src/layout/bsp.c:137-201 | the same at a node anywhere in the tree, the rest untouched |
| BspNodes.RelayoutRoot | src/layout/bsp.c:203-224 | the root update of the value |
| BspNodes.EnableClimb | src/layout/bsp.c:227-235 | enables all ancestors and arrives at the root |
| BspNodes.DisableClimb | src/layout/bsp.c:249-262 | disables exactly the ancestors without enabled child and tells where it stopped |
| BspNodes.Reparent | src/layout/bsp.c:54-76 | the old parent loses the child, the new one gets it on the side asked for |
| BspNodes.Detach | src/layout/bsp.c:446-475 | the sibling takes the place of the parent, everything else stays, and the container forgets its node |
| BspNodes.ClosestLeaf | src/layout/bsp.c:117-135 | the outermost leaf of the sibling toward the node |
| BspNodes.DestroyNode | src/layout/bsp.c:37-52 | all containers below forget their node |
| BspNodes.InternalCreate | src/layout/bsp.c:288-309 | the new inner node replaces the sibling below the grandparent, which is otherwise untouched |
| BspNodes.LeafCreate | src/layout/bsp.c:312-325 | the new leaf, its parent and its container point at each other |
| BspNodes.InsertNode | src/layout/bsp.c:327-386 | new leaf and sibling hang below the new parent, at the sibling's place, with the sibling's box or the whole area; the longer side of the sibling's box is divided by halves |
| BspNodes.FlipSplit | src/layout/bsp.c:486-503 | one node is divided the other way, and nothing else changes |
| BspNodes.MarkLeaf | src/layout/container.c:1132-1154 | a change of the state of a container shows in its leaf only |
| BspNodes.FindFence | src/layout/bsp.c:553-578 | the walk over parent pointers finds the fence of the value |
| BspNodes.FindResizeFence | src/layout/bsp.c:580-612 | the fences of the grabbed edges, top before bottom and left before right; none for a root |
| BspWorkspace.Workspace.constructor | src/layout/bsp.c:505-531 | a tag without windows is the empty state of the machine |
| BspWorkspace.Workspace.InsertContainer | src/layout/bsp.c:395-431 | a valid tree with one more window, whose value is that of the state machine's insertion; the new window is focused last, and its node is enabled iff it is the first or neither maximized, fullscreen, minimized nor on a floating tag. Beside an enabled leaf the nodes of the two share the box of their parent by halves, side by side iff the old box of the sibling was at least as wide as high; that box is the area at the root, and otherwise, in a tree in place, the old box of the sibling |
| BspWorkspace.Workspace.RemoveContainer | src/layout/bsp.c:433-484 | a valid tree with one window less, whose value is that of the state machine's removal |
| BspWorkspace.Workspace.EnableContainer | src/layout/bsp.c:237-246 | the state machine's step, on the pointers |
| BspWorkspace.Workspace.DisableContainer | src/layout/bsp.c:264-274 | the same for disabling |
| BspWorkspace.Workspace.ToggleSplit | src/layout/bsp.c:486-503 | the same for toggling the split: exactly the node above the leaf is divided the other way |
| BspWorkspace.Workspace.SetFactor | src/objects/client.c:889-905 | the same for the factor, kept within [0.05, 0.95] |
| BspWorkspace.Workspace.FocusContainer | src/layout/bsp.c:276-285 | the same for the last focused container |
| BspWorkspace.Workspace.CloseContainer | src/layout/container.c:676-689 | the same for a destruction: removal without update, and a root update at once if the container was tiled, which it is not while minimized, nor when it is taken for one of a lost output |
| BspWorkspace.Workspace.LeaveTag | src/layout/container.c:828-848 | the same for a move to another output, which asks for a layout of the current tag |
| BspWorkspace.Workspace.DragLine | src/input/cursor.c:225-252 | the same for a line that is dragged: the factor of one ancestor, kept within [0.05, 0.95], and a request if the interval has passed |
| BspWorkspace.Workspace.FlushLayout | src/desktop/output.c:79-97 | the same for a full layout, which needs both the current tag and this one in BSP mode |
| BspWorkspace.Workspace.ChangeSetting | src/desktop/output.c:1290-1372 | the same for a change of area, mode or view, which asks for a layout, unless requests are being served, iff the tag is current and anything changed, or its mode did |
| BspWorkspace.Workspace.MarkContainer | src/layout/container.c:1132-1160 | the same for a change of the state of a container |
| BspDrive.Perform | src/layout/bsp.c:327-503 | a call on the pointers is the step of the state machine that its arguments and the state of the containers tell; an inserted container enters with the state it has |
| BspDrive.Execute | src/layout/bsp.c:327-503 | every run of calls on the pointers keeps the tree proper and is the run of the state machine that the calls tell, the hiding of inserted containers included |
| BspDrive.Begin | src/layout/bsp.c:395-431 | from a tag without windows it is a run of the machine from its empty state |
| BspStray.RemoveBy | src/layout/bsp.c:433-484 | a removal by way of the entry of another tag ends iff there is one and the leaf has a grandparent, and tells which null pointer it meets otherwise, the tree unchanged; when it ends the leaf is gone, and the entry of its tree is in order iff it was not focused on it |
| HashTable.LookupMeans | src/util-map.c:70-92 | a lookup that ends finds the entry iff the hash is in the table, and otherwise the end of its chain |
| HashTable.EndsHalts | src/util-map.c:70-92 | a lookup on a chain with an end ends |
| HashTable.AbsentLoops | src/util-map.c:70-92 | the lookup of an absent hash on a chain without end does not |
| HashTable.PutContents | src/util-map.c:96-128 | an insertion adds one pair to the finite map |
| HashTable.PutFindable | src/util-map.c:96-128 | every entry stays reachable from its root slot |
| HashTable.PutAcyclicExactly | src/util-map.c:96-128 | chains keep ending iff the slot filled is the end of the chain or does not lead to it |
| HashTable.PutLoopsLookup | src/util-map.c:96-128 | otherwise every lookup of an absent hash with that root goes on for ever |
| HashTable.PutClean | src/util-map.c:96-128 | without tombstones an insertion closes no loop |
| HashTable.TakeKeeps | src/util-map.c:235-262 | a removal takes exactly one hash out, keeps the others findable, and chains ending |
| HashTable.SomeFree | src/util-map.c:96-128 | fewer entries than slots leave a free slot, so probing ends |
| HashRefill.AssignedMeans | src/util-map.c:96-126 | the table after an insertion has the pair added, every entry findable, and stays without tombstones and with ending chains if it was |
| HashRefill.GrownMeans | src/util-map.c:96-162 | with the rehash that may follow it has room again, and twice as many slots iff the hash is new and the limit was reached |
| HashRefill.RefilledMeans | src/util-map.c:130-151 | reinserting the entries in slot order gives a table without tombstones with the same finite map, in as many slots as asked for if these suffice |
| HashMap.HashMap.constructor | src/util-map.c:43-61 | an empty map with at least 8 slots and as many as asked for, but less than twice as many unless 8 |
| HashMap.HashMap.LookupSlot | src/util-map.c:70-92 | the do-while walk computes the lookup of the value |
| HashMap.HashMap.RecomputeLimit | src/util-map.c:31-41 | expansion beyond 3/4; shrinking below 1/5, or never when that is less than 8 slots |
| HashMap.HashMap.ProbeFree | src/util-map.c:96-128 | the first slot without entry going round from the end of the chain |
| HashMap.HashMap.Insert | src/util-map.c:96-128 | the finite map with the pair added or replaced, size counted; exactly the slots of `Grown`, doubled and rehashed beyond the limit; terminates |
| HashMap.HashMap.RehashToSize | src/util-map.c:130-151 | the same finite map in a table with ending chains and no tombstones, from any table with distinct hashes, even one with loops; exactly the slots of `Refilled` |
| HashMap.HashMap.Get | src/util-map.c:191-200 | the data last inserted, or none |
| HashMap.HashMap.Remove | src/util-map.c:235-262 | the finite map without the hash; ending chains stay so; exactly the slots described, halved and rehashed when nearly empty |
| HashRun.StepKeeps | src/util-map.c:96-262 | every operation acts as on the finite map and keeps all chains ending iff it is no insertion that closes a loop |
| HashRun.AcyclicIsHalting | src/util-map.c:70-92 | all chains end iff the lookups of all hashes do |
| HashRun.CleanIsSafe | src/util-map.c:96-160 | no run without removals from a table without tombstones closes a loop |
| HashRun.SafeHalts | src/util-map.c:96-262 | a run in which no insertion closes a loop ends, with all chains ending |
| HashRun.SafeExactly | src/util-map.c:70-262 | no insertion of a run closes a loop iff at every point of it the lookups of all hashes would end |
| HashRun.Execute | src/util-map.c:96-262 | every run whose operations end, removals, rehashes and closed loops included, answers as the finite map does and leaves exactly the slots described; chains still end after it if no insertion closed a loop |
| HashLoop.RunCanLoop | src/util-map.c:96-262 | twelve insertions and removals, all of which end, lead from an empty map to lookups that never end |
| BspEntry.GrownMembers | src/layout/bsp.c:395-419 | an insertion adds one leaf to the tree of a tag |
| BspEntry.GrownDeep | src/layout/bsp.c:327-431 | an inserted container is focused, and has a grandparent iff the tag had two windows before |
| BspEntry.BlindedMembers | src/layout/bsp.c:433-484 | a removal that does not look at the focus takes one leaf out, and leaves the focus in the tree iff it was another |
| BspEntry.LaidKeeps | src/layout/bsp.c:203-224 | a root update changes neither members, shape nor flags, whether they were in order or not |
| BspEntry.PrunedMembers | src/layout/bsp.c:433-484 | a removal takes one leaf out |
| BspEntry.ActMembers | src/layout/bsp.c:226-274 | every other operation leaves the set of leaves alone |
| Membership.PlantedKeeps | src/layout/bsp.c:395-419 | containers and trees still agree after an insertion in the container's own tag |
| Membership.UprootedKeeps | src/layout/bsp.c:433-484 | the leaf is in the tree the removal looks in, and containers and trees still agree |
| Membership.RelistedKeeps | src/layout/container.c:831-846 | the container leaves one list and enters another; each container is in one list |
| Membership.MovedToOutputPasses | src/layout/container.c:831-834 | a container that moves leaves the list of its output and is last in the other one, the order of all others kept |
| Membership.MovedToOutputKeeps | src/layout/container.c:814-853 | the container is on the workspace and tags the output views, with a node there iff it is tiled, the tag in BSP mode, it is not being moved and has no place to return to; trees and lists agree, and all else of it stays |
| Membership.MovedToTagKeeps | src/layout/container.c:1588-1605 | the container is on that workspace and its tag alone, with a node there iff it is tiled and the tag in BSP mode; trees and lists agree |
| Membership.RescuedKeeps | src/desktop/output.c:382-405 | the container goes to the workspace remembered for it or else to the one it had, on that tag alone unless it is the one viewed; from the fallback output without a saved place, to what the target views. The place is remembered unless one is already or the fallback output is left |
| Membership.ReturnedKeeps | src/desktop/output.c:166-180 | a container returns to place, tags and leaf |
| Membership.JoinedKeeps | src/desktop/output.c:1258-1275 | exactly a tiled window without node, on that workspace, not minimized, on an output that views something, gets a node when the tag turns BSP |
| Hotplug.RescuedAllKeeps | src/desktop/output.c:375-405 | all containers of the list end in their refuges on the target, each with its place remembered, and the others stay as they are |
| Hotplug.ReturnedAllKeeps | src/desktop/output.c:163-180 | exactly those that wait for the output return |
| Hotplug.LaidOutKeeps | src/desktop/output.c:1344-1379 | one tag has the new mode and no other tag another; containers stay where they are, and in BSP mode no tiled one that is seen there is left without a node |
| Hotplug.RelaidKeeps | src/desktop/output.c:526-531 | when the tags of an output take their modes again, views and modes stay, containers stay where they are, and on every BSP tag no tiled window that is seen is left without a node |
| Hotplug.UnpluggedKeeps | src/desktop/output.c:484-544 | losing an output keeps everything in agreement; exactly its windows move, each to its refuge on the target, with workspace, tags and remembered place told, and no tiled window seen on a BSP tag of the target is left without a node |
| Hotplug.PluggedKeeps | src/desktop/output.c:208-231 | an output that appears gets its windows back as they were; those on the fallback output that do not wait for it come to their refuge on it, the rest stay; it views what it viewed, in the new area |
| Hotplug.ClosedFinds | src/layout/container.c:676-683 | destruction finds the leaf left on a lost output iff the workspace is still the one it had there |
| Hotplug.ClosedBreaks | src/layout/bsp.c:450-451 | a leaf removed by way of another entry leaves the entry of its tree focused on a container that is gone, and the layout at the end does not mend it |
| Hotplug.DroppedBreaks | src/input/cursor.c:868-884 | a window dropped beside one that is not on the current tag of its output leaves the entry of that tag, if it has windows, focused outside its tree |
| Hotplug.StrayedDestroy | src/layout/container.c:679-683 | after a move to another workspace it looks in a tree the leaf is not in |
| Hotplug.StepSound | src/layout/container.c:663-853 | every event keeps containers, trees, lists and outputs in agreement, but for a destruction that leaves a dangling focus and a drop that sets the focus of another tag; exactly those break it |
| Hotplug.EveryRun | src/layout/container.c:663-853 | over every run without those two a container has a node iff it is a leaf of the tree of its output and workspace, it is in no other tree of an output that is there, and in exactly one list |
| Hotplug.StepAway | src/desktop/output.c:375-405 | an event touches neither the trees nor the waiting windows of a lost output |
| Hotplug.RoundTrip | src/desktop/output.c:163-405 | a window that survives returns with tag, workspace and leaf, through any events and rescues |
| Hotplug.TreesWait | src/desktop/output.c:540-543 | the trees of a lost output are unchanged when it returns, unless a window with a leaf there was destroyed |
| HotplugTrees.UnpluggedStay | src/desktop/output.c:382-405 | the loss of an output changes none of its trees iff no window of another lost output has a leaf in one |
| HotplugTrees.PluggedStay | src/desktop/output.c:163-231 | its return changes none of them iff no window on the fallback output that does not wait for it enters one |
| HotplugTrees.TreesReturn | src/desktop/output.c:163-405 | with no such leaf at the loss, and over any run without destruction of its windows and without the two breaking steps, the trees of a lost output come back exactly as they were iff no such window enters one |
| HotplugLapse.CrashReached | src/layout/container.c:679-683 | a run from a fresh server after which closing a window dereferences a null pointer |
| HotplugLapse.DanglesReached | src/layout/container.c:679-683 | a run after which closing a window leaves its entry with a dangling focus |
| HotplugLapse.MisaimsReached | src/input/cursor.c:868-884 | a run after which dropping a window leaves the current tag with a focus in another tree |
| HotplugLapse.AssertReached | src/layout/bsp.c:402 | a run after which a window that was lifted has a node again, so that dropping it fails the assertion |
| Placement.FloatedShows | src/layout/container.c:1132-1154 | a window with a node has its leaf enabled iff it does not float afterwards; without one it gets one iff it stops floating and the tag viewed is in BSP mode; otherwise nothing happens |
| Placement.PlantedBeside | src/layout/bsp.c:395-431 | a window that enters a tree is put beside the one focused last and focused, its leaf enabled iff it is tiled; a first one is always enabled |
| Placement.JoinedShows | src/desktop/output.c:1258-1275 | a window that joins a tree has an enabled leaf iff it is neither maximized nor fullscreen |
| Placement.MovedToOutputRight | src/layout/container.c:851-853 | a tiled window that moves to another output in BSP mode is put to the right of the one focused last there, and focused |
| Placement.MovedToTagRight | src/layout/container.c:1588-1605 | the same for a tiled window that moves to a workspace in BSP mode |
| Placement.FloatedRight | src/layout/container.c:1143-1150 | the same for one without node that stops floating while the tag viewed is in BSP mode |
| Placement.JoinedRight | src/desktop/output.c:1258-1275 | the same for one that is seen tiled on a tag that turns to BSP mode |
| Placement.DroppedRight | src/input/cursor.c:868-872 | the same for one that is dropped above no window with a node on its workspace |
| Placement.DroppedBeside | src/input/cursor.c:874-884 | a window dropped above another one of the tag viewed is put beside it on the side asked for |
| Placement.ClosedLays | src/layout/container.c:676-689 | closing a tiled window of the tag viewed leaves what is left of its tree laid out in the area |
| Placement.LiftedInPlace | src/layout/container.c:1588-1605 | a window that is lifted, or goes to another workspace, leaves a tree that is in place in place when it has a grandparent there |
| Placement.LeftStill | src/layout/container.c:828-829 | a window that goes to another output leaves a tree behind in which no window has moved |
| Server.Server.MoveToOutput | src/layout/container.c:814-853 | the steps of the move, on the fields |
| Server.Server.MoveToTag | src/layout/container.c:1588-1605 | the steps of the move to a tag |
| Server.Server.Rescue | src/desktop/output.c:375-405 | the loop over the list of the lost output, each window in its refuge in the end |
| Server.Server.Restore | src/desktop/output.c:163-180 | the loop over all containers |
| Server.Server.SetLayoutMode | src/desktop/output.c:1344-1379 | the new mode, and the loop over the list for BSP |
| Server.Server.OutputDestroyed | src/desktop/output.c:484-544 | rescue, then every tag of the target takes its mode again; agreement is kept and each window of the lost output is in its refuge |
| Server.Server.OutputCreated | src/desktop/output.c:670-736 | return of the windows, then rescue from the fallback output; agreement is kept |
| Server.Server.SetFloating | src/layout/container.c:1132-1154 | a window that starts floating hides its leaf and one that stops shows it, or enters the tree when the tag viewed is in BSP mode; nothing happens to one that is maximized or fullscreen, or not floating anyway |
| Server.Server.EndMove | src/input/cursor.c:859-884 | the window dropped beside another one or not, with the entry that is aimed at; agreement is kept iff that is the entry of the right tag, or an empty one |
| Server.Server.ContainerFini | src/layout/container.c:663-700 | the container leaves its list, its tree and the tree it would have returned to, by whatever entry is looked up, and the tag it was taken for is laid out; agreement is kept iff no focus is left dangling |
| Vector.WrapExactly | src/util-vec.c:63-81 | a value is stored as it is iff it fits the signed width; values are stored alike iff they are congruent |
| Vector.CreditPays | src/util-vec.c:83-144 | two credits an insertion pay for doubling, eight a removal for halving |
| Vector.Vec.constructor | src/util-vec.c:30-55 | an empty vector with room for four at least |
| Vector.Vec.CheckExpand | src/util-vec.c:83-96 | room for one more, the elements kept |
| Vector.Vec.CheckShrink | src/util-vec.c:129-144 | the elements kept; halved at two fifths unless small |
| Vector.Vec.Push | src/util-vec.c:98-110 | the sequence with the wrapped value at its end |
| Vector.Vec.PushAt | src/util-vec.c:112-127 | the sequence with the wrapped value in place, the rest moved up |
| Vector.Vec.Pop | src/util-vec.c:146-154 | the sequence without its last element, or the empty one |
| Vector.Vec.PopAt | src/util-vec.c:156-180 | the sequence without that element |
| Vector.Vec.At | src/util-vec.c:182-211 | the element |
| Vector.Vec.Find | src/util-vec.c:213-239 | the first place of the value at the width of the elements, -1 iff there is none |
| Vector.Execute | src/util-vec.c:83-180 | over every run the vector is that sequence, and all reallocations copy at most 8 elements an operation and 4 times the first buffer |
| Master.FillColumn | src/layout/master.c:96-125 | boxes standing on each other that fill the height exactly, each in proportion to its weight, none negative |
| Master.Capacities | src/layout/master.c:127-145 | sizes that add up, differ by one at most, and never decrease to the right; slots that do not exist are written iff more columns are wanted than there are windows |
| Master.ArrangeTile | src/layout/master.c:80-184 | one box for each window in order, a master column and balanced columns, which cover each pixel of their strips exactly once |
| Master.AllTiled | src/layout/master.c:80-184 | every pixel of the master strip and of the column strip is covered exactly once by it, any other by no window |
| Master.DueMeans | src/layout/master.c:108 | the height of a window is in proportion to its weight, but for less than a pixel |
| Master.EvenColumn | src/layout/master.c:96-121 | windows of the same weight have the same height, the whole height divided by their number, all but the last of a column |
| Master.PlanFits | src/layout/master.c:85-149 | widths are not negative, and fewer pixels of the width are unused than there are columns |
| Master.PlanMeans | src/layout/master.c:85-149 | as many masters as set, and the others in as many columns as set, unless there are fewer windows; the masters take the set fraction of the width, the columns equal parts of the rest, but for a few pixels |
| Master.StripsMeet | src/layout/master.c:147 | the columns join the masters iff the usable area starts at x = 0; the strips overlap iff both have an extent and it starts to the right of 0 and before the columns end |
| Master.TilesArea | src/layout/master.c:80-184 | in an area that starts at x = 0 no pixel is in two windows, and all are in one but fewer columns of pixels than there are columns of windows |
| Keyboard.Seat.KeyPressed | src/input/keyboard.c:176-199 | a press is taken iff a binding took it; tracker and client stay in step though bindings move the focus |
| Keyboard.Seat.KeyReleased | src/input/keyboard.c:200-252 | a release gives a taken key back, or is told to the client |
| Keyboard.Seat.FocusSurface | src/input/keyboard.c:531-555 | a client that gains the focus is told of exactly the keys that are down and not taken |
| Keyboard.Execute | src/input/keyboard.c:146-252 | over every run the focused client believes exactly the held keys that are not taken to be down, and taken keys are held, none twice |
| Outputs.InsertKeeps | src/desktop/output.c:566-587 | insertion before the first output it leads keeps the order, though not every two outputs compare |
| Outputs.SortOrders | src/desktop/output.c:555-593 | a permutation in which an output comes before every differently placed one that is neither to the right of it nor below it |
| Outputs.SortFixed | src/desktop/output.c:555-593 | sorting changes nothing iff no output leads an earlier one, be it in the same place |
| Outputs.SortSwaps | src/desktop/output.c:578-587 | two outputs in the same place change places at each sort |
| Outputs.Server.SortOutputIndex | src/desktop/output.c:555-593 | the list of outputs is sorted so |
| Transaction.StepSteady | src/desktop/transaction.c:53-136 | queued work without the callback only while paused; a flagged tag of an output that is there is queued |
| Transaction.StepOnce | src/desktop/transaction.c:126-136 | tags stay queued once each, unless an output returns while its tags are queued |
| Transaction.RunOnce | src/desktop/transaction.c:126-136 | over every run in which no output returns to its queued tags, each tag is queued once |
| Transaction.LaidTwice | src/desktop/output.c:203-207 | a tag whose output vanishes and returns while it is queued can be queued again and is laid out twice |
| Transaction.Served | src/desktop/transaction.c:63-136 | a request made between servings for a tag of an output that stays is served the next time the callback runs, the callback is installed unless paused, the queue is empty afterwards, no tag is laid out that was not asked for, and none twice unless an output returned to its queued tags |
| Transaction.OutputServed | src/desktop/transaction.c:37-124 | a request made between servings for an output that stays is not lost: the next time the callback runs it serves that output once, no output twice, and none that has not asked |
| Transaction.PauseKeeps | src/desktop/transaction.c:92-114 | while paused nothing is served whatever happens, and after the pause every tag queued before it is laid out if its output stays |
| Transaction.AskedWhileServing | src/desktop/transaction.c:126-129 | a request made after the turns of some tags changes nothing of what the callback does: its tag is laid out after it iff it is queued behind them and its output is there, and in the end it is neither queued nor flagged |
| Transaction.IdleByTurns | src/desktop/transaction.c:63-90 | the callback, turn by turn, is the step that serves all at once |
| Transaction.Scheduler.ScheduleTagLayout | src/desktop/transaction.c:126-136 | one request is queued, none while requests are served |
| Transaction.Scheduler.ScheduleOutputLayout | src/desktop/transaction.c:116-124 | the output waits, and the callback is installed unless paused; nothing while requests are served |
| Transaction.Scheduler.TransactionPause | src/desktop/transaction.c:101-108 | no callback while paused, the queue kept |
| Transaction.Scheduler.TransactionResume | src/desktop/transaction.c:110-114 | the callback again |
| Transaction.Scheduler.ProcessPending | src/desktop/transaction.c:63-90 | each waiting output that is there is served once, and then each queued tag of an output that is there is laid out once in order; requests made meanwhile for outputs and tags, by either, change nothing |

## Left out

- The position of an insertion by cursor (`src/layout/bsp.c:536-551`): one comparison.
- Freeing of nodes: a destroyed node is only unhooked and forgotten by its container. Allocation failure anywhere.
- Rounding of floating point: factors and weights are real numbers, products are truncated. Widths of counters: integers are unbounded, except for the elements of the vector.
- The borders and gaps put around a box by `cwc_container_set_box_gap`, and moves between outputs that a changed geometry causes.
- BspWorkspace.Workspace.InsertContainer: takes a container without node, as the source asserts; a first container in a tag that is not in BSP mode is not laid out, as in the source.
- BspWorkspace.Workspace.ToggleSplit: the parent of a leaf only; the source takes any node but is only called with leaves.
- BspNodes.UpdateNode: the boxes of two children are computed before they are stored, where the source stores each component as it is computed.
- BspDrive.Execute: the box an inserted container has is read off it, its state is followed through the run. The line that is dragged is named by its height above the container, where the source keeps a pointer to its node from the beginning of the drag.
- BspTag.StepUpToDate: of the steps of `Event`; boxes given to tiled windows by scripts (`src/objects/client.c`) put them out of place until the next layout, and are no events.
- HashMap.HashMap.Insert: takes a nonzero hash whose lookup ends; when it does not, the source does not return. Hash computation, collisions, `HHMAP_AUTOMATIC_REHASH` and the access to whole entries are not modelled.
- Containers as objects in `server.dfy`: they are handles into a map of records, and the trees are the values of the state machine, not its pointers (`bsp_workspace.dfy` has those), so aliasing is not modelled there; scheduling of layouts by these operations is not either, `bsp_tag.dfy` and `transaction.dfy` have it.
- Server.Server.EndMove: the dropped window has no node, as the source asserts; see `HotplugLapse.AssertReached` for how it can have one.
- Server.Server.ContainerFini: not called where the source dereferences a null pointer (`Hotplug.Crashes`); there is no state after that to speak of.
- Hotplug.EveryRun: outputs disabled from Lua (`src/objects/screen.c:433-484`), which move their windows away as a lost output does, and get them back when they are enabled again, while the output itself stays; unmanaged windows, and the position of floating windows.
- Boxes in `hotplug.dfy`: the trees carry them, but the state of a window does not reach its leaf there, and whether a box is handed to a window is decided by the tag of its tree, not, as for a rescued window, by the tag it is on meanwhile. `bsp_tag.dfy` is about boxes.
- Workspace 0: moving a container there shifts by a negative count in the source; the model gives it the tag set with 0.
- Master.ArrangeTile: writes to slots of the capacity array that do not exist, which C leaves undefined, are not modelled beyond telling when they happen. Weights are positive and there is a window, as the caller checks. The choice of the first 49 tiled windows, the monocle layout and resizing by cursor are not modelled.
- Keyboard.Execute: the device reports a key down only when it was up and up only when it was down, and has it down when the event arrives. Input method grabs, keyboards that send no events, virtual keyboards, synthetic events inside bindings, and a seat without keyboard are not modelled.
- Vector.Vec.PushAt: the place is at most the count; the source does not check it, and returns no value on success.
- Transaction.Scheduler.ProcessPending: what an output does when its request is served (commit, layers, visibility); requests made while others are served are ignored by the source and by the model.
- IPC, Lua objects, plugins, rendering, sessions and configuration.
