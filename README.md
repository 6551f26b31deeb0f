# orbit-tui navigation and state engine, in Dafny

This project models the core of orbit-tui, a terminal browser for a GraphQL schema registry.
The user walks down the hierarchy profile → project → target → service → schema. Selecting
a profile, a project or a target fetches the next level's list; selecting a service shows its
schema from data already fetched, and `Esc` walks back. The modelled parts are:

- `view.dfy` — the `ViewType` levels and the `NavigationStack` history (src/view.rs). The stack's
  value is the `Nav` datatype. Its `Push`, `Pop` and `CanGoBack` specify the
  `NavigationStack` class, whose methods update the `stack` and `current` fields in place.
- `action.dfy` — the `Action` enum (src/action.rs).
- `input.dfy` — the key-to-action mapper `handle_key_event` (src/input.rs).
- `ui.dfy` — the renderer's decisions (src/ui.rs): the items a view lists, the header
  breadcrumb, the footer hint, and the schema pane's title and fallback text.
- `fetch.dfy` — the three registry replies as far as the controller reads them, and the
  conversions the controller applies to them (src/app.rs). The remote calls are a `Provider`
  value: three functions from the call's arguments to a reply or an error text.
- `app_spec.dfy` — the controller's fields as a `State` value. It also holds one function per
  operation of `App` (`Init`, `ResetSelection`, `LoadProjects`, `LoadTargets`,
  `LoadServices`, `HandleSelect`, `Update`) and the lemmas about them. `Run` is the event loop
  of src/main.rs, which maps keys to actions and applies them while the app is running.
- `app.dfy` — the `App` class, whose methods assign its fields in place. Each method is proved
  to change the fields exactly as the matching `AppSpec` function says. `Update` is also proved
  to keep the controller's invariant. `RunSession` builds an `App` and feeds it key presses
  with a loop, as src/main.rs does; it is proved to end in the state `Run` gives.

The controller's invariant (`AppSpec.Inv`) has three parts:
- the selection lies inside the current item list;
- the list widget's selection equals `selected_index`;
- the history is exactly the path from the root down to the current view.

`handle_select` has one arm per level in src/app.rs:72-118. In the `App` class each arm is
its own method (`SelectProfile`, `SelectProject`, `SelectTarget`, `SelectService`), and
`HandleSelect` dispatches to them. Likewise, `Update` dispatches to `MoveUp`, `MoveDown`,
`GoBack` and `ToggleSchema`. The behaviour is the same.

The model follows the code as written, including these quirks:
- 'j' and Up move the selection up; 'k' and Down move it down.
- No key produces `ToggleSupergraph`, although the footer of the schema view advertises Tab.
- `ToggleSupergraph` acts in every view.
- The chosen profile is recorded before the project fetch runs, so it stays even when that fetch fails.
- The schema scroll offset is a `u16` and saturates at 65535 (src/app.rs:22, 212).
- Selecting the "(No services found)" placeholder still enters a schema view named after it,
  with no schema text (src/app.rs:102-117). `AppSpec.EmptyTargetWalkthrough` shows this.
- No placeholder gets special handling: selecting "(No projects found)" asks the registry for
  the targets of a project of that name and, if the call succeeds, enters its target list
  (src/app.rs:82-89). Likewise "(No profiles found)" is recorded as the chosen profile, and
  "(No targets found)" is passed to the version fetch as a target name.

## Model

| member | source | states |
|---|---|---|
| Views.Root | src/view.rs:25-30 | a new stack shows the profile list with an empty history, so it cannot go back |
| Views.Nav.Push | src/view.rs:32-35 | the history grows by exactly one, keeps its old entries, ends with the old current view, and the new view becomes current |
| Views.Nav.Pop | src/view.rs:37-44 | reports true iff the history is non-empty; when true, the history loses its last entry and that entry becomes current; when false, nothing changes |
| Views.PushThenPop | src/view.rs:32-44 | a push followed by a pop reports true and restores both the current view and the history exactly |
| Views.PopAtRootIsIdempotent | src/view.rs:37-44 | at the root a pop reports false and changes nothing, so repeated pops change nothing |
| Views.PushAllGrows | src/view.rs:32-35 | n pushes grow the history by n, and the last view pushed is current |
| Views.PushAllThenPopAll | src/view.rs:32-48 | n pushes followed by n pops give back the stack as it was; from a fresh stack this ends unable to go back |
| Views.ViewType.Identifiers | src/view.rs:2-17 | below the root a view carries one identifier fewer than its depth: none for the project list, up to three for the schema view |
| Views.ViewType.Child | src/app.rs:79-115 | selecting an item descends exactly one level and extends the root path by the current view; below the root the child carries the current view's identifiers followed by the item, and from the root it is the project list |
| Views.NavigationStack.constructor | src/view.rs:25-30 | the new stack holds the root value |
| Views.NavigationStack.Push | src/view.rs:32-35 | the fields change exactly as `Nav.Push` says |
| Views.NavigationStack.Pop | src/view.rs:37-44 | the result and the new fields are exactly as `Nav.Pop` says |
| Views.NavigationStack.CanGoBack | src/view.rs:46-48 | true iff the history is non-empty |
| Input.HandleKeyEvent | src/input.rs:4-14 | 'q' or Ctrl+'c' quits; 'j' or Up moves up; 'k' or Down moves down; Enter selects; Esc goes back; each iff; no key toggles the supergraph, ticks or renders |
| Input.ModifiersMatterOnlyForC | src/input.rs:5-12 | for every key code but 'c', the modifiers do not change the action |
| Ui.ItemsForView | src/ui.rs:76-110 | the list is never empty; a list view shows its dataset, or exactly its one placeholder when the dataset is empty; the schema view shows its two-entry menu |
| Ui.ItemsDependOnLevelOnly | src/ui.rs:76-110 | two views at the same level list the same items, whatever identifiers they carry |
| Ui.HeaderTitle | src/ui.rs:12-22 | the root shows the welcome title; every other header ends with the name of its level |
| Ui.HeaderIsBreadcrumb | src/ui.rs:12-22 | below the root, the header is the view's identifiers and level name joined by " > " |
| Ui.TargetsHeader | src/ui.rs:15 | the targets header is the breadcrumb project > Targets |
| Ui.ServicesHeader | src/ui.rs:16 | the services header is the breadcrumb project > target > Services |
| Ui.SchemaHeader | src/ui.rs:17-21 | the schema header is the breadcrumb project > target > service > Schema |
| Ui.FooterHelp | src/ui.rs:48-54 | the schema hint appears iff in the schema view; elsewhere the hint mentions Esc iff the history is non-empty |
| Ui.SchemaPaneTitle | src/ui.rs:61-65 | "Supergraph Schema - Press TAB to Switch" when the supergraph is shown, "Subgraph Schema - Press TAB to Switch" otherwise |
| Ui.SchemaPaneText | src/ui.rs:66-69 | the pane shows the schema text, or "No schema available" when there is none |
| Fetch.ProjectSlugs | src/app.rs:128-134 | absent slugs are dropped: the result holds exactly the present slugs and is no longer than the reply; a reply with every slug present comes back whole and in order |
| Fetch.ProjectSlugsAppend | src/app.rs:128-134 | dropping absent slugs commutes with concatenation, so the reply's order is kept |
| Fetch.TargetSlugs | src/app.rs:149-153 | a project without a target list gives no targets; otherwise its target slugs, unchanged |
| Fetch.SubgraphEntries | src/app.rs:171-181 | one entry per schema, in order: the service name, and the source or "" when the source is absent |
| Fetch.ServiceNames | src/app.rs:183-188 | one name per schema, in order: its service |
| Fetch.ServicesMatchEntries | src/app.rs:171-188 | the services are the names of the subgraph entries in the same order; an entry's SDL is the schema's source, or "" when the source is absent |
| AppSpec.SaturatingInc | src/app.rs:212 | adds one to a `u16` below 65535 and leaves 65535 alone |
| AppSpec.SaturatingDec | src/app.rs:204-206 | subtracts one from a positive number and leaves 0 alone |
| AppSpec.Init | src/app.rs:27-61 | a new controller runs at the root with the first item selected in both the index and the list widget; the configuration counts as loaded iff it loaded; the profiles are its names, or none with the prefixed load error; no profile is chosen, the datasets and the schema texts are empty, the scroll is at the top and the supergraph flag is off |
| AppSpec.Items | src/app.rs:69 | the current view's list is never empty, and in the schema view it is the fixed menu |
| AppSpec.SelectedItem | src/app.rs:69-70 | the entry at the selected index when the index lies in the list, otherwise the empty text; always an entry of the list or the empty text |
| AppSpec.FindSdl | src/app.rs:105-110 | none iff no entry has the name; otherwise the SDL of the first entry with that name |
| AppSpec.ResetSelection | src/app.rs:63-66 | selects the first item in both the index and the list widget, and changes nothing else |
| AppSpec.LoadProjects | src/app.rs:122-138 | without a configuration it fails with "No config loaded"; on success only the projects change and the error is cleared |
| AppSpec.LoadTargets | src/app.rs:140-157 | without a configuration it fails with "No config loaded"; on success only the targets change and the error is cleared |
| AppSpec.LoadServices | src/app.rs:159-197 | without a configuration it fails with "No config loaded"; on success only the services, the subgraph entries and the supergraph change, and the error is cleared |
| AppSpec.StoreVersion | src/app.rs:168-196 | only the services, the subgraph entries and the supergraph change, and the error is cleared; there are as many services as entries; without a latest version the services and the supergraph are cleared |
| AppSpec.HandleSelect | src/app.rs:68-120 | in the schema view nothing changes; elsewhere the history is either kept or gains exactly the child view of the selected item; the running flag, the profiles and the configuration never change |
| AppSpec.MoveUp | src/app.rs:202-209 | in the schema view only the scroll offset changes, and never grows; elsewhere only the selection changes, never grows, and the list widget follows it |
| AppSpec.MoveDown | src/app.rs:210-222 | in the schema view only the scroll offset changes, and never shrinks; elsewhere the selection never shrinks, stays inside the list, and only it and the list widget change |
| AppSpec.GoBack | src/app.rs:226-230 | the history is popped; with history, the first item is selected; at the root nothing changes |
| AppSpec.ToggleSchema | src/app.rs:231-245 | the supergraph flag flips and the scroll returns to the top; only the schema text changes besides |
| AppSpec.Update | src/app.rs:199-248 | `Quit` only stops the app; `Tick` and `Render` change nothing; moving and toggling keep the view; no other action changes the running flag; no action changes the profiles or the configuration |
| AppSpec.Run | src/main.rs:18-27 | a run keeps the profiles and the configuration, and stops only after a key that maps to `Quit` |
| AppSpec.Inv | src/app.rs:7-24 | over the `App` fields and the item list of src/ui.rs:76-110: the selection lies in the current list, the list widget agrees with it, and the history is the root path of the current view |
| AppSpec.InitEstablishesInv | src/app.rs:27-61 | the invariant holds at start, and there is no view to go back to |
| AppSpec.CanGoBackIffBelowRoot | src/ui.rs:47-54 | under the invariant, one can go back iff the view is not the root, so outside the schema view the footer offers Esc exactly below the root |
| AppSpec.SelectedItemIsListed | src/app.rs:69-70 | under the invariant the selected item is an entry of the list, so the empty-text fallback is never used |
| AppSpec.PushChildKeepsPath | src/app.rs:79-115 | pushing the child view onto a root path gives the child's root path |
| AppSpec.PopKeepsPath | src/app.rs:226-230 | popping a root path gives the parent's root path |
| AppSpec.HandleSelectPreservesInv | src/app.rs:68-120 | `handle_select` keeps the invariant |
| AppSpec.DescendPreservesInv | src/app.rs:75-80 | a failed load, or a load followed by a push that extends the path, keeps the invariant |
| AppSpec.UpdatePreservesInv | src/app.rs:199-248 | every action keeps the invariant |
| AppSpec.RunPreservesInv | src/main.rs:18-27 | the invariant holds throughout a run, whatever keys are pressed |
| AppSpec.NavigateInSchemaScrolls | src/app.rs:202-222 | in the schema view up and down change only the scroll offset, by one, saturating at 0 and 65535 |
| AppSpec.NavigateInListMovesSelection | src/app.rs:202-222 | in a list view up and down change only the selection and the list widget; up stops at 0, and down moves only while below the last item |
| AppSpec.SelectFetchError | src/app.rs:122-166 | the schema and service levels fetch nothing; without a configuration the fetch fails with "No config loaded" |
| AppSpec.SelectFetchFailureOnlyRecordsError | src/app.rs:73-98 | a failed fetch records its error and changes nothing else, except the profile chosen before the fetch |
| AppSpec.SelectWithoutConfigFetchesNothing | src/app.rs:122-126 | without a configuration the outcome of `Select` does not depend on the registry's answers |
| AppSpec.SelectDescendsOneLevel | src/app.rs:72-117 | when no fetch fails, `Select` pushes exactly the child view of the selected item and selects its first item; after a load it also clears the error |
| AppSpec.DescendOnSuccess | src/app.rs:79-80 | after a load without error, the next view is pushed, the selection reset and the error cleared |
| AppSpec.SelectProfile | src/app.rs:73-81 | at the root, `Select` records the profile and then stores the projects and enters their list, or records only the fetch error |
| AppSpec.SelectProject | src/app.rs:82-90 | on a project, `Select` stores its targets (none when the project has no target list) and enters them, or records only the fetch error |
| AppSpec.SelectTarget | src/app.rs:91-101 | on a target, `Select` stores the loaded version's services, entries and supergraph and enters the service list of that target, or records only the fetch error |
| AppSpec.LoadServicesOutcome | src/app.rs:159-197 | with a latest version, the services are the entry names in order and the supergraph is copied; without one, all three are cleared; only those fields and the error change |
| AppSpec.SelectService | src/app.rs:102-117 | on a service, `Select` fetches nothing; it shows the first matching SDL or none, from the top and as a subgraph, and always enters the schema view |
| AppSpec.SelectInSchemaIsNoOp | src/app.rs:118 | in the schema view `Select` changes nothing |
| AppSpec.BackOnlyPops | src/app.rs:226-230 | `Back` pops and resets the selection when there is history, and changes nothing at the root; no dataset changes |
| AppSpec.BackUndoesSelect | src/app.rs:223-230 | `Back` right after a successful `Select` restores the navigation exactly |
| AppSpec.BackFromSchemaKeepsServices | src/app.rs:102-117 | entering a schema and going back returns to the same service list with the same data |
| AppSpec.ToggleSupergraphEffect | src/app.rs:231-245 | the flag flips and the scroll resets; the supergraph is shown when the flag turns on; when it turns off, the view's first matching SDL is shown in a schema view, and the text is kept elsewhere; the pane title names the newly shown graph |
| AppSpec.ToggleTwiceRestoresSubgraph | src/app.rs:231-245 | in a schema view showing its subgraph, toggling twice gives back the same state with the scroll at the top |
| AppSpec.QuitKeyStopsRun | src/main.rs:18-24 | a key that maps to `Quit`, pressed while running, stops the run |
| AppSpec.StoppedRunIsIdle | src/main.rs:18 | once stopped, the loop applies nothing more |
| AppSpec.KeysNeverShowSupergraph | src/input.rs:4-14 | a session driven by keys never shows the supergraph |
| AppSpec.SelectProfileListsProjects | src/app.rs:73-81 | a profile whose organisation has two projects enters a list of exactly those two projects, with the first selected |
| AppSpec.EmptyTargetWalkthrough | src/app.rs:91-117 | three Enter presses reach an empty service list showing its placeholder; a fourth enters a schema view named after the placeholder, with no schema text |
| AppImpl.App.constructor | src/app.rs:27-61 | the fields hold `Init` of the configuration outcome, the invariant holds, and the navigation stack is a new object owned by this controller |
| AppImpl.App.ResetSelection | src/app.rs:63-66 | the fields change as `ResetSelection` says |
| AppImpl.App.LoadProjects | src/app.rs:122-138 | on success, the fields become the loaded state and the result is `Pass`; on failure, the error is returned and nothing changes |
| AppImpl.App.LoadTargets | src/app.rs:140-157 | the same, for the targets of a project |
| AppImpl.App.LoadServices | src/app.rs:159-197 | the same, for the latest version of a target |
| AppImpl.App.StoreVersion | src/app.rs:168-196 | the fields change as `StoreVersion` says |
| AppImpl.App.SelectProfile | src/app.rs:73-81 | records the profile, then descends into the projects or records the error |
| AppImpl.App.SelectProject | src/app.rs:82-90 | descends into the project's targets, or records the error |
| AppImpl.App.SelectTarget | src/app.rs:91-101 | descends into the target's services, or records the error |
| AppImpl.App.SelectService | src/app.rs:102-117 | shows the service's SDL and enters its schema view |
| AppImpl.App.HandleSelect | src/app.rs:68-120 | the fields change as `HandleSelect` says |
| AppImpl.App.MoveUp | src/app.rs:202-209 | the fields change as `MoveUp` says |
| AppImpl.App.MoveDown | src/app.rs:210-222 | the fields change as `MoveDown` says |
| AppImpl.App.GoBack | src/app.rs:226-230 | the fields change as `GoBack` says |
| AppImpl.App.ToggleSchema | src/app.rs:231-245 | the fields change as `ToggleSchema` says |
| AppImpl.App.Update | src/app.rs:199-248 | the fields change as `Update` says, and the invariant is kept |
| AppImpl.RunSession | src/main.rs:16-27 | building the controller and applying the keys' actions while it runs leaves exactly the state `Run` gives, with the invariant kept |

## Left out

- src/tui.rs: terminal setup, restore and the panic hook are I/O. src/tui.rs is not part of this model.
- src/main.rs: drawing the terminal and reading events are I/O. `Run` and `RunSession` keep only the order of
  the steps. It does not model the filter that keeps key presses and drops releases and
  repeats: every key in the sequence counts as a press.
- Rendering: ratatui widgets, layout, styles, and the list widget's scroll offset are not
  modelled. The list widget's state is its selection only, an `Option<nat>`.
- `load_config`, `HiveClient` and the GraphQL types are foreign code and the network. The
  configuration is the outcome of loading it: either profile names or an error text. A client
  that cannot be built and a request that fails both appear as a `Failure` from the `Provider`.
- The order of `profiles` comes from a map type outside this code, so the profiles are taken
  as an arbitrary sequence.
- async/tokio: each action completes before the next one starts, so the model is sequential.
- `selected_index` is an unbounded `nat`. The source's `usize` `saturating_add` never
  saturates there, because it runs only while the index is below the list's last position.
- AppSpec.Run: the registry's answers are fixed for a whole run. A registry whose contents
  change between two fetches is not modelled.
- AppSpec.FindSdl: the source's `iter().find` is a lazy iterator. The model uses a recursive
  function with the same first-match result.
