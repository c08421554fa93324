# Models of hyprv's stateful cores

hyprv is a Windows app for Hyper-V virtual machines: tabs in several windows, a child process
(`rdphost`) with a popup window for each session, a byte protocol between the two, settings
dialogs and live lists. This project models the parts that carry state and proves what every
run of them keeps.

- `vm_tab`, `vm_tab_runs`, `vm_tab_fields`, `vm_tab_page`: the connection machine of a VM's tab (child, popup
  gate, start and error latches, enhanced-session back-off, timers); `remote_tab`,
  `remote_fields`, `remote_page`: its smaller sibling for remote hosts.
- `desktop`, `desktop_runs`, `desktop_moves`, `desktop_closes`, `desktop_places`, `desktop_steps`,
  `desktop_safety`, `desktop_shell`: all windows with their strips, selection, moves, tear-out and automatic
  closing; `popup_safety`, `popup_pending`, `popup_completeness`: whose popups are on screen;
  `desktop_children`: whose children run.
- `reconcile`, `item_list`: the keyed in-place redraw of the rail, adapter, disk and snapshot lists, for
  any snapshot. Its keys need not be distinct: an adapter's is its MAC address or, when that
  is empty, its name (src/app/MainWindow.xaml.cpp:3306), and dynamic adapters have an empty
  address (src/app/vm/VMManager.cpp:4890-4893); a disk's is the path of its image
  (src/app/vm/VMManager.cpp:1056-1062), which two drives can share.
- `wire`, `messages`, `pipe`, `outbox`, `traffic`: frames, payloads, exact reads, handshakes,
  the event queue, and all threads of a child on one pipe.
- `vlan_lists`, `nic_settings`, `storage_slots`, `storage_dialog`: the settings dialog's VLAN
  and MAC rows and its placement of queued storage devices.
- `session`: the tab strip across launches.
- `welcome_table`, `welcome_page`: the welcome page's VM table.

A handler is a function from the old state and what it reads outside to the new state; lemmas
about runs speak of these functions, and a class with the source's own fields and loops is
proved equal to them step by step. `dafny verify dfyconfig.toml` checks everything.

Assumptions: a handler runs to its end on the UI thread; a selection change runs its handler
at once; where the framework chooses the next selection, any choice is allowed; clock, VM
snapshot, saved hosts, file presence and launch results are inputs; pipe writes succeed; text
is compared without regard to case for the letters A to Z.

Where the code and its comments differ, the model follows the code. The comment that a closed
tab's child exits for good (src/app/VmTabPage.xaml.cpp:794-798) overlooks the reconnect timer
(`ClosedTabSpawnsAgain`); the comment on the restored selection
(src/app/MainWindow.xaml.cpp:986-989) speaks of clamping where the code falls back to the first
tab; a dialog's suppression reaches only the tabs open when it starts (`DoSync`,
`PopupOverDialog`) and not the tab on its way to a new window (`TornPopupOverDialog`); closing
a window stops the children of its tabs only (src/app/MainWindow.xaml.cpp:632-655), not that of
the item it was to adopt (`DoStrays`); ConnectLocalVm leaves the user-name length as it finds it
(`ConnectLocalVmArrives`).

## Model

| member | source | states |
|---|---|---|
| Text.SameFoldExactly | src/app/MainWindow.xaml.cpp:1149-1151 | Texts are compared as the same exactly when they differ at most between a letter's two forms. |
| Text.FoldExactly | src/app/WelcomePage.xaml.cpp:1118-1119 | The form compared is the one in small letters. |
| VmTabRuns.RunValid | src/app/VmTabPage.xaml.cpp:135-501 | Over every run of events, stale ones included: at most one child is alive and it is the client's; a shown popup means the tab is wanted, connected, not suppressed, and the popup belongs to the tab's window; a latched error means no client and a tab that ever connected has failure count 0; a client whose disconnect was handled has an armed reconnect timer; the fit timer stays within its ticks. |
| VmTabRuns.LiveRunStaysLive | src/app/VmTabPage.xaml.cpp:1024-1298 | While events come from the live child: m_connected is exactly that the child's session is up; a wanted, connected, unsuppressed popup is shown or its show is deferred to layout; a dropped child is retried within 2 s; an enhanced attempt starts only after the last cooldown ended. |
| VmTabRuns.EnhancedBackOff | src/app/VmTabPage.xaml.cpp:1212-1218 | Two enhanced attempts of a never-enhanced tab that drop before login-complete are at least 20 s apart, whatever polls and reconnects happen between. |
| VmTabRuns.EverEnhancedFreezesCooldown | src/app/VmTabPage.xaml.cpp:229-246 | Once a tab had an enhanced session its cooldown deadline never changes in any run. |
| VmTabRuns.FailuresAreTallied | src/app/VmTabPage.xaml.cpp:1239-1265 | For every run the failure counter equals the number of fatal, never-connected disconnects on a Running VM since the last reset: a session, a click, a disconnect of a tab that has connected, or an update that finds the VM known to be down, with no start awaited, while the error is latched. |
| VmTabRuns.LatchesExactly | src/app/VmTabPage.xaml.cpp:484-501 | The error view latches if and only if the child reports an error or the fourth such failure comes; a tab that has connected never latches on a disconnect. |
| VmTabRuns.AtMostFourSpawns | src/app/VmTabPage.xaml.cpp:1239-1265 | With every disconnect fatal and no user action, a Running VM's tab spawns at most four children before it gives up. |
| VmTabRuns.UpdateIsLevelTriggered | src/app/VmTabPage.xaml.cpp:573-790 | After the update a client exists exactly when the VM is known, runs or has a start pending no older than 25 s, and no error is latched (and, for a new one, window and executable are there); an existing client is kept. |
| VmTabRuns.UpdateIsIdempotent | src/app/VmTabPage.xaml.cpp:569-573 | A second update in the same world changes at most the placeholder. |
| VmTabRuns.PollsSpawnAtMostOnce | src/app/VmTabPage.xaml.cpp:215-249 | Any number of polls that see the same VM spawn at most one child. |
| VmTabRuns.FiringTimerRetiresClient | src/app/VmTabPage.xaml.cpp:358-381 | A firing reconnect timer replaces the client it found or removes it, and says exactly when. |
| VmTabRuns.ClosedTabSpawnsAgain | src/app/VmTabPage.xaml.cpp:792-806 | ShutdownClient does not stop the timer: a closed tab spawns another child if and only if the timer is armed and the VM is still wanted, no error is latched, and window and executable are there. |
| VmTabRuns.StaleConnectedIsBelieved | src/app/VmTabPage.xaml.cpp:1024-1066 | The queued Connected carries no child: m_connected stays truthful if and only if it is the current client's, that client was already up, or the update drops the client. |
| VmTabRuns.AppearsExactly | src/app/VmTabPage.xaml.cpp:135-213 | A popup that is not on screen comes up with an event if and only if the event's condition holds, event by event: show, release from suppression, layout, first load and Connected; no other event raises it. |
| VmTabRuns.InitialHolds | src/app/VmTabPage.xaml.cpp:90-104 | A new page satisfies all of the above. |
| VmTabFields.StepExactly | src/app/VmTabPage.xaml.cpp:117-1298 | For every tab, world and event the tab afterwards is known field by field from the tab before: the laws below hold of the step and of no other tab. |
| VmTabFields.ChildExactly | src/app/VmTabPage.xaml.cpp:573-806 | When a child is let go, when one is started and with what, who owns its popup, and how many run. |
| VmTabFields.EnhancedExactly | src/app/VmTabPage.xaml.cpp:1339-1372 | A child started is an enhanced attempt if and only if the VM is known to offer it, the user's preference is on and no cooldown runs; ready, ever and the 20 s cooldown change exactly where they should. |
| VmTabFields.TimersExactly | src/app/VmTabPage.xaml.cpp:338-381 | When the one reconnect timer is due after any event, and what starts, counts and stops the fit timer. |
| VmTabFields.PollUpgradesExactly | src/app/VmTabPage.xaml.cpp:229-246 | A poll arms the timer, for 250 ms, if and only if a client is connected in a basic session, the VM runs and an enhanced session is possible now. |
| VmTabFields.GateExactly | src/app/VmTabPage.xaml.cpp:135-213 | What the four gate flags are after any event and whether the popup is on screen. |
| VmTabFields.RestExactly | src/app/VmTabPage.xaml.cpp:413-790 | Start latches, error, failure count and placeholder after any event; the Start button is offered exactly for a VM at rest that nobody is starting. |
| VmTabPages.VmTabPage.constructor | src/app/VmTabPage.xaml.cpp:90-104 | A new page is the initial state and satisfies the invariant. |
| VmTabPages.VmTabPage.Handle | src/app/VmTabPage.xaml.cpp:970-1337 | One queued event, start to end, leaves the page as the field laws say and keeps the invariant. |
| RemoteTab.RunValid | src/app/RemoteHostTabPage.xaml.cpp:95-148 | The same popup gate, owner and single child hold for a remote host's page over every run. |
| RemoteTab.LiveRunStaysLive | src/app/RemoteHostTabPage.xaml.cpp:160-198 | With events from the live child, its connected flag is truthful and no show is lost. |
| RemoteTab.OwnEventKeepsOrders | src/app/RemoteHostTabPage.xaml.cpp:282-374 | No event of the page's own changes what its window asked for. |
| RemoteTab.AppearsExactly | src/app/RemoteHostTabPage.xaml.cpp:95-138 | The same exact condition for a remote host's page: first load, layout and Connected raise a popup, nothing else of its own does. |
| RemoteTab.ActionStartsChild | src/app/RemoteHostTabPage.xaml.cpp:523-532 | Connect, Retry or Reconnect ends with a new child exactly when the page has a window, the host is still saved, the executable is there and the launch works; otherwise with none, and an error. |
| RemoteFields.StepExactly | src/app/RemoteHostTabPage.xaml.cpp:72-545 | A remote host's page after any event or order, field by field: child, gate, popup, connecting and error, and nothing else satisfies these laws. |
| RemotePages.RemoteHostTabPage.Handle | src/app/RemoteHostTabPage.xaml.cpp:282-374 | One queued event leaves the page as the field laws say and keeps the invariant. |
| DesktopRuns.AddTabInv | src/app/MainWindow.xaml.cpp:1159-1192 | A new tab goes to the end of the strip, is selected, and everything else stays where it is. |
| DesktopRuns.CloseLast | src/app/MainWindow.xaml.cpp:2329-2354 | Closing the last tab opens a welcome tab after a session and closes the window otherwise. |
| DesktopRuns.CloseOlderSettings | src/app/MainWindow.xaml.cpp:1484-1503 | Of two Settings tabs in the adopting window the older one goes, and only that. |
| DesktopRuns.CloseWindowInv | src/app/MainWindow.xaml.cpp:1514-1528 | A window that closes takes exactly what it holds: a page stays, unchanged, if and only if another window holds its tab, and every other window is as it was. |
| DesktopMoves.MoveInv | src/app/MainWindow.xaml.cpp:1562-1584 | A shown tab moved to another window is in that strip, selected, and in no other; no other tab changes its window; gone are at most the destination's older Settings tab and what a closed source was still to adopt; new is at most the welcome tab of an emptied primary; an emptied secondary closes. |
| DesktopMoves.MoveDroppedInv | src/app/MainWindow.xaml.cpp:1734-1749 | A move is carried out on a later turn than its drop: it keeps every tab in exactly one place if and only if some window still shows the tab then. |
| DesktopMoves.TearDroppedInv | src/app/MainWindow.xaml.cpp:1779-1791 | The same exact condition for a tear-out carried out late. |
| DesktopMoves.TearOutInv | src/app/MainWindow.xaml.cpp:1586-1653 | Tearing a tab out leaves it the one pending item of a new secondary window and changes nothing else; every page is kept. |
| DesktopMoves.ActivateInv | src/app/MainWindow.xaml.cpp:665-672 | The new window's activation puts the pending tab into its strip and selects it; only an older Settings tab can go. |
| DesktopMoves.AdoptInv | src/app/MainWindow.xaml.cpp:1447-1512 | Adopting a tab just put into a strip leaves it selected and its popup owned by this window; only an older Settings tab of the window goes, and no other window's strip or page changes kind. |
| DesktopCloses.CloseTabFrame | src/app/MainWindow.xaml.cpp:2277-2367 | Closing a tab takes that tab out and no other, and leaves a welcome tab or no window when it was the last. |
| DesktopCloses.CloseAllInv | src/app/MainWindow.xaml.cpp:2423-2427 | Closing deleted VMs' tabs one after another never closes the window and closes exactly those. |
| DesktopCloses.DeletedMembers | src/app/MainWindow.xaml.cpp:2411-2422 | The tabs collected are exactly those of VMs the manager no longer knows, each once. |
| DesktopCloses.CloseDeletedInv | src/app/MainWindow.xaml.cpp:2399-2428 | After a poll no tab of the window is for a VM that is gone, and every other tab is still there. |
| DesktopCloses.OpenAnswers | src/app/MainWindow.xaml.cpp:1143-1157 | Opening ends with a tab of that page selected, found or new, and loses none. |
| DesktopCloses.ReplaceInv | src/app/MainWindow.xaml.cpp:2203-2248 | Replacing a tab by a VM's closes it and leaves the VM's tab selected, unless the replaced tab was that VM's own. |
| DesktopSafety.SuppressAllInv | src/app/MainWindow.xaml.cpp:3005-3016 | Every session page of the strip, and no other, is told. |
| DesktopSafety.PushInv | src/app/MainWindow.xaml.cpp:2999-3017 | Push keeps the desktop's invariant. |
| DesktopSafety.PopInv | src/app/MainWindow.xaml.cpp:3019-3041 | Pop keeps it, underflow included. |
| DesktopSafety.OwnEventKeeps | src/app/VmTabPage.xaml.cpp:1030-1091 | Whatever a VM page goes through on its own, its orders from the window stay. |
| DesktopSafety.ReorderInv | src/app/MainWindow.xaml.cpp:1562-1568 | A drag within a strip keeps its tabs. |
| DesktopPlaces.MovePlaces | src/app/MainWindow.xaml.cpp:1562-1584 | A tab moved to another window stands at the index it was dropped at, or at the end if that is none of the strip's; the tabs that were there keep their order but for an older Settings tab that gives way; the source keeps its other tabs in order, opens a welcome tab or goes; other windows are as they were. |
| DesktopPlaces.StrayPlaces | src/app/MainWindow.xaml.cpp:1571-1584 | An item dropped when no window shows it any more is put in at the index all the same, selected, and no other window changes. |
| DesktopPlaces.ActivatePlaces | src/app/MainWindow.xaml.cpp:665-672 | The tab a new window was handed goes to the end of its strip, selected. |
| DesktopPlaces.TearPlaces | src/app/MainWindow.xaml.cpp:1586-1653 | A tear-out takes the tab out of its place and leaves every other strip alone; a lone tab stays. |
| DesktopPlaces.CloseTabPlaces | src/app/MainWindow.xaml.cpp:2277-2367 | Closing takes the tab out of its place; another is selected only if it was selected, the first of the framework's candidates that is left; its page loses its client and wants no popup. |
| DesktopPlaces.OpeningPlaces | src/app/MainWindow.xaml.cpp:1131-1192 | Opening selects the first tab of the strip that answers, guids and addresses compared without case, and otherwise adds one at the end with a fresh page owned by the window and wanted. |
| DesktopPlaces.PushPopPlaces | src/app/MainWindow.xaml.cpp:2999-3041 | The count of open dialogs goes up by one, and down by one but not below 0, and nothing else of any window changes. |
| DesktopPlaces.ReorderPlaces | src/app/MainWindow.xaml.cpp:1562-1568 | A drag within the strip is taken over exactly when it holds the same tabs. |
| DesktopPlaces.PolledExactly | src/app/MainWindow.xaml.cpp:2399-2428 | After a poll a tab is still there if and only if it is no VM's or its VM's guid, in any case, is in the list. |
| DesktopSteps.DoExactly | src/app/MainWindow.xaml.cpp:1131-1653 | What each of the seventeen actions does to the windows, strips, selections and the page it is about: the others stay as they were, and a session event changes its own page as the page's law says. |
| DesktopSteps.Replaces | src/app/MainWindow.xaml.cpp:2203-2248 | The replaced tab is gone and, unless it was that VM's, the strip is the old one without it, with the VM's first tab selected or a new one added at the end and selected. |
| PopupSafety.LaunchInv | src/app/MainWindow.xaml.cpp:656-664 | The desktop with its first welcome tab satisfies the invariant. |
| PopupSafety.PlayInv | src/app/MainWindow.xaml.cpp:1447-1653 | Over every run of opens, closes, moves, tear-outs, activations, polls, dialogs and sessions: each tab is in exactly one strip once or is one window's pending item, every window shows or awaits a tab, no window has two Settings tabs, selections lie in their strips, and every popup-owning page is valid, knows its window and is wanted exactly when selected. |
| PopupSafety.DoSync | src/app/MainWindow.xaml.cpp:2999-3041 | Suppression stays in step with the windows' counts if and only if the action is calm: no session tab is created in a suppressed window, moved between a suppressed and an unsuppressed one, or left pending while its window's count leaves or reaches 0. |
| PopupSafety.MovedSync | src/app/MainWindow.xaml.cpp:1562-1584 | The exact condition for moves. |
| PopupSafety.TornSync | src/app/MainWindow.xaml.cpp:1586-1653 | The exact condition for tear-outs. |
| PopupSafety.PushSync | src/app/MainWindow.xaml.cpp:2999-3017 | The exact condition for push: 0 to 1 tells every session tab, deeper pushes tell none. |
| PopupSafety.PopSync | src/app/MainWindow.xaml.cpp:3019-3041 | The exact condition for pop. |
| PopupSafety.OpenSessionSync | src/app/MainWindow.xaml.cpp:1131-1192 | The exact condition for opening a VM's or a remote host's tab. |
| PopupSafety.ReplaceSync | src/app/MainWindow.xaml.cpp:2203-2248 | The exact condition for replacing a tab. |
| PopupSafety.InvObeys | src/app/MainWindow.xaml.cpp:2105-2148 | While the tabs in strips agree with their windows' counts, a popup of such a tab that is on screen is the selected tab's, over that tab's window, connected, with no dialog open there. |
| PopupSafety.PlayObeys | src/app/MainWindow.xaml.cpp:2105-2148 | So for the tabs in strips over every calm run, in whatever order connects, tab switches, dialogs, moves, layout and timers come; PopupPending has the tab between two windows. |
| PopupSafety.PopupOverDialog | src/app/MainWindow.xaml.cpp:1131-1192 | A VM tab opened under a dialog shows its popup over it once it connects. |
| PopupPending.TearOutObeys | src/app/MainWindow.xaml.cpp:1586-1653 | A tear-out leaves the torn page as it was, popup and all; popup safety over all that windows hold, the item that waits included, survives it if and only if that popup was not on screen. |
| PopupPending.DoHidden | src/app/MainWindow.xaml.cpp:1586-1653 | Whatever the counts, the popups of waiting tabs stay off screen if and only if the action is discreet: no tab is torn out with its popup up, and no event of a waiting tab's own raises it. |
| PopupPending.DoHeldObeys | src/app/MainWindow.xaml.cpp:2105-2148 | Popup safety over all that windows hold is kept by a calm action if and only if it is discreet. |
| PopupPending.PlayHeldObeys | src/app/MainWindow.xaml.cpp:2105-2148 | So over every calm and discreet run. |
| PopupPending.WaitingIsLeft | src/app/MainWindow.xaml.cpp:1586-1653 | Until its window's first activation or end, a torn-out tab waits, and nothing but an event of its own changes its page. |
| PopupPending.TornPopupStays | src/app/MainWindow.xaml.cpp:1586-1653 | Over any run after a tear-out, while the tab waits, a popup on screen is owned by the window the tab came from, and was wanted and not suppressed there. |
| PopupPending.ActivationRestores | src/app/MainWindow.xaml.cpp:665-672 | The first activation restores popup safety over all that windows hold, if no other waiting tab's popup is up. |
| PopupPending.TornPopupOverDialog | src/app/MainWindow.xaml.cpp:2999-3017 | A tab torn out with its popup up: a dialog then opened in the window it came from does not hide that popup, which lies over this window. |
| DesktopChildren.CloseWindowStrays | src/app/MainWindow.xaml.cpp:1514-1528 | Closing a window leaves a child running without a window if and only if its waiting item has one. |
| DesktopChildren.CloseItemStrays | src/app/MainWindow.xaml.cpp:2277-2367 | Closing a tab stops its child, and strands one if and only if it was the last tab, no session, of a window whose waiting item has a child. |
| DesktopChildren.DoStrays | src/app/MainWindow.xaml.cpp:1514-1553 | For every action: each child that runs still belongs to a page of some window if and only if the action ends no window whose waiting item has a child. |
| DesktopChildren.PlayStrays | src/app/MainWindow.xaml.cpp:632-655 | Over every run without such an end, each child that runs belongs to a page, one at most, and the page to a window. |
| DesktopChildren.TornChildStranded | src/app/MainWindow.xaml.cpp:1586-1653 | A tab torn out with its child and a new window closed before its first activation: nothing stops the child. |
| PopupCompleteness.PlayLive | src/app/VmTabPage.xaml.cpp:808-867 | Over every run of the desktop with genuine child events every session page stays live. |
| PopupCompleteness.PlayShows | src/app/MainWindow.xaml.cpp:2105-2160 | Over every calm run with genuine child events, the selected tab of a window without dialog whose session is up has its popup on screen or shows it at layout. |
| PopupCompleteness.FromLaunch | src/app/MainWindow.xaml.cpp:560-672 | Both popup theorems from the program's launch on; over discreet runs popup safety includes the tabs between two windows. |
| DesktopShell.Shell.HideOtherPopups | src/app/MainWindow.xaml.cpp:2105-2148 | The walk over the strip hides every popup but the selected tab's and leaves every other page alone. |
| DesktopShell.Shell.SuppressStrip | src/app/MainWindow.xaml.cpp:3005-3016 | The walk tells every session page of the strip, and no other. |
| DesktopShell.Shell.ShutdownAllTabClients | src/app/MainWindow.xaml.cpp:1514-1528 | The walk stops the child of every tab in the strip; the item that waits to be adopted is not visited. |
| DesktopShell.Shell.RemoveItem | src/app/MainWindow.xaml.cpp:1570-1575 | IndexOf and RemoveAt take the tab out; a selected one hands on the selection. |
| DesktopShell.Shell.FindTab | src/app/MainWindow.xaml.cpp:1144-1157 | The walk finds the first tab that answers, ignoring case. |
| DesktopShell.Shell.OnVmManagerChanged | src/app/MainWindow.xaml.cpp:2408-2428 | Collect, then close. |
| DesktopShell.Shell.Handle | src/app/MainWindow.xaml.cpp:1131-3041 | Any possible action, carried out step by step on the fields, is the transition function of every run, and keeps the invariant. |
| ItemLists.ItemList.FirstByKey | src/app/MainWindow.xaml.cpp:421-429 | emplace keeps the first item of each key. |
| ItemLists.ItemList.Bring | src/app/MainWindow.xaml.cpp:443-452 | An item is taken out and put in at the index, which may be beyond the end by then; nothing moves if and only if it is there already. |
| ItemLists.ItemList.PlaceRow | src/app/MainWindow.xaml.cpp:434-457 | One row's item is updated and moved, or created, at the row's index, or the index is out of range. |
| ItemLists.ItemList.Place | src/app/MainWindow.xaml.cpp:431-457 | The forward pass for any snapshot, repeated keys included: the rows' items laid out one after another, each showing the last row that named it, or a stop at the first index out of range with that row's item taken out. |
| ItemLists.ItemList.Sweep | src/app/MainWindow.xaml.cpp:459-467 | The reverse pass removes exactly what the snapshot does not name. |
| ItemLists.ItemList.Render | src/app/MainWindow.xaml.cpp:421-467 | For any old list and any snapshot: it fails if and only if more rows than the old list has items carry a key that list shows; otherwise the list is the layout of the rows' items without what is not named, a surviving key keeps its first item as the same object, new ones are fresh, texts are the rows'; and nothing is put in or taken out if and only if the old keys are in place already. |
| Reconcile.InRange | src/app/MainWindow.xaml.cpp:3306-3411 | For any snapshot: every index is in range if and only if the number of rows whose key is in the old list is at most the old list's length. |
| Reconcile.RepeatedKeyFails | src/app/MainWindow.xaml.cpp:3348-3363 | One old card and two rows with its key: the second insertion is out of range. |
| Reconcile.TwinsTradePlaces | src/app/MainWindow.xaml.cpp:3348-3363 | Two old cards of one key and two rows with it: the cards trade places, and both rows go to the first card. |
| Reconcile.RedrawnMembers | src/app/MainWindow.xaml.cpp:3453-3460 | For any snapshot in range: exactly the items whose key is named stay, one is added for each row whose key was not shown, and each is there once. |
| Reconcile.InOrderExactly | src/app/MainWindow.xaml.cpp:3306-3411 | The rows' items head the list in the rows' order if and only if the snapshot repeats no key the old list shows. |
| Reconcile.RedrawnIsSnapshot | src/app/MainWindow.xaml.cpp:3622-3713 | The redrawn list is the snapshot row by row if and only if no key that both show is repeated in either. |
| Reconcile.RedrawnSettles | src/app/MainWindow.xaml.cpp:3575-3583 | The next redraw of the same snapshot moves nothing if and only if the snapshot repeats no key. |
| Wire.UnpackPack | src/shared/RdpIpc.h:69-82 | Any packed little-endian struct reads back as written, whatever follows it. |
| Wire.PackUnpack | src/shared/RdpIpc.h:69-82 | And any bytes read as a struct write back as they were. |
| Wire.HeaderReads | src/shared/RdpIpc.h:72-82 | The eight-byte header gives back type and payload size. |
| Wire.ParseEncodeAll | src/shared/RdpIpc.h:72-82 | Parsing undoes framing for every sequence of frames. |
| Wire.ParseTruncated | src/rdphost/IpcClient.cpp:154-176 | A stream cut anywhere yields exactly its complete frames. |
| Wire.WholeFits | src/rdphost/IpcClient.cpp:154-176 | Those are the frames that fit, and the next one does not. |
| Wire.LittleEndian | src/shared/RdpIpc.h:69-82 | Byte i of a number is its i-th digit in base 256, lowest first. |
| Wire.FrameBytes | src/shared/RdpIpc.h:69-82 | A frame is its type, three zero bytes, the size in four bytes and the payload. |
| Messages.OptionsRoundTrip | src/shared/RdpIpc.h:125-149 | RdpOptions survives packing, field by field. |
| Messages.ConnectArrives | src/app/rdp/RdpHostClient.cpp:653-667 | Options and the three texts of Connect reach the child's dispatcher as given, as long as they fit a frame. |
| Messages.ConnectLocalVmArrives | src/rdphost/main.cpp:92-133 | Guid and options of ConnectLocalVm always arrive; the server name arrives if and only if the caller's options claim no user name, else the child gets no text. |
| Messages.DisconnectedArrives | src/rdphost/RdpHost.cpp:290-345 | The parent reads reason, extended reason and class as raised (errors are reasons above 3), with the text of errors only. |
| Messages.OptionsBytes | src/shared/RdpIpc.h:125-149 | RdpOptions is its eleven fields one after another in the struct's order and widths. |
| Messages.ConnectBytes | src/app/rdp/RdpHostClient.cpp:605-667 | Connect is type 2: options, then server, domain and user; ConnectLocalVm is type 3: guid, options with nine and no bytes of server and domain, and localhost. |
| Messages.DisconnectedBytes | src/rdphost/RdpHost.cpp:290-345 | Disconnected is type 132: reason, extended reason, class, length and text. |
| Messages.LogLineBytes | src/rdphost/main.cpp:51-60 | A log line is type 137: level, length and text. |
| Messages.LogLineArrives | src/rdphost/main.cpp:51-60 | A log line's text arrives whole. |
| Pipes.PipeEnd.ReadExact | src/rdphost/IpcClient.cpp:69-82 | However the pipe splits its bytes, the buffer gets exactly the next ones, or the pipe has ended. |
| Pipes.PipeEnd.ReceiveLoop | src/rdphost/IpcClient.cpp:148-180 | Exactly the stream's complete frames are delivered, in order, then one disconnect. |
| Pipes.PipeEnd.Send | src/rdphost/IpcClient.cpp:118-146 | Header and payload go out as one frame. |
| Pipes.PipeEnd.SendRaw | src/rdphost/IpcClient.cpp:104-116 | The framed bytes go out as they are. |
| Pipes.PipeEnd.ChildHandshake | src/rdphost/IpcClient.cpp:84-102 | Succeeds exactly on a whole Hello whose range holds the child's version, and answers any whole Hello. |
| Pipes.PipeEnd.ParentHandshake | src/app/rdp/RdpHostClient.cpp:274-297 | Succeeds exactly on HelloAck with status 0 followed by HwndReady with a window, and leaves the rest unread. |
| Pipes.ChildAccepts | src/rdphost/IpcClient.cpp:95-101 | The versions a child accepts. |
| Pipes.HandshakeBytes | src/shared/RdpIpc.h:86-100 | The twelve bytes of Hello and of HelloAck, and HwndReady, with protocol version 3. |
| Pipes.ParentAccepts | src/app/rdp/RdpHostClient.cpp:280-296 | The child's first two frames are what the parent's handshake wants. |
| Traffic.RunInv | src/rdphost/IpcClient.cpp:104-146 | Over every interleaving of startup, UI, receive, logging and sender threads: the wire is whole frames and at most one header whose writer holds the lock; events leave in the order queued; startup frames come first. |
| Traffic.WireParses | src/rdphost/IpcClient.cpp:118-146 | At every moment the wire parses to exactly the frames sent. |
| Traffic.OpeningComesFirst | src/rdphost/main.cpp:250-329 | HelloAck, then HwndReady, before anything else. |
| Traffic.ParentStarts | src/app/rdp/RdpHostClient.cpp:280-296 | From two frames on, the parent's handshake succeeds and its receive loop gets exactly the frames that follow. |
| Traffic.EveryRun | src/rdphost/RdpHost.cpp:181-231 | The three together, from the start of the process, with enqueued = sent ++ in flight ++ queue. |
| Traffic.StartupRuns | src/rdphost/main.cpp:250-329 | From the start of the process there is a run of allowed steps to the message loop with just the opening sent. |
| Traffic.EventsFollowCommand | src/rdphost/RdpHost.cpp:218-231 | In the message loop an event can be raised exactly after a command and if it fits a frame, and joins the end of the queue. |
| Traffic.QueueDrains | src/rdphost/RdpHost.cpp:181-231 | From any moment of any run there are allowed steps after which every queued event is out, in the order queued, and the lock is free. |
| Traffic.EarlyLogBreaksHandshake | src/rdphost/main.cpp:253-260 | A log line between the two would make the parent give up. |
| Outboxes.Framed | src/rdphost/RdpHost.cpp:218-225 | The buffer is the frame's bytes. |
| Outboxes.Outbox.QueueOutbound | src/rdphost/RdpHost.cpp:218-231 | The frame joins the end of the queue. |
| Outboxes.Outbox.SendNext | src/rdphost/RdpHost.cpp:188-206 | The oldest message leaves the queue and is on the pipe. |
| Outboxes.Outbox.Drain | src/rdphost/RdpHost.cpp:186-207 | Once the queue is empty the parent parses the frames written before the sender started and then every event queued, in order. |
| VlanLists.FormatVlanList | src/app/VmSettingsDialog.xaml.cpp:362-371 | The ids in decimal, joined by commas. |
| VlanLists.ParseVlanList | src/app/VmSettingsDialog.xaml.cpp:376-411 | Tokens, ranges in either direction, junk skipped, ids outside 1 to 4094 dropped. |
| VlanLists.Flush | src/app/VmSettingsDialog.xaml.cpp:380-403 | One token. |
| VlanLists.StoiDecimal | src/app/VmSettingsDialog.xaml.cpp:398-399 | A printed id reads back as its number. |
| VlanLists.ParseVlans | src/app/VmSettingsDialog.xaml.cpp:373-375 | Every result lies in 1 to 4094, whatever the text. |
| VlanLists.ParseFormat | src/app/VmSettingsDialog.xaml.cpp:362-411 | Reading what was printed drops what is no VLAN id and keeps the rest in order. |
| VlanLists.FormatRoundTrip | src/app/VmSettingsDialog.xaml.cpp:362-411 | A list survives printing and reading if and only if all of it are VLAN ids. |
| VlanLists.DecimalCanonical | src/app/VmSettingsDialog.xaml.cpp:362-371 | No id is printed with a leading zero. |
| VlanLists.NumberParses | src/app/VmSettingsDialog.xaml.cpp:380-399 | A number with white space before it, a plus or none, and anything but digits, commas, semicolons and dashes after it is that id, if it lies in 1 to 4094. |
| VlanLists.RangeParses | src/app/VmSettingsDialog.xaml.cpp:387-395 | A range, either way round, yields in ascending order exactly the VLAN ids from the smaller number to the larger. |
| VlanLists.ParseConcat | src/app/VmSettingsDialog.xaml.cpp:404-409 | What stands before a separator is read apart from what follows it, whatever the two texts. |
| VlanLists.JunkChangesNothing | src/app/VmSettingsDialog.xaml.cpp:380-410 | Text without a digit between two separators changes nothing. |
| VlanLists.ParseStable | src/app/VmSettingsDialog.xaml.cpp:362-411 | Read, print, read again is read once. |
| NicSettings.NormalizeMac | src/app/VmSettingsDialog.xaml.cpp:70-82 | The hex digits, upper-cased, and nothing else. |
| NicSettings.FormatMacForDialog | src/app/VmSettingsDialog.xaml.cpp:51-62 | Colons for twelve characters, else unchanged. |
| NicSettings.MacRoundTrip | src/app/VmSettingsDialog.xaml.cpp:51-82 | Shown and read back unchanged if and only if stored as upper-case hex. |
| NicSettings.ShownInPairs | src/app/VmSettingsDialog.xaml.cpp:51-62 | Twelve characters are shown in pairs with colons between, anything else as it is. |
| NicSettings.NormalizeExactly | src/app/VmSettingsDialog.xaml.cpp:66-82 | What is read from a text is its hex digits, all of them, in order, in upper case, and nothing else is. |
| NicSettings.MacSaved | src/app/VmSettingsDialog.xaml.cpp:3003-3023 | After Save the stored MAC has the box's flag and, if static, the text's digits; it is refused exactly when static, different from what is stored and not twelve digits, and written exactly when something would change. |
| NicSettings.MacFixpoint | src/app/VmSettingsDialog.xaml.cpp:3001-3023 | Saving untouched writes no MAC if and only if it is dynamic or upper-case hex. |
| NicSettings.MacWritten | src/app/VmSettingsDialog.xaml.cpp:3001-3023 | A static MAC that is written has twelve upper-case hex digits and is not written twice. |
| NicSettings.VlanFixpoint | src/app/VmSettingsDialog.xaml.cpp:3025-3083 | Saving untouched writes no VLAN config if and only if the stored one is valid for its mode. |
| NicSettings.LoadExactly | src/app/VmSettingsDialog.xaml.cpp:876-949 | What each control shows for what is stored. |
| NicSettings.VlanSaved | src/app/VmSettingsDialog.xaml.cpp:3025-3083 | After a Save that is not refused what is stored is what the controls show; it writes exactly when that was not stored, and refuses exactly an empty trunk that was not. |
| NicSettings.VlanWritten | src/app/VmSettingsDialog.xaml.cpp:3025-3083 | Only well-formed configs are written, and neither the same controls nor a reopened dialog write again. |
| StorageSlots.RunInv | src/app/VmSettingsDialog.xaml.cpp:2145-2151 | Over every run of flyouts, queueing, adding and removing controllers and state changes: queued places are pairwise distinct, below maxSlots, not used by the VM, exactly those in m_queuedSlots, and on controllers that exist. |
| StorageSlots.QueueInv | src/app/VmSettingsDialog.xaml.cpp:2177-2250 | Queueing from any of the four flyouts keeps that. |
| StorageSlots.AddInv | src/app/VmSettingsDialog.xaml.cpp:2362-2393 | Adding a controller keeps it. |
| StorageSlots.RemoveInv | src/app/VmSettingsDialog.xaml.cpp:1906-1924 | Removing one keeps it: its button is enabled only with nothing queued there. |
| StorageSlots.DoExactly | src/app/VmSettingsDialog.xaml.cpp:1889-2393 | What every action leaves: each kind of flyout adds the picked device, with the controller and slot shown, to the end of its own queue and no other; slots taken, controllers, buttons, flyout and both boxes likewise. |
| StorageSlots.OpenedExactly | src/app/VmSettingsDialog.xaml.cpp:1596-1598 | The dialog opens with nothing queued and the Remove buttons gated. |
| StorageSlots.OfferedExactly | src/app/VmSettingsDialog.xaml.cpp:1967-1980 | A slot is offered if and only if it is real, unused and not queued. |
| StorageSlots.RebuildExactly | src/app/VmSettingsDialog.xaml.cpp:1596-1598 | Re-reading the controllers is safe if and only if every queued place is still vacant. |
| StorageDialogs.StorageDialog.UpdateControllerRemoveButtons | src/app/VmSettingsDialog.xaml.cpp:1889-1904 | Enabled are the empty SCSI controllers with nothing queued, VM off. |
| StorageDialogs.StorageDialog.RefreshSlotFor | src/app/VmSettingsDialog.xaml.cpp:1956-1982 | The slot box offers the free slots in order, the first one selected. |
| StorageDialogs.StorageDialog.PopulatePlacement | src/app/VmSettingsDialog.xaml.cpp:1935-1954 | An opening flyout offers the present controllers. |
| StorageDialogs.StorageDialog.OnPlacementControllerChanged | src/app/VmSettingsDialog.xaml.cpp:2004-2012 | Another controller, its slots. |
| StorageDialogs.StorageDialog.ConsumeQueuedSlot | src/app/VmSettingsDialog.xaml.cpp:2145-2151 | The slot is marked and the buttons re-gated. |
| StorageDialogs.StorageDialog.OnQueue | src/app/VmSettingsDialog.xaml.cpp:2177-2195 | The picked device joins the queue of the open flyout's kind and no other, and takes its slot; a cancelled picker queues nothing. |
| StorageDialogs.StorageDialog.OnStorageAddScsiController | src/app/VmSettingsDialog.xaml.cpp:2362-2393 | The controller list is re-read and the buttons re-gated. |
| StorageDialogs.StorageDialog.RemoveScsiControllerByRef | src/app/VmSettingsDialog.xaml.cpp:1906-1933 | On success the queued slots of the controller are forgotten with it. |
| Sessions.PrimaryWindow.PersistOpenTabs | src/app/MainWindow.xaml.cpp:855-910 | The strip's entries in order, and the index of the selected one. |
| Sessions.PrimaryWindow.OpenTab | src/app/MainWindow.xaml.cpp:1143-1157 | Focus a tab of the same VM, host or Settings, else append. |
| Sessions.PrimaryWindow.RestoreOpenTabs | src/app/MainWindow.xaml.cpp:912-1007 | The strip, selection and fallback after launch, and what is persisted then. |
| Sessions.RestoreFilters | src/app/MainWindow.xaml.cpp:928-983 | For any persisted list the strip is its openable entries without repetitions, and a tab of it is selected. |
| Sessions.RestoreExactly | src/app/MainWindow.xaml.cpp:912-1007 | For any persisted list: the tabs of the entries that can be opened, in order, the first of each alike; the persisted index selected if the strip has it, else the first; a welcome tab if no entry can be opened. |
| Sessions.RestorePersisted | src/app/MainWindow.xaml.cpp:855-1007 | A strip comes back with its selection if and only if no tab of it would focus another and every remote host in it is still saved. |
| Sessions.RestoreSettles | src/app/MainWindow.xaml.cpp:1004-1006 | A second persist and restore changes nothing. |
| Sessions.SelectionExactly | src/app/MainWindow.xaml.cpp:986-1000 | When hosts are gone, the selected tab is the old one if and only if none before it is gone, or all are and the index points past the strip. |
| Sessions.SelectionSlips | src/app/MainWindow.xaml.cpp:986-1000 | A strip whose restored selection is another tab. |
| WelcomeTable.BeforeIsStrictWeak | src/app/WelcomePage.xaml.cpp:1108-1148 | The comparator is a strict weak order for all five keys in both directions. |
| WelcomeTable.CompareExactly | src/app/WelcomePage.xaml.cpp:1108-1148 | Text order: a prefix comes first, otherwise the first difference decides. |
| WelcomeTable.RedrawIsSorted | src/app/WelcomePage.xaml.cpp:1108-1148 | Of any two rows the upper one's cell in the sorted column is at most the lower one's, numbers as numbers and text without case, ties by name; the other way round when descending; for all five columns. |
| WelcomeTable.RedrawShowsVms | src/app/WelcomePage.xaml.cpp:1168-1225 | A redraw shows the visible VMs row by row with their own figures; without a connection nothing changes. |
| WelcomeTable.RowsKeptExactly | src/app/WelcomePage.xaml.cpp:1168-1186 | Rows keep their elements and spelling exactly when they are the visible VMs one by one, up to case. |
| WelcomeTable.ContainsExactly | src/app/WelcomePage.xaml.cpp:1150-1166 | A name matches exactly when the filter stands somewhere in it. |
| WelcomeTable.HandleExactly | src/app/WelcomePage.xaml.cpp:1229-1396 | What every input does to filter, sort, selection and rows. |
| WelcomeTable.FastPathRefines | src/app/WelcomePage.xaml.cpp:1168-1225 | The in-place refresh leaves what a rebuild would, up to the case of guids and names, and exactly that if they are spelled as before. |
| WelcomeTable.RedrawIsRight | src/app/WelcomePage.xaml.cpp:1096-1241 | A redraw shows exactly the VMs whose name holds the filter, each as often as it is listed, in the sort's order, by either path. |
| WelcomeTable.RunSelection | src/app/WelcomePage.xaml.cpp:1229-1240 | Over every run the selected guid is empty or a row on screen. |
| WelcomeTable.ArrowMoves | src/app/WelcomePage.xaml.cpp:1350-1369 | An arrow key moves by one row and stops at the ends; with nothing selected it selects the first row. |
| WelcomePages.WelcomePage.RenderAllVms | src/app/WelcomePage.xaml.cpp:1067-1241 | Does what the table's Render says; an unchanged structure keeps every row element. |
| WelcomePages.WelcomePage.UpdateRows | src/app/WelcomePage.xaml.cpp:1179-1185 | Every element stays and gets its cells. |
| WelcomePages.WelcomePage.RebuildRows | src/app/WelcomePage.xaml.cpp:1187-1240 | New elements in order, and a selection that shows. |
| WelcomePages.WelcomePage.OnArrow | src/app/WelcomePage.xaml.cpp:1350-1369 | Down and up. |
| WelcomePages.WelcomePage.OnEscape | src/app/WelcomePage.xaml.cpp:1378-1396 | Clears the selection, then the filter. |
| WelcomePages.WelcomePage.OnFilterChanged | src/app/WelcomePage.xaml.cpp:770-776 | The filter is taken and the table redrawn. |

## Left out

- ItemLists.ItemList.Render: after an index out of range the rest of the redraw is given up, as an exception would; that the disk cards take their text after the move and not before it is not modelled.
- Traffic.EveryRun: does not model failed writes, where a failing Send logs while it holds the send lock, nor Stop and StopSenderThread, which do not drain the queue.
- Pipes.PipeEnd.ReceiveLoop: does not model Stop, which may end the loop between two frames.
- VlanLists.ParseVlanList: counts in unbounded integers, while the source's range loop does not end in 32 bits when a range reaches 2147483647.
- Sessions.PrimaryWindow.RestoreOpenTabs: does not model recents, tab titles and the auto-connect flag of restored remote tabs.
- PopupSafety.PlayObeys: speaks of tabs in a strip; PopupPending.PlayHeldObeys has the tab waiting to be adopted by a new window as well.
- DesktopChildren.DoStrays: says which children are stopped by closing; a page's destructor, which may stop a child later, and the timers of closed pages (VmTabRuns.ClosedTabSpawnsAgain) are not part of it.
- The actions of a desktop run move and tear out only tabs that some window shows when they are carried out; DesktopMoves.MoveDroppedInv and TearDroppedInv say what the others do.
- StorageSlots.RunInv: takes from the host that a re-read list differs only by the controller just added or removed; `RebuildExactly` says what any other list would need.
- WelcomeTable.FastPathRefines: leaves out which of spinner, table and hint is visible; a connection that fails and recovers can leave the table hidden on the fast path.
- The session's pixel geometry, DPI and the display negotiation of enhanced sessions, but for the fit timer's life.
- RDP option values other than their encoding, and the mstscax control behind the child's events.
- The wording of placeholders, labels, cells and menus; brushes, themes, splitters, drag hit-testing and sparklines.
- Recovery from a child that only exits, and from a failed ConnectLocalVm launch: the source has none.
- Remote-host rows of the welcome page and their selection, recents, and the settings page's search.
- The rail's sort of the snapshot by name: the redraw takes the rows in any order.
- ReplaceTabWithRemoteHost, which repeats ReplaceTabWith for a host, and forgetting a host, which closes its tab.
- WMI calls, settings.json, file pickers and coroutines: their results are inputs of the handlers.
- Letters beyond A to Z in case-insensitive comparison and digits beyond 0 to 9 in number parsing.
- Boot-order buttons and the advanced adapter features: they would add easy members only.
