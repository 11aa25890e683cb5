# A model of logid

This project models the concurrent protocols and the stateful accounting of the logid device daemon, and of the
host-switch script that comes with it, and proves properties of every run of them. Each file is one module:

| module | what it models |
|---|---|
| `HidppReport` | HID++ reports as byte strings |
| `ResponseSlots` | the HID++ 2.0 request/response multiplexer: any number of senders over 16 slots |
| `IOMonitor` | the hand-off of the I/O listener's lock to threads that change its descriptors |
| `EventHandlers` | the list of event handlers, changed while it is iterated |
| `Settings`, `ConfigIO`, `ConfigRoundTrip`, `ConfigSchema` | saving and loading the configuration, and its schema |
| `Touchpad`, `TouchpadGesture` | the virtual touchpad with a receiver of its events, and the action that drives it |
| `ConnectionHooks` | the hooks run on link changes and the queue that runs them |
| `GestureMotion` | pointer motion split over directional gestures, and the choice made on release |
| `BatteryEstimate`, `Nicknames`, `ReceiverAdds`, `RemapButtons`, `Discovery` | interpolation, allocation, retries, button reports, name reassembly |
| `HostSwitch` | the crash-safe controller of the host-switch script |

Concurrent parts are state machines: an `Event` for each atomic section, `Enabled` and `Apply` for when it can happen
and what it does, and lemmas about every sequence of enabled events. Where the source updates an object, a class has
the same fields and its methods are proved to take exactly the steps of the machine. Calls into the system, clocks and
random interleaving are events or parameters: whether a lock attempt fails, whether a write throws, whether a thread or
a child process can be created. All results hold for every choice of these. Inductions are written out: no lemma
relies on automatic induction.

Integers are unbounded except where the source casts: the 16-bit casts of gestures, the integer widths of
configuration scalars and the bytes of reports are modelled. Floating point is modelled by `real`, with halves rounded
away from zero.

## Findings

Some properties one would expect are false of the code. Each is stated with a concrete input or an exact condition.

- A response slot stays occupied for good if and only if the write of a claimed request throws
  (`ResponseSlots.OwnedIffWritesReturn`, `ResponseSlots.LeakIsForever`, `ResponseSlots.LeakingRun`).
- Saving the configuration throws if and only if a device is ignored, since the members of a std::set are written to
  group nodes (`ConfigRoundTrip.SavesIffSetsEmpty`, `ConfigSchema.ConfigRoundTrips`, `ConfigSchema.IgnoringOneDevice`).
- Saving over the tree the file was read into does not remove options that are empty now
  (`ConfigRoundTrip.OverwriteRoundTrip`, `ConfigSchema.SaveOverFile`).
- A handler can be called after its removal if and only if a pass had read its flag as live and not yet called it
  (`EventHandlers.NoCallAfterRemoval`, `EventHandlers.CallAfterRemovalExample`).
- The vertical gesture accumulators drift at crossings of the origin (`GestureMotion.NetMotionY`), and net motion is
  lost exactly in the runs with a lossy 16-bit cast (`GestureMotion.NetMotion`), all of them moves by -32768
  (`GestureMotion.CastsExactX`, `GestureMotion.CastsExactY`).
- A hook that cannot be started shifts the alternation of the hooks that are (`ConnectionHooks.ChildrenAlternate`,
  `ConnectionHooks.FailedSpawnExample`), and a job waits without a worker if and only if the last submission could not
  have its thread (`ConnectionHooks.NoIdleQueue`).
- A connection report that adds a device while a timeout check of it is pending lets a second timeout check start
  (`ReceiverAdds.OneCheckPerDevice`).
- A discovered name whose length is a multiple of 13 is never reported complete by its last block
  (`Discovery.ExactMultipleNeverCompletes`, `Discovery.ThirteenBytes`), and completion says that the name is whole only
  under an exact condition on the blocks received (`Discovery.FirstCompletionIsWhole`, `Discovery.FortyBytes`).
- A click threshold lowered while the button is down can lose the click (`TouchpadGesture.CycleOutcome`).
- The host-switch controller may depart twice without a return if and only if it is in link_state mode
  (`HostSwitch.DeparturesAlternateIff`, `HostSwitch.LinkStateRepeats`).

## Model

| member | source | states |
|---|---|---|
| HidppReport.PackUnpack | src/logid/backend/hidpp/Report.cpp:219-235 | packing the two nibbles read from a function byte gives the byte back |
| HidppReport.UnpackPack | src/logid/backend/hidpp/Report.cpp:152-156 | the nibbles of a packed byte are the low nibbles of what was packed, so function and software id cannot disturb each other |
| HidppReport.FromRawSound | src/logid/backend/hidpp/Report.cpp:159-174 | parsing accepts exactly the two report types, always gives a report of its type's length, copies what was received and zero-fills the rest, and changes nothing of a valid report |
| HidppReport.Report.Request | src/logid/backend/hidpp/Report.cpp:136-157 | a new request reads back the feature, function and software id it was made with; all parameters are zero |
| HidppReport.Report.SetType | src/logid/backend/hidpp/Report.cpp:180-193 | an unknown type is refused and changes nothing; otherwise the type byte and the length change and no other byte does |
| HidppReport.Report.SetSwId | src/logid/backend/hidpp/Report.cpp:232-235 | changes the software id only, not the function that shares its byte |
| HidppReport.Report.SetFunction | src/logid/backend/hidpp/Report.cpp:223-226 | changes the function only, not the software id that shares its byte |
| ResponseSlots.DecodedKeyIsBytes | src/logid/backend/hidpp20/Device.cpp:134-143 | the feature and address a report is matched by are two adjacent bytes of it, one place later in an error: splitting and rejoining nibbles loses nothing |
| ResponseSlots.DecodeConveys | src/logid/backend/hidpp/Report.cpp:279-292 | of an error report the device, the error code and the call it is about are decoded from their bytes; any other report is the response itself |
| ResponseSlots.SlotTable.constructor | src/logid/backend/hidpp20/Device.cpp:162-166 | all 16 slots start free |
| ResponseSlots.SlotTable.TryClaim | src/logid/backend/hidpp20/Device.cpp:85-94 | claims exactly when the slot of the feature is free, writes the request's key there and leaves the other slots alone |
| ResponseSlots.SlotTable.Collect | src/logid/backend/hidpp20/Device.cpp:98-113 | returns the stored response if there is one even when the time is up, frees the slot exactly when it returns or times out, and touches no other slot |
| ResponseSlots.SlotTable.Reset | src/logid/backend/hidpp20/Device.cpp:162-166 | frees one slot and no other |
| ResponseSlots.SlotTable.ResponseReport | src/logid/backend/hidpp20/Device.cpp:129-160 | stores, exactly in the slot whose key the report's bytes give, the report itself, or of an error the device in byte 1, the code in byte 5 and the call it is about, and says so; every other slot is unchanged |
| ResponseSlots.OwnersAfter | src/logid/backend/hidpp20/Device.cpp:85-94 | a slot is gained only by claiming it while it is free |
| ResponseSlots.OwnersStay | src/logid/backend/hidpp20/Device.cpp:98-113 | an owner keeps its slot, whatever others do, up to exactly the step in which it returns, and that frees the slot |
| ResponseSlots.StepKeepsInv | src/logid/backend/hidpp20/Device.cpp:85-160 | every atomic section of every thread keeps the protocol invariant |
| ResponseSlots.RunKeepsInv | src/logid/backend/hidpp20/Device.cpp:85-160 | so does every interleaving of any number of senders and reports |
| ResponseSlots.SlotSafety | src/logid/backend/hidpp20/Device.cpp:85-166 | for every run: one owner for each occupied slot, keyed as its owner asked; stored and returned responses match their sender's feature and address; no sleeping sender is stranded; each report goes to a slot or to the event handlers, never both |
| ResponseSlots.ReportReachesItsSender | src/logid/backend/hidpp/Device.cpp:193-198 | a report is withheld from the event handlers if and only if a waiting sender (or a leaked slot) has its key |
| ResponseSlots.DeliveredResponseIsReturned | src/logid/backend/hidpp20/Device.cpp:98-113 | when a report comes in whose two key bytes are those of a waiting sender's request, that sender returns next with what the report conveys: the report, or the device and error code in its bytes; timed out or not |
| ResponseSlots.ResponsesWereReceived | src/logid/backend/hidpp20/Device.cpp:85-160 | in every run what a sender returns with is what some report that came in conveys, and that report has the two key bytes of the request |
| ResponseSlots.SleeperCanClaim | src/logid/backend/hidpp20/Device.cpp:89-91 | a sender asleep at its claim faces a live owner that can time out, and can claim once it has |
| ResponseSlots.LeakIffWriteFails | src/logid/backend/hidpp20/Device.cpp:93-96 | a slot leaks exactly in the runs in which the write of a claimed request throws |
| ResponseSlots.LeakIsForever | src/logid/backend/hidpp20/Device.cpp:85-160 | a leaked slot stays occupied and is never owned again in any continuation |
| ResponseSlots.OwnedIffWritesReturn | src/logid/backend/hidpp20/Device.cpp:93-96 | exact condition: every occupied slot has an owner if and only if no write of a claimed request threw |
| ResponseSlots.LeakingRun | src/logid/backend/hidpp20/Device.cpp:93-96 | a run that leaks a slot, for any request |
| IOMonitor.Monitor.constructor | src/logid/backend/raw/IOMonitor.cpp:39-65 | starts with only the eventfd registered and both locks free |
| IOMonitor.Monitor.ListenerAcquiresRun | src/logid/backend/raw/IOMonitor.cpp:78-78 | the listener holds the run lock and goes on where it stood |
| IOMonitor.Monitor.PollWait | src/logid/backend/raw/IOMonitor.cpp:86-91 | the events of one epoll_wait become the events still to be handled |
| IOMonitor.Monitor.DispatchOne | src/logid/backend/raw/IOMonitor.cpp:91-124 | one turn of the event loop: the eventfd and a registered descriptor release the run lock, an unregistered descriptor is skipped; returns the handler to call and keeps the lock invariant |
| IOMonitor.Monitor.WaitForYield | src/logid/backend/raw/IOMonitor.cpp:95-102 | with the yield lock, drains the counter to zero before wanting the run lock again |
| IOMonitor.Monitor.EndOfHandler | src/logid/backend/raw/IOMonitor.cpp:110-121 | after a handler the listener wants the run lock again |
| IOMonitor.Monitor.EndOfWakeup | src/logid/backend/raw/IOMonitor.cpp:98-102 | after a wake-up the listener gives up the yield lock |
| IOMonitor.Monitor.Enter | src/logid/backend/raw/IOMonitor.cpp:147-148 | a caller enters add or remove |
| IOMonitor.Monitor.TryYield | src/logid/backend/raw/IOMonitor.cpp:134-142 | with the yield lock, either takes the run lock at once or raises the counter before waiting for it |
| IOMonitor.Monitor.LockRun | src/logid/backend/raw/IOMonitor.cpp:141-141 | the waiting caller gets the run lock |
| IOMonitor.Monitor.EndOfYield | src/logid/backend/raw/IOMonitor.cpp:144-145 | the caller keeps the run lock and gives up the yield lock |
| IOMonitor.Monitor.ChangeFds | src/logid/backend/raw/IOMonitor.cpp:147-167 | add throws exactly on a registered descriptor or when epoll refuses it; without a throw the descriptor is registered with its handler after add and not registered after remove; no other descriptor changes |
| IOMonitor.StepKeepsInv | src/logid/backend/raw/IOMonitor.cpp:77-167 | every step of listener and callers keeps the lock invariant |
| IOMonitor.RunKeepsInv | src/logid/backend/raw/IOMonitor.cpp:77-167 | so does every run |
| IOMonitor.SignalIsNeverLost | src/logid/backend/raw/IOMonitor.cpp:134-142 | a caller that signalled and waits finds the counter positive until it has the lock, so an epoll_wait made meanwhile returns, with the eventfd in its result |
| IOMonitor.MutualExclusion | src/logid/backend/raw/IOMonitor.cpp:77-145 | no two threads hold the run lock, nor the yield lock |
| IOMonitor.NoDeadlock | src/logid/backend/raw/IOMonitor.cpp:77-167 | in every reachable state with a call in progress some thread can move without outside input |
| IOMonitor.WaitShrinks | src/logid/backend/raw/IOMonitor.cpp:134-145 | while a caller waits every step of anyone else, other than a new call, brings it strictly closer |
| IOMonitor.WaitIsBounded | src/logid/backend/raw/IOMonitor.cpp:134-145 | so all others together take a bounded number of steps before it has the lock |
| IOMonitor.WaiterIsNext | src/logid/backend/raw/IOMonitor.cpp:134-145 | and when they can take none the lock is free for it |
| IOMonitor.RegisteredIsLastAdded | src/logid/backend/raw/IOMonitor.cpp:91-167 | after any run a descriptor is registered with a handler if and only if the last add or remove of it that did not throw was an add with that handler; an event on it calls that handler, or none if it is not registered |
| IOMonitor.ChangeIsAsCalled | src/logid/backend/raw/IOMonitor.cpp:147-167 | each call of add or remove changes the descriptors once, holding the lock, with the arguments of the call, and throws exactly when its descriptor is registered or epoll refuses it |
| IOMonitor.WakesAreSignalled | src/logid/backend/raw/IOMonitor.cpp:94-102 | the listener is woken at most once for each signal, so it sleeps again when nobody signals |
| IOMonitor.EventsAreHandled | src/logid/backend/raw/IOMonitor.cpp:86-124 | every event that epoll_wait returns is handled once and in order, whatever wake-ups and changes come between |
| EventHandlers.HandlerList.constructor | src/logid/backend/EventHandlerList.h:38-40 | starts empty with no reader |
| EventHandlers.HandlerList.Add | src/logid/backend/EventHandlerList.h:56-60 | puts a live node with an id never used before at the front |
| EventHandlers.HandlerList.Remove | src/logid/backend/EventHandlerList.h:62-70 | erases the node when no pass is running, otherwise marks it dead; no other node changes |
| EventHandlers.HandlerList.Cleanup | src/logid/backend/EventHandlerList.h:42-54 | when it gets the lock leaves exactly the live nodes in order, else changes nothing |
| EventHandlers.HandlerList.BeginPass | src/logid/backend/EventHandlerList.h:73-77 | a pass counts as a reader and starts at the first node |
| EventHandlers.HandlerList.EndPass | src/logid/backend/EventHandlerList.h:84-85 | the pass stops being a reader |
| EventHandlers.HandlerList.Advance | src/logid/backend/EventHandlerList.h:77-84 | moves to the node after the current one |
| EventHandlers.EraseDead | src/logid/backend/EventHandlerList.h:46-52 | erasing the collected iterators one at a time is filtering the live nodes |
| EventHandlers.StepKeepsInv | src/logid/backend/EventHandlerList.h:42-130 | adds, removals, cleanups, passes and handle moves all keep the invariant |
| EventHandlers.RunKeepsInv | src/logid/backend/EventHandlerList.h:42-130 | so does every run |
| EventHandlers.PassesAreFaithful | src/logid/backend/EventHandlerList.h:73-85 | in every run a pass reaches, in order and once each, the handlers present when it began; of the nodes it has left it has called exactly those whose flag it read as live and whose condition was true; its current node is never erased; no node is erased twice |
| EventHandlers.VisitsAreRecords | src/logid/backend/EventHandlerList.h:77-84 | what is recorded of a node is what happened: whether it was registered when its flag was read, what its condition gave, whether it was called; nothing else starts a callback |
| EventHandlers.HandlesAreValid | src/logid/backend/EventHandlerList.h:106-130 | every handle refers to a live node of its own, and a cleanup outside all passes leaves exactly the nodes that handles hold |
| EventHandlers.NoCallAfterRemoval | src/logid/backend/EventHandlerList.h:62-85 | exact condition: a removed handler is never called again, in any continuation, if and only if no pass had read its flag as live and not yet called it or moved on |
| EventHandlers.CallsAfterRemoval | src/logid/backend/EventHandlerList.h:77-84 | in any case it is called at most as often again as there were such passes |
| EventHandlers.ArmedCanCall | src/logid/backend/EventHandlerList.h:79-81 | each such pass can still call it |
| EventHandlers.CallAfterRemovalExample | src/logid/backend/EventHandlerList.h:62-85 | a run in which a handler is called after its handle was destroyed |
| EventHandlers.DestroyedHandlerIsDead | src/logid/backend/EventHandlerList.h:127-130 | destroying a handle removes its handler in that sense, and does not change which passes are about to call it |
| EventHandlers.RegisteredHandlerIsCalled | src/logid/backend/EventHandlerList.h:77-84 | a handler registered when a pass begins and still registered when it has reached the end was called if and only if its condition, which the pass did evaluate, was true |
| Settings.CastThroughSigned | src/logid/config/types.h:167-187 | an unsigned value of the setting's own width survives the casts to signed and back |
| Settings.LowerIgnoresCase | src/logid/config/group.h:148-155 | two texts are equal in lower case exactly when they differ in the case of letters only |
| Settings.EquivalentIs | src/logid/config/map.h:34-44 | two keys are the same to a map exactly when they are equal, or in a caseless map differ in the case of letters only |
| Settings.ScalarRoundTrip | src/logid/config/types.h:80-141 | every scalar type loads back the value it saved |
| Settings.EmplaceAtEnd | src/logid/config/types.h:350-351 | emplacing keys in ascending order appends |
| Settings.EmplaceKeeps | src/logid/config/types.h:350-351 | emplacing keeps the order and everything there, and adds the new pair unless an equivalent key is there |
| Settings.EmplacedAreFirsts | src/logid/config/types.h:347-353 | emplacing one after the other gives exactly the first pair of each key, in order of keys |
| ConfigIO.GetList | src/logid/config/types.h:253-262 | of the items of the setting, list or array alike, the loop gives what loads, each after as many others as load before it, and nothing else |
| ConfigIO.GetMap | src/logid/config/types.h:344-355 | of the items of the setting, list or array alike, the loop gives exactly those whose key and value load and whose key is the first of its kind, in ascending order of keys |
| ConfigIO.ListSetting.Clear | src/logid/config/types.h:268-270 | removing the first item until none is left empties the list |
| ConfigIO.ListSetting.SetList | src/logid/config/types.h:268-274 | replaces the items by the saved ones, or throws exactly when one cannot be saved |
| ConfigIO.ListSetting.SetMap | src/logid/config/types.h:362-371 | replaces the items by groups of the saved values with their keys added, or throws exactly when one cannot be saved |
| ConfigIO.PairsLoaded | src/logid/config/types.h:344-355 | the same for the loading function that the other results use |
| ConfigIO.LoadHasType | src/logid/config/types.h:80-415 | whatever setting a type loads, the value is one of that type: integers in range, keys in order |
| ConfigIO.LoadedScalar | src/logid/config/types.h:80-141 | a scalar loads from a setting of its own kind and no other; an integer out of the range of its width is brought into it by multiples of 2 to that width |
| ConfigIO.LoadedFromItems | src/logid/config/types.h:253-355 | for any setting, saved by the daemon or not: lists keep the items that load in order, sets hold exactly what items load as, keyed lists the first item of each key; an array loads as the list of the same items |
| ConfigIO.FirstAlternative | src/logid/config/types.h:199-218 | a variant loads as its first alternative that loads, and fails exactly when none does |
| ConfigIO.LoadedGroup | src/logid/config/group.h:51-66 | a group loads if and only if its signature matches, in any case of letters, and every member that is not optional is there and loads; then each member is what its own entry loads as, or empty |
| ConfigRoundTrip.SetFieldsAppends | src/logid/config/group.h:74-79 | saving members into a group without their names appends their entries |
| ConfigRoundTrip.FreshGroup | src/logid/config/group.h:188-191 | a newly saved signed group holds its signature, then its members |
| ConfigRoundTrip.FreshNames | src/logid/config/group.h:74-79 | a saved group has entries of its own names only |
| ConfigRoundTrip.RejectsSound | src/logid/config/types.h:209-216 | the syntactic test for disjoint types is sound: a rejecting type throws on everything the other type saves |
| ConfigRoundTrip.LoadIgnores | src/logid/config/group.h:59-72 | an entry of a foreign name, such as the key of a keyed list, does not change what a group loads |
| ConfigRoundTrip.RoundTrip | src/logid/config/types.h:201-415 | main result: for every well-formed type and value of it, loading what was saved into a fresh setting gives the value back |
| ConfigRoundTrip.RoundTripItems | src/logid/config/types.h:251-274 | lists load back in order, complete |
| ConfigRoundTrip.RoundTripPairs | src/logid/config/types.h:341-371 | keyed lists load back with the same keys and values |
| ConfigRoundTrip.RoundTripAlts | src/logid/config/types.h:204-232 | ordered choice finds the alternative that was saved: all earlier ones reject it |
| ConfigRoundTrip.RoundTripFields | src/logid/config/group.h:55-80 | groups load back member by member |
| ConfigRoundTrip.SavesIffSetsEmpty | src/logid/config/types.h:312-319 | exact condition: saving throws if and only if the value holds a non-empty std::set, whose members are written to group nodes |
| ConfigRoundTrip.SetNamedOverwrites | src/logid/config/types.h:91-101 | saving a member over an old tree changes its own entry only and leaves there what loads back to it |
| ConfigRoundTrip.SavedInPlace | src/logid/config/types.h:91-101 | saving a member leaves every entry in its place if its own is of the kind it takes the place of, else its entry ends up last; sets and keyed lists take the place of arrays only and so always move |
| ConfigRoundTrip.ScalarSavedAlike | src/logid/config/types.h:378-381 | keys and signatures are saved as scalar members are |
| ConfigRoundTrip.OverwriteRoundTrip | src/logid/config/types.h:392-415 | exact condition for saving over an old tree: the same value loads back if and only if no empty optional finds a loadable leftover under its name |
| ConfigRoundTrip.LoadedHasNoLeftovers | src/logid/config/types.h:394-407 | what was loaded from a tree has no leftovers in it |
| ConfigRoundTrip.LeftoverExample | src/logid/config/types.h:409-413 | a concrete leftover: an optional that was 5 in the file, emptied and saved, loads as 5 |
| ConfigSchema.AddSigned | src/logid/config/group.h:193-198 | one more alternative with a signature text of its own keeps a variant disjoint |
| ConfigSchema.ActionsOk | src/logid/config/schema.h:149-278 | the action variants are disjoint |
| ConfigSchema.GestureOk | src/logid/config/schema.h:245-253 | the gesture variant is disjoint |
| ConfigSchema.DevicesOk | src/logid/config/schema.h:360-376 | a saved profile lacks the members every device entry has, so it is never read as a device |
| ConfigSchema.SchemaIsWellFormed | src/logid/config/schema.h:64-386 | the whole schema meets the condition of the round trip |
| ConfigSchema.ConfigRoundTrips | src/logid/config/schema.h:374-386 | the configuration can be saved exactly when it ignores no device, and then loads back as itself |
| ConfigSchema.SaveOverFile | src/logid/Configuration.cpp:57-60 | saved over the tree it was read from, it loads back exactly when no option that is empty now still stands there in loadable form |
| ConfigSchema.LoadedConfigReloads | src/logid/Configuration.cpp:57-60 | the configuration loaded from any tree is one of the schema's values, and if it can be saved afresh it loads back as itself |
| ConfigSchema.LoadedConfigResaves | src/logid/Configuration.cpp:57-60 | saved over the very tree it was loaded from, it loads back as itself whenever the save succeeds |
| ConfigSchema.IgnoringOneDevice | src/logid/config/schema.h:377-377 | a configuration that ignores one device and nothing else cannot be saved |
| Touchpad.TouchpadDevice.constructor | src/logid/TouchpadDevice.h:83-87 | starts inactive, with no event written and tracking ids from 1 |
| Touchpad.TouchpadDevice.BeginGesture | src/logid/TouchpadDevice.cpp:81-95 | the new device state and exactly the events written, including those that lift a gesture still active |
| Touchpad.TouchpadDevice.MoveGesture | src/logid/TouchpadDevice.cpp:97-111 | every contact in use is moved and clamped, the others are not, and all are written; nothing happens when inactive |
| Touchpad.TouchpadDevice.EndGesture | src/logid/TouchpadDevice.cpp:113-119 | lifts an active gesture and does nothing otherwise |
| Touchpad.TouchpadDevice.EndGestureUnlocked | src/logid/TouchpadDevice.cpp:129-141 | empties every slot in use, releases the keys, synchronises |
| Touchpad.TouchpadDevice.ResetContacts | src/logid/TouchpadDevice.cpp:143-153 | sets the contacts down side by side with new tracking ids |
| Touchpad.TouchpadDevice.WriteContacts | src/logid/TouchpadDevice.cpp:155-165 | writes slot, id and position of every contact in use, and the pointer |
| Touchpad.ResetAt | src/logid/TouchpadDevice.cpp:143-153 | which contacts are set down anew and where |
| Touchpad.MoveAllAt | src/logid/TouchpadDevice.cpp:102-107 | which contacts are moved |
| Touchpad.MovedBeside | src/logid/TouchpadDevice.cpp:102-107 | clamping both neighbours may close the gap between them but never widens or crosses it |
| Touchpad.StepKeepsInv | src/logid/TouchpadDevice.cpp:81-119 | every operation keeps 3 or 4 fingers, contacts inside the margins, one height, gaps of 0 to 800, increasing ids |
| Touchpad.StepShows | src/logid/TouchpadDevice.cpp:81-165 | an operation makes the receiver show exactly the frames it should |
| Touchpad.StreamShowsDevice | src/logid/TouchpadDevice.cpp:81-165 | for any run of begin, move and end, replaying the event stream through a type B decoder gives at every SYN_REPORT exactly the device state, with nothing pending after the last |
| Touchpad.FramesWellPlaced | src/logid/TouchpadDevice.cpp:81-180 | every decoded frame has no contact or 3 to 4 in the lowest slots, inside the margins, level, with gaps of 0 to 800, and the keys that go with their number |
| Touchpad.BeginIsCentred | src/logid/TouchpadDevice.cpp:143-153 | a gesture begins with the nearest supported number of fingers in a level row of the right spacing, centred on the pad |
| Touchpad.MoveShifts | src/logid/TouchpadDevice.cpp:97-111 | a move shifts each coordinate by exactly what was asked unless a margin stops it |
| Touchpad.TrackingIdsNeverRepeat | src/logid/TouchpadDevice.cpp:143-153 | in the decoded frames a tracking id names one uninterrupted stay in one slot |
| Touchpad.MovesAddUp | src/logid/TouchpadDevice.cpp:97-111 | moves that meet no margin add up |
| Touchpad.GestureIsSeen | src/logid/TouchpadDevice.cpp:81-111 | after any history: begin and moves that meet no margin, and the decoded contacts stand away from where they were set down by exactly the sum |
| TouchpadGesture.TouchpadGestureAction.constructor | src/logid/actions/TouchpadGestureAction.h:65-70 | starts released |
| TouchpadGesture.TouchpadGestureAction.BeginTouchpadGesture | src/logid/actions/TouchpadGestureAction.cpp:175-178 | begins on the touchpad with the configured number of fingers |
| TouchpadGesture.TouchpadGestureAction.OnPress | src/logid/actions/TouchpadGestureAction.cpp:65-75 | forgets earlier motion, and begins at once when there is no click action |
| TouchpadGesture.TouchpadGestureAction.OnRelease | src/logid/actions/TouchpadGestureAction.cpp:77-88 | ends an active gesture, else clicks once if the travel is within the threshold |
| TouchpadGesture.TouchpadGestureAction.OnMove | src/logid/actions/TouchpadGestureAction.cpp:90-119 | holds motion back up to the threshold, then begins and sends all of it, then passes motion on |
| TouchpadGesture.TouchpadGestureAction.SetFingers | src/logid/actions/TouchpadGestureAction.cpp:130-133 | stores the number of fingers asked for, or the nearest of 3 and 4 |
| TouchpadGesture.TouchpadGestureAction.SetScale | src/logid/actions/TouchpadGestureAction.cpp:135-142 | zero restores the default |
| TouchpadGesture.TouchpadGestureAction.SetClickThreshold | src/logid/actions/TouchpadGestureAction.cpp:149-156 | the threshold in force is the one asked for, not below zero |
| TouchpadGesture.RoundNearest | src/logid/actions/TouchpadGestureAction.cpp:96-97 | lround is within a half and odd |
| TouchpadGesture.ScaledIs | src/logid/actions/TouchpadGestureAction.cpp:96-101 | a move is multiplied by the scale, 4 without a setting, to the nearest integer, and by its negative when inverted |
| TouchpadGesture.TravelIs | src/logid/actions/TouchpadGestureAction.cpp:103-103 | each move adds its distance along both axes to the travel, whichever its direction |
| TouchpadGesture.SettingsInForce | src/logid/actions/TouchpadGestureAction.cpp:158-173 | 3 or 4 fingers as asked for or the nearest of them, a click distance of 5 without a setting and never below 0 |
| TouchpadGesture.InvertIsNegativeScale | src/logid/actions/TouchpadGestureAction.cpp:95-101 | inverting after rounding is the same as scaling by the negative |
| TouchpadGesture.CycleOutcome | src/logid/actions/TouchpadGestureAction.cpp:65-119 | for any press, any moves and configuration changes, and release: exactly one of a gesture whose moves sum to all scaled motion, one click, or silence; the last if and only if no move crossed the threshold of its time and the travel exceeds the threshold at release |
| TouchpadGesture.FixedConfigOutcome | src/logid/actions/TouchpadGestureAction.cpp:65-119 | with the configuration left alone: a click if and only if one is configured and the travel is within the threshold, a gesture otherwise |
| TouchpadGesture.LoweredThresholdLosesClick | src/logid/actions/TouchpadGestureAction.cpp:149-156 | a threshold lowered while the button is down loses the click |
| TouchpadGesture.GestureOps | src/logid/actions/TouchpadGestureAction.cpp:65-119 | the touchpad is asked to begin, for moves that sum to the motion, and to end |
| TouchpadGesture.GestureMovesContacts | src/logid/actions/TouchpadGestureAction.cpp:90-119 | a gesture that meets no margin leaves each decoded contact displaced by exactly the whole motion just before it ends |
| ConnectionHooks.CommandQueue.constructor | src/logid/util/CommandQueue.cpp:14-24 | starts empty without a worker |
| ConnectionHooks.CommandQueue.Run | src/logid/util/CommandQueue.cpp:26-77 | ignores an empty command; queues any other, starts a worker when there is none, and when that fails throws with the job still queued |
| ConnectionHooks.CommandQueue.TakeJob | src/logid/util/CommandQueue.cpp:38-46 | takes the oldest job, or clears the flag and ends the worker when there is none |
| ConnectionHooks.CommandQueue.SpawnJob | src/logid/util/CommandQueue.cpp:47-57 | waits for the child, or goes on when it could not be started |
| ConnectionHooks.CommandQueue.WaitForChild | src/logid/util/CommandQueue.cpp:58-62 | the next job comes only after the child has ended |
| ConnectionHooks.CommandServes | src/logid/Device.cpp:231-239 | the command for a change of the link is the one of its own hook, followed by that hook's arguments, and there is one exactly when the hook is configured |
| ConnectionHooks.Link.constructor | src/logid/Device.cpp:62-73 | a device not yet announced |
| ConnectionHooks.Link.RunConnectionHook | src/logid/Device.cpp:231-243 | queues the one command that serves the event: on_connect's when the link comes, on_disconnect's when it goes, followed by its arguments; does nothing when that hook is not configured; throws exactly when a thread is needed and cannot be created |
| ConnectionHooks.Link.OnMake | src/logid/Device.cpp:62-73 | a new device is awake and has queued its connect hook |
| ConnectionHooks.Link.OnSleep | src/logid/Device.cpp:189-205 | only an awake device falls asleep and queues its disconnect hook |
| ConnectionHooks.Link.OnWakeup | src/logid/Device.cpp:207-216 | only a sleeping device wakes and queues its connect hook |
| ConnectionHooks.StepKeepsInv | src/logid/util/CommandQueue.cpp:26-78 | every step of device and worker keeps the invariant |
| ConnectionHooks.RunKeepsInv | src/logid/util/CommandQueue.cpp:26-78 | so does every run |
| ConnectionHooks.QueueIsFifo | src/logid/util/CommandQueue.cpp:26-78 | for any hooks, interleaving and failures: jobs are taken in the order accepted and are what the link changes asked for; at most one worker, so no two children at once; the flag tells whether it exists |
| ConnectionHooks.JobsAreHooks | src/logid/Device.cpp:189-239 | in every run each job runs the command of its own hook with its arguments, and there are as many jobs of a kind as changes of the link to that side, if its hook is configured, and none otherwise |
| ConnectionHooks.LinkIsFollowed | src/logid/Device.cpp:189-221 | after any run the device is awake or asleep as the last event of its link says, and the changes it has made go connect, disconnect, connect, ... |
| ConnectionHooks.HooksAlternate | src/logid/Device.cpp:189-243 | with both hooks configured the accepted jobs are connect, disconnect, connect, ..., the commands taken in even places are on_connect's and in odd places on_disconnect's, and the last accepted job tells whether the device is awake |
| ConnectionHooks.ChildrenAlternate | src/logid/util/CommandQueue.cpp:51-57 | exact condition: the commands actually started alternate if and only if each was preceded by an even number that could not be started |
| ConnectionHooks.FailedSpawnExample | src/logid/util/CommandQueue.cpp:51-57 | a run whose first started command is a disconnect |
| ConnectionHooks.WorkerProgress | src/logid/util/CommandQueue.cpp:35-70 | a worker can always move, each step brings its end nearer, and it ends only with the queue empty |
| ConnectionHooks.NoIdleQueue | src/logid/util/CommandQueue.cpp:26-77 | exact condition: after any run a job waits without a worker if and only if the last submission found no worker and its thread could not be created |
| ConnectionHooks.StrandedUntilNextChange | src/logid/util/CommandQueue.cpp:26-77 | from a state without a worker a run never has one if and only if it has no submission whose thread can be created; until then nothing is taken and jobs stay in order |
| ConnectionHooks.StrandedExample | src/logid/util/CommandQueue.cpp:73-77 | a run that strands a disconnect hook |
| GestureMotion.GestureAction.constructor | src/logid/actions/GestureAction.cpp:81-106 | gestures are made for the entries that name a direction, in any case; that for no direction gets threshold 0 |
| GestureMotion.NamedIs | src/logid/actions/GestureAction.cpp:29-45 | which texts name which direction: the five words and no others, in any mixture of cases |
| GestureMotion.ConfiguredIs | src/logid/actions/GestureAction.cpp:29-45 | a direction has a gesture exactly when an entry names it, and it is the first such entry's, with threshold 0 for no direction |
| GestureMotion.GestureAction.OnPress | src/logid/actions/GestureAction.cpp:108-115 | resets the motion and every accumulator |
| GestureMotion.GestureAction.MoveGesture | src/logid/actions/gesture/ReleaseGesture.cpp:58-60 | one accumulator takes the amount cast to 16 bits |
| GestureMotion.GestureAction.OnMoveX | src/logid/actions/GestureAction.cpp:156-184 | which accumulators a horizontal move reaches, and with what |
| GestureMotion.GestureAction.OnMoveY | src/logid/actions/GestureAction.cpp:186-214 | which accumulators a vertical move reaches, and with what |
| GestureMotion.GestureAction.OnMove | src/logid/actions/GestureAction.cpp:151-218 | both of them, and the new position |
| GestureMotion.GestureAction.ReleaseGesture | src/logid/actions/gesture/ReleaseGesture.cpp:49-56 | an OnRelease gesture acts when it is the chosen one and met its threshold |
| GestureMotion.GestureAction.OnRelease | src/logid/actions/GestureAction.cpp:117-149 | the loop over the map runs the chosen gesture's action and no other |
| GestureMotion.CastsExactX | src/logid/actions/GestureAction.cpp:156-184 | exact condition: a horizontal cast to 16 bits loses nothing unless the move is by -32768 from the origin or its left |
| GestureMotion.CastsExactY | src/logid/actions/GestureAction.cpp:186-214 | the same on Y, where a move by -32768 from exactly 32768 loses too |
| GestureMotion.MotionConserved | src/logid/actions/GestureAction.cpp:151-218 | after any run of moves at all each accumulator is exactly the motion in its direction, plus on Y the drift of the crossings, less 65536 for each lossy cast |
| GestureMotion.NetMotion | src/logid/actions/GestureAction.cpp:151-218 | exact condition: right - left = x and down - up = y if and only if no cast of the run lost anything |
| GestureMotion.NetMotionX | src/logid/actions/GestureAction.cpp:156-184 | right = max(0, x) always, and left = max(0, -x) less 65536 for each lossy cast |
| GestureMotion.NetMotionY | src/logid/actions/GestureAction.cpp:186-214 | down - up = y out by 65536 for each lossy cast; down = max(0, y) if and only if the drift is zero |
| GestureMotion.SmallMovesAreLossless | src/logid/actions/GestureAction.cpp:151-218 | no cast is lossy when every component is above -32768 |
| GestureMotion.LosslessIs | src/logid/actions/GestureAction.cpp:151-218 | a run is lossless exactly when it has no lossy cast on either axis |
| GestureMotion.DriftExample | src/logid/actions/GestureAction.cpp:187-204 | a run on which the strong form fails on Y and holds on X |
| GestureMotion.WrapExample | src/logid/actions/GestureAction.cpp:175-178 | an instance: one move by -32768 from the origin leaves -32768 in the left accumulator |
| GestureMotion.DominantIsFurthest | src/logid/actions/GestureAction.cpp:64-73 | the dominant direction is one in which the pointer went furthest |
| GestureMotion.DirectionTurns | src/logid/actions/GestureAction.cpp:64-73 | ties between directions are settled alike in all four quarters, and which way |
| GestureMotion.FirstOther | src/logid/actions/GestureAction.cpp:129-142 | the first other direction in map order that met its threshold |
| GestureMotion.ReleaseFiresOne | src/logid/actions/GestureAction.cpp:117-149 | with gestures of any kinds and any moves, a release selects at most one direction: the dominant one if reached, else the first other reached, else that for no direction, which always is; its action alone is run, if it acts on release |
| BatteryEstimate.EstimateBatteryPercentage | src/logid/backend/hidpp20/features/BatteryStatus.cpp:29-64 | the loop computes the specified estimate |
| BatteryEstimate.SegmentOrder | src/logid/backend/hidpp20/features/BatteryStatus.cpp:59-61 | within a segment the estimate is monotone and between the knots, rounding included |
| BatteryEstimate.SegmentNearest | src/logid/backend/hidpp20/features/BatteryStatus.cpp:59-61 | it is the integer nearest to the straight line |
| BatteryEstimate.EstimateTotal | src/logid/backend/hidpp20/features/BatteryStatus.cpp:47-64 | for any falling table there is an estimate for every voltage, between the end values and equal to them beyond the ends: the nullopt is unreachable |
| BatteryEstimate.EstimateAtKnot | src/logid/backend/hidpp20/features/BatteryStatus.cpp:47-61 | at a knot the estimate is the knot's percentage |
| BatteryEstimate.EstimateNearest | src/logid/backend/hidpp20/features/BatteryStatus.cpp:53-61 | between any two neighbouring knots it is the integer nearest to their line |
| BatteryEstimate.EstimateMonotone | src/logid/backend/hidpp20/features/BatteryStatus.cpp:47-61 | a higher voltage never gives a lower estimate, across segments too |
| BatteryEstimate.SourceTable | src/logid/backend/hidpp20/features/BatteryStatus.cpp:30-45 | the table of the source is a falling one and gives 0 to 100 |
| Nicknames.NicknameSet.constructor | src/logid/DeviceManager.h:115-116 | no nickname is in use |
| Nicknames.NicknameSet.InsertAt | src/logid/DeviceManager.cpp:274-274 | inserting keeps the set sorted and adds that number only |
| Nicknames.NicknameSet.New | src/logid/DeviceManager.cpp:268-301 | returns the least natural number not in use and adds it |
| Nicknames.NicknameSet.Erase | src/logid/Device.cpp:47-52 | removes that number only |
| Nicknames.GapIsLeast | src/logid/DeviceManager.cpp:279-300 | the number after the first gap is the least unused |
| Nicknames.AtMostInUse | src/logid/DeviceManager.cpp:268-301 | the pigeonhole bound: the least unused number is at most how many are in use |
| Nicknames.StepKeepsInv | src/logid/DeviceManager.cpp:268-301 | making and destroying keep live nicknames distinct and equal to the numbers in use |
| Nicknames.RunKeepsInv | src/logid/DeviceManager.cpp:268-301 | so does any run |
| Nicknames.NicknamesAreDistinct | src/logid/Device.cpp:39-52 | after any run live nicknames are distinct, exactly one is next, no live object has it, and it is at most their number |
| Nicknames.NicknamesStaySmall | src/logid/DeviceManager.cpp:268-301 | with never more than k objects alive no nickname reaches k, however long the run |
| ReceiverAdds.ReceiverMonitor.constructor | src/logid/backend/hidpp10/ReceiverMonitor.h:107-109 | nothing pending, nothing waited for |
| ReceiverAdds.ReceiverMonitor.BeginHandler | src/logid/backend/hidpp10/ReceiverMonitor.cpp:48-60 | a chain starts with its first try |
| ReceiverAdds.ReceiverMonitor.CheckPending | src/logid/backend/hidpp10/ReceiverMonitor.cpp:226-232 | a timeout check ends at once if its index is pending, else makes it pending; other chains go on |
| ReceiverAdds.ReceiverMonitor.DeviceAdded | src/logid/backend/hidpp10/ReceiverMonitor.cpp:236-239 | the index is neither pending nor waited for, whatever kind of chain added it |
| ReceiverAdds.ReceiverMonitor.DeviceNotReady | src/logid/backend/hidpp10/ReceiverMonitor.cpp:240-265 | gives up after the last try, else backs off twice as long as before; returns the delay |
| ReceiverAdds.ReceiverMonitor.DeviceFailed | src/logid/backend/hidpp10/ReceiverMonitor.cpp:266-273 | the index is no longer pending |
| ReceiverAdds.ReceiverMonitor.TryAgain | src/logid/backend/hidpp10/ReceiverMonitor.cpp:261-264 | the next try, without the check for a pending add, and never more than the last |
| ReceiverAdds.ReceiverMonitor.WaitForDevice | src/logid/backend/hidpp10/ReceiverMonitor.cpp:167-193 | the device is waited for |
| ReceiverAdds.StepKeepsInv | src/logid/backend/hidpp10/ReceiverMonitor.cpp:226-274 | every step keeps: each pending index has an active timeout check, and tries and backoff go together |
| ReceiverAdds.RunKeepsInv | src/logid/backend/hidpp10/ReceiverMonitor.cpp:226-274 | so does every run |
| ReceiverAdds.PendingIsServed | src/logid/backend/hidpp10/ReceiverMonitor.cpp:226-274 | no pending index is ever stuck, and no chain makes more than 6 tries or backs off for more than 7750 ms |
| ReceiverAdds.ChainsEnd | src/logid/backend/hidpp10/ReceiverMonitor.cpp:226-274 | a chain can always make a step and every step brings its end nearer |
| ReceiverAdds.EndRemovesIndex | src/logid/backend/hidpp10/ReceiverMonitor.cpp:236-272 | when a timeout check ends its index is not pending; if the device never became ready it is waited for next |
| ReceiverAdds.TightStep | src/logid/backend/hidpp10/ReceiverMonitor.cpp:236-239 | the step that breaks "one timeout check for each device" is exactly a connection report's chain ending while the index is pending |
| ReceiverAdds.OneCheckPerDevice | src/logid/backend/hidpp10/ReceiverMonitor.cpp:226-274 | exact condition over runs: each device has at most one timeout check and `pending` is exactly their indices, if and only if no such step happened |
| ReceiverAdds.WaitersAre | src/logid/backend/hidpp10/ReceiverMonitor.cpp:167-274 | after any run a device is waited for if and only if a timeout check of it gave up and registered a waiter and no chain has added it since |
| ReceiverAdds.TwoChecksExample | src/logid/backend/hidpp10/ReceiverMonitor.cpp:226-239 | a run that ends with two timeout checks of one device under way |
| RemapButtons.RemapButton.constructor | src/logid/features/RemapButton.h:113-114 | nothing is pressed |
| RemapButtons.RemapButton.ReleaseAll | src/logid/features/RemapButton.cpp:181-185 | releases the known controls of a set, in order |
| RemapButtons.RemapButton.EraseOrPress | src/logid/features/RemapButton.cpp:195-204 | one turn of the loop: erase a control that was down, press a known one that was not |
| RemapButtons.RemapButton.PressAdded | src/logid/features/RemapButton.cpp:194-204 | presses the new controls; what remains of the old state has come up |
| RemapButtons.RemapButton.ButtonEvent | src/logid/features/RemapButton.cpp:190-214 | the whole sequence of calls of a report, and the new state |
| RemapButtons.RemapButton.OnSleep | src/logid/features/RemapButton.cpp:178-188 | releases whatever is pressed and forgets it |
| RemapButtons.ReportCallsFor | src/logid/features/RemapButton.cpp:190-214 | a report presses a known control once if it came down, releases it once if it came up, and never calls an unknown one |
| RemapButtons.ReportCallsOrdered | src/logid/features/RemapButton.cpp:190-214 | all presses of a report come before its releases, each in ascending order of the controls |
| RemapButtons.CallsAlternate | src/logid/features/RemapButton.cpp:178-214 | over any run of reports and sleeps a known control sees press, release, press, ..., and is pressed exactly while its id is in the pressed set |
| RemapButtons.SleepReleasesAll | src/logid/features/RemapButton.cpp:178-188 | after a sleep every press has been released |
| RemapButtons.Button.constructor | src/logid/features/RemapButton.cpp:236-247 | no press pending |
| RemapButtons.Button.Handle | src/logid/features/RemapButton.cpp:260-279 | what one press, release or move passes on to the action: presses and releases always, moves but the first after a press |
| RemapButtons.PendingIs | src/logid/features/RemapButton.cpp:260-279 | the first-move flag tells whether there was a press since the last move |
| RemapButtons.ReachesAction | src/logid/features/RemapButton.cpp:260-279 | every press, release and move reaches the action of a button that has one, except a move when there was a press and no move since |
| RemapButtons.FirstMoveIsSwallowed | src/logid/features/RemapButton.cpp:273-279 | a press reaches the action; of the moves after it the first never does and all the others do |
| Discovery.DiscoveryEvent.constructor | src/logid/backend/hidpp10/Receiver.h:41-48 | an empty event |
| Discovery.DiscoveryEvent.Fill | src/logid/backend/hidpp10/Receiver.cpp:306-349 | the loop lays the block over the name, and reports completion exactly when the block reaches past its end |
| Discovery.BlockAssembles | src/logid/backend/hidpp10/Receiver.cpp:328-349 | one block of the event's own number adds its bytes of the sent name and no others |
| Discovery.NameAssembles | src/logid/backend/hidpp10/Receiver.cpp:306-349 | after a header the name is assembled from the blocks of its number, in any order after the first and with repetitions, whatever other traffic comes between |
| Discovery.HeaderStays | src/logid/backend/hidpp10/Receiver.cpp:306-326 | what a header says of the device, byte for byte, stays in the event whatever blocks follow; the header itself empties the name and completes nothing |
| Discovery.InOrderPrefix | src/logid/backend/hidpp10/Receiver.cpp:328-349 | blocks 1 to k in order give the first min(13k, n) bytes |
| Discovery.CompletionPoint | src/logid/backend/hidpp10/Receiver.cpp:338-347 | the k-th block completes if and only if 13k > n, so block n/13 + 1 is the first, and then the whole name is there |
| Discovery.ExactMultipleNeverCompletes | src/logid/backend/hidpp10/Receiver.cpp:338-348 | exact condition: a sender that stops with the last byte is reported complete if and only if the length is not a multiple of 13 |
| Discovery.LostFirstBlock | src/logid/backend/hidpp10/Receiver.cpp:334-347 | a later block before block 1 completes at once with an empty name |
| Discovery.FirstCompletionIsWhole | src/logid/backend/hidpp10/Receiver.cpp:328-348 | exact condition: at the first completion the name is the one sent if and only if the blocks received begin with block 1 and each byte has come in its block or is a space |
| Discovery.OpenBeginsWithFirst | src/logid/backend/hidpp10/Receiver.cpp:334-347 | as long as nothing has completed, the blocks received begin with block 1 |
| Discovery.FortyBytes | src/logid/backend/hidpp10/Receiver.cpp:338-347 | a name of 40 bytes reported complete with two blocks missing |
| Discovery.ThirteenBytes | src/logid/backend/hidpp10/Receiver.cpp:338-348 | a name of 13 bytes that is whole and not reported complete |
| HostSwitch.Controller.constructor | tools/host-switch/logi-host-switch.py:22-30 | a start or restart reads the file: the same as the restart step of the machine |
| HostSwitch.Controller.Save | tools/host-switch/logi-host-switch.py:32-37 | file and memory take the value, or nothing changes and it raises |
| HostSwitch.Controller.OnSwitched | tools/host-switch/logi-host-switch.py:39-54 | leaves exactly on a switch from the local to the remote host while no return is pending or on a new link loss: then file and memory say away and the remote input is attempted, unless saving fails, which changes nothing; as a run of the machine, saved before the mouse and the monitor are switched |
| HostSwitch.Controller.OnConnected | tools/host-switch/logi-host-switch.py:56-67 | restores exactly when a return is pending and the keyboard is here; the file is cleared only after the local input succeeded; as a run of the machine |
| HostSwitch.Controller.OnDisconnected | tools/host-switch/logi-host-switch.py:69-76 | does nothing in host_event mode, departs in link_state mode |
| HostSwitch.StepKeepsInv | tools/host-switch/logi-host-switch.py:32-76 | every step, failure and restart keeps file, memory and commands consistent |
| HostSwitch.RunKeepsInv | tools/host-switch/logi-host-switch.py:32-76 | so does every run |
| HostSwitch.PendingReturnSurvives | tools/host-switch/logi-host-switch.py:39-67 | with failures at any call and restarts anywhere: if the remote input was attempted since the local input last succeeded, the file says away and a restart remembers it |
| HostSwitch.NoRepeatedDeparture | tools/host-switch/logi-host-switch.py:39-54 | in host_event mode any two attempts at the remote input have a successful local input between them |
| HostSwitch.LinkStateRepeats | tools/host-switch/logi-host-switch.py:69-76 | in link_state mode, with or without follow_mouse, a run that departs twice without a return |
| HostSwitch.DeparturesAlternateIff | tools/host-switch/logi-host-switch.py:39-76 | exact condition: in every run any two attempts at the remote input have a successful local input between them if and only if the mode is not link_state |
| HostSwitch.RunAlternatesIff | tools/host-switch/logi-host-switch.py:39-76 | exact condition on runs, in either mode: so it is if and only if the remote input is never attempted while a return is due |
| HostSwitch.ReturnDueIs | tools/host-switch/logi-host-switch.py:39-67 | what it means that a return is due |
| HostSwitch.ReturnRecovers | tools/host-switch/logi-host-switch.py:56-67 | from any reachable idle state with a return pending, one connected event without failures restores the monitor and clears the file |
| HostSwitch.DepartureCompletes | tools/host-switch/logi-host-switch.py:39-54 | from any idle state that is not away, a switch from the local to the remote host that nothing stops ends with the remote input attempted once and the file saying away |
| HostSwitch.DepartureCanComplete | tools/host-switch/logi-host-switch.py:39-54 | such a switch can always be completed, within five steps |

## Left out

- Foreign calls (udev, hidraw, epoll, uinput, UHID, D-Bus, process spawning): they are events, outcomes or recorded traces.
- Replies to a request that timed out: the source matches by feature and address only, so such a reply can answer a later request with the same key; matching of the key is proved, not of the call.
- The HID++ 1.0 device (src/logid/backend/hidpp10/Device.cpp) and `isError10`: its release does not notify, so the result on stranded senders does not carry over.
- `Report::setFeature` writes the first parameter instead of the feature; nothing calls it.
- IOMonitor: `_stop` and the destructor are not modelled; nor are the callbacks' own effects other than calls of add and remove.
- HandlerList: add, remove and cleanup are atomic steps, and so are reading a flag, evaluating a condition and entering a callback, each by itself; freedom from data races is not claimed (cleanup takes one of the two mutexes).
- The configuration's groups and variants are saved into trees that are values; what a group setter changes in place is the returned tree. Lists and keyed lists are updated in place in `ListSetting`.
- OverwriteRoundTrip: is about groups of scalars, lists, sets and keyed lists, as the top level of the configuration is; a group or variant member saved over an old one is not covered, which the daemon never does, because every inner group is inside a keyed list and a keyed list is always written anew.
- libconfig's file text, the IPC getters and setters, logging and command-line parsing.
- TouchpadDevice: tracking ids are unbounded, while the device declares a maximum of 65535; a failing uinput write is not modelled.
- TouchpadGestureAction: each handler is one atomic step, although handlers take the configuration mutex shared and so exclude setters but not each other: a move overlapping a release is not modelled. `SetInvert` is not modelled as a method, only as a change of the configuration; sums of motion are unbounded where the source uses 32 bits.
- Link: the configuration of the hooks does not change during a run; feature callbacks on sleep and wakeup are not modelled.
- GestureAction: gestures are values in the action's map, not objects of their own; what axis, interval and threshold gestures emit while moving, and replacing a gesture while it is pressed, are not modelled.
- EstimateBatteryPercentage: computed in `real`, so an estimate at an exact half may differ from the source's `double`; the parsers of battery reports are not modelled.
- ReceiverMonitor: addDevice returns, reports not ready or fails; InvalidDevice escaping and the pairing state are not modelled, nor is a waiter that addDevice itself registers before returning, which the source then erases.
- RemapButton: profiles do not change during a run; actions that never record being pressed, such as ChangeHost, get no moves and are not told apart.
- HostSwitch: one controller runs at a time with one configuration; a corrupted state file is not modelled since replacing it is atomic.
- Order of delayed tasks in src/logid/util/task.cpp, DPI snapping, CycleDPI and the Bolt device name: no property of interest holds or is hard.
