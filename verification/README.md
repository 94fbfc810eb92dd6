# Zeus verification model

Dafny models of the stateful algorithms of the Zeus SDR server, with proofs. Every
object the program updates in place is a class whose methods are proved against a
value-level specification; what the program promises is proved about those
specifications, over all inputs and over whole runs.

Run `dafny verify dfyconfig.toml` in this directory.

| files | models |
|---|---|
| `ChainOrder`, `ChainOrderRuns`, `ChainOrderService` | the Audio Suite chain order: canonical list, attached set, drag-and-drop merge, restarts |
| `PluginSlots`, `AudioPluginBridge` | the eight audio slots and the bridge that keeps them in that order |
| `ChainOrderFrame`, `PluginIds`, `PluginSettings` | the comma-joined broadcast frame, accepted plugin ids, per-plugin settings |
| `BandPlan`, `BandPlanRuns`, `BandPlanService` | band plan ancestry, overlay, validation, lookup and the cached plan |
| `BandPlanOverlaps` | every interleaving of the steps of concurrent region selections, saves and resets |
| `DspPipeline`, `DspPipelineService` | the change-detect push to the DSP engine |
| `PsAutoAttenuate`, `PsAutoAttenuateService` | whole runs of that pipeline beside the automatic attenuator, which writes the same engine |
| `Wire`, `Quantise`, `Ep6`, `PacketParser`, `SequenceGaps` | 24-bit samples, the EP6 packet of OpenHPSDR Protocol 1, gap accounting |
| `TxIqPackets`, `PsFeedback`, `Rings` | re-blocking of transmit IQ and PureSignal feedback, drop-oldest rings |
| `CwPlayback`, `CwQueue` | Morse rendering in chunks, and the job queue under concurrent senders and aborts |
| `Seqs` | facts about sequences the others share |

Region ids and settings keys are taken as case-normalised, plugin objects by identity, floats as reals,
and the C# casts, shifts and masks as the integer arithmetic they perform (24-bit sign
extension, the 32-bit cast of the frequency shift, sequence numbers modulo 2^32).

## Where the code and its words differ

The models follow the code. These lemmas say exactly how far a documented promise holds.

- A keyed state push right after an engine swap clears the resync flag without the
  PureSignal writes it was meant to force (`PsAutoAttenuate.LostResync`, exact condition
  in `DspPipeline.KeyedFirstPushIff`).
- Releasing the transmitter does not "pick up" PureSignal control when the automatic
  attenuator has it switched off, and a changed pair or a disarming in between can leave
  the engine with a pair the cache does not know of for good
  (`PsAutoAttenuate.ReleaseMidDance`, `ChangeMidDance`, `DisarmMidDance`, `StaleStays`; exact
  conditions in `RefinesAlwaysPush` and `UndisturbedRefinesIff`). The same service calls
  the control setter while keyed, which the comments on deferral rule out for pushes
  (`WritesWhileKeyed`).
- "Keep phase bounded" in the CW loop holds only for offsets from zero up; a negative
  offset, which CWU uses, never wraps (`CwPlayback.PhaseBoundedIff`).
- "Emit Idle once the queue actually drains": a job sent between the depth check and the
  announcement is already queued (`CwQueue.IdleCanBeStale`); a job the transmitter refuses
  announces Idle with others waiting (`RefusedIdleWithJobs`); and a write cancelled after
  it was counted, which the public `SendAsync` allows although the HTTP endpoint passes no
  token, silences the drained Idle for good (`CancelledWriteSilencesIdle`).
- A Protocol 2 feedback header may declare up to 200 pairs although 119 fit in a
  datagram; beyond that, bytes of earlier datagrams are decoded, beyond 169 the read
  throws (`PsFeedback.DatagramDecidesIff`).
- A plugin whose audio initialisation throws is not forgotten and returns at the next
  re-slotting, a refused plugin is never detached from the order service, and a failure
  that lands after a reordering clears another plugin's slot
  (`PluginSlots.FailedPluginReturns`, `RefusedNeverDetached`, `FailureHitsAnother`).
- Requests that overlap: broadcasts leave their lock and can overtake each other
  (`ChainOrderRuns.CrossedBroadcasts`, `CrossedDetach`, `CrossedPutDetach`). A plan is
  resolved at one moment and stored at a later one, so a selection can store a plan that
  misses a save in between, a save or reset can store the plan of a region that is no
  longer active or an older plan over a newer one, and two selections can leave another
  region saved than the active one (`BandPlanOverlaps.SelectionLandsLate`,
  `RefreshLandsOnAnother`, `RefreshLandsLate`, `PreferencesCross`). When exactly that can
  happen is `LateLandingIff` and `LandsLateIff`; without it every interleaving ends with a
  fresh plan (`EveryInterleaving`).
- A new default plugin is placed before the first third-party id too, not only before a
  higher default id as the comment in `InsertByDefaultOrderUnderLock` says
  (`ChainOrder.InsertKeepsShape` is what that buys).
- The id pattern's `$` also matches before one trailing line feed; the injectivity and
  round-trip lemmas include such ids (`PluginIds.AcceptedAlphabet`).

## Model

| member | source | states |
|---|---|---|
| `ChainOrder.PutMeaning` | src/Zeus.Server.Hosting/ChainOrderService.cs:230-269 | an order is accepted exactly when it is a permutation of the runtime order; then the runtime order becomes exactly that list, every unattached id keeps its index and the canonical list is permuted; a refused order changes nothing |
| `ChainOrder.AcceptedOrderFits` | src/Zeus.Server.Hosting/ChainOrderService.cs:235-259 | the count test and the set test together rule out duplicates, and there is exactly one new entry for every attached place, so the running index never overruns |
| `ChainOrder.MergeAt` | src/Zeus.Server.Hosting/ChainOrderService.cs:254-259 | an attached place receives the entry whose index is the number of attached places before it, an unattached place keeps its id |
| `ChainOrder.MergeRuntime` | src/Zeus.Server.Hosting/ChainOrderService.cs:254-261 | filtering the merged list by the attached set gives back the requested order |
| `ChainOrder.MergeEntries` | src/Zeus.Server.Hosting/ChainOrderService.cs:254-259 | for every id, merging trades its old attached occurrences for its new ones |
| `ChainOrder.MergeUnique` | src/Zeus.Server.Hosting/ChainOrderService.cs:254-259 | a list that keeps the unattached ids in place and shows the requested order is the merged one: nothing else could have been meant |
| `ChainOrder.SlotIsRuntimeIndex` | src/Zeus.Server.Hosting/ChainOrderService.cs:276-288 | the number of attached entries before an attached id is its index in the runtime order |
| `ChainOrder.InsertIsInsertion` | src/Zeus.Server.Hosting/ChainOrderService.cs:297-317 | inserting a new id keeps the list duplicate-free, adds exactly that id and leaves the relative order of the others |
| `ChainOrder.InsertPlace` | src/Zeus.Server.Hosting/ChainOrderService.cs:297-317 | a new third-party id goes last; a new default id goes before the first entry that is third-party or a later default |
| `ChainOrder.AttachShows` | src/Zeus.Server.Hosting/ChainOrderService.cs:180-197 | attaching adds that id to those shown and leaves the others shown in their order |
| `ChainOrder.DetachHides` | src/Zeus.Server.Hosting/ChainOrderService.cs:207-216 | detaching takes out that id and leaves the others shown in their order |
| `ChainOrder.InsertKeepsShape` | src/Zeus.Server.Hosting/ChainOrderService.cs:297-317 | insertion keeps the shape "default ids ascending, then third-party ids" |
| `ChainOrder.RuntimeShaped` | src/Zeus.Server.Hosting/ChainOrderService.cs:151-159 | hiding the unattached ids keeps that shape |
| `ChainOrder.DefaultOrderNoDup` | src/Zeus.Server.Hosting/ChainOrderService.cs:69-79 | the default order has no duplicates |
| `ChainOrder.DefaultOrderShaped` | src/Zeus.Server.Hosting/ChainOrderService.cs:69-79 | the seeded list has that shape |
| `ChainOrderRuns.EveryRun` | src/Zeus.Server.Hosting/ChainOrderService.cs:102-269 | after any run of attaches, detaches, PUTs and restarts from a duplicate-free row: canonical has no duplicates and holds every attached id, a restart would load it unchanged, the last broadcast is the current runtime order, and that order shows exactly the ids with an attachment that no later detachment of theirs and no restart undoes |
| `ChainOrderRuns.ShownIffAttached` | src/Zeus.Server.Hosting/ChainOrderService.cs:180-216 | which plugins a run leaves shown, from the list of requests alone |
| `ChainOrderRuns.NextInv` | src/Zeus.Server.Hosting/ChainOrderService.cs:175-269 | each request and each restart keeps that invariant |
| `ChainOrderRuns.CrossedBroadcasts` | src/Zeus.Server.Hosting/ChainOrderService.cs:182-195 | with the broadcasts two requests really send overtaking each other, clients are left with an order that is not the current one exactly when both requests announce something (new attachment, detachment of an attached plugin, accepted PUT) and the second is not a PUT of the order already shown |
| `ChainOrderRuns.NewsMeaning` | src/Zeus.Server.Hosting/ChainOrderService.cs:189-216 | what a request raises and broadcasts: nothing unless it announces, else the resulting runtime order once, preceded by the event for a PUT; an unannounced request changes nothing that is shown |
| `ChainOrderRuns.AnnouncedChanges` | src/Zeus.Server.Hosting/ChainOrderService.cs:182-269 | an announced request shows another order than before unless it is a PUT of the order already shown |
| `ChainOrderRuns.CrossedDetach` | src/Zeus.Server.Hosting/AudioPluginBridge.cs:404-410 | an attached plugin leaving while another arrives can leave the new one in the order and out of what clients were last told |
| `ChainOrderRuns.CrossedPutDetach` | src/Zeus.Server.Hosting/ChainOrderService.cs:207-268 | an accepted PUT crossed by a detachment leaves clients with a stale order exactly when the leaving plugin was attached |
| `ChainOrderRuns.DetachThenAttach` | src/Zeus.Server.Hosting/ChainOrderService.cs:175-216 | detaching an attached plugin and attaching it again restores canonical list, runtime order and stored row exactly |
| `ChainOrderRuns.RunRemembers` | src/Zeus.Server.Hosting/ChainOrderService.cs:175-216 | over any run without a PUT, restarts included, ids keep their relative order |
| `ChainOrderRuns.SamePluginsSameOrder` | src/Zeus.Server.Hosting/ChainOrderService.cs:151-216 | whenever the same set is attached again without a PUT in between, the runtime order is the same |
| `ChainOrderRuns.AcceptedOrderComesBack` | src/Zeus.Server.Hosting/ChainOrderService.cs:85-92 | an accepted drag-and-drop order reappears whenever exactly those plugins are attached again, across detaches, other plugins and restarts |
| `ChainOrderRuns.RunKeepsShape` | src/Zeus.Server.Hosting/ChainOrderService.cs:297-317 | until a PUT, every run keeps the default-then-third-party shape |
| `ChainOrderRuns.FirstRunShape` | src/Zeus.Server.Hosting/ChainOrderService.cs:102-120 | starting with no stored row, attaching in any order shows the attached default plugins in the default order, then the third-party ones |
| `ChainOrderServices.ChainOrderService.constructor` | src/Zeus.Server.Hosting/ChainOrderService.cs:102-127 | starts from the stored row, or from the default order when there is none or it is empty |
| `ChainOrderServices.ChainOrderService.CurrentOrder` | src/Zeus.Server.Hosting/ChainOrderService.cs:151-159 | the canonical list filtered by the attached set |
| `ChainOrderServices.ChainOrderService.OnPluginAttached` | src/Zeus.Server.Hosting/ChainOrderService.cs:175-197 | the new state is the attach step of the runs; the id is shown besides those shown before, which keep their order; the returned index is the id's index in the runtime order |
| `ChainOrderServices.ChainOrderService.OnPluginDetached` | src/Zeus.Server.Hosting/ChainOrderService.cs:207-216 | the new state is the detach step; the canonical list and the row stay |
| `ChainOrderServices.ChainOrderService.TrySetOrder` | src/Zeus.Server.Hosting/ChainOrderService.cs:230-269 | the new state is the PUT step, and the error says which test refused it |
| `ChainOrderServices.ChainOrderService.MergeInPlace` | src/Zeus.Server.Hosting/ChainOrderService.cs:254-259 | the in-place loop with its running index computes the merge |
| `ChainOrderServices.ChainOrderService.SlotIndex` | src/Zeus.Server.Hosting/ChainOrderService.cs:276-288 | index of the id in the runtime order, or its length when the id is unknown |
| `ChainOrderServices.ChainOrderService.InsertByDefaultOrder` | src/Zeus.Server.Hosting/ChainOrderService.cs:297-317 | the new id goes before the first entry that is third-party or has a higher default index |
| `ChainOrderServices.ChainOrderService.IndexInDefaultOrder` | src/Zeus.Server.Hosting/ChainOrderService.cs:319-327 | position in the default order, or -1 |
| `ChainOrderServices.ChainOrderStore.SetOrder` | src/Zeus.Server.Hosting/ChainOrderStore.cs:57-78 | what is set is what is read next; other rows stay |
| `ChainOrderFrames.SplitInvertsJoin` | src/Zeus.Contracts/AudioChainOrderFrame.cs:33-61 | splitting a non-empty list of comma-free ids joined by commas gives the list back |
| `ChainOrderFrames.JoinMeaning` | src/Zeus.Contracts/AudioChainOrderFrame.cs:31-45 | two lists joined have byte 44 between their texts; one id is its own text |
| `ChainOrderFrames.FrameMeaning` | src/Zeus.Contracts/AudioChainOrderFrame.cs:31-45 | a frame is byte 0x1E and the text, refused from 1024 bytes of text on |
| `ChainOrderFrames.RoundTrip` | src/Zeus.Contracts/AudioChainOrderFrame.cs:31-63 | a list within the cap comes back exactly when no id holds a comma and it is not the single empty id |
| `ChainOrderFrames.FrameOfDeserialized` | src/Zeus.Contracts/AudioChainOrderFrame.cs:47-63 | every accepted frame within the cap is the frame of what was read from it |
| `ChainOrderFrames.AcceptedIdsRoundTrip` | src/Zeus.Plugins.Host/ManifestValidator.cs:13-14 | the validated plugin-id alphabet satisfies the round-trip condition |
| `ChainOrderFrames.Serialize` | src/Zeus.Contracts/AudioChainOrderFrame.cs:31-45 | appends one frame, or nothing and an error over the 1024-byte cap |
| `PluginIds.AcceptedAlphabet` | src/Zeus.Plugins.Host/ManifestValidator.cs:13-14 | an accepted id holds only lower-case letters, digits and dots, and possibly one final line feed |
| `PluginIds.AcceptedIff` | src/Zeus.Plugins.Host/ManifestValidator.cs:13-14 | without a trailing line feed, accepted exactly when two characters or longer, a lower-case letter first, no dot last, and only lower-case letters, digits and dots |
| `PluginSlots.EveryRun` | src/Zeus.Server.Hosting/AudioPluginBridge.cs:306-526 | over any interleaving of the lock scopes of service and bridge in which failed initialisations land in place: slot i is filled exactly when the list wanted at the last re-slotting has an i-th entry that did not fail since, and the id table is the exact inverse of the slots |
| `PluginSlots.NextInv` | src/Zeus.Server.Hosting/AudioPluginBridge.cs:306-526 | every such step keeps slots and tables in step with the order last shown |
| `PluginSlots.FailureKeepsInverseIff` | src/Zeus.Server.Hosting/AudioPluginBridge.cs:366-376 | a failed initialisation keeps table and slots inverse exactly when the slot captured before it is still that id's, or the id has none and that slot is empty |
| `PluginSlots.FailureHitsAnother` | src/Zeus.Server.Hosting/AudioPluginBridge.cs:355-376 | a run in which a reordering lands during an initialisation that then fails: another plugin's slot is emptied, and the failed one keeps a slot nobody owns |
| `PluginSlots.ActivatedFollows` | src/Zeus.Server.Hosting/AudioPluginBridge.cs:312-336 | after every activation the slots follow the service's current order, whatever they held before |
| `PluginSlots.RearrangedFollows` | src/Zeus.Server.Hosting/AudioPluginBridge.cs:464-473 | so they do after every accepted PUT |
| `PluginSlots.DeactivatedFollows` | src/Zeus.Server.Hosting/AudioPluginBridge.cs:389-410 | and after every deactivation of a slotted plugin, although the chain is re-slotted before the service hears of it |
| `PluginSlots.TargetMeaning` | src/Zeus.Server.Hosting/AudioPluginBridge.cs:500-525 | what the slots list, defined independently: the held plugins, each once, those of the runtime order in that order, then orphans in ordinal order, cut at eight |
| `PluginSlots.ReappliedMatches` | src/Zeus.Server.Hosting/AudioPluginBridge.cs:487-526 | re-slotting leaves a gap-free prefix equal to that list and the id table as its inverse |
| `PluginSlots.DetachCommutes` | src/Zeus.Server.Hosting/AudioPluginBridge.cs:404-410 | re-slotting before the service forgets a removed plugin gives the same list as re-slotting afterwards |
| `PluginSlots.UnslottedForgotten` | src/Zeus.Server.Hosting/AudioPluginBridge.cs:325-335 | forgetting a plugin that found no slot moves no other plugin |
| `PluginSlots.WantedWithout` | src/Zeus.Server.Hosting/AudioPluginBridge.cs:500-525 | holding one plugin less only takes it out of the wanted list |
| `PluginSlots.GapFreeIff` | src/Zeus.Server.Hosting/AudioPluginBridge.cs:366-376 | the chain is gap-free exactly when no plugin whose initialisation failed since the last re-slotting stands before a working one |
| `PluginSlots.RefusedIff` | src/Zeus.Server.Hosting/AudioPluginBridge.cs:325-335 | an activation finds no slot exactly when eight held plugins come before it |
| `PluginSlots.RefusedNeverDetached` | src/Zeus.Server.Hosting/AudioPluginBridge.cs:325-335 | a refused plugin stays in the service's runtime order, also after it is deactivated |
| `PluginSlots.FailedPluginReturns` | src/Zeus.Server.Hosting/AudioPluginBridge.cs:464-473 | after the next accepted reordering a failed plugin has a slot again exactly when it is among the first eight wanted, always when no more than eight are held |
| `PluginSlots.OrderedIsUnique` | src/Zeus.Server.Hosting/AudioPluginBridge.cs:512-514 | the ordinal order of the orphans is unique |
| `PluginSlots.OrdinalMeaning` | src/Zeus.Server.Hosting/AudioPluginBridge.cs:512-514 | an id is less than another when it is a proper beginning of it or has the lower character where they first differ |
| `PluginSlots.HeldAfter` | src/Zeus.Server.Hosting/AudioPluginBridge.cs:306-411 | a step leaves every other plugin held as the same object; the plugin slotted in is held exactly when it found a slot, which holds the new object; one taken out is no longer held |
| `PluginSlots.BypassesAfter` | src/Zeus.Server.Hosting/AudioPluginBridge.cs:487-526 | re-slotting ends every bypass, the switch changes one flag |
| `PluginSlots.UnorderedInverseIff` | src/Zeus.Server.Hosting/AudioPluginBridge.cs:337-352 | without a chain-order service, table and slots stay inverse exactly when the chain is full or the id was not slotted already |
| `AudioPluginBridges.AudioPluginBridge.ReapplySlots` | src/Zeus.Server.Hosting/AudioPluginBridge.cs:487-526 | wipes and refills slots and id table in place, as the closed form of the two loops |
| `AudioPluginBridges.AudioPluginBridge.SlotInOrder` | src/Zeus.Server.Hosting/AudioPluginBridge.cs:500-509 | the first loop places the held plugins of the service's order, up to eight |
| `AudioPluginBridges.AudioPluginBridge.AppendOrphans` | src/Zeus.Server.Hosting/AudioPluginBridge.cs:512-525 | the second loop appends the orphans in ordinal order while there is room |
| `AudioPluginBridges.AudioPluginBridge.OnPluginActivated` | src/Zeus.Server.Hosting/AudioPluginBridge.cs:306-353 | attached and slotted, or refused and forgotten; the slots then follow the service's order; the slot returned is what the initialisation captures |
| `AudioPluginBridges.AudioPluginBridge.OnInitialised` | src/Zeus.Server.Hosting/AudioPluginBridge.cs:359-377 | the outcome of the initialisation: a failure clears the captured slot and the id's entry, which keeps the inverse exactly when it is in place |
| `AudioPluginBridges.AudioPluginBridge.OnPluginDeactivated` | src/Zeus.Server.Hosting/AudioPluginBridge.cs:389-411 | unslotted, re-slotted, then detached, so that the slots follow the order after it; an unslotted plugin is ignored |
| `AudioPluginBridges.AudioPluginBridge.TrySetOrder` | src/Zeus.Server.Hosting/AudioPluginBridge.cs:464-473 | a PUT through the service and the re-slotting its event causes |
| `AudioPluginBridges.AudioChain.FindFreeSlot` | src/Zeus.Server.Hosting/AudioPluginBridge.cs:450-455 | the first empty slot, or -1 when all are filled |
| `AudioPluginBridges.ActivateUnordered` | src/Zeus.Server.Hosting/AudioPluginBridge.cs:337-352 | takes the first free slot, or ignores the plugin |
| `AudioPluginBridges.AudioChain.SetSlot` | src/Zeus.Plugins.Host/Audio/AudioChain.cs:61-67 | sets the plugin and ends the bypass of that slot only |
| `AudioPluginBridges.AudioChain.ClearSlot` | src/Zeus.Plugins.Host/Audio/AudioChain.cs:69-74 | empties that slot only and ends its bypass |
| `AudioPluginBridges.AudioChain.SetSlotBypass` | src/Zeus.Plugins.Host/Audio/AudioChain.cs:82-86 | changes the bypass of that slot only |
| `BandPlan.ChainIsAncestry` | src/Zeus.Server.Hosting/BandPlanService.cs:121-133 | a region is on the ancestry chain exactly when some number of parent links leads to it, with or without cycles |
| `BandPlan.ChainLinks` | src/Zeus.Server.Hosting/BandPlanService.cs:121-133 | a chain starts at its region, each entry is the parent that the first region with the id before it names, and it ends where there is no parent or one it has visited |
| `BandPlan.FindMeaning` | src/Zeus.Server.Hosting/BandPlanService.cs:64 | an id that is present is found, at its first place |
| `BandPlan.AheadShrinks` | src/Zeus.Server.Hosting/BandPlanService.cs:127-132 | each step of either walk visits a region for the first time, so both end even when parent links form a cycle |
| `BandPlan.WalkNoDup` | src/Zeus.Server.Hosting/BandPlanService.cs:123-133 | no layer is visited twice |
| `BandPlan.OverlayIsSurvivors` | src/Zeus.Server.Hosting/BandPlanService.cs:135-146 | a segment occurrence survives the overlay exactly when no later occurrence overlaps it; survivors keep their order |
| `BandPlan.SurvivorMember` | src/Zeus.Server.Hosting/BandPlanService.cs:135-146 | which segments that leaves |
| `BandPlan.OverlayDisjoint` | src/Zeus.Server.Hosting/BandPlanService.cs:143-144 | no two survivors overlap |
| `BandPlan.ResolvedPlan` | src/Zeus.Server.Hosting/BandPlanService.cs:117-150 | the resolved plan is sorted, non-overlapping and a permutation of the survivors; with proper segments each ends before the next begins |
| `BandPlan.PlanFrequencies` | src/Zeus.Server.Hosting/BandPlanService.cs:121-150 | a segment is in the plan exactly when it has an occurrence in the layers such that every later one ends at or below its lower edge or begins at or above its upper edge |
| `BandPlan.ParentStays` | src/Zeus.Server.Hosting/BandPlanService.cs:135-146 | an ancestor's validated segment that shares no frequency with any younger region's segments stays in the plan |
| `BandPlan.MemberAnswers` | src/Zeus.Server.Hosting/BandPlanService.cs:152-156 | strictly inside a segment of a plan, that segment and no other answers |
| `BandPlan.OverrideShadows` | src/Zeus.Server.Hosting/BandPlanStore.cs:62-78 | an override answers for its region, an unreadable one is as good as none, a null one as good as saving nothing, and the shipped segments answer otherwise |
| `BandPlan.AnySortResolves` | src/Zeus.Server.Hosting/BandPlanService.cs:148 | the unstable sort does not matter: any sorted arrangement of the survivors is the same plan |
| `BandPlan.ValidatedPairs` | src/Zeus.Server.Hosting/BandPlanService.cs:203-217 | the adjacent-only checks imply that every earlier segment ends before every later one begins |
| `BandPlan.ValidatedOrdered` | src/Zeus.Server.Hosting/BandPlanService.cs:203-217 | a validated list is ordered and each segment has positive width |
| `BandPlan.LeafSurvives` | src/Zeus.Server.Hosting/BandPlanService.cs:82-85 | every segment of a region that passed validation is in that region's plan |
| `BandPlan.LeafAnswers` | src/Zeus.Server.Hosting/BandPlanService.cs:152-156 | strictly inside such a segment, that segment and no other answers, whatever the parents say |
| `BandPlan.FirstProblem` | src/Zeus.Server.Hosting/BandPlanService.cs:203-217 | nothing is reported exactly when every segment passes every check |
| `BandPlan.AcceptedIff` | src/Zeus.Server.Hosting/BandPlanService.cs:203-217 | a list is accepted exactly when every segment begins at zero or above, has positive width and a title with something but white space, and begins where the one before it ends or later |
| `BandPlan.RefusalMeaning` | src/Zeus.Server.Hosting/BandPlanService.cs:203-217 | each refusal names what is wrong with the first segment that has something wrong, by the first check it fails |
| `BandPlan.WhiteAscii` | src/Zeus.Server.Hosting/BandPlanService.cs:212 | the white characters of ASCII |
| `BandPlanRuns.CacheIsFresh` | src/Zeus.Server.Hosting/BandPlanService.cs:62-109 | after any sequence of region changes, saves, resets and restarts the cached plan equals a fresh resolution of the current region |
| `BandPlanRuns.ActiveIsLastSelected` | src/Zeus.Server.Hosting/BandPlanService.cs:62-80 | over any run, restarts included, the active region is the last known one that was selected |
| `BandPlanRuns.StartMeaning` | src/Zeus.Server.Hosting/BandPlanService.cs:42-56 | a service starts with the saved region when there is one, else the first, else the built-in one |
| `BandPlanRuns.NextInv` | src/Zeus.Server.Hosting/BandPlanService.cs:62-109 | each request keeps the cache fresh although it is recomputed only when the ancestor test says so |
| `BandPlanRuns.UnrelatedChange` | src/Zeus.Server.Hosting/BandPlanService.cs:87-89 | a plan does not depend on regions off its chain |
| `BandPlanRuns.StreamDependsOnChain` | src/Zeus.Server.Hosting/BandPlanService.cs:135-146 | the overlaid segments depend only on the regions of the chain |
| `BandPlanRuns.ChangesAreAnnounced` | src/Zeus.Server.Hosting/BandPlanService.cs:79-107 | the notification is raised once for a known region that is selected and for an accepted save or a reset on the active chain, and otherwise not; so whenever a request changes the plan |
| `BandPlanRuns.RestartKeepsPlan` | src/Zeus.Server.Hosting/BandPlanService.cs:42-56 | a restart brings back the same region and plan |
| `BandPlanRuns.StaysProper` | src/Zeus.Server.Hosting/BandPlanService.cs:82-85 | validation on the way in keeps every stored segment of positive width over any run |
| `BandPlanRuns.EveryPlanOrdered` | src/Zeus.Server.Hosting/BandPlanService.cs:117-150 | in every reachable state the cached plan has the order the binary search relies on |
| `BandPlanRuns.ResetUndoesSave` | src/Zeus.Server.Hosting/BandPlanService.cs:82-109 | resetting a region that had no override undoes a save: store and plan are as before |
| `BandPlanRuns.StoreAnswersLastSave` | src/Zeus.Server.Hosting/BandPlanStore.cs:62-106 | over any run the store answers for a region with the last accepted save since its last reset, else the shipped segments or what was stored at the start |
| `BandPlanOverlaps.EveryInterleaving` | src/Zeus.Server.Hosting/BandPlanService.cs:62-109 | over any interleaving of the steps of any number of selections, saves and resets in which no plan lands late, the cached plan is fresh or some request is still on its way to refresh it; it is fresh once all are done |
| `BandPlanOverlaps.NextSettled` | src/Zeus.Server.Hosting/BandPlanService.cs:62-109 | each step that is not a late landing keeps that: a changed override leaves its request owing a refresh, and moving on never loses what is owed |
| `BandPlanOverlaps.LateLandingIff` | src/Zeus.Server.Hosting/BandPlanService.cs:71-79 | a plan resolved earlier is right for the region active at the end, whatever the stores hold and the saves in between contain, exactly when it was resolved for that region and none of those requests was for a region on its chain |
| `BandPlanOverlaps.LandsLateIff` | src/Zeus.Server.Hosting/BandPlanService.cs:71-95 | in every reachable state a plan about to be stored lands late exactly when some content of the stores and of the saves since it was resolved makes it wrong |
| `BandPlanOverlaps.LandedFresh` | src/Zeus.Server.Hosting/BandPlanService.cs:71-92 | a plan that is not late is the fresh plan of the region active after it is stored |
| `BandPlanOverlaps.SelectAlone` | src/Zeus.Server.Hosting/BandPlanService.cs:62-80 | a selection run without interruption is the selection taken as one step |
| `BandPlanOverlaps.SaveAlone` | src/Zeus.Server.Hosting/BandPlanService.cs:82-96 | a save run without interruption, refused or not, is the save taken as one step |
| `BandPlanOverlaps.ResetAlone` | src/Zeus.Server.Hosting/BandPlanService.cs:98-109 | a reset run without interruption is the reset taken as one step |
| `BandPlanOverlaps.SelectionLandsLate` | src/Zeus.Server.Hosting/BandPlanService.cs:71-79 | a run in which any accepted save or reset that changes the selected plan, and is off the previous region's chain, falls between resolving and storing it: all done, the region active, its plan stale |
| `BandPlanOverlaps.RefreshLandsOnAnother` | src/Zeus.Server.Hosting/BandPlanService.cs:87-92 | a run in which a selection falls between the resolving and the storing of a save or reset: the selected region is active with the other one's plan |
| `BandPlanOverlaps.RefreshLandsLate` | src/Zeus.Server.Hosting/BandPlanService.cs:87-92 | a run in which the first of two changes of the active chain stores its plan after the second has stored its own: the second change is missing from the plan |
| `BandPlanOverlaps.TwoSavesCross` | src/Zeus.Server.Hosting/BandPlanService.cs:82-96 | from every state two saves of the active region can end that way |
| `BandPlanOverlaps.PreferencesCross` | src/Zeus.Server.Hosting/BandPlanService.cs:72-77 | a run of two selections that leaves one region active and the other one saved, so a restart comes back with the other |
| `BandPlanServices.BandPlanService.GetSegment` | src/Zeus.Server.Hosting/BandPlanService.cs:152-178 | agrees with a linear scan: what is returned contains the frequency, and on an ordered plan nothing is returned only when no segment contains it |
| `BandPlanServices.BandPlanService.IsAncestorOrSelf` | src/Zeus.Server.Hosting/BandPlanService.cs:190-201 | true exactly when the target is on the chain the resolution walks |
| `BandPlanServices.BandPlanService.ResolvePlan` | src/Zeus.Server.Hosting/BandPlanService.cs:121-150 | the loops compute the resolved plan; it holds exactly the segments that have an occurrence clear, in frequency, of every later one |
| `BandPlanServices.BandPlanService.AncestryChain` | src/Zeus.Server.Hosting/BandPlanService.cs:123-132 | the walk, youngest first |
| `BandPlanServices.BandPlanService.AddLayer` | src/Zeus.Server.Hosting/BandPlanService.cs:139-145 | adding a layer continues the overlay |
| `BandPlanServices.BandPlanService.ValidateSegments` | src/Zeus.Server.Hosting/BandPlanService.cs:203-217 | reports the first problem, and none exactly on valid lists |
| `BandPlanServices.BandPlanService.SetRegion` | src/Zeus.Server.Hosting/BandPlanService.cs:62-80 | keeps the cache fresh; an unknown region changes nothing |
| `BandPlanServices.BandPlanService.SavePlan` | src/Zeus.Server.Hosting/BandPlanService.cs:82-96 | stores and refreshes, or reports the problem and changes nothing |
| `BandPlanServices.BandPlanService.ResetPlan` | src/Zeus.Server.Hosting/BandPlanService.cs:98-109 | deletes the override and refreshes when affected |
| `BandPlanServices.BandPlanService.constructor` | src/Zeus.Server.Hosting/BandPlanService.cs:42-56 | starts with the saved region, else the first, else a built-in one, and its plan |
| `BandPlanServices.BandPlanStore.SaveOverride` | src/Zeus.Server.Hosting/BandPlanStore.cs:80-100 | sets the override of that region only |
| `BandPlanServices.BandPlanStore.DeleteOverride` | src/Zeus.Server.Hosting/BandPlanStore.cs:102-106 | removes the override of that region only |
| `DspPipeline.NextInv` | src/Zeus.Server.Hosting/DspPipelineService.cs:431-506 | each pipeline event keeps the engine in step with the cache for everything only the pipeline writes, or a resync due |
| `DspPipeline.StartInv` | src/Zeus.Server.Hosting/DspPipelineService.cs:846-890 | it holds from the start on a synthetic engine |
| `DspPipeline.UnkeyedPush` | src/Zeus.Server.Hosting/DspPipelineService.cs:533-764 | one unkeyed push to a synchronised or resyncing engine equals pushing everything, except for a control pair that was stale already and that the state does not change |
| `DspPipeline.KeyedPush` | src/Zeus.Server.Hosting/DspPipelineService.cs:650-679 | a keyed push still sets everything else and calls no PureSignal peak, timing or control setter |
| `DspPipeline.ShiftMeaning` | src/Zeus.Server.Hosting/CwOffset.cs:29-34 | the shift puts the receiver 600 Hz below the dial in CWU, 600 Hz above it in CWL and on it in every other mode, exactly when that is within 32 bits; no other shift would |
| `DspPipeline.PushTunes` | src/Zeus.Server.Hosting/DspPipelineService.cs:533-764 | after any push, keyed or not, to an engine in step: the mode, filters, that shift, the AGC top as the sum of its two parts, the gains, the noise reduction and CFC profile or the defaults for an absent one, the zoom; unkeyed also peak, timing and control |
| `DspPipeline.OpenedTunes` | src/Zeus.Server.Hosting/DspPipelineService.cs:846-890 | the same for a freshly opened engine, whose PureSignal and CFC settings stay its own |
| `DspPipeline.DesiredMeaning` | src/Zeus.Server.Hosting/DspPipelineService.cs:533-764 | the settings that pushing everything would leave, in plain terms |
| `DspPipeline.PushIdempotent` | src/Zeus.Server.Hosting/DspPipelineService.cs:1111-1117 | pushing the same state again calls no setter at all |
| `DspPipeline.SyncsEveryPushIff` | src/Zeus.Server.Hosting/DspPipelineService.cs:627-679 | every later unkeyed push leaves the engine as pushed exactly when a resync is due or the PureSignal and CFC settings already agree with the cache |
| `DspPipeline.KeyedFirstPushIff` | src/Zeus.Server.Hosting/DspPipelineService.cs:804-806 | after a swap, the first push sets later pushes right exactly when it arrives unkeyed or the new engine's PureSignal settings happened to equal the cached ones |
| `PsAutoAttenuate.RefinesAlwaysPush` | src/Zeus.Server.Hosting/DspPipelineService.cs:508-807 | in runs with any number of attenuator dances where no keyed push is the first after an engine swap, every unkeyed push and every release leaves a real engine with the settings of the given state; the control pair is among them exactly when a resync was due, the state changes the cached pair or the engine still held the cached pair; in plain terms, the engine is tuned as the pushed state says |
| `PsAutoAttenuate.RunInv` | src/Zeus.Server.Hosting/DspPipelineService.cs:431-506 | over such runs everything but the control pair is as cached, or a resync is due |
| `PsAutoAttenuate.UndisturbedRefinesIff` | src/Zeus.Server.Hosting/PsAutoAttenuateService.cs:443-561 | when nothing cuts across a dance, an unkeyed push or a release leaves the engine exactly as pushed if and only if a resync is due, no dance is in flight, the state changes the cached pair or the pair is off anyway |
| `PsAutoAttenuate.IdleTickRestores` | src/Zeus.Server.Hosting/PsAutoAttenuateService.cs:291-323 | after such a run the first tick that finds the transmitter off ends every dance and the engine holds the cached pair again |
| `PsAutoAttenuate.NextControlInv` | src/Zeus.Server.Hosting/PsAutoAttenuateService.cs:256-386 | during a dance the saved pair is the cached one and calibration is off, otherwise the engine holds the cached pair |
| `PsAutoAttenuate.WritesWhileKeyed` | src/Zeus.Server.Hosting/PsAutoAttenuateService.cs:505-559 | the peak and timing setters never run while keyed; the control setter does exactly when a tick starts a dance or restores its pair |
| `PsAutoAttenuate.TickWritesControlOnly` | src/Zeus.Server.Hosting/PsAutoAttenuateService.cs:256-386 | a tick changes nothing of the pipeline but the control pair |
| `PsAutoAttenuate.WholeDance` | src/Zeus.Server.Hosting/PsAutoAttenuateService.cs:443-693 | three ticks on either board switch calibration off, wait, and restore the saved pair, and change nothing else |
| `PsAutoAttenuate.ReleaseMidDance` | src/Zeus.Server.Hosting/PsAutoAttenuateService.cs:293-299 | a run in which the release leaves calibration off although the state asks for it |
| `PsAutoAttenuate.ChangeMidDance` | src/Zeus.Server.Hosting/PsAutoAttenuateService.cs:300-317 | a run in which the operator's new pair is overwritten by the saved old one after the release |
| `PsAutoAttenuate.DisarmMidDance` | src/Zeus.Server.Hosting/PsAutoAttenuateService.cs:283-290 | a run in which disarming forgets a dance with calibration off |
| `PsAutoAttenuate.StaleStays` | src/Zeus.Server.Hosting/DspPipelineService.cs:674-679 | a stale pair outlives any number of pushes that ask for the cached one |
| `PsAutoAttenuate.InStepReached` | src/Zeus.Server.Hosting/DspPipelineService.cs:431-478 | the state these runs start from is reached by connecting, one push and one idle tick |
| `PsAutoAttenuate.LostResync` | src/Zeus.Server.Hosting/DspPipelineService.cs:463-469 | a run in which keying right after a connection loses the resync: the engine keeps its default peak after the release |
| `PsAutoAttenuateServices.PsAutoAttenuateService.Tick1` | src/Zeus.Server.Hosting/PsAutoAttenuateService.cs:256-386 | the new state is the tick of the runs: forget, recover or take one step of the dance |
| `PsAutoAttenuateServices.PsAutoAttenuateService.Recover` | src/Zeus.Server.Hosting/PsAutoAttenuateService.cs:291-323 | restores the saved pair of every dance in flight |
| `PsAutoAttenuateServices.PsAutoAttenuateService.Tick1Hl2` | src/Zeus.Server.Hosting/PsAutoAttenuateService.cs:450-561 | one step of the Hermes Lite 2 dance |
| `PsAutoAttenuateServices.PsAutoAttenuateService.Tick1P2` | src/Zeus.Server.Hosting/PsAutoAttenuateService.cs:575-693 | one step of the Protocol 2 dance |
| `DspPipelineServices.DspPipelineService.OnRadioStateChanged` | src/Zeus.Server.Hosting/DspPipelineService.cs:508-807 | the change-detect blocks in source order compute one push; an engine in step is then tuned as the state says, the CW shift included |
| `DspPipelineServices.DspPipelineService.OnRadioMoxChanged` | src/Zeus.Server.Hosting/DspPipelineService.cs:1097-1118 | keying sets the flag, releasing pushes the current state |
| `DspPipelineServices.DspPipelineService.ApplyStateToNewChannel` | src/Zeus.Server.Hosting/DspPipelineService.cs:846-890 | a fresh engine receives the receive and transmit settings, its PureSignal and CFC settings stay, and the cache follows |
| `DspPipelineServices.DspPipelineService.OnRadioConnected` | src/Zeus.Server.Hosting/DspPipelineService.cs:431-478 | Protocol 1 connect: new real engine, resync due |
| `DspPipelineServices.DspPipelineService.OnRadioDisconnected` | src/Zeus.Server.Hosting/DspPipelineService.cs:480-506 | Protocol 1 disconnect: synthetic engine, resync flag as it was |
| `DspPipelineServices.DspPipelineService.ConnectP2` | src/Zeus.Server.Hosting/DspPipelineService.cs:982-1063 | Protocol 2 connect: real or fallback engine, resync due |
| `DspPipelineServices.DspPipelineService.DisconnectP2` | src/Zeus.Server.Hosting/DspPipelineService.cs:1169-1194 | Protocol 2 disconnect: synthetic engine, resync due |
| `DspPipelineServices.CfcConfigsEqual` | src/Zeus.Server.Hosting/DspPipelineService.cs:813-830 | true exactly on equal configurations, bands included |
| `TxIqPackets.StreamPreserved` | src/Zeus.Protocol2/Protocol2Client.cs:749-811 | decoding the queued packets in order and appending the scratch gives exactly the quantised input; sequence numbers are consecutive modulo 2^32 |
| `TxIqPackets.StreamCarried` | src/Zeus.Protocol2/Protocol2Client.cs:782-811 | every value of the queued packets is the 24-bit value nearest to the input it carries, in order; what exceeds full scale is held there |
| `TxIqPackets.PacketRoundTrip` | src/Zeus.Protocol2/Protocol2Client.cs:782-804 | a packet carries its sequence number and exactly its 240 pairs |
| `TxIqPackets.DecodedIsPrefix` | src/Zeus.Protocol2/Protocol2Client.cs:782-811 | the queued packets decode to the first 480 n values of the input |
| `TxIqPackets.TxIqStream.StreamSoFar` | src/Zeus.Protocol2/Protocol2Client.cs:740-748 | at any moment, for blocks of any even length, packets and scratch are the whole quantised input since the last reset |
| `TxIqPackets.TxIqStream.QueueCarriesInput` | src/Zeus.Protocol2/Protocol2Client.cs:740-811 | the same at any moment of the object |
| `TxIqPackets.TxIqStream.SendTxIq` | src/Zeus.Protocol2/Protocol2Client.cs:749-771 | accepts even blocks while running, refuses odd ones; the queue then carries the nearest 24-bit value of every accepted input up to what waits in the scratch, which is never left full |
| `TxIqPackets.TxIqStream.Append` | src/Zeus.Protocol2/Protocol2Client.cs:760-768 | copies a piece behind the buffered values and flushes when full |
| `TxIqPackets.TxIqStream.FlushTxIq` | src/Zeus.Protocol2/Protocol2Client.cs:782-811 | queues one packet and advances the number |
| `TxIqPackets.TxIqStream.EncodeScratch` | src/Zeus.Protocol2/Protocol2Client.cs:791-804 | writes the 240 quantised pairs behind the sequence bytes |
| `TxIqPackets.TxIqStream.ResetTxIq` | src/Zeus.Protocol2/Protocol2Client.cs:773-780 | drops scratch and queue, numbering goes on |
| `TxIqPackets.WriteBeU32` | src/Zeus.Protocol2/Protocol2Client.cs:1866-1872 | writes four big-endian bytes and nothing else |
| `Quantise.Int24ClampMeaning` | src/Zeus.Protocol2/Protocol2Client.cs:895-903 | quantisation takes the nearest multiple of the step, halves to even, saturates, is odd and order-preserving, and never wraps |
| `Quantise.Int24ClampNearest` | src/Zeus.Protocol2/Protocol2Client.cs:895-903 | the nearest multiple within full scale, full scale beyond |
| `Wire.Int24RoundTrip` | src/Zeus.Protocol1/PacketParser.cs:125-132 | 24-bit encoding and decoding are inverse in both directions, and both decoders agree |
| `Wire.Be32RoundTrip` | src/Zeus.Protocol2/Protocol2Client.cs:1866-1872 | 32-bit big-endian round trip |
| `Wire.MostSignificantFirst` | src/Zeus.Protocol2/Protocol2Client.cs:1866-1872 | the most significant byte comes first, negative numbers are in two's complement |
| `Ep6.ParsingInvertsLayout` | src/Zeus.Protocol1/PacketParser.cs:206-401 | for both slot layouts of the Metis EP6 frame of OpenHPSDR Protocol 1: the same samples and sequence, per-frame telemetry exactly for echo addresses 1 to 3, overload as the OR of both frames |
| `Ep6.FrameDecodes` | src/Zeus.Protocol1/PacketParser.cs:256-265 | the samples of receiver d are those the slots carry |
| `Ep6.SlotDecodes` | src/Zeus.Protocol1/PacketParser.cs:374-394 | a slot at an offset decodes to the pair it carries |
| `Ep6.SampleBytes` | src/Zeus.Protocol1/PacketParser.cs:256-401 | the byte offset of every I and Q value of every receiver in the packet |
| `Ep6.EchoBytes` | src/Zeus.Protocol1/PacketParser.cs:238-254 | the byte offsets of telemetry and overload |
| `Ep6.SlotsFit` | src/Zeus.Protocol1/PacketParser.cs:305-307 | 63 and 19 slots are what fits the 504-byte payload |
| `Ep6.EchoDecodes` | src/Zeus.Protocol1/PacketParser.cs:238-254 | telemetry and overload as the echoed command bytes define them |
| `PacketParser.TryParsePacket` | src/Zeus.Protocol1/PacketParser.cs:206-270 | accepts exactly well-formed packets with room for 252 values, and then returns their samples, sequence, telemetry and overload; every index in bounds |
| `PacketParser.TryParseHl2Ps4DdcPacket` | src/Zeus.Protocol1/PacketParser.cs:323-401 | the same for four receivers and 38 pairs each |
| `PacketParser.ReadFrame` | src/Zeus.Protocol1/PacketParser.cs:256-265 | the payload loop appends one frame's samples |
| `PacketParser.ReadPsSlots` | src/Zeus.Protocol1/PacketParser.cs:374-396 | the four-receiver payload loop |
| `PacketParser.ScaledInjective` | src/Zeus.Protocol1/PacketParser.cs:98 | scaling loses no integer sample |
| `PacketParser.FullScale` | src/Zeus.Protocol1/PacketParser.cs:98 | the scale is linear, the 24-bit range maps to -1 up to one step below +1 |
| `PacketParser.AcceptedBytes` | src/Zeus.Protocol1/PacketParser.cs:206-236 | exactly the packets of 1032 bytes with the Metis magic, type 1, endpoint 6 and sync bytes in both frames are well-formed |
| `PacketParser.EchoMeaning` | src/Zeus.Protocol1/PacketParser.cs:238-254 | which bytes the two readings and the overload of a packet come from |
| `SequenceGaps.GapTelescopes` | src/Zeus.Protocol1/PacketParser.cs:416-424 | one more number adds its gap to the sum of missing counts over maximal increasing runs, so wraps and restarts add nothing |
| `SequenceGaps.RunsAreMaximal` | src/Zeus.Protocol1/PacketParser.cs:413-427 | the runs are strictly increasing, make up the list and cannot be extended |
| `SequenceGaps.MissingCounts` | src/Zeus.Protocol1/PacketParser.cs:421-422 | last - first + 1 - length is the number of sequence numbers inside a run that never arrived |
| `SequenceGaps.SequenceTracker.Observe` | src/Zeus.Protocol1/PacketParser.cs:413-427 | keeps the count equal to that sum |
| `SequenceGaps.ClientSequence.ObserveSequence` | src/Zeus.Protocol1/Protocol1Client.cs:872-884 | the client's own counter is the same sum, less what was lost before the stream started |
| `SequenceGaps.ClientSequence.StartStream` | src/Zeus.Protocol1/Protocol1Client.cs:475-476 | zeroes the count, keeps the last number |
| `PsFeedback.NothingLost` | src/Zeus.Protocol1/Protocol1Client.cs:366-401 | emitted 1024-sample blocks and the partial block concatenate to the decoded stream, receive and transmit stay paired, and each block's hint is the sequence of the packet that supplied its first sample |
| `PsFeedback.PsAccumulator.StreamSoFar` | src/Zeus.Protocol1/Protocol1Client.cs:366-401 | the same for the arrays and emitted frames at any moment |
| `PsFeedback.PsAccumulator.Add` | src/Zeus.Protocol1/Protocol1Client.cs:368-401 | one sample appended to the stream, a block emitted when full |
| `PsFeedback.PsAccumulator.HandlePs4DdcPacket` | src/Zeus.Protocol1/Protocol1Client.cs:279-401 | an accepted Protocol 1 packet appends its 38 pairs, a rejected one nothing |
| `PsFeedback.Ps4DdcArrivalsOfLayout` | src/Zeus.Protocol1/Protocol1Client.cs:366-376 | those pairs are the third and fourth receivers' samples of the laid-out packet |
| `PsFeedback.Ps4DdcBytes` | src/Zeus.Protocol1/Protocol1Client.cs:366-376 | the bytes each feedback and reference value comes from |
| `PsFeedback.PsAccumulator.HandlePsPairedPacket` | src/Zeus.Protocol2/Protocol2Client.cs:1754-1815 | a Protocol 2 packet appends the declared pairs; above 169 it throws after those inside the buffer |
| `PsFeedback.PsPairRoundTrip` | src/Zeus.Protocol2/Protocol2Client.cs:1829-1840 | decoding a pair inverts its layout: first receiver to rx, second to tx |
| `PsFeedback.DatagramArrives` | src/Zeus.Protocol2/Protocol2Client.cs:1754-1815 | a datagram laid out with 1 to 119 pairs adds exactly those pairs under its sequence number, whatever follows it in the buffer |
| `PsFeedback.PairCountMeaning` | src/Zeus.Protocol2/Protocol2Client.cs:1763-1772 | half the declared samples, 119 when that is zero or above 200 |
| `PsFeedback.ScalesAgree` | src/Zeus.Protocol2/Protocol2Client.cs:1829-1840 | both protocols scale a 24-bit value alike |
| `PsFeedback.DatagramDecidesIff` | src/Zeus.Protocol2/Protocol2Client.cs:1763-1780 | the decoded pairs depend only on the 1444-byte datagram exactly when the header declares at most 119 |
| `PsFeedback.StaleDiffers` | src/Zeus.Protocol2/Protocol2Client.cs:1773-1780 | above 119 a leftover byte of an earlier datagram changes a sample |
| `PsFeedback.PsAccumulator.Rearm` | src/Zeus.Protocol2/Protocol2Client.cs:709-714 | arming or disarming drops the partial block |
| `DropOldest.QueueIsNewestPart` | src/Zeus.Protocol1/TxIqRing.cs:118-171 | after any run of writes, reads and clears the queue is the newest part of everything written, within the capacity |
| `DropOldest.PushFills` | src/Zeus.Protocol1/TxIqRing.cs:118-137 | a push keeps as many of the newest as fit and counts the rest as dropped |
| `DropOldest.ChunkingIrrelevant` | src/Zeus.Protocol1/TxIqRing.cs:118-137 | cutting a block in two changes neither contents nor drop count |
| `Rings.TxIqRing.Write` | src/Zeus.Protocol1/TxIqRing.cs:118-137 | contents are the last capacity elements of old ++ converted block, also for blocks longer than the ring; drops are counted; odd blocks change nothing; written = read + dropped + queued + cleared |
| `Rings.TxIqRing.Next` | src/Zeus.Protocol1/TxIqRing.cs:153-171 | pops the oldest pair, scaled, or yields silence |
| `Rings.TxIqRing.Clear` | src/Zeus.Protocol1/TxIqRing.cs:144-151 | empties the queue; counters stay balanced |
| `Rings.HoldsPush` | src/Zeus.Protocol1/TxIqRing.cs:129-133 | writing at the head and advancing it pushes onto the queue the slots hold |
| `Rings.HoldsFront` | src/Zeus.Protocol1/TxIqRing.cs:158-160 | head minus count finds the oldest element |
| `Rings.ScaledMeaning` | src/Zeus.Protocol1/TxIqRing.cs:167-169 | scaling shrinks towards zero and never flips the sign |
| `Rings.ScaledNear` | src/Zeus.Protocol1/TxIqRing.cs:167-169 | the product with the amplitude, cut to an integer on the side of zero; unchanged from 0.999 up, silence at zero or less |
| `Rings.PairsNear` | src/Zeus.Protocol1/TxIqRing.cs:118-137 | a block becomes pairs of the nearest 16-bit values, I before Q |
| `Rings.RxCodecAudioRing.Write` | src/Zeus.Protocol1/RxCodecAudioRing.cs:52-79 | the same push specification for the head, tail and count scheme |
| `Rings.RxCodecAudioRing.Next` | src/Zeus.Protocol1/RxCodecAudioRing.cs:82-93 | the oldest sample on both channels, or silence |
| `Rings.RxCodecAudioRing.Clear` | src/Zeus.Protocol1/RxCodecAudioRing.cs:96-104 | empties the queue |
| `Quantise.S16Range` | src/Zeus.Protocol1/TxIqRing.cs:173-182 | rounded and cast 16-bit conversions stay in range and differ by at most one |
| `Quantise.S16Nearest` | src/Zeus.Protocol1/TxIqRing.cs:173-182 | the rounded conversion takes the nearest value, the cast one the nearest on the side of zero |
| `CwPlayback.PlayJob` | src/Zeus.Server.Hosting/CwEngine.cs:196-284 | the blocks written are a prefix of the one-pass render, for a finished job all of it, keyed sample by sample and in ten-millisecond chunks; refused without transmit permission; aborted exactly when the token is cancelled by its last look, with no chunk written after the look that finds it so |
| `CwPlayback.RenderForTest` | src/Zeus.Server.Hosting/CwEngine.cs:319-338 | the one-pass render, keyed sample by sample |
| `CwPlayback.KeyingMeaning` | src/Zeus.Server.Hosting/CwEngine.cs:240-356 | zero envelope with the key up; with the key down one, but for a rise over the first and the mirrored fall over the last five milliseconds or half a shorter symbol; the phase is that of the sample's place in the job, so the carrier runs on through gaps |
| `CwPlayback.SamplesPerMillisecond` | src/Zeus.Server.Hosting/CwEngine.cs:243 | the stream length is 48 samples per millisecond of symbol duration |
| `CwPlayback.PlaySymbol` | src/Zeus.Server.Hosting/CwEngine.cs:248-274 | the chunk loop writes a symbol's samples, or a prefix when cancelled |
| `CwPlayback.FillChunk` | src/Zeus.Server.Hosting/CwEngine.cs:252-264 | the sample loop appends one chunk and carries the phase on |
| `CwPlayback.RampNotEmpty` | src/Zeus.Server.Hosting/CwEngine.cs:346-356 | the ramp length never divides by zero |
| `CwPlayback.PhaseBoundedIff` | src/Zeus.Server.Hosting/CwEngine.cs:260-263 | the phase stays bounded exactly when one step is between zero and a full turn |
| `CwPlayback.PhaseMeaning` | src/Zeus.Server.Hosting/CwEngine.cs:260-263 | the phase of a sample is its place times the step, up to whole turns |
| `CwPlayback.PhaseNegative` | src/Zeus.Server.Hosting/CwEngine.cs:260-263 | with a negative offset no wrap ever happens |
| `CwPlayback.PhaseTooFast` | src/Zeus.Server.Hosting/CwEngine.cs:260-263 | above a full turn per sample the phase grows without end |
| `CwQueue.EveryInterleaving` | src/Zeus.Server.Hosting/CwEngine.cs:113-193 | under every interleaving the counter is queued jobs plus operations between their steps plus cancelled writes; it is never negative, zero exactly when all of these are none, and jobs leave in the order they entered |
| `CwQueue.NextInv` | src/Zeus.Server.Hosting/CwEngine.cs:113-193 | every atomic step keeps the accounting |
| `CwQueue.SentJobArrives` | src/Zeus.Server.Hosting/CwEngine.cs:113-127 | a job that is sent enters the channel with its text and its speed held to 5 to 50 words a minute, whatever comes in between |
| `CwQueue.AnnouncesLastTaken` | src/Zeus.Server.Hosting/CwEngine.cs:150-240 | whatever is announced about a job is about the one the worker took last |
| `CwQueue.IdleMeansEmpty` | src/Zeus.Server.Hosting/CwEngine.cs:189-192 | the drained Idle finds the channel empty exactly when Abort has taken as many jobs since the depth was read as were written since; with no Abort, exactly when none was written |
| `CwQueue.IdleFindsEmptyIff` | src/Zeus.Server.Hosting/CwEngine.cs:189-226 | the same for every announced Idle, also that of a refused job, counting what was waiting when its depth was read |
| `CwQueue.IdleCanBeStale` | src/Zeus.Server.Hosting/CwEngine.cs:191-192 | a run in which the drained Idle goes out with a job already queued |
| `CwQueue.RefusedIdleWithJobs` | src/Zeus.Server.Hosting/CwEngine.cs:219-226 | a run in which a refused job announces Idle with another waiting |
| `CwQueue.CancelledWriteSilencesIdle` | src/Zeus.Server.Hosting/CwEngine.cs:113-120 | after a write cancelled once it was counted the depth never reads zero: no drained Idle is announced again, and every Idle of a refused job reports a positive depth |
| `CwQueue.CancelledWriteReachable` | src/Zeus.Server.Hosting/CwEngine.cs:113-120 | such a state is reached by a caller whose token is cancelled already |
| `PluginSettings.Isolation` | src/Zeus.Plugins.Host/PluginSettingsStore.cs:54-120 | over any run of writes by any number of plugins, each plugin reads exactly what it last wrote under a key, or what the database held at the start, duplicates included |
| `PluginSettings.CollectionNameInjective` | src/Zeus.Plugins.Host/PluginSettingsStore.cs:54-55 | two ids the validator accepts never share a collection |
| `PluginSettings.UnvalidatedIdsCollide` | src/Zeus.Plugins.Host/PluginSettingsStore.cs:54-55 | outside that alphabet they can |
| `PluginSettings.NewestMeaning` | src/Zeus.Plugins.Host/PluginSettingsStore.cs:77-81 | the lookup finds the matching row with the highest id, or nothing when there is none |
| `PluginSettings.SetCollapses` | src/Zeus.Plugins.Host/PluginSettingsStore.cs:107-109 | after a set one row is left for the key |
| `PluginSettings.WithoutMeaning` | src/Zeus.Plugins.Host/PluginSettingsStore.cs:118 | a delete removes every row of the key and no other |
| `PluginSettings.StoredMeaning` | src/Zeus.Plugins.Host/PluginSettingsStore.cs:107-109 | a set is read back, other keys are untouched |
| `PluginSettings.PluginSettingsStore.GetAsync` | src/Zeus.Plugins.Host/PluginSettingsStore.cs:70-92 | nothing exactly when no row has the key, otherwise the text of the matching row with the highest id |
| `PluginSettings.PluginSettingsStore.SetAsync` | src/Zeus.Plugins.Host/PluginSettingsStore.cs:95-111 | deletes the key's rows and inserts one |
| `PluginSettings.PluginSettingsStore.DeleteAsync` | src/Zeus.Plugins.Host/PluginSettingsStore.cs:114-120 | deletes the key's rows |

## Left out

- Sockets, threads, timers, logging, HTTP endpoints, plugin loading, LiteDB, JSON and UTF-8 decoding: rows, maps, bytes and arbitrary inputs stand for them.
- BandPlanRuns.CacheIsFresh: takes requests one at a time; overlapping ones are `BandPlanOverlaps`.
- BandPlanOverlaps.EveryInterleaving: resolving a plan reads the store at one moment and a save checks and writes at one moment, although each is several calls; a restart while requests are under way is left out.
- ChainOrderRuns.EveryRun: takes requests one at a time for the last broadcast; what two at once can do is `CrossedBroadcasts`, exactly; three or more at once are left out.
- PsAutoAttenuate.RefinesAlwaysPush: each handler and each tick is one atomic step, so an engine swap or a key change in the middle of a push is left out; it says nothing about TwoTone and PureSignal arming, because a fresh engine does not receive the former and arming is neither deferred nor applied on every board; TX monitor, attenuator and other wire forwards to the Protocol 2 client are left out as well.
- PsAutoAttenuateServices.PsAutoAttenuateService.Tick1: the decision to start a dance and the attenuator values are an input; the stall warning is left out.
- TxIqPackets.TxIqStream.ResetTxIq: one atomic step, so a flush between emptying the scratch and draining the queue is left out.
- DspPipelineServices.DspPipelineService.ConnectP2: does not model a library that lacks entry points, where only part of the state is applied.
- DspPipelineServices.DspPipelineService.ApplyStateToNewChannel: the engine's `SetVfoHz`, which no later push touches, is left out.
- CwPlayback.PlayJob: sine, cosine and the cast to float are uninterpreted, and the pacing delays and the transmit release are left out.
- Rings.TxIqRing.Next: the decayed magnitude shown for diagnostics is left out.
- Quantise.Int24ClampMeaning: reals stand for single-precision floats, so the rounding of the product before `Round`, and NaN, are not modelled.
- PsFeedback.PsAccumulator.HandlePs4DdcPacket: telemetry events, the panadapter frame and a sink that throws (which drops its block) are left out.
- TxIqPackets.TxIqStream.SendTxIq: the wall-clock pacing of the sender loop that drains the queue is left out.
- AudioPluginBridges.ActivateUnordered: deactivation without a chain-order service is left out; that path is used only when none is injected.
- AudioPluginBridges.AudioPluginBridge.OnPluginDeactivated: shutdown and disposal of the plugin object and the preview gate are left out.
- BandPlanServices.BandPlanService.GetSegment: `InBand` and the mode-restriction table, settled by one branch each, are left out.
- Meter frames, board tables, calibration constants, filter bits, register rotation and the other single-row preference stores would add only easy members.
