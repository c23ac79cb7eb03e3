# bilbycast-edge in Dafny

A model of the parts of bilbycast-edge whose correctness depends on many steps at once, with proofs
about it. Check it with `dafny verify dfyconfig.toml`.

- **The split store** (`Secrets`, `RunningConfig`, `Persistence`, `ConfigPut`, `NodeRuns`). One
  configuration is kept as `secrets.json` and `config.json`, each replaced by a temporary file and a
  rename, the secrets first. The disk is a map from paths to contents; a save or load is the sequence
  of disk states it passes through, and a crash leaves any one of them. On top are whole lives of a
  node: starts, saves, registrations, rotations, `PUT`s and hand edits, with any write failing.
- **The confidence meter** (`MeterState`, `MeterPublisher`, `Raster`, `Strip`). What the meter task
  computes; its lock-free hand-off to readers as interleaved steps; and the drawing of the strip into
  a pitched byte buffer, in place, down to the byte.
- **Request machines** (`TunnelRequests`, `SessionRegistry`, `Routing`). Handlers are sections, atomic
  under a lock or in a concurrent map, that interleave freely.
- **Controllers and codecs** (`RateLimiter`, `Resampler`, `SenderParams`, `PidMapCodec`, `Decimal`).
  `f64` is a real number and `Instant` a parameter.

Code that changes things in place is a class or an array method here too, and each such method is
proved equal to a function on values. The laws are then proved of those functions.

What the proofs say about the code, where it and its comments or tests differ:

- Tunnel IDs are not checked for uniqueness on load. The split gives a configuration back exactly when
  tunnels of one ID, and uplinks of one interface, hold the same secrets (`SplitThenMerge`). A load
  also rewrites the legacy single relay address, so a configuration still using it changes
  (`SaveThenLoad`).
- `activate_input` says a validation failure leaves the state unchanged. It flips the `active` flags
  in memory first, so a refusal leaves them flipped, and requests that are all accepted lead to one
  (`RefusalKeepsConfig`, `RefusedActivationCanFlip`).
- `unregister_flow` removes sessions by the prefix `flow/`. Flow IDs may contain a slash, so it can
  remove those of another flow (`UnregisterRemoves`, `UnregisterCanHitAnotherFlow`).
- An underrun drops the genlock anchor without starting the settle window again
  (`XrunRecapturesAtOnce`).
- A peak is not always held for 1.5 s. Whatever blocks follow, the hold shows it that long if and only
  if it set the hold, or the hold it did not set runs at least that long, or it reads the floor
  (`PeakIsHeldIff`, `MaskedPeakIsForgotten`).
- Overlapping requests for one tunnel ID can leave the runtime on one definition and the configuration
  on another or on none: two creates that commit in the other order than they started, or a create
  that runs between the two halves of a delete. They agree if and only if the last step to touch the
  runtime under the ID and the last to touch the configuration leave the same (`OverlapAgreesIff`,
  `OverlapCanDisagree`, `DeleteCanDisagree`).
- `create_flow` checks that no other running flow has its inputs, and not its outputs, nor whether it
  names one twice. That is the one way these requests store a configuration that breaks the ID,
  reference and assignment rules the next start applies (`EveryRunKeepsRoutesIff`). Its other rules,
  on shapes, groups, epoch locks, devices and each entity alone, are not covered.

## Model

| member | source | states |
|---|---|---|
| `Secrets.SplitThenMerge` | src/config/secrets.rs:207-345 | extracting, stripping and merging gives the configuration back if and only if same-ID tunnels and same-interface uplinks hold the same secrets |
| `Secrets.UniqueIdsHoldOneKey` | src/config/secrets.rs:239-263 | unique IDs and interfaces are enough for that |
| `Secrets.HasSecretsIffExtracted` | src/config/secrets.rs:728-772 | the migration test holds exactly when something is extracted |
| `Secrets.StripLeavesNoSecret` | src/config/secrets.rs:608-644 | stripping removes every secret and is idempotent |
| `Secrets.MergeKeepsWhatIsHeld` | src/config/secrets.rs:276-345 | merging over a configuration that still holds its secrets changes nothing |
| `Secrets.PushKeepsNodeLocal` | src/config/secrets.rs:673-683 | whatever a manager push names, the node keeps its API auth, TLS material and setup token |
| `Secrets.TunnelEntryOrigin` | src/config/secrets.rs:239-251 | the entry kept for an ID is that of some tunnel holding a secret; no entry means none held one |
| `Secrets.LastTunnelWins` | src/config/secrets.rs:239-251 | of the tunnels of one ID that hold secrets, the last one's are kept |
| `Secrets.LastUplinkWins` | src/config/secrets.rs:252-263 | the same of uplinks of one interface |
| `Secrets.PushIsOtherwiseTaken` | src/config/secrets.rs:673-683 | everything else a manager push gives, keys and passwords included, is taken as given |
| `RunningConfig.Config.StripSecrets` | src/config/secrets.rs:608-644 | the in-place strip leaves exactly the stripped value |
| `RunningConfig.Config.MaskSecrets` | src/config/secrets.rs:685-720 | masking leaves what stripping leaves of the modelled fields |
| `RunningConfig.Config.MergeFrom` | src/config/secrets.rs:276-345 | the in-place merge, with its loops, leaves exactly the merged value |
| `RunningConfig.ExtractFrom` | src/config/secrets.rs:207-268 | the extraction loops collect exactly the extracted secrets, the last tunnel of an ID winning |
| `RunningConfig.FindSecret` | src/config/secrets.rs:728-772 | the search answers yes exactly when the configuration has a secret |
| `Persistence.Disk.ReplaceFile` | src/config/persistence.rs:60-75 | the disk passes through exactly the states of a write to a temporary and a rename, or of their failure; no temporary is left either way |
| `Persistence.Disk.SaveConfigSplit` | src/config/persistence.rs:201-243 | secrets before configuration, and a failed secrets save stops there, for every failure |
| `Persistence.Disk.SaveSplitSecrets` | src/config/persistence.rs:221-235 | an existing secrets file is replaced even when nothing is left to hold |
| `Persistence.Disk.LoadConfigSplit` | src/config/persistence.rs:88-155 | the load's result and its migration writes, for every content of the disk and every failure |
| `Persistence.ReplaceTouchesOneFile` | src/config/persistence.rs:60-75 | every intermediate state holds the old or the new file whole, and other files untouched |
| `Persistence.SaveStages` | src/config/persistence.rs:201-243 | wherever a save is cut, the disk is at one of three stages: old pair, new secrets, new pair |
| `Persistence.SaveThenLoad` | src/config/persistence.rs:88-155 | from any disk, load after a completed save returns what was saved, if and only if no tunnel uses the legacy relay field and same-ID secrets agree |
| `Persistence.CutLoadsOnePair` | src/config/persistence.rs:88-124 | a cut before the secrets rename loads the old credentials, any later one the new; between the renames exactly when the secret carries its node ID or no stale ID is left |
| `Persistence.MigrationIsCrashSafe` | src/config/persistence.rs:135-151 | cut at any step, the next load returns what an uninterrupted migration would, if and only if same-ID secrets agree |
| `Persistence.NormalizeKeepsRelays` | src/tunnel/config.rs:154-185 | reading the legacy address into the list changes no relay a tunnel dials, and nothing else of it |
| `Persistence.LoadAnswers` | src/config/persistence.rs:14-39 | a load fails exactly when one of the two files does not parse; no files load the default, and blank secrets as none |
| `Persistence.EmptySave` | src/config/persistence.rs:221-235 | with no secrets left a save makes no secrets file, and empties one that exists |
| `ConfigPut.ForgetNulledIn` | src/config/secrets.rs:423-477 | the in-place forgetting removes exactly the secrets the body names null |
| `ConfigPut.ValidateChangedTunnels` | src/api/flows.rs:878-892 | accepts exactly when every tunnel not already running validates |
| `ConfigPut.ReplaceConfig` | src/api/flows.rs:801-864 | a refused body leaves the configuration, an accepted one becomes the resolved one |
| `ConfigPut.PutServer` | src/api/flows.rs:801-837 | TLS and auth end as named, removed if null, kept if absent; the setup token always stays |
| `ConfigPut.PutBlocks` | src/config/secrets.rs:423-477 | the same for the registration and NMOS tokens within a kept block; a dropped block takes its secrets |
| `ConfigPut.PutCredentials` | src/config/secrets.rs:276-292 | the same for the node secret, except that a null node ID removes it; a kept secret brings its own ID over the body's |
| `ConfigPut.PutTunnelKey` | src/config/secrets.rs:423-477 | the same for each of the five keys of each tunnel, with several tunnels per ID allowed |
| `ConfigPut.PutUplinkPassword` | src/config/secrets.rs:423-477 | the same for each uplink's password |
| `ConfigPut.PutBackMaskedBody` | src/api/flows.rs:801-837 | putting back the masked GET body is accepted and changes nothing, if and only if it validates and same-ID secrets agree |
| `ConfigPut.PutAcceptedIff` | src/api/flows.rs:806-831 | accepted exactly when the body leaves the setup token out, the result validates, and each tunnel is one running already or validates and, if direct, has its key |
| `ConfigPut.PutTakesBody` | src/api/flows.rs:814-837 | everything of an accepted body that is not a secret takes effect |
| `ConfigPut.PutTakesTunnel` | src/api/flows.rs:814-837 | so does everything of each of its tunnels, in order |
| `ConfigPut.PutTakesUplink` | src/api/flows.rs:814-837 | and of each of its uplinks |
| `ConfigPut.PutKeyOfOneTunnel` | src/config/secrets.rs:423-477 | where an ID is unique on both sides, a tunnel's key is the body's if named, gone if null, the running tunnel's if left out |
| `NodeRuns.SecretKeepsItsNodeId` | src/config/secrets.rs:214-222 | over every run, with any failure and any cut, a node secret running or loaded is held with the node ID it was issued for |
| `NodeRuns.RegistrationClosesWizard` | src/config/secrets.rs:393-402 | once a registration's secrets have landed the next load has the wizard closed, except exactly when the file left behind has it open and already holds that ID |
| `NodeRuns.WizardStays` | src/config/persistence.rs:102-124 | from then on the wizard stays as it is through every start, save, failure and cut, and through registrations under any ID the file on disk does not hold with the wizard open |
| `NodeRuns.PutKeepsPair` | src/config/secrets.rs:423-477 | a `PUT` that names the manager, leaves its secret out and does not null its ID keeps the pair |
| `NodeRuns.OperatorReopensWizard` | src/config/persistence.rs:108-124 | an edit that opens the wizard in a file holding the node ID stands |
| `NodeRuns.RegistrationTakesPair` | src/manager/client.rs:1789-1832 | whatever fails to be written, a registration leaves the given pair running, no token, the wizard closed, and all else as it was |
| `NodeRuns.RotationTakesPair` | src/manager/client.rs:1853-1884 | a rotation whose secrets were written leaves the new pair running and touches nothing else |
| `NodeRuns.ClosedWizardHasNoToken` | src/config/persistence.rs:108-124 | a load that closes the wizard of an older file drops its token |
| `Decimal.ReadU16` | src/config/pid_map_serde.rs:42-46 | the reading loop accepts and evaluates exactly the texts that are a u16, one leading plus allowed |
| `Decimal.ParseOfDec` | src/config/pid_map_serde.rs:19-52 | reading inverts printing for every u16 |
| `Decimal.DecIsInjective` | src/config/pid_map_serde.rs:19-30 | no two numbers print alike |
| `Decimal.ParsesExactly` | src/config/pid_map_serde.rs:42-46 | a text reads as a number exactly when it is its digits after zeros and at most one plus, and the number is below 65536 |
| `PidMapCodec.Deserialize` | src/config/pid_map_serde.rs:33-52 | the loop fails exactly when some key does not read, else collects every entry, the last of a PID winning |
| `PidMapCodec.RoundTrip` | src/config/pid_map_serde.rs:19-52 | every u16 map comes back from its string-keyed form, in whatever order the keys come |
| `PidMapCodec.LosesExactlyCollisions` | src/config/pid_map_serde.rs:38-52 | a hand-written map loses an entry if and only if two keys read as one PID |
| `SenderParams.ApplySenderParams` | src/api/nmos_is05.rs:80-135 | the field loop leaves the rewritten output and reports a change exactly when there is one |
| `SenderParams.RewriteKey` | src/api/nmos_is05.rs:92-130 | one address field: rewritten if it holds text, and reported exactly if that changed it |
| `SenderParams.SplitOfJoin` | src/api/nmos_is05.rs:175-182 | splitting inverts printing `host:port` for any host, colons included |
| `SenderParams.AppliedCarriesParams` | src/api/nmos_is05.rs:80-135 | addresses carry the given host and port and keep the part not given; other fields stay |
| `SenderParams.ApplyingTwiceChangesNothing` | src/api/nmos_is05.rs:80-135 | the same parameters a second time change nothing |
| `SenderParams.EmptyPatchKeepsCanonical` | src/api/nmos_is05.rs:175-182 | with nothing given an address is kept if and only if it is a host, a colon and a printed u16 |
| `SenderParams.AppliedByKey` | src/api/nmos_is05.rs:80-135 | which fields take the destination and which the source, and that no other changes |
| `SenderParams.SplitOfAny` | src/api/nmos_is05.rs:175-182 | the port is what follows the last colon if that reads as a u16, else 0 |
| `RateLimiter.TokenEndpointRateLimiter.Check` | src/api/auth.rs:167-190 | the bucket map and verdict after one check |
| `RateLimiter.RefillAndCharge` | src/api/auth.rs:178-189 | one bucket refilled, capped and charged |
| `RateLimiter.EvictionIsInvisible` | src/api/auth.rs:174-190 | on every trace each address gets the verdicts of one bucket of its own that is never evicted |
| `RateLimiter.AdmittedWasRefilled` | src/api/auth.rs:177-190 | tokens are conserved: admitted requests were in the bucket or refilled since |
| `RateLimiter.AtMostTheRate` | src/api/auth.rs:167-190 | in any window of T seconds of any trace an address is admitted at most max + T max / 60 times |
| `RateLimiter.PatientRequestIsAdmitted` | src/api/auth.rs:177-190 | waiting 60 / max seconds is enough to be admitted |
| `RateLimiter.NothingIsLost` | src/api/auth.rs:178-189 | while the cap is not reached, admitted requests and the tokens left are exactly the tokens there were and the refill |
| `RateLimiter.BurstIsAdmitted` | src/api/auth.rs:167-190 | on any trace, of the requests of a new address at one instant exactly the first max are admitted |
| `RateLimiter.CheckForgetsIdle` | src/api/auth.rs:172-175 | a check forgets exactly the other addresses not seen for 300 s and leaves the rest alone |
| `TunnelRequests.RegisterAll` | src/config/validation.rs:9274-9357 | the registration loops accept exactly the conflict-free lists of binds |
| `TunnelRequests.ConflictIsClash` | src/config/validation.rs:9174-9178 | two binds conflict exactly when they have one port and protocol and some address both receive on |
| `TunnelRequests.BindsAreFreeIff` | src/config/validation.rs:9274-9357 | the list passes exactly when the server, each tunnel, each input and each output share no port with each other or themselves |
| `TunnelRequests.FitsIff` | src/api/tunnels.rs:52-68 | a tunnel fits exactly when it clashes neither with itself, the server, a tunnel of another ID, an input nor an output |
| `TunnelRequests.AddsInputIff` | src/api/inputs.rs:55-99 | an input is added, last, exactly when its ID is free and it clashes with nothing |
| `TunnelRequests.AddsOutputIff` | src/api/outputs.rs:55-95 | the same of an output |
| `TunnelRequests.TunnelService.PreCheck` | src/api/tunnels.rs:52-68 | the first step of a create: accepted exactly when the upsert would be conflict-free, with a snapshot of what may be replaced |
| `TunnelRequests.TunnelService.CreateRuntime` | src/tunnel/manager.rs:123-242 | the step that starts the tunnel; one that fails has stopped what it was to replace |
| `TunnelRequests.TunnelService.CommitCreate` | src/api/tunnels.rs:72-107 | the authoritative check and the upsert as one step, won exactly when still conflict-free |
| `TunnelRequests.TunnelService.TearDownLoser` | src/api/tunnels.rs:81-88 | the step that stops a losing create's tunnel |
| `TunnelRequests.TunnelService.RestorePrevious` | src/api/tunnels.rs:89-98 | the step that starts again what it replaced |
| `TunnelRequests.TunnelService.DestroyRuntime` | src/api/tunnels.rs:145-154 | the first step of a delete, before the configuration is locked |
| `TunnelRequests.TunnelService.CommitDelete` | src/api/tunnels.rs:155-157 | its second step, which removes every tunnel of the ID |
| `TunnelRequests.EveryInterleavingKeepsBootable` | src/api/tunnels.rs:44-172 | in every interleaving with any failure, tunnel IDs stay unique, and the server, the tunnels, the inputs and the outputs bind no port twice |
| `TunnelRequests.RuntimeMatchesConfig` | src/api/tunnels.rs:44-125 | with no same-ID overlap and runtime calls succeeding, whenever no request for a tunnel is in flight the runtime runs what the configuration holds |
| `TunnelRequests.LosingCreateRestores` | src/api/tunnels.rs:78-104 | a losing create leaves the runtime as found if and only if it was running what the configuration holds |
| `TunnelRequests.OverlapAgreesIff` | src/api/tunnels.rs:44-172 | in any run, with overlaps, failed starts, rollbacks, deletes and evictions: runtime and configuration agree on an ID if and only if the last step to touch each leaves the same there |
| `TunnelRequests.StepLeaves` | src/api/tunnels.rs:44-172 | what every kind of step leaves running and stored under an ID |
| `TunnelRequests.LateCommitDisagrees` | src/api/tunnels.rs:70-107 | of two creates of one ID in flight, if the last to start is not the last to commit, they disagree |
| `TunnelRequests.LateDeleteDisagrees` | src/api/tunnels.rs:145-157 | a create that starts and commits between the halves of a delete runs and is stored nowhere |
| `TunnelRequests.OverlapCanDisagree` | src/api/tunnels.rs:44-125 | a whole run of two same-ID creates after which they disagree |
| `TunnelRequests.DeleteCanDisagree` | src/api/tunnels.rs:44-172 | a whole run of a delete and a create after which they disagree, though the last definition started is the last one stored |
| `SessionRegistry.WebrtcSessionRegistry.TrackWhep` | src/api/webrtc.rs:350-366 | the entry and its reaper |
| `SessionRegistry.WebrtcSessionRegistry.RemoveSession` | src/api/webrtc.rs:372-378 | removes the entry, then cancels its token; nothing for an unknown session |
| `SessionRegistry.WebrtcSessionRegistry.Unregister` | src/api/webrtc.rs:279-287 | a session stays if and only if its flow is neither the one that stopped nor under it |
| `SessionRegistry.SettledHoldsNoEndedViewer` | src/api/webrtc.rs:336-378 | in every interleaving a WHEP entry has its reaper pending, so once the reapers have run none has a cancelled token |
| `SessionRegistry.ReaperTakesItsOwn` | src/api/webrtc.rs:355-366 | a reaper only ever takes the entry of its own ended viewer |
| `SessionRegistry.LastPartOfKey` | src/api/webrtc.rs:350 | a key determines its session ID, whatever slashes the flow ID has |
| `SessionRegistry.UnregisterRemoves` | src/api/webrtc.rs:279-287 | a flow's stop removes a session if and only if the session's flow ID equals it or continues it after a slash |
| `SessionRegistry.UnregisterCanHitAnotherFlow` | src/api/webrtc.rs:285-286 | a run in which it removes another flow's session |
| `SessionRegistry.EndedPublisherStays` | src/api/webrtc.rs:309-333 | a WHIP entry whose publisher has gone stays, however settled the registry |
| `SessionRegistry.OfferIsTracked` | src/api/webrtc.rs:309-366 | an offer's session is tracked under its flow and ID with its own token, and nothing else moves |
| `SessionRegistry.DeleteCancels` | src/api/webrtc.rs:372-378 | a DELETE takes exactly its own session and leaves its token cancelled, so that its reaper can run |
| `SessionRegistry.EndedViewerIsReaped` | src/api/webrtc.rs:355-366 | a viewer that ends has its token cancelled, and its reaper takes its entry |
| `Routing.RoutingConfig.CreateInputDefinition` | src/api/inputs.rs:55-99 | new state and answer of input creation, in the order of its checks |
| `Routing.RoutingConfig.UpdateInputDefinition` | src/api/inputs.rs:108-181 | the edit, or its undoing when the flow does not restart on it |
| `Routing.RoutingConfig.DeleteInputDefinition` | src/api/inputs.rs:186-213 | refused when a flow uses the input |
| `Routing.RoutingConfig.CreateOutputConfig` | src/api/outputs.rs:55-95 | new state and answer of output creation |
| `Routing.RoutingConfig.UpdateOutputConfig` | src/api/outputs.rs:102-149 | the edit, with the stored active flag |
| `Routing.RoutingConfig.DeleteOutputConfig` | src/api/outputs.rs:155-182 | refused when a flow uses the output |
| `Routing.RoutingConfig.AddFlow` | src/api/flows.rs:136-178 | refused for an input a running flow has, a known ID or a dangling reference |
| `Routing.RoutingConfig.RemoveFlow` | src/api/flows.rs:254-277 | removes the first flow of the ID |
| `Routing.RoutingConfig.AssignOutput` | src/api/flows.rs:542-598 | refused when this or another flow has the output |
| `Routing.RoutingConfig.UnassignOutput` | src/api/flows.rs:662-711 | the write section: a runtime refusal first, then removes one reference |
| `Routing.RoutingConfig.SwitchInput` | src/api/flows.rs:988-1032 | the flag loop, then the validator's answer |
| `Routing.ResolveFlow` | src/config/models.rs:431-466 | refuses exactly a flow with a dangling reference |
| `Routing.EveryRunKeepsSound` | src/api/flows.rs:136-178 | over every run of all these requests IDs stay distinct across inputs and outputs, flow IDs stay distinct and every reference resolves |
| `Routing.InputsAfterSuccess` | src/api/inputs.rs:55-213 | what is found under every ID among the inputs after a successful request of any kind |
| `Routing.OutputsAfterSuccess` | src/api/outputs.rs:55-182 | the same among the outputs |
| `Routing.FlowsAfterSuccess` | src/api/flows.rs:136-711 | the same among the flows: created, removed, with one output more or one reference less, or as before |
| `Routing.InputRequestSucceedsIff` | src/api/inputs.rs:55-213 | exactly when a request about an input succeeds |
| `Routing.OutputRequestSucceedsIff` | src/api/outputs.rs:55-182 | the same of an output |
| `Routing.FlowRequestSucceedsIff` | src/api/flows.rs:136-711 | the same of a flow and its outputs |
| `Routing.ActivationSucceedsIff` | src/api/flows.rs:988-1032 | an activation succeeds exactly when the flow has the input and the validator accepts the configuration as it stands |
| `Routing.NotFoundMeans` | src/api/flows.rs:254-277 | a 404 means that what the request names does not exist |
| `Routing.ConflictMeans` | src/api/flows.rs:542-598 | a 409 means that an ID is taken, something is in use, or the runtime would not follow |
| `Routing.RollbackAnswers` | src/api/inputs.rs:144-173 | an edit the flow does not come up on is undone: 409 if it runs on the old definition again, 500 if it is down |
| `Routing.ActivationIsExclusive` | src/api/flows.rs:1007-1013 | members of the flow are active exactly if requested; everything else is unchanged |
| `Routing.ActivationActivatesOne` | src/api/flows.rs:994-1013 | exactly one input of the flow is active afterwards |
| `Routing.OnlyActivationChangesInputFlags` | src/api/inputs.rs:137-141 | no request but an activation changes the active flag of an input that stays |
| `Routing.NothingChangesOutputFlags` | src/api/outputs.rs:131-133 | none of these requests changes the active flag of an output that stays |
| `Routing.RefusalKeepsConfig` | src/api/flows.rs:1007-1017 | a 400, 404 or 409 leaves the configuration as it was, except exactly an activation that names a member, would flip a flag, and finds a configuration the validator refuses |
| `Routing.RefusedActivationCanFlip` | src/api/flows.rs:1007-1017 | from the empty configuration, creations that are all accepted lead to an activation that is refused with its flags flipped |
| `Routing.ValidateConfig` | src/config/validation.rs:203-312 | the loops accept exactly the configurations with distinct IDs, resolving references, no reference twice in a flow and no input or output in two enabled flows |
| `Routing.EveryRunKeepsRoutesIff` | src/config/validation.rs:203-312 | over every run the configuration after each request keeps the ID, reference and assignment rules the next start applies, if and only if no request is an accepted `create_flow` that doubles a reference or an enabled flow's output |
| `Routing.DoublingIsAccepted` | src/api/flows.rs:136-178 | six creations the handlers all accept that put one output in two enabled flows |
| `Routing.IsHeldElsewhere` | src/config/validation.rs:4595-4611 | answers yes exactly when another enabled or running flow has one of the inputs |
| `Routing.RoutingConfig.CheckAssigned` | src/api/flows.rs:629-641 | the read section of an unassignment, which changes nothing |
| `Routing.MemoryMatchesDisk` | src/api/inputs.rs:92-95 | from the last success of a run on, memory and disk are the same unless a request was answered 500 or an activation was refused after its flip |
| `Routing.FlipLeavesDiskBehind` | src/api/flows.rs:1007-1020 | after such a refusal the disk keeps the old flags and memory the new |
| `Routing.FailedSaveLeavesDiskBehind` | src/api/inputs.rs:91-95 | an edit whose save fails stays in memory, and the disk keeps what it had |
| `Resampler.AudioBackend.ComputeRatio` | src/display/audio.rs:364-422 | the whole new state and the ratio of one call |
| `Resampler.AudioBackend.WriteBlock` | src/display/audio.rs:198-341 | the whole new state of one write, for every answer of the device |
| `Resampler.AudioBackend.OpenPcm` | src/display/audio.rs:448-465 | the state an open seeds: a ring at its target keeps the ratio flat, and no write takes an anchor yet |
| `Resampler.AudioBackend.ResetBackend` | src/display/audio.rs:179-190 | the state after a reset: whatever the next block is, it reopens the device |
| `Resampler.WriteGlides` | src/display/audio.rs:416-421 | one write moves the offset at most 3 ppm, from zero after a reopen |
| `Resampler.RatioStaysBounded` | src/display/audio.rs:416-421 | over every run the offset stays within 8000 ppm |
| `Resampler.RunReachesTarget` | src/display/audio.rs:416-421 | writes that all ask for one offset have it after n of them if and only if 3 n covers the distance |
| `Resampler.FillStaysInHull` | src/display/audio.rs:372-374 | over every run the smoothed fill stays between the least and greatest seed and measurement |
| `Resampler.AnchorWaitsToSettle` | src/display/audio.rs:386-412 | over every run an anchor exists only after more than 24 such writes, and before that no write can take one |
| `Resampler.SettleCountsDown` | src/display/audio.rs:386-412 | over every run the settle count is 24 less the writes with a master since the last open or PTS jump, and at zero from then on |
| `Resampler.XrunRecapturesAtOnce` | src/display/audio.rs:309-325 | after an underrun the next locked write captures a new anchor at once |
| `Resampler.FillMovesAFiftieth` | src/display/audio.rs:372-374 | the smoothed fill moves a fiftieth of the way to the measured one |
| `Resampler.FillConverges` | src/display/audio.rs:372-374 | over any run of writes at one fill the distance to it shrinks by exactly 0.98 a write |
| `Resampler.HoldsFill` | src/display/audio.rs:375-377 | without a lock the offset steps towards 3000 ppm times the share of the target the ring is short by |
| `Resampler.FollowsMaster` | src/display/audio.rs:392-406 | locked, it steps towards 20 ppm a millisecond playout gained on the master since the anchor, and 900 times that share |
| `Resampler.SteersTheRightWay` | src/display/audio.rs:364-422 | a ring too full is played out faster and one too empty refilled; playout ahead of the master is stretched and playout behind it caught up |
| `Resampler.JumpRestartsSettling` | src/display/audio.rs:271-275 | a PTS more than half a second off drops the anchor and restarts the settle window, a nearer one neither |
| `Resampler.OpenHoldsHalf` | src/display/audio.rs:448-465 | an open holds the ring at half its size, at least one frame |
| `Resampler.FailedOpenChangesNothing` | src/display/audio.rs:218-221 | a device that does not open leaves everything as it was |
| `MeterState.Measure` | src/display/audio_bars.rs:317-333 | the sample loop finds the peak and the root mean square |
| `MeterState.PeakIsMaximum` | src/display/audio_bars.rs:321-329 | the peak bounds every sample and is the magnitude of the one it returns |
| `MeterState.SumOfSquaresConcat` | src/display/audio_bars.rs:322-328 | the sum over a block cut in two is the sum of the parts |
| `MeterState.SumOfOneSquare` | src/display/audio_bars.rs:322-328 | one sample sums to its square, none to nothing |
| `MeterState.SilenceAddsNothing` | src/display/audio_bars.rs:322-328 | silent samples add nothing |
| `MeterState.RmsOfMeanSquare` | src/display/audio_bars.rs:330-331 | a block reads the level of a flat block with the same mean square |
| `MeterState.FlatBlockReadsItsPeak` | src/display/audio_bars.rs:317-333 | a block of one magnitude has its root mean square at its peak |
| `MeterState.DbfsIsExact` | src/display/audio_bars.rs:419-431 | a level in range reads its decibels, above full scale 0, below the floor or silent -120 |
| `MeterState.FullScaleReadsZero` | src/display/audio_bars.rs:419-431 | full scale reads 0 dBFS and a tenth of it -20 |
| `MeterState.RmsAtMostPeak` | src/display/audio_bars.rs:317-333 | -120 <= rms <= peak <= 0 in dBFS, for every block |
| `MeterState.InsertSorts` | src/display/audio_bars.rs:299-315 | a new PID lands in order, among the same entries |
| `MeterState.UpdateIsLocal` | src/display/audio_bars.rs:268-341 | an update changes its own PID's entry only and leaves there what the block measures |
| `MeterState.RunKeepsWellFormed` | src/display/audio_bars.rs:268-399 | after any run: strictly sorted, labels composed, levels ordered and in range |
| `MeterState.HoldBoundsPeaks` | src/display/audio_bars.rs:335-338 | after any run the hold is the peak that last set it and bounds every peak since |
| `MeterState.PeakIsHeldIff` | src/display/audio_bars.rs:335-338 | exactly when a peak is held: whatever blocks follow within 1.5 s the hold reads it or a greater one, if and only if it set the hold, or the standing hold runs that long, or it is the floor |
| `MeterState.MaskedPeakIsForgotten` | src/display/audio_bars.rs:335-338 | otherwise one empty block inside the 1.5 s forgets it |
| `MeterState.HexReadsBack` | src/display/audio_bars.rs:407-417 | the PID of a label is hexadecimal text that reads back |
| `MeterState.LabelReads` | src/display/audio_bars.rs:407-417 | the whole text of a label, for every channel count |
| `MeterState.LabelTellsPid` | src/display/audio_bars.rs:407-417 | no two PIDs share a label, whatever their codecs and channels |
| `MeterState.SilenceIsExact` | src/display/audio_bars.rs:351-375 | silencing puts exactly the entries without a block for that long at the floor and keeps all else |
| `MeterState.RemoveIsExact` | src/display/audio_bars.rs:379-399 | removing takes exactly the entry of the PID, clearing takes all |
| `MeterState.GenerationMovesIff` | src/display/audio_bars.rs:268-399 | the generation moves exactly when a block was fed or an entry changed |
| `MeterPublisher.ReclaimRefinesCloneAndStore` | src/display/audio_bars.rs:222-258 | every interleaving of publish steps and readers shows what storing copies would |
| `MeterPublisher.ViewNeverChanges` | src/display/audio_bars.rs:83-139 | what a reader holds never changes while it holds it |
| `MeterPublisher.OverwritesNobody` | src/display/audio_bars.rs:222-258 | a reclaimed buffer is held by nobody; at rest the shared snapshot is the working one |
| `MeterPublisher.ViewsWerePublished` | src/display/audio_bars.rs:141-150 | in every run the buffer a reader holds reads the first snapshot or the working one at some swap, never one half overwritten |
| `MeterPublisher.PublishReusesIdleBuffer` | src/display/audio_bars.rs:222-258 | the buffer last swapped out is reused exactly when no reader holds it |
| `MeterPublisher.Publisher.Publish` | src/display/audio_bars.rs:222-258 | one publish, with the spare reclaimed or a copy made |
| `MeterPublisher.Publisher.UpdateLevels` | src/display/audio_bars.rs:268-341 | the working snapshot steps, is published, and no held buffer changes |
| `MeterPublisher.Publisher.SilenceStaleLevels` | src/display/audio_bars.rs:351-375 | the same, published only if some level changed |
| `MeterPublisher.Publisher.RemovePid` | src/display/audio_bars.rs:379-386 | the same, published only if the PID was there |
| `MeterPublisher.Publisher.ClearAllPids` | src/display/audio_bars.rs:392-399 | the same, published only if there was a PID |
| `Raster.FillRow` | src/display/audio_bars.rs:1009-1031 | which bytes a row fill writes, with what |
| `Raster.FillRect` | src/display/audio_bars.rs:995-1007 | the buffer afterwards, clipped and skipping rows that do not fit |
| `Raster.FillRectArgb` | src/display/audio_bars.rs:826-851 | the same with an alpha, stopping at the first row that does not fit |
| `Raster.DimmedHalvesLanes` | src/display/audio_bars.rs:966-978 | the word-wide blend halves each colour lane and sets alpha to 0xFF |
| `Raster.BlendStripBackground` | src/display/audio_bars.rs:958-987 | the buffer afterwards, byte by byte |
| `Raster.DrawText` | src/display/audio_bars.rs:1094-1126 | the buffer afterwards, glyph by glyph until the right edge |
| `Raster.TextStays` | src/display/audio_bars.rs:1094-1126 | text stays in its 12 pixels a character and 14 rows, and left of the edge |
| `Raster.TextPixel` | src/display/audio_bars.rs:1094-1126 | a pixel of a character is painted if and only if its glyph cell is lit, and no other character touches it |
| `Raster.DrawChannelBar` | src/display/audio_bars.rs:873-946 | the buffer after slot, bands and tick |
| `Raster.FillsByRow` | src/display/audio_bars.rs:903-935 | the three band fills share no row: each row of the level has its own band's colour |
| `Raster.BarPixel` | src/display/audio_bars.rs:873-946 | every pixel of a bar: grey frame, tick, or the band of its row |
| `Raster.BarStaysVisible` | src/display/audio_bars.rs:885-887 | no bar writes outside the visible surface |
| `Raster.PaintedPixel` | src/display/audio_bars.rs:995-1031 | a fill gives exactly the pixels of the clipped rectangle their blue, green, red and alpha |
| `Raster.BlendedPixel` | src/display/audio_bars.rs:958-987 | the background halves exactly the pixels of its rows and makes them opaque |
| `Raster.FracIsLinear` | src/display/audio_bars.rs:951-954 | a bar is empty at -60 dBFS, full at 0 and linear between |
| `Raster.LitRows` | src/display/audio_bars.rs:900-901 | a share of a bar lights as many rows as fit in it, from the bottom |
| `Raster.BandSplits` | src/display/audio_bars.rs:917-918 | red starts 19/20 of the way up and yellow 7/10, at every height |
| `Raster.TickIsTwoRows` | src/display/audio_bars.rs:937-945 | the tick is the two topmost rows the held peak lights, or the one there is |
| `Raster.BandShows` | src/display/audio_bars.rs:903-935 | the colour of every row of a level, by its height above the bottom |
| `Raster.FrameAndTick` | src/display/audio_bars.rs:888-945 | the frame is grey and the tick white |
| `Strip.LeftEdgeAgrees` | src/display/audio_bars.rs:683-701 | the edge the header is given is where the blocks start, or the width if there are none |
| `Strip.TruncatedIsLongestFit` | src/display/audio_bars.rs:706-725 | the truncation is a prefix, and a prefix fits exactly when it is no longer |
| `Strip.BlocksFitIff` | src/display/audio_bars.rs:486-503 | the blocks fit between the side margins if and only if blocks of 80 pixels do, and are then centred to the pixel |
| `Strip.BarsFitBlock` | src/display/audio_bars.rs:519-537 | every bar of a block lies inside it |
| `Strip.LayoutDrawsIff` | src/display/audio_bars.rs:486-493 | blocks are drawn exactly when there is a PID and more room than margins and gaps take |
| `Strip.StripIsNinePercent` | src/display/audio_bars.rs:466-467 | the strip is 9 % of the height, rounded down, within 80 to 140 pixels |
| `Strip.OverlayMatchesBlit` | src/display/audio_bars.rs:553-558 | an overlay of the height computed for a panel has its bars where the blit has them |
| `Strip.BlocksAreWidest` | src/display/audio_bars.rs:491-495 | blocks are as wide as fit, within 80 to 200 pixels |
| `Strip.BarsAreWidest` | src/display/audio_bars.rs:519-532 | bars are drawn exactly when a pixel each fits, and are as wide as fit, up to 36 |
| `Strip.BarGeometry` | src/display/audio_bars.rs:498-537 | where every bar stands: 3 pixels apart, centred in its block, from row 20 to the fourth from the bottom |
| `Strip.LabelIsCentred` | src/display/audio_bars.rs:513-515 | a label that fits its block is centred in it, to the pixel |
| `Strip.TickFollowsHold` | src/display/audio_bars.rs:893-899 | the tick stands at the held peak while it is held and at the level after |
| `Strip.EveryBarIsShown` | src/display/audio_bars.rs:462-544 | for every snapshot, each pixel of every bar that fits ends with the colour its channel's level and held peak call for, whatever is drawn around it |
| `Strip.EveryOverlayBarIsShown` | src/display/audio_bars.rs:578-653 | the same for the overlay |
| `Strip.EveryLabelIsShown` | src/display/audio_bars.rs:462-544 | for every snapshot, each lit cell of every label that fits ends in the label colour |
| `Strip.HeaderIsShown` | src/display/audio_bars.rs:727-759 | the header is drawn exactly when there is room, and each character that fits shows its glyph |
| `Strip.VeilPixel` | src/display/audio_bars.rs:591-595 | the overlay background is half-transparent black |
| `Strip.NothingToShow` | src/display/audio_bars.rs:462-481 | buffers too small are left alone, and no PIDs show the background only |
| `Strip.Rasterise` | src/display/audio_bars.rs:462-544 | the buffer after background and meters |
| `Strip.RasteriseOverlay` | src/display/audio_bars.rs:578-653 | the overlay buffer after background and meters |
| `Strip.RasteriseHeader` | src/display/audio_bars.rs:767-782 | the buffer after the header |
| `Strip.RasteriseHeaderOverlay` | src/display/audio_bars.rs:788-801 | the overlay buffer after the header |
| `Strip.RasteriseStaysInStrip` | src/display/audio_bars.rs:462-544 | for every snapshot and buffer size, no byte above the strip, below the picture or in the padding changes; left of the blocks there is only background |
| `Strip.OverlayStaysVisible` | src/display/audio_bars.rs:578-653 | the same for the overlay |
| `Strip.HeaderStaysInStrip` | src/display/audio_bars.rs:767-782 | the same frame for the header |
| `Strip.HeaderKeepsGap` | src/display/audio_bars.rs:727-759 | every header byte lies in the label row, at least 12 pixels before the edge |
| `Strip.HeaderNeverOverlapsBlocks` | src/display/audio_bars.rs:683-782 | every byte the header changes is more than 12 pixels left of every byte a label or bar changed |
| `Strip.OverlayHeaderNeverOverlapsBlocks` | src/display/audio_bars.rs:683-801 | the same for the overlay and its header |
| `Strip.HeaderOverlayStaysVisible` | src/display/audio_bars.rs:788-801 | the overlay header changes no byte below the rows or in the padding |

## Left out

- Legacy secrets inside `flows` and their migration in `merge_into`: it depends on hash-map order.
- Encryption, JSON text and the machine seed's derivation: files hold values; a seed or decryption failure is a failure of the load.
- Configuration fields that are neither secrets nor used by these rules are one `settings` value.
- The repairs and validators a `PUT` runs are predicates; so are the validators of the other handlers.
- `f32` and `f64` rounding: arithmetic is over real numbers, and the square root and the decibel scale are parameters with the properties the code relies on.
- `u32` overflow of pixel coordinates and the `u32` truncation of a PID count.
- `align_to_mut` heads and tails: rows are 32-bit aligned. The 5 by 7 glyph bitmaps and ASCII upper-casing are a font parameter.
- The resampler's samples, the ALSA calls and the published playout clock: their answers are inputs of a write. Muted and empty blocks, which return at once, are not events.
- `update_flow`, which stores an entry before resolving it, the output active toggle and IS-05 activation as configuration steps.
- The WHIP and WHEP channel and bearer-token maps of the session registry, and the SDP exchange.
- The flow engine: restarts and runtime removals only answer yes or no.
- Server middleware, NMOS IS-04 and IS-08, statistics, WebSocket and start-up code: they would only add easy members.
- RunningConfig.Config.MergeFrom: does not merge the legacy `flows` secrets, as said above.
- Persistence.Disk.LoadConfigSplit: does not re-save both files for legacy `flows` secrets, as said above.
- ConfigPut.ReplaceConfig: does not repair Hitless slots and AAC channel counts in the body, nor restart the flows it changed; the repaired body is the one modelled.
- Routing.ValidateConfig: does not run the validator each input, output and flow has of its own in the same loops, nor the later rules on shapes, upstream audio, assemblies, groups, epoch locks and devices.
- Routing.EveryRunKeepsRoutesIff: says nothing of those rules; a request the handlers accept can also break one of them, such as a flow over inputs of two shapes, and the next start then refuses the configuration.
- SessionRegistry.WebrtcSessionRegistry.TrackWhep: insert and spawn happen with nothing between them; the interleavings between them are in the state machine.
- TunnelRequests.TunnelService.CreateRuntime: starting a tunnel is one step, with failure as an input.
