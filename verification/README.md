# A model of the Octo channel plugin

Through this plugin bots of the Octo messenger talk with people on behalf of an agent: packets come
in over one socket, replies and cards go out over HTTP, and what must outlast the process lies in
small JSON files. Most of it forwards calls. Five parts do more: each keeps a promise that no single
function makes good, because it rests on all of them together and has to hold when a write fails, the
process dies or tasks interleave. These five are modelled here, and the promises are proved.

1. **Wire framing** (`Bytes`, `VariableLength`, `Framing`, `Protocol`): the remaining-length codec,
   unpacking of sticky packets from a growing buffer, and the field encoder and decoder.
2. **Mentions** (`Utf16`, `Mentions`, `MentionReturn`, `MentionRoundTrip`, `RichText`): structured
   mention tokens, their conversion to names plus UTF-16 entities and back, and rich-text blocks.
3. **Identity routing** (`OrderedDict`, `Routes`, `Snapshot`, `SnapshotFiles`, `RoutePlan`,
   `RouteRegistry`, `RoutingRuns`, `Adapter`): which bot owns which session and target, the
   two-generation snapshot, and the use of both for inbound and outbound messages. Above it the
   start-up migration from one token to many (`Migration`, `MigrationRuns`, `MigrationReach`,
   `StateStore`).
4. **Durable card actions** (`CardSessions`, `CardInvariant`, `CardRegistry`, `CardRuns`,
   `CardNumbers`, `CardActions`, `ActionHandler`, `PoisonEvents`) and the event poller with its cursor
   file (`EventCursor`, `EventPolling`, `EventPoller`, `PollingRuns`, `AckLosses`).
5. **Progress cards** (`CardProgress`, `ProgressInvariant`, `ProgressAccounts`, `ProgressRuns`,
   `ProgressWitness`, `ProgressController`).

Everywhere the same pattern: the objects that the source updates in place are classes whose methods
update their fields in place, and each method is proved equal to a function on values; the facts
about whole runs are proved about these functions. Wherever an operation depends on its
surroundings (a write that may raise or never happen, the answer of a server, the expiry of an
entry, the outcome of a dispatch), these are parameters, so every theorem holds for all of them.
A crash is a write that does or does not happen, followed by a restart from what is on disk. Where
the source lets go of its lock in the middle of an operation, as the card registry does before it
writes and the flush of the route registry between taking the body and writing it, the parts are
separate events, and the runs put anything between them that the other locks allow.

## What the proofs found

Where a promise does not hold of the code, the model keeps the code and states exactly when it
does hold.

- `bind_plan` promises all or nothing. When an entry in the middle of a plan fails the argument
  checks, the entries before it stay bound (`RoutePlan.HalfBoundPlan`). When a plan is refused, the
  snapshot taken before is restored, and a snapshot keeps one target per session: a session linked
  to two loses a link, and two binds make such a session (`RoutePlan.BoundTwiceIsDouble`). So a plan
  of valid entries is all or nothing on a registry exactly when it goes through or no session is
  linked twice (`RoutePlan.ValidPlanAtomicIff`); without double links the promise holds exactly for
  the plans of `RoutePlan.AtomicIff`, and with them only for plans that bind nothing
  (`RoutePlan.AtomicOnAllIff`).
- If the current snapshot is damaged while the process runs, the next write moves it over the good
  backup, and when that write fails half way nothing is left (`SnapshotFiles.LiveDamageLosesAll`).
  The backup is safe exactly when the process has loaded the files since the damage
  (`SnapshotFiles.BackupSurvivesIff`).
- The mention round trip over the wire is exact for at most 64 tokens, because the receiver cuts
  the entity list there (`MentionRoundTrip.WireRoundTrip`).
- The two readers of a remaining length agree exactly below 2^28 (`VariableLength.LengthRoundTrip`).
- A migration whose frozen plan has a group with a chat id that is not fit for the wire stays pending
  for ever, whatever is restarted or registers (`MigrationReach.StuckForever`); such entries are
  frozen (`MigrationReach.SpaceNeverMigrates`). A newly pending profile can be migrated exactly when
  there is none (`MigrationReach.MigratesIff`).
- An action that meets a card held by an edit is answered and acked as a duplicate and not
  delivered again (`PoisonEvents.NeverDelivered`). A card that is there answers duplicate exactly when
  it is over or an edit holds it (`CardActions.DuplicateIff`), and an action is passed undelivered
  exactly then or when its card is gone (`PoisonEvents.PassedUnclaimedIff`).
- An ack that went through but could not be taken off the disk does not reset the count of failed
  flushes, so an event can be acked and then be given up (`PollingRuns.AckedButGivenUp`). An event
  given up had been acked exactly when that happened to one of its acks (`AckLosses.GivenUpAckedIff`).
- A progress turn begun under the key of a turn that has gone gets two drains exactly when a drain
  of the old one is still there (`ProgressRuns.ReuseOverlapsIff`). If that one is at its top, because
  it has not run yet or sleeps between two edits, both number their next edit alike
  (`ProgressRuns.ReuseOverlaps`). A run from the start leaves such a drain
  (`ProgressWitness.SleeperIsReached`).
- Card numbers do not always come back in order. `next_card_seq` is called by the handler of card
  actions alone, one call at a time, but `claim_edit` may run in another thread: an edit between the
  two sections of a call gets the greater number first (`CardNumbers.EditOvertakes`,
  `CardNumbers.TwoBeforeOne`). The numbers returned for a card ascend exactly in the runs in which
  this happens to no call that succeeds (`CardNumbers.ReturnsAscendIff`).

## Model

| member | source | states |
|---|---|---|
| VariableLength.EncodeVariableLength | src/hermes_octo_plugin/protocol.py:164-175 | the loop yields the base-128 digits of the length, least significant first, with a continuation bit on all but the last |
| VariableLength.EncodingSize | src/hermes_octo_plugin/protocol.py:164-175 | an encoding takes at most k bytes exactly when the length is below 128 to the k |
| VariableLength.EncodingFitsFourBytes | src/hermes_octo_plugin/protocol.py:164-175 | one to four bytes (section 2.2.3 of MQTT 3.1.1) exactly when the length is below 2^28 |
| VariableLength.ScanFindsField | src/hermes_octo_plugin/protocol.py:588-600 | what the unpacker reads as a remaining length is one complete length field, and its value |
| VariableLength.BoundedReadsField | src/hermes_octo_plugin/protocol.py:148-159 | the decoder reads a complete field of at most four bytes, and stops in the middle of a longer one |
| VariableLength.LengthRoundTrip | src/hermes_octo_plugin/protocol.py:148-175 | both readers get back length and header size wherever the field stands; they agree with each other exactly below 2^28 |
| Protocol.Encoder.WriteInt32 | src/hermes_octo_plugin/protocol.py:72-74 | appends four bytes, big-endian, cut to 32 bits, to what was written |
| Protocol.Encoder.WriteString | src/hermes_octo_plugin/protocol.py:80-87 | appends a 16-bit length, cut to 16 bits, and the bytes |
| Protocol.Decoder.ReadInt | src/hermes_octo_plugin/protocol.py:109-131 | reads a big-endian number of the given width, or raises past the end without moving |
| Protocol.Decoder.ReadString | src/hermes_octo_plugin/protocol.py:133-140 | raises when the two-byte prefix is cut short; a text that is cut short is returned as far as it goes, as slicing does |
| Protocol.Decoder.ReadVariableLength | src/hermes_octo_plugin/protocol.py:148-159 | the loop over `multiplier` reads what the bounded reading function reads |
| Protocol.FieldsRoundTrip | src/hermes_octo_plugin/protocol.py:56-145 | any list of fields that fit their widths is read back from its encoding, from any offset |
| Protocol.FieldsReadFit | src/hermes_octo_plugin/protocol.py:93-145 | whatever is read fits its width, so nothing else can round trip |
| Protocol.PacketRoundTrip | src/hermes_octo_plugin/protocol.py:56-175 | a framed packet unpacks from any suffix; its fields come back when they fit and the body is below 2^28, and only if they fit |
| Protocol.EncodeConnectPacket | src/hermes_octo_plugin/protocol.py:308-349 | the CONNECT bytes: header, remaining length, fields in the order of the source |
| Protocol.ConnectRoundTrip | src/hermes_octo_plugin/protocol.py:308-349 | CONNECT unpacks from any suffix, and decodes back to its fields if and only if every string fits 65535 bytes and every integer its width |
| Protocol.EncodeRecvackPacket | src/hermes_octo_plugin/protocol.py:362-384 | the RECVACK bytes |
| Protocol.RecvackRoundTrip | src/hermes_octo_plugin/protocol.py:362-384 | RECVACK unpacks from any suffix, and decodes back if and only if both numbers fit their width |
| Framing.TryUnpackOne | src/hermes_octo_plugin/protocol.py:562-616 | the imperative unpacker returns what the recursive reading of a frame says |
| Framing.UnpackFindsFrame | src/hermes_octo_plugin/protocol.py:562-616 | a prefix is unpacked if and only if it is a frame, and the rest is what follows it |
| Framing.UnpackNoneIffNoFrame | src/hermes_octo_plugin/protocol.py:562-616 | nothing is unpacked if and only if no prefix is a frame |
| Framing.ReceiveBuffer.OnMessage | src/hermes_octo_plugin/adapter.py:2774-2799 | one message: the buffer is extended, all complete frames are handled, the rest is kept; the loop ends because frames are not empty |
| Framing.ReceiveBuffer.Receive | src/hermes_octo_plugin/adapter.py:2758-2799 | over any chunks, frames and leftover are those of one big chunk, and concatenate to the input |
| Framing.DrainSplits | src/hermes_octo_plugin/adapter.py:2774-2799 | frames plus leftover are the stream, each frame is a frame, and no frame is left ahead |
| Framing.SplittingUnique | src/hermes_octo_plugin/adapter.py:2774-2799 | there is only one such splitting of a stream |
| Framing.DrainInTwo | src/hermes_octo_plugin/adapter.py:2774-2799 | cutting a stream anywhere changes neither the frames nor the leftover |
| Framing.ChunkIndependence | src/hermes_octo_plugin/adapter.py:2774-2799 | every split of a stream into chunks gives the same frames and the same leftover |
| Utf16.Utf16Boundaries | src/hermes_octo_plugin/mention.py:132-145 | exactly the requested offsets that fall on code-point borders, in spite of the early exit |
| Utf16.BorderMeasures | src/hermes_octo_plugin/mention.py:121-145 | an offset is the border before code point i if and only if the text before it encodes to that many UTF-16 units (section 2.1 of RFC 2781) |
| Utf16.NoBorderBetween | src/hermes_octo_plugin/mention.py:132-145 | no offset inside an astral character is a border |
| Mentions.TokenIsMatched | src/hermes_octo_plugin/mention.py:102-117 | the pattern matches every structured token where it stands |
| Mentions.MatchedIsToken | src/hermes_octo_plugin/mention.py:102-117 | the pattern matches nothing else |
| Mentions.ParseInOrder | src/hermes_octo_plugin/mention.py:102-117 | parsed mentions are ascending, disjoint and cover tokens of the text |
| Mentions.ParseMissesNothing | src/hermes_octo_plugin/mention.py:102-117 | between two parsed mentions nothing matches |
| Mentions.ConvertStructuredMentions | src/hermes_octo_plugin/mention.py:165-207 | sorted first, any mentions that do not overlap: the loop with its cursors yields the text with names for tokens, and the entities of the verified ones |
| Mentions.SortKeepsInOrder | src/hermes_octo_plugin/mention.py:165-180 | the sort before the conversion changes nothing of what the parser returns |
| Mentions.CutsAreTheText | src/hermes_octo_plugin/mention.py:165-207 | the parts it works on concatenate to the text, one per mention |
| Mentions.EntitiesAnchored | src/hermes_octo_plugin/mention.py:165-207 | every entity, taken as UTF-16 units, slices the sent text to exactly its `@name`; entities ascend and are disjoint |
| MentionReturn.NeutralizedAt | src/hermes_octo_plugin/mention.py:126-129 | a character is replaced exactly when it opens an envelope |
| MentionReturn.NeutralizeCleans | src/hermes_octo_plugin/mention.py:126-129 | no envelope is left, and a text is unchanged if and only if it has none |
| MentionReturn.FastPathAgrees | src/hermes_octo_plugin/mention.py:314-335 | without astral characters in the scanned prefix, direct indexing gives the same border for every offset asked |
| MentionReturn.FindBorder | src/hermes_octo_plugin/mention.py:327-335 | both branches give the border of the offset |
| MentionReturn.EntityRanges | src/hermes_octo_plugin/mention.py:299-338 | the ranges of the usable entities, by either path, are those found one by one |
| MentionReturn.ApartIffNotOverlapping | src/hermes_octo_plugin/mention.py:340-347 | the neighbour test accepts a sorted list if and only if all its ranges are apart |
| MentionReturn.RenderTrustedReplacements | src/hermes_octo_plugin/mention.py:148-162 | the text around the ranges neutralized, the ranges replaced by their tokens |
| MentionReturn.ConvertContentForLlm | src/hermes_octo_plugin/mention.py:262-357 | the entity path as a whole: locate, sort, refuse overlaps, render |
| MentionRoundTrip.RoundTrip | src/hermes_octo_plugin/mention.py:165-357 | converted and converted back, a text is the original with its kept tokens and everything else neutralized |
| MentionRoundTrip.RestoredIsOriginal | src/hermes_octo_plugin/mention.py:126-129 | that is the original if and only if nothing between the tokens opens an envelope; its length is always that of the original |
| MentionRoundTrip.TruncatedRoundTrip | src/hermes_octo_plugin/mention.py:213-233 | with a cap of n on the entities that come back: the original if and only if the text around is clean and there are at most n tokens |
| MentionRoundTrip.WireRoundTrip | src/hermes_octo_plugin/mention.py:213-357 | for every text: what comes back over the wire is the text if and only if it is clean around its tokens and has at most 64 |
| RichText.SendRichText | src/hermes_octo_plugin/message_tools.py:285-369 | a message is sent if and only if every block is sendable or a failed image, and some block is sendable; over all blocks, with offsets shifted past texts and image placeholders, every entity still slices to its `@name`, and the uids of the entities go with it |
| RichText.ExtendMeans | src/hermes_octo_plugin/message_tools.py:285-369 | the uids that go with a message are listed once each, in the order of their first mention, all of them and no others |
| Routes.BindInv | src/hermes_octo_plugin/identity.py:487-613 | bind keeps the registry invariant: linked sessions belong to the owner of their target, conflicted targets are bound and all their sessions conflicted, both maps hold at most 4096 entries |
| Routes.BindKeepsOwners | src/hermes_octo_plugin/identity.py:518-613 | bind evicts no target, changes no owner, adds at most the target asked for, and only adds conflicts |
| Routes.BindSucceeds | src/hermes_octo_plugin/identity.py:518-613 | after bound or idempotent the robot owns target and session, and neither is in conflict |
| Routes.BindConflicts | src/hermes_octo_plugin/identity.py:519-574 | after a conflict the same request meets a recorded conflict |
| Routes.EvictWhileFullInv | src/hermes_octo_plugin/identity.py:596-613 | evicting sessions makes room and leaves targets, conflicts and the other links alone |
| Routes.ForgetInv | src/hermes_octo_plugin/identity.py:640-694 | forgetting a target removes it and the sessions linked only to it, and nothing else |
| Routes.LookupChatIsUnique | src/hermes_octo_plugin/identity.py:723-742 | the linear search answers if and only if the chat has exactly one bound target, unconflicted and with a wire id |
| Routes.ConflictedNeverResolves | src/hermes_octo_plugin/identity.py:708-742 | a conflicted target is resolved by no session, target or chat lookup |
| RouteRegistry.IdentityRouteRegistry.Bind | src/hermes_octo_plugin/identity.py:487-613 | the checks on the arguments, then bind on the eight maps in place |
| RouteRegistry.IdentityRouteRegistry.BindLocked | src/hermes_octo_plugin/identity.py:518-613 | bind in place: all maps and sets end as the specification says |
| RouteRegistry.IdentityRouteRegistry.RecordClash | src/hermes_octo_plugin/identity.py:528-574 | a clash marks session and target, and every session linked to the target |
| RouteRegistry.IdentityRouteRegistry.BindPlan | src/hermes_octo_plugin/identity.py:615-638 | binds in order; the first conflict or lack of room restores the snapshot taken before, an invalid entry raises and restores nothing |
| RouteRegistry.IdentityRouteRegistry.EvictOldestSession | src/hermes_octo_plugin/identity.py:696-704 | the oldest session goes, and its links with it |
| Routes.LookupsAgree | src/hermes_octo_plugin/identity.py:708-721 | a session that resolves, resolves to the robot that each of its targets resolves to |
| RouteRegistry.IdentityRouteRegistry.LookupChatId | src/hermes_octo_plugin/identity.py:723-742 | the answer through the chat index is that of a linear search through all targets |
| RouteRegistry.IdentityRouteRegistry.ChatIdHasState | src/hermes_octo_plugin/identity.py:752-760 | true if and only if some target of the chat is bound or in conflict |
| RouteRegistry.IndexGrows | src/hermes_octo_plugin/identity.py:596-606 | recording a holder keeps the chat index the exact image of the target map |
| RouteRegistry.IndexShrinks | src/hermes_octo_plugin/identity.py:670-684 | so does removing one |
| RouteRegistry.OneHolder | src/hermes_octo_plugin/identity.py:723-742 | one holder in the index means one bound target of that chat |
| RouteRegistry.IdentityRouteRegistry.ForgetTarget | src/hermes_octo_plugin/identity.py:640-694 | refused arguments and strangers change nothing; a forget whose write raises is undone in memory; one that is written is the specification's |
| RouteRegistry.IdentityRouteRegistry.WriteSnapshotFiles | src/hermes_octo_plugin/identity.py:808-823 | rotates and replaces the two files as the generations model says, failing or dying at any write |
| RouteRegistry.IdentityRouteRegistry.Flush | src/hermes_octo_plugin/identity.py:825-840 | when nothing comes in between: writes when dirty or forced, and stays dirty when the write raises |
| RouteRegistry.IdentityRouteRegistry.TakeBody | src/hermes_octo_plugin/identity.py:831-835 | the locked section of flush: the body of the maps as they are, if they are dirty or it is forced, and they are clean |
| RouteRegistry.IdentityRouteRegistry.WriteTaken | src/hermes_octo_plugin/identity.py:836-840 | the rest of flush: a body taken before is written whatever the maps are by then, and a raise makes them dirty again |
| RouteRegistry.IdentityRouteRegistry.Load | src/hermes_octo_plugin/identity.py:842-865 | a new process has exactly the routes of the recoverable body |
| RouteRegistry.IdentityRouteRegistry.ApplyBody | src/hermes_octo_plugin/identity.py:867-948 | rebuilding the maps from a body gives the restored routes, index included |
| Snapshot.RoundTrip | src/hermes_octo_plugin/identity.py:770-948 | owners, order, wire ids, channels and conflicts survive the body; of the links, one per session does |
| Snapshot.LinksSurviveIffSingle | src/hermes_octo_plugin/identity.py:771-775 | all links survive if and only if no session is linked to two targets |
| RoutePlan.PlanOutcome | src/hermes_octo_plugin/identity.py:615-638 | a successful plan keeps every owner and leaves every planned target with the robot |
| RoutePlan.ValidPlanDecides | src/hermes_octo_plugin/identity.py:615-638 | a plan of valid entries never raises, whatever the state |
| RoutePlan.RefusalUndoes | src/hermes_octo_plugin/identity.py:615-638 | a refused plan gives back owners, order, wire ids, channels and conflicts always, and the links if and only if no session was linked to two targets |
| RoutePlan.ValidPlanAtomicIff | src/hermes_octo_plugin/identity.py:615-638 | on any one registry a plan of valid entries is all or nothing if and only if it goes through or no session is linked to two targets |
| RoutePlan.AtomicIff | src/hermes_octo_plugin/identity.py:615-638 | over the registries without double links a plan within capacity is all or nothing if and only if it is empty, fails on its first entry, or is valid throughout |
| RoutePlan.AtomicOnAllIff | src/hermes_octo_plugin/identity.py:615-638 | over all registries only the plans that bind nothing are all or nothing: any other is refused somewhere and costs a link |
| RoutePlan.BoundTwiceIsDouble | src/hermes_octo_plugin/identity.py:596-613 | two binds of one session by one robot make a registry with a double link |
| RoutePlan.HalfBoundPlan | src/hermes_octo_plugin/identity.py:615-638 | a concrete plan that raises on its second entry leaves the first bound |
| SnapshotFiles.WriteRecovers | src/hermes_octo_plugin/identity.py:808-823 | after a write a reader finds the new body, and after a failed one what it found before |
| SnapshotFiles.StepKeepsGenerations | src/hermes_octo_plugin/identity.py:808-865 | the backup is the generation before the primary, or the last one when the primary is unusable, if no write comes between damage and the next load |
| SnapshotFiles.CrashSafety | src/hermes_octo_plugin/identity.py:250-279 | over every run of writes, failures, crashes, restarts and damage to the primary in which no write comes between damage and the next load, a reader finds exactly the last committed body, and the backup is never replaced by an unusable file |
| SnapshotFiles.CrashSafetyFromNothing | src/hermes_octo_plugin/identity.py:250-279 | so it is from no files at all |
| SnapshotFiles.BackupSurvivesIff | src/hermes_octo_plugin/identity.py:808-823 | with a damaged primary every write keeps the good backup if and only if the process has loaded the files since the damage |
| SnapshotFiles.LiveDamageLosesAll | src/hermes_octo_plugin/identity.py:808-823 | two commits, damage while the process runs and a write that fails half way leave nothing to read |
| RoutingRuns.ChangeKeepsOwner | src/hermes_octo_plugin/identity.py:487-865 | one operation, or one section of a flush, that does not forget a target keeps its owner, in memory and on disk, wherever its writes fail or the process dies |
| RoutingRuns.DurableOwnerStays | src/hermes_octo_plugin/identity.py:487-865 | over every run with crashes, reloads and binds between the sections of a flush, a durable owner stays until its target is forgotten |
| RoutingRuns.ProcessOwnerStays | src/hermes_octo_plugin/identity.py:487-865 | within one process any owner stays until its target is forgotten |
| RoutingRuns.CleanIsDurable | src/hermes_octo_plugin/identity.py:825-840 | at every point of every run a registry that is neither dirty nor being written has everything but double links on disk: no bind that comes between the sections of a flush is lost |
| RoutingRuns.ReachableIsSound | src/hermes_octo_plugin/identity.py:487-865 | every registry reached from no files at all meets the conditions of these three |
| Adapter.OctoAdapter.ClaimIdentity | src/hermes_octo_plugin/adapter.py:5238-5260 | an identity is claimed by one runtime; a second claimant is refused and nothing changes |
| Adapter.OctoAdapter.BindInboundRoute | src/hermes_octo_plugin/adapter.py:5548-5604 | an accepted inbound bind implies that the receiver owns target and session; a target frozen for the legacy identity, or for that of the first runtime, is refused to strangers and nothing changes; arguments that bind rejects raise |
| Adapter.OctoAdapter.ResolveOutbound | src/hermes_octo_plugin/adapter.py:5707-5777 | a runtime is returned for a chat with route state only if the chat has exactly one unconflicted target, and then the runtime claimed under its owner; a trusted identity is never replaced; a usable target is served |
| Adapter.LookupFacts | src/hermes_octo_plugin/adapter.py:5707-5777 | what the chat lookup answers is the one usable target, and there is an answer whenever there is one |
| Migration.FrozenPlan | src/hermes_octo_plugin/identity.py:1192-1212 | a frozen plan has one route a session, fits the registry, and is read back in full |
| MigrationRuns.DoAllKeeps | src/hermes_octo_plugin/adapter.py:5548-5604 | whatever others do between the steps of a migration (inbound binds, forgotten routes, their own flushes) keeps invariant, documents and every owner but those forgotten |
| MigrationRuns.WriteIsAtomic | src/hermes_octo_plugin/identity.py:808-823 | a snapshot write makes exactly the given routes durable or changes no durable route |
| MigrationRuns.CommitOutcome | src/hermes_octo_plugin/identity.py:1265-1288 | wherever bind, flush or metadata stops, with binds, forgotten routes and other flushes coming in between, the profile is as it was, or migrated with the whole plan durable but for what was forgotten meanwhile |
| MigrationRuns.StartKeeps | src/hermes_octo_plugin/identity.py:1076-1188 | every start, refused or cut short, leaves consistent documents and never moves the phase back |
| MigrationRuns.RegisteredKeeps | src/hermes_octo_plugin/identity.py:1214-1288 | so does everything a registering identity triggers, whatever others do between its steps: recording, protecting, applying the plan |
| MigrationRuns.DoingKeeps | src/hermes_octo_plugin/identity.py:640-840 | so does everything others do at any other time: binds, routes forgotten by an operator, both sections of a flush |
| MigrationRuns.RunAdvances | src/hermes_octo_plugin/identity.py:1076-1288 | over every run the phase never moves back, a recorded legacy id never changes, and no durable route changes hands but by being forgotten |
| MigrationRuns.MigrationSafety | src/hermes_octo_plugin/adapter.py:5315-5349 | from an empty profile, cut short between any two writes: a pending profile has its plan of the recorded size, and one called migrated has every planned target durably bound to the legacy robot, or forgotten since that migration began |
| MigrationReach.PendingIsReached | src/hermes_octo_plugin/identity.py:1076-1188 | one start with one token and one with several bring an empty profile to pending with the frozen plan |
| MigrationReach.StuckForever | src/hermes_octo_plugin/adapter.py:5315-5349 | a pending profile with one plan entry that bind rejects stays pending over every run, with all starts and all luck |
| MigrationReach.FrozenValidIff | src/hermes_octo_plugin/identity.py:1192-1212 | bind accepts the whole of a frozen plan if and only if every group in it has a chat id that is fit for the wire |
| MigrationReach.MigratesIff | src/hermes_octo_plugin/identity.py:1265-1288 | a newly pending profile can become migrated by some run if and only if that is so; then one registration of the legacy robot is enough and every planned target is durably bound |
| MigrationReach.SpaceNeverMigrates | src/hermes_octo_plugin/identity.py:1192-1212 | a group whose chat id is a space is frozen, and no run ever migrates its profile |
| Migration.SavedIsLoaded | src/hermes_octo_plugin/identity.py:1012-1016 | what a save leaves in memory is what the next process loads, and one that does not finish changes neither |
| StateStore.IdentityStateStore.LoadPendingPlan | src/hermes_octo_plugin/identity.py:1018-1043 | the plan, or an error when it is unreadable or not of the recorded size |
| StateStore.IdentityStateStore.FreezePlanFrom | src/hermes_octo_plugin/identity.py:1192-1212 | the loop over session entries freezes the specified plan, or refuses over capacity |
| StateStore.IdentityStateStore.Start | src/hermes_octo_plugin/identity.py:1076-1188 | begin, on the store's fields and files, is the specified start-up step |
| Migration.RecordedOnce | src/hermes_octo_plugin/identity.py:1214-1228 | once an identity is recorded, and after any restart, the same robot is accepted, every other refused, and nothing is written |
| StateStore.IdentityStateStore.CommitPlan | src/hermes_octo_plugin/identity.py:1265-1280 | bind, forced flush and metadata, in this order, when nothing comes in between |
| StateStore.IdentityStateStore.ProtectReplacedSingleIdentity | src/hermes_octo_plugin/identity.py:1230-1263 | is the specified protecting step |
| StateStore.IdentityStateStore.ApplyLegacyPlan | src/hermes_octo_plugin/identity.py:1265-1288 | is the specified applying step; a plan file that cannot be removed does no harm |
| CardInvariant.RoomIsMade | src/hermes_octo_plugin/card_sessions.py:124-135 | registering gives up completed cards only and no more than needed, and fails exactly when the live cards fill the registry |
| CardInvariant.EnlistInv | src/hermes_octo_plugin/card_sessions.py:115-141 | the locked section of register alone keeps the registry invariant, the write still to come |
| CardInvariant.RegisterInv | src/hermes_octo_plugin/card_sessions.py:115-143 | register, section and write, keeps the registry invariant: within capacity, memory never behind the disk, every claimed card held by someone |
| CardInvariant.ClaimInv | src/hermes_octo_plugin/card_sessions.py:222-259 | so does claim |
| CardInvariant.ClaimEditInv | src/hermes_octo_plugin/card_sessions.py:186-220 | so does claim_edit |
| CardInvariant.AllocateInv | src/hermes_octo_plugin/card_sessions.py:261-269 | so does the locked section of next_card_seq |
| CardInvariant.GiveBackInv | src/hermes_octo_plugin/card_sessions.py:271-277 | so does that of release |
| CardInvariant.EndCardInv | src/hermes_octo_plugin/card_sessions.py:282-287 | so does that of complete |
| CardInvariant.RolledBack | src/hermes_octo_plugin/card_sessions.py:246-259 | a claim whose write fails leaves the registry as a failed write alone would: the claim is undone completely |
| CardInvariant.RestartInv | src/hermes_octo_plugin/card_sessions.py:315-338 | restoring in a new process keeps the invariant |
| CardRegistry.CardSessionRegistry.Prune | src/hermes_octo_plugin/card_sessions.py:369-376 | exactly the expired entries go, one by one |
| CardRegistry.CardSessionRegistry.Records | src/hermes_octo_plugin/card_sessions.py:340-352 | the records to write are the durable entries, in order |
| CardRegistry.CardSessionRegistry.PersistNow | src/hermes_octo_plugin/card_sessions.py:340-359 | prunes, then writes everything or raises with the disk unchanged |
| CardRegistry.CardSessionRegistry.GiveUpCompleted | src/hermes_octo_plugin/card_sessions.py:124-135 | the loop gives up the completed entries the specification gives up |
| CardRegistry.CardSessionRegistry.EnlistSession | src/hermes_octo_plugin/card_sessions.py:115-141 | the locked section of register in place is the specified one, with its four refusals |
| CardRegistry.CardSessionRegistry.ClaimForEvent | src/hermes_octo_plugin/card_sessions.py:222-259 | claim in place is the specified operation, roll-back included |
| CardRegistry.CardSessionRegistry.ClaimForEdit | src/hermes_octo_plugin/card_sessions.py:186-220 | claim_edit in place is the specified operation, roll-back included |
| CardRegistry.CardSessionRegistry.Restore | src/hermes_octo_plugin/card_sessions.py:315-338 | the entries of a new process: unexpired records, those in processing pending again |
| CardRuns.Origin | src/hermes_octo_plugin/card_sessions.py:115-287 | after any locked section or write every entry was there before, moved by that section alone, or is new, or was read from disk |
| CardRuns.CompletedOnDisk | src/hermes_octo_plugin/card_sessions.py:340-359 | a card completed on disk is completed wherever memory still has it |
| CardRuns.SettledForever | src/hermes_octo_plugin/card_sessions.py:222-338 | a settled card is settled after every run, and no run hands it over |
| CardRuns.CompletedOnDiskIsNeverTaken | src/hermes_octo_plugin/card_sessions.py:222-338 | once completed on disk a card is handed to no event and no edit again, over all failed writes, crashes and restarts |
| CardRuns.DuplicateIsDurable | src/hermes_octo_plugin/card_sessions.py:227-233 | a duplicate answer for a completed card implies that this state is durable |
| CardRuns.HolderIsAlone | src/hermes_octo_plugin/card_sessions.py:186-287 | while one holds a card nobody else gets it, releases it or completes it |
| CardRuns.StrangerChangesNothing | src/hermes_octo_plugin/card_sessions.py:271-287 | release and complete by anyone but the holder only prune and write |
| CardRuns.EditsAreNoEvents | src/hermes_octo_plugin/card_sessions.py:211-213 | the negative number of an edit never passes for an event |
| CardRuns.NumbersGrow | src/hermes_octo_plugin/card_sessions.py:211-269 | a number that next_card_seq takes and then returns is below every number handed out for the card later, over all interleavings, failed writes, crashes and restarts: none is returned twice |
| CardRuns.EditNumbersGrow | src/hermes_octo_plugin/card_sessions.py:186-220 | so it is with the number of an edit, which is durable at once |
| CardRuns.NumbersAscend | src/hermes_octo_plugin/card_sessions.py:261-269 | the numbers handed out in one process ascend, written or not |
| CardNumbers.ReturnsAscendIff | src/hermes_octo_plugin/card_sessions.py:186-269 | over every run the numbers returned for one card ascend if and only if no call of next_card_seq that succeeds has an edit of its card succeed between its two sections |
| CardNumbers.EditOvertakes | src/hermes_octo_plugin/card_sessions.py:186-269 | on every pending durable card an edit between the two sections gets the greater number, and gets it first |
| CardNumbers.TwoBeforeOne | src/hermes_octo_plugin/card_sessions.py:186-269 | after one registration 2 is returned before 1 |
| CardActions.StepKeepsConsistent | src/hermes_octo_plugin/card_events.py:584-676 | beside everything other tasks do between any two sections, events hold cards only through the one running handler |
| CardActions.DuplicateMeans | src/hermes_octo_plugin/card_events.py:592-599 | an action answered as a duplicate met a card that is durably over or one that an edit holds; never another action |
| CardActions.DuplicateIff | src/hermes_octo_plugin/card_events.py:592-599 | and conversely: a card that is there answers duplicate if and only if it is over, and then durably, or an edit holds it |
| CardActions.TerminalIsDurable | src/hermes_octo_plugin/card_events.py:637-676 | once a handler has ended its card for good the card is over in this process; when the write after that succeeds, whatever came in between, the card is settled on disk |
| CardActions.AcceptedAtMostOnce | src/hermes_octo_plugin/card_events.py:584-676 | without a crash a card is accepted or given up at most once, even if that can never be written, and whatever others do between claim, end and write |
| CardActions.WrittenEndingIsTheLast | src/hermes_octo_plugin/card_events.py:666-676 | after an ending that was written, no run with any crashes ends the card again |
| ActionHandler.HandleCardAction | src/hermes_octo_plugin/card_events.py:584-676 | the handler on the registry object is the specified handling: claim, match, dispatch, release or complete, and its answer |
| ActionHandler.FinishClaimed | src/hermes_octo_plugin/card_events.py:600-676 | each way a claimed action ends: mismatch, nothing chosen, cancelled, raised, refused, accepted |
| ActionHandler.HandlingIsARun | src/hermes_octo_plugin/card_events.py:584-676 | one handling is, section by section, a run of the step system, so what holds of runs holds of the handler |
| PoisonEvents.PotentialFalls | src/hermes_octo_plugin/card_events.py:637-649 | every attempt, however it ends, lowers the lexicographic measure of actions left and attempts left; nothing that others do, not even between claim and end, raises it |
| PoisonEvents.PoisonIsPassed | src/hermes_octo_plugin/card_events.py:942-1019 | with working storage and no cancellation, n actions, each of which may fail, mismatch, be refused or accepted at each attempt, are all passed after at most n times max_dispatch_attempts attempts |
| PoisonEvents.DispatchesAreBounded | src/hermes_octo_plugin/card_sessions.py:239-245 | an action is claimed, and so dispatched, at most max_dispatch_attempts times, among any others and whatever comes in between |
| PoisonEvents.PassedUnclaimedIff | src/hermes_octo_plugin/card_events.py:584-599 | with working storage an action is passed without being claimed if and only if its card is gone or over, or an edit holds it |
| PoisonEvents.NeverDelivered | src/hermes_octo_plugin/card_events.py:584-599 | a run in which an edit takes a pending card, and the only action on it is passed and never claimed |
| EventCursor.SaveReadsBack | src/hermes_octo_plugin/card_events.py:118-193 | a save is read back as saved; one that is malformed, goes backwards or fails changes nothing |
| EventCursor.ReadsAreSafe | src/hermes_octo_plugin/card_events.py:147-163 | whatever is in the file, the cursor read is a safe number, a pending ack is at or below it, and progress is read only from a stored id |
| EventCursor.FileEventCursorStore.SaveCursor | src/hermes_octo_plugin/card_events.py:118-193 | saves, or raises without writing |
| EventPolling.OrderedSorts | src/hermes_octo_plugin/card_events.py:942-951 | exactly the safe events after the cursor are served, as often as fetched, in ascending order |
| EventPoller.EventPoller.Initialize | src/hermes_octo_plugin/card_events.py:821-839 | cursor and pending ack as the file has them; a read that raises counts as no progress, and a pending ack only counts behind the cursor |
| EventPoller.EventPoller.Ack | src/hermes_octo_plugin/card_events.py:878-899 | acked if and only if one of three attempts goes through |
| EventPoller.EventPoller.FlushPendingAck | src/hermes_octo_plugin/card_events.py:901-925 | sent and forgotten, disk first; given up at the third failure in a row |
| EventPoller.EventPoller.ServeEvents | src/hermes_octo_plugin/card_events.py:959-1002 | the loop over fetched events is the specified serving: handler, save, ack, and the exits between them |
| EventPoller.EventPoller.PollNow | src/hermes_octo_plugin/card_events.py:927-1002 | one poll is the specified poll |
| PollingRuns.PollIsARun | src/hermes_octo_plugin/card_events.py:927-1002 | one poll of a server that offers the events after the cursor is a run of the step system |
| PollingRuns.CursorMoves | src/hermes_octo_plugin/card_events.py:165-193 | the durable cursor never falls, and moves only by passing the next event |
| PollingRuns.RunIsSafe | src/hermes_octo_plugin/card_events.py:821-1002 | everything below is kept by every run |
| PollingRuns.PollingSafety | src/hermes_octo_plugin/card_events.py:821-1002 | from any cursor file, over failed saves, failed acks and crashes: the cursor never falls, no event is passed without an answer of the handler or a parse error, acks are sent only for events at or below it, and each event to be acked is acked, durably pending, or given up after three failed flushes in a row |
| PollingRuns.AckedButGivenUp | src/hermes_octo_plugin/card_events.py:901-925 | a run from an empty cursor file in which an event is acked and then given up |
| AckLosses.GivenUpAckedIff | src/hermes_octo_plugin/card_events.py:901-925 | over every run an event that is given up had been acked if and only if an ack of it went through and could not be taken off the disk |
| ProgressInvariant.HookMoves | src/hermes_octo_plugin/card_progress.py:234-436 | whatever a hook changes comes under a new revision, and real tools never disappear |
| ProgressInvariant.ScheduleInv | src/hermes_octo_plugin/card_progress.py:531-549 | scheduling starts a drain only where there is none, and drops what nobody will deliver |
| ProgressInvariant.NextSegmentIsNew | src/hermes_octo_plugin/card_progress.py:438-490 | rolling over never overwrites a segment |
| ProgressInvariant.RolloverInv | src/hermes_octo_plugin/card_progress.py:438-490 | rolling over keeps the invariant |
| ProgressInvariant.NeverEmpty | src/hermes_octo_plugin/card_progress.py:634-643 | a drain always has something to show: the branch for an empty snapshot is never taken |
| ProgressInvariant.CommitInv | src/hermes_octo_plugin/card_progress.py:825-842 | taking over a delivery keeps the invariant: the drain goes on, rests, or closes the turn |
| ProgressInvariant.DrainStepInv | src/hermes_octo_plugin/card_progress.py:568-842 | every section of a drain, whatever luck it has, keeps the invariant |
| ProgressInvariant.NextInv | src/hermes_octo_plugin/card_progress.py:205-842 | every hook and every step of a drain keeps the invariant |
| ProgressAccounts.NextAccounts | src/hermes_octo_plugin/card_progress.py:205-842 | every hook and every drain step that removes a turn notes that it is closed, or why it is dropped, and removes no other |
| ProgressAccounts.AccountsKeeps | src/hermes_octo_plugin/card_progress.py:205-842 | so every turn ever begun is live, closed or dropped for a reason |
| ProgressRuns.ProgressSafety | src/hermes_octo_plugin/card_progress.py:410-842 | over every interleaving of hooks, cancellations, failures and drains that begins no turn under a key a drain is still at work on: drains of one turn never overlap, a turn at rest has shown the last revision that asked for it, edits carry 1, 2, 3, ..., and of every turn that has gone the last thing shown is its final frame, unless it was dropped by a failure, a refusal or a cancellation, or with nothing of it ever shown |
| ProgressRuns.ComesToRest | src/hermes_octo_plugin/card_progress.py:568-842 | wherever its drain is, and whatever hooks have overtaken it, a scheduled turn shows its present revision and rests or is closed within six steps, if nothing fails and no further hook comes in between |
| ProgressRuns.ReuseOverlapsIff | src/hermes_octo_plugin/card_progress.py:205-232 | the condition on keys is exact: when a turn begins and its first tool starts, the drains are kept apart if and only if no drain is left on its key |
| ProgressRuns.ReuseOverlaps | src/hermes_octo_plugin/card_progress.py:205-232 | a drain left at its top, asleep between two edits or not yet run, and the new one take the same snapshot of the new turn, and with it the same number |
| ProgressRuns.OverlappingDrainsAgree | src/hermes_octo_plugin/card_progress.py:568-660 | so it is with any two drains of one turn at their top |
| ProgressWitness.SleeperIsReached | src/hermes_octo_plugin/card_progress.py:205-842 | a run from the very start that leaves a drain asleep on a key that is free again |
| ProgressController.CardProgressController.FindKey | src/hermes_octo_plugin/card_progress.py:510-529 | the live segment of the turn named, or of the session's only live turn, or none |
| ProgressController.PicksOne | src/hermes_octo_plugin/card_progress.py:510-529 | there is never a choice |
| ProgressController.CardProgressController.BeginTurn | src/hermes_octo_plugin/card_progress.py:205-232 | begins the next segment if and only if no segment of the turn is live |
| ProgressController.CardProgressController.ModelStarted | src/hermes_octo_plugin/card_progress.py:234-256 | a new thought and a new revision, without scheduling |
| ProgressController.CardProgressController.ModelFinished | src/hermes_octo_plugin/card_progress.py:258-304 | ends the named thought or the last running one |
| ProgressController.CardProgressController.ToolStarted | src/hermes_octo_plugin/card_progress.py:306-352 | a new tool, scheduled; card-authoring tools end the thinking without scheduling |
| ProgressController.CardProgressController.ToolFinished | src/hermes_octo_plugin/card_progress.py:354-408 | ends a known tool |
| ProgressController.CardProgressController.CompleteTurn | src/hermes_octo_plugin/card_progress.py:410-436 | ends the turn and everything still running |
| ProgressController.CardProgressController.Rollover | src/hermes_octo_plugin/card_progress.py:438-490 | acts if and only if the chat and requester have one live turn |
| ProgressController.CardProgressController.CancelSession | src/hermes_octo_plugin/card_progress.py:492-497 | drops exactly the turns of the session |

## Left out

- HTTP, WebSocket, DNS, encryption and key derivation: foreign calls; their success or failure is a parameter.
- JSON text, checksums, temporary files and file descriptors: a document is missing, unusable or a value, and replacing it is atomic. A write that raises after it has taken effect (a directory sync that fails after the replacement) is not modelled.
- Clocks: an operation is given the set of entries it finds expired, any set; backoff and polling delays are not modelled.
- UTF-8: string fields are byte sequences; a field that is not valid UTF-8 is not rejected.
- The word class of the mention pattern: any predicate on code points that excludes the colon.
- Counting of filtered mentions.
- What a card shows: `CardSessions.Card` keeps its route and whether it is durable.
- Clarify and reasoning cards: they are never written to disk, so the theorems about files do not speak of them. `refresh_reasoning` prolongs such a card and `clear` empties the registry; neither is an event of the runs.
- Histories: `registration`, `created`, `asked`, `moved`, `movedAt`, `forgotten`, `overtaken`, `committed`, `previous` and the logs of the runs are no fields of the source; no operation reads them.
- Progress cards rendered by the remote registry: the local-card mode only. Its branch for missing data clears `scheduled` without looking at the revision again and is not covered by the proofs.
- Tool call ids of progress cards are given, and never equal the id of a thinking step; ids the source makes up for calls without one are parameters.
- The barrier that waits for a first delivery, labels, summaries, thoughts and durations shown on progress cards.
- Cancellation of asyncio tasks while they hold no lock, except for a dispatch that is cancelled.
- Reset of an identity during a reconnect.
- Mentions.ConvertStructuredMentions: takes any list of mentions that do not overlap once sorted, which the parser's never do; what the source makes of overlapping ones is not stated.
- MentionReturn.ConvertContentForLlm: the entity path; the fallback that pairs bare names with a member map or a uid list when a message has no usable entities is not modelled.
- RouteRegistry.IdentityRouteRegistry.Load: for files that hold what a registry has written, or nothing readable; a body from elsewhere (one that lists a target twice, say) is not covered.
- RouteRegistry.IdentityRouteRegistry.ApplyBody: for bodies that a registry has written, as for `Load`.
- Adapter.OctoAdapter.BindInboundRoute: a session key whose derivation fails, which the source answers with False before any route is touched, is not modelled; the key is a parameter.
- RouteRegistry.IdentityRouteRegistry.Flush: nothing comes in between its two sections, which are `TakeBody` and `WriteTaken`; `RoutingRuns` and `MigrationRuns` let binds in.
- StateStore.IdentityStateStore.CommitPlan: nothing comes in between its three steps; `MigrationRuns.CommitOutcome` lets anything in.
- StateStore.IdentityStateStore.ProtectReplacedSingleIdentity: nothing comes in between, as in `CommitPlan`; the runs let anything in.
- StateStore.IdentityStateStore.ApplyLegacyPlan: nothing comes in between, as in `CommitPlan`; the runs let anything in.
- CardRegistry.CardSessionRegistry.Restore: into the empty registry of a new process, which is when the source attaches its persistence.
- ActionHandler.HandleCardAction: whether an action matches its card (route, user, nonce, choices) is a parameter of the handling, any value, and no other task comes in between its sections; the runs of `CardActions` let them in.
- ActionHandler.HandlingIsARun: of a handling with nothing in between; what others do in between is in the runs of `CardActions` and `PoisonEvents` themselves.
- PoisonEvents.DispatchesAreBounded: assumes that nobody registers a new card under the message id of a waiting action, because attempts are counted per registration.
- PoisonEvents.PoisonIsPassed: assumes working storage and no cancelled dispatch, because a claim that is never saved or a handler that is cancelled may be repeated without end.
- PollingRuns.PollingSafety: assumes that reading the cursor file does not fail; a failed read counts as no progress and may let a later save go backwards.
