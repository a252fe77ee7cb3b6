# Verification of tmux-phoenix

A Dafny model of the parts of tmux-phoenix whose promises are whole-run
statements, with proofs of those promises. `dafny verify dfyconfig.toml` checks
everything.

Text is modelled by its UTF-8 bytes (`Text = seq<Byte>`). Code that computes is
functions; code that updates is classes and methods with loops, each proved
against the function the theorems speak of.

**Restoring** (`phoenix-restore`, `phoenix-core`). `Snapshot` is the saved graph
and its validating constructors, `Refusing` what they refuse it for. `Matching` and
`Planner` say what a plan is, and `Claiming` who goes short when links do; `Drafting`
builds the plan the way `Draft` does. `Tmux` is a server: sessions, a window id at each
(session, index), windows with a stamp, panes, layout and what was typed into each
pane, ids never reused, and one transition per command.
`Applying` and `Running` execute a plan, binding references and stopping at the
first refusal. `Safety` to `Restoring` prove what each command, window, session
and prefix keeps; `Convergence`, `Resuming`, `Fidelity`, `Reporting`,
`Previewing`, `Targeting` and `Scoping` hold the theorems. `Sending` is what each
step says to tmux, and `Accepting` when a plan can say it. `Obeying` is what tmux
makes of words: targets, flags, commands, the lines typed into a shell, and what is
reported; `Relaying` and `Conveying` prove that a plan sent word for word is the plan
run.

What a restore assumes of the server is `Ready`: each saved window has at most
one live window that is it and each live window is at most one saved window, and
new ids are fresh. `OwnScratch` adds, of a session made only to attach by, that
the snapshot has no session of its name and no saved window in it. Both are
proved to hold again wherever a restore stops (`Convergence.CutShortIsReady`,
`Targeting.ScratchStaysOwn`), the first also of any server no restore of the
generation has touched (`Previewing.UnstampedIsReady`), and the second of the
scratch a connection makes (`Resuming.OpenedIsReady`). What is assumed of tmux is the
transitions in `Tmux`: a session's first window appears at an arbitrary base
index, a link to an occupied index is refused unless `-k`, a window with no link left
is destroyed, and a window of several panes has room for one more only when they were
last spread out.

**The store** (`phoenix-store`). `Bytes`, `Codec`, `Body` and `Header` say what
bytes a value is written as and what a reader finds in bytes; `Encoding` and
`Decoding` are the writer and the reader doing it; `Checksum` is FNV-1a and the
content-addressed blobs; `KnownBytes` is the file byte by byte; `Stored` is what the
format can hold and what the blob store must keep. `Generations` is one save and its prune; `Saving` is any number
of savers under one lock, each able to stop dead at any step, beside readers that
take no lock. A rename and a directory listing are atomic and the lock is mutual
exclusion. Where a blob is put, no two contents are assumed to share a key.

**Control mode** (`tmux-control`). `Framing` is the line and block codec,
`Blocks` the demultiplexer and the stream of blocks, `Outputs` pane output end to
end, `Octal` the payload decoder, `KnownWire` the wire byte by byte, `CommandLines` the
argument encoder with a model of tmux's lexer as its module comment states the rules,
and single-quote splitting from sections 2.2.1 and 2.2.2 of the POSIX Shell Command
Language. `Connections` is the threaded connection as a state machine in which every
delivery, read, call, close and abort is a step, and `Disposing` what they come to over
a run; `Clients` is the client without a thread.

**Capture and boot** (`phoenix-capture`, `phoenix-daemon`). `Folding` and
`Gathering` are the fold from listed rows to the graph, and `Tracing` says of each part
which row it comes from; `Booting` is the decision made at each connection and carried
between them.

## Where the code and its documentation differ

`phoenix-restore/src/plan.rs:31-34` and `design-docs/ARCHITECTURE.md:102` promise
`@phoenix-restored` on each session that is finished. The code at
`phoenix-restore/src/plan.rs:469` does not when the server already carries the
generation's mark and the session owes no step.
`Targeting.AFinishedSessionCanStayUnmarked` is a restore that leaves such a
server, and `Previewing.SessionMarkExactly` says exactly when the mark is set.

## Main results

The rest of the table below is the models these speak of and the steps to them.

- Restores, over every prefix of every plan: `Convergence.NothingLiveIsLost`,
  `Convergence.StepsTakeOnlyTheirOwn`, `Convergence.StampMeansWhole`,
  `Convergence.NoStepIsRefused`, `Convergence.MarkMeansFinished`,
  `Scoping.PlanIsWellScoped`, `Accepting.PlanIsAccepted`,
  `Conveying.SendingIsRunning`, `Conveying.SentPlanFinishes`.
- Restores, over every sequence of interrupted ones: `Resuming.Converges`,
  `Resuming.StampsStayWhole`, `Previewing.ConvergesFromUnstamped`.
- What a restore brings back and says: `Convergence.PlanIsEmptyWhenFinished`,
  `Fidelity.ALostSessionComesBack`, `Fidelity.LinksLand`,
  `Matching.GreedyIsOptimal`, `Matching.LandLandsWell`,
  `Reporting.EachSavedLinkOnce`, `Planner.PresentExactly`, `Previewing.SessionMarkExactly`.
- The store, over every interleaving: `Saving.NoTornRead`,
  `Saving.LatestIsOfOneState`, `Saving.IdsRise`, `Saving.SaveLeavesRetained`,
  `Saving.NewestSavedStays`, `Saving.NamedStays`, `Saving.SavedDecodes`.
- The file format: `Header.FileRoundsLater`, `Header.FileBacks`,
  `Header.CutIsCaught`, `Header.AdditionIsCaught`, `Checksum.OneByteIsCaught`.
- Control mode: `Framing.ChunksMakeNoDifference`, `Blocks.StreamComesBack`,
  `Connections.DeliveredExactly`, `Connections.AnsweredInOrder`,
  `CommandLines.LineReads`, `CommandLines.RelaunchArrives`,
  `Octal.DecodeUndoesEscape`.
- Capture and boot: `Tracing.SessionFromRows`, `Tracing.WindowFromRows`,
  `Tracing.TornExactly`, `Gathering.OnlyOrphansAreRefused`,
  `Booting.DeclinedExactly`, `Booting.SettledForGood`.

## Model

| member | source | states |
|---|---|---|
| `Resuming.Converges` | phoenix-restore/src/plan.rs:180-212 | however many restores were cut short, each at any step or between two clients of one, each over its own connection to a session or to a scratch it made, and planned from a fresh capture, one more applied in full meets no refusal by tmux, leaves every addressable saved session with at least its saved links to each window, the server marked and its scratch gone, and the plan captured after it has no steps; nothing is assumed of any server but the first |
| `Resuming.StampsStayWhole` | phoenix-restore/src/plan.rs:478-541 | from a server that carried no stamp of the generation, after any sequence of interrupted restores every stamped window is whole and each saved window has been built at most once |
| `Fidelity.ALostSessionComesBack` | phoenix-restore/src/plan.rs:375-476 | a saved session the server had lost comes back, after a full restore, with exactly the saved indices, each holding the window saved there (a live one untouched or one built whole and stamped), showing its saved active window and marked |
| `Fidelity.LinksLand` | phoenix-restore/src/plan.rs:289-351 | after a full restore each link a saved session lacked sits at the index the plan gave it, a place nothing held, and holds its own saved window, live or built whole; the session gained no other link |
| `Reporting.EachSavedLinkOnce` | phoenix-restore/src/plan.rs:305-350 | in a plan's own notes each saved link of an addressable session is noted present once, or is not and lands once, noted as relocated once exactly when it lands elsewhere than it was saved |
| `Reporting.EachLiveLinkOnce` | phoenix-restore/src/plan.rs:305-325 | in a plan's own notes each live link of such a session is noted as not from the snapshot once, exactly when no saved link claimed it, and as many saved links are noted present as live ones were claimed |
| `Reporting.EachSessionOnce` | phoenix-restore/src/plan.rs:375-400 | a saved session is noted unaddressable once, exactly when its name is empty, holds a colon or starts with a dollar, and otherwise present once, exactly when the server has one of that name |
| `Convergence.PlanIsEmptyWhenFinished` | phoenix-restore/src/plan.rs:180-212 | restoring twice does nothing: a plan onto a server has no steps exactly when that server carries the mark and has every addressable saved session complete |
| `Convergence.NothingLiveIsLost` | phoenix-restore/src/plan.rs:326-372 | after any prefix of any plan every session but the scratch still holds each of its links at the same index to the same window, that window is unchanged, the session shows what it showed, and no client is detached |
| `Convergence.StepsTakeOnlyTheirOwn` | phoenix-restore/src/plan.rs:406-459 | no step targets an index another window holds, save a `-k` link onto the placeholder this plan made and has not stamped; only the scratch is killed, with no client left on it |
| `Convergence.NoStepIsRefused` | phoenix-restore/src/apply.rs:64-72 | every prefix of a plan runs: tmux refuses none of its steps and no reference is looked up unbound |
| `Accepting.PlanIsAccepted` | tmux-control/src/protocol/encode.rs:40-79 | every command line of a plan can be made, whatever ids, clients and paths its steps meet, exactly when no session it acts on, no scratch it closes and no window it builds has a NUL in what must be said of it |
| `Accepting.CleanIsSayable` | phoenix-restore/src/plan.rs:160-175 | so a snapshot without a NUL can be restored onto anything, under the scratch name chosen for it |
| `Accepting.ANulCannotBeSent` | tmux-control/src/protocol/encode.rs:72-79 | a coherent snapshot with a NUL in a window name, whose plan cannot be sent |
| `Sending.StepIsAccepted` | phoenix-restore/src/apply.rs:105-255 | the command lines of one step, word for word, can all be made exactly when the step has no NUL to say |
| `Relaying.SentIsRun` | phoenix-restore/src/apply.rs:114-255 | a step sent, each command read by tmux for its name, flags and targets and each reply read for the ids it reports, does to the server and binds exactly what the step means, refusals included |
| `Relaying.UnsayableIsRefused` | tmux-control/src/commands/target.rs:21-30 | and is refused by every server when a session it names cannot be addressed or its layout reads as a flag |
| `Relaying.SentAllIsRun` | phoenix-restore/src/apply.rs:64-72 | so steps sent one after another are the steps run |
| `Conveying.SendingIsRunning` | phoenix-restore/src/apply.rs:64-72 | a restore sent command by command leaves any server, at every step, exactly as the plan says |
| `Conveying.SentPlanFinishes` | phoenix-restore/src/apply.rs:64-72 | tmux refuses no command a restore sends, and by its last the server is finished |
| `Conveying.PlanIsSayable` | phoenix-restore/src/plan.rs:375-476 | every step of a plan can be said, whatever its sessions are called, as long as no layout reads as a flag |
| `Conveying.ScratchIsAddressable` | phoenix-restore/src/plan.rs:160-175 | the scratch a restore makes can be addressed |
| `Obeying.SessionReads` | tmux-control/src/commands/target.rs:50-68 | a session's target resolves to exactly that session precisely when its name is one `SessionName::parse` takes, and to nothing exact otherwise |
| `Obeying.IndexReads` | tmux-control/src/commands/target.rs:92-104 | likewise the target of a window by its place |
| `Relaying.LinesSayTheirWords` | tmux-control/src/protocol/encode.rs:40-48 | each command of a step is one line that tmux's lexer reads back as the words it was made of |
| `Relaying.MarkReads` | phoenix-core/src/provenance.rs:89-107 | a window's mark reads back as its generation and saved window |
| `Relaying.SessionIsLearned` | tmux-control/src/commands/create.rs:105-120 | the line `new-session` reports reads back as the ids it made |
| `Relaying.SwitchingIs` | phoenix-restore/src/apply.rs:232-248 | the clients listed, each then switched, are exactly those the step is to move |
| `Relaying.ReplayLexes` | phoenix-restore/src/apply.rs:180-197 | to the shell the replay line is two commands on the file it was given: print it, then remove it |
| `Relaying.RelaunchLexes` | phoenix-restore/src/step.rs:157-171 | to the shell a relaunch line is one command, its words the saved arguments |
| `Convergence.StampMeansWhole` | phoenix-restore/src/plan.rs:478-541 | wherever a restore stops, a window it stamped has the saved name, panes in saved order and place, scrollback then program typed under the saved layout, and the saved active pane; no live window was that window before, and no two carry one stamp |
| `Convergence.CutShortIsReady` | phoenix-restore/src/plan.rs:180-212 | the assumptions a restore starts under (one live window per saved window and back, fresh ids) hold again wherever one was cut short |
| `Planner.PresentExactly` | phoenix-restore/src/plan.rs:263-275 | a saved window is taken for a live one only by this generation's stamp, or by its own id on the very server incarnation recorded, and is absent only when no live window has either |
| `Resuming.InterruptionsKeepReady` | phoenix-restore/src/plan.rs:180-212 | every server along any sequence of interrupted restores is one a restore can start on, derived from the first alone |
| `Resuming.OpenedIsReady` | tmux-control/src/client/connection.rs:173-193 | a connection attached, or attached to a scratch of a name no saved session has, leaves a server a restore can start on, and the scratch is nobody's |
| `Resuming.SwitchingLosesNoClient` | phoenix-restore/src/apply.rs:232-248 | stopped between one client and the next, a restore has detached no client and moved none but the scratch's |
| `Targeting.ScratchStaysOwn` | phoenix-restore/src/plan.rs:160-175 | wherever a restore stops with its scratch still there, the scratch is still a session the snapshot lacks, holding no window that is a saved one |
| `Convergence.RestoreFinishes` | phoenix-restore/src/plan.rs:180-212 | a plan applied in full finishes the restore, and the scratch is gone whenever some saved session can be targeted |
| `Convergence.MarkMeansFinished` | phoenix-restore/src/plan.rs:186-204 | a restore that starts without its generation's mark leaves the mark, wherever it stops, only on a server it has finished |
| `Convergence.SessionSteps` | phoenix-restore/src/plan.rs:375-476 | on a server that carries the generation's mark, with no scratch left to close, one session contributes no step exactly when it is live and lacks no link |
| `Convergence.LacksNothingWhenComplete` | phoenix-restore/src/plan.rs:289-351 | a live session lacks nothing exactly when it has at least as many links to each saved window as were saved |
| `Previewing.UnstampedIsReady` | phoenix-restore/src/plan.rs:263-275 | a server with no window stamped by this generation is one a restore can start on, so the assumptions hold the first time |
| `Previewing.ConvergesFromUnstamped` | phoenix-restore/src/plan.rs:180-212 | convergence and whole stamps from such a server, with the capture to plan from and the server left constructed rather than assumed |
| `Previewing.CaptureExists` | phoenix-restore/src/plan.rs:180-212 | every server state has a capture, so no theorem over captures is vacuous |
| `Previewing.PreviewIsThePlan` | phoenix-restore/src/plan.rs:34-79 | previewed with no server up, the plan is step for step the plan made after the scratch session exists |
| `Previewing.SessionMarkExactly` | phoenix-restore/src/plan.rs:461-475 | after a full restore, over either kind of connection, a session carries `@phoenix-restored` exactly when the server was unmarked at the start, or the session was incomplete, or the scratch's clients were moved onto it, or it carried the mark already |
| `Targeting.StoppedBeforeItsMark` | phoenix-restore/src/plan.rs:461-475 | a restore onto a marked server that has lost the last saved session, stopped one step short, leaves the session complete and unmarked, and every later plan empty |
| `Targeting.AFinishedSessionCanStayUnmarked` | phoenix-restore/src/plan.rs:31-34 | a concrete restore cut short that does so, against the promise that every finished session is marked |
| `Scoping.PlanIsWellScoped` | phoenix-restore/src/plan.rs:248-260 | every plan, onto anything, defines each window and pane reference in exactly one step and uses it only in later ones |
| `Scoping.LookupsNeverFail` | phoenix-restore/src/apply.rs:74-95 | applying any prefix of a plan to any server never looks up an unbound reference |
| `Matching.GreedyIsOptimal` | phoenix-restore/src/plan.rs:289-351 | for each live window the two greedy passes answer exactly min(wanted links, live links), so what is missing is max(0, saved minus live) |
| `Matching.ExactIsMatched` | phoenix-restore/src/plan.rs:299-308 | a saved link whose live link sits at the very index is always matched |
| `Matching.PairConserves` | phoenix-restore/src/plan.rs:240-246 | each live link is claimed at most once: claimed plus left over is what there was |
| `Matching.FreeFrom` | phoenix-restore/src/plan.rs:230-237 | the index found is free, at or above the one asked for, and every index between is taken |
| `Matching.ExhaustsExactly` | phoenix-restore/src/plan.rs:230-237 | the index found passes `u32`, which is where the code panics, exactly when every index from the one asked for up is taken, and never while more are left than are taken |
| `Matching.LandListsUnanswered` | phoenix-restore/src/plan.rs:335-350 | the missing links are exactly the unanswered saved links, in order |
| `Matching.LandLandsWell` | phoenix-restore/src/plan.rs:326-350 | each unanswered link keeps its saved index when that is free on the server, and is otherwise given the least one above that is neither live, wanted, nor given out before |
| `Matching.LandingsAreFree` | phoenix-restore/src/plan.rs:326-350 | landing indices are pairwise distinct and disjoint from live ones |
| `Claiming.EarlierIsAnswered` | phoenix-restore/src/plan.rs:289-325 | saved links are answered in the order they were saved: one is passed over for a later one of its window only where the later has its own link at its own index |
| `Claiming.EarlierIsClaimed` | phoenix-restore/src/plan.rs:289-325 | live links are claimed in the order they are listed: one is passed over for a later one of its window only where a saved link has the later's very index |
| `Furnishing.FurnishRuns` | phoenix-restore/src/plan.rs:483-541 | running one window's group keeps every prefix safe, touches nothing else on the server, and ends with the window stamped |
| `Restoring.SessionRuns` | phoenix-restore/src/plan.rs:375-476 | the steps for one session run from any reachable state and leave it settled: complete, each link it lacked at its index holding its own window and no other link gained, showing its active window if made here, and marked when owed |
| `Restoring.FillRuns` | phoenix-restore/src/plan.rs:406-459 | making the session if need be, closing the scratch and adding every lacking link leaves each lacking link at its index, holding its saved window, and gains the session no other |
| `Counting.LacksMakeUp` | phoenix-restore/src/plan.rs:289-351 | the links a session lacks to a window plus those it has are at least those saved |
| `Counting.DoneLacksNothing` | phoenix-restore/src/plan.rs:289-351 | a complete session lacks nothing |
| `Scratch.ScratchIsNotSaved` | phoenix-restore/src/plan.rs:160-175 | the scratch name is the first candidate no saved session has |
| `Drafting.FreeFrom` | phoenix-restore/src/plan.rs:230-237 | the loop finds the specified index and takes it |
| `Drafting.Claim` | phoenix-restore/src/plan.rs:239-246 | removes the first accepted link and says whether there was one |
| `Drafting.Drafter.PairUp` | phoenix-restore/src/plan.rs:297-309 | the two passes in place compute the specified matching |
| `Drafting.Drafter.LandMissing` | phoenix-restore/src/plan.rs:326-351 | the landing loop in place computes the specified landings and notes |
| `Drafting.Drafter.Lacking` | phoenix-restore/src/plan.rs:289-351 | what the session lacks and every note, as specified |
| `Drafting.Drafter.CloseScratch` | phoenix-restore/src/plan.rs:359-372 | takes the scratch and appends the two steps that remove it, once |
| `Drafting.Drafter.Furnish` | phoenix-restore/src/plan.rs:483-541 | appends a window's group and records the window as built |
| `Drafting.Drafter.FillSession` | phoenix-restore/src/plan.rs:406-459 | appends what makes and fills a session, placeholder included |
| `Drafting.Drafter.Session` | phoenix-restore/src/plan.rs:375-476 | appends every step for one session, in order, and its mark |
| `Drafting.Plan` | phoenix-restore/src/plan.rs:180-212 | the drafter run over every session is the plan all the theorems are about |
| `Running.Applier.Run` | phoenix-restore/src/apply.rs:114-255 | one step in place is the specified transition, or a refusal that changes nothing |
| `Running.Applier.SwitchAll` | phoenix-restore/src/apply.rs:232-248 | the loop moves every client listed on the session and no other |
| `Running.Applier.Apply` | phoenix-restore/src/apply.rs:64-72 | all steps in order, or the index of the first refused with exactly the steps before it applied |
| `Running.RefusedStops` | phoenix-restore/src/apply.rs:64-72 | a refused prefix refuses the whole |
| `Snapshots.WindowNewAdmits` | phoenix-core/src/snapshot.rs:165-189 | `Window::new` accepts exactly windows with distinct pane indices one of which is active |
| `Snapshots.SessionNewAdmits` | phoenix-core/src/snapshot.rs:249-281 | `Session::new` accepts exactly sessions with distinct indices holding the active and any last |
| `Snapshots.SnapshotNewAdmits` | phoenix-core/src/snapshot.rs:365-415 | `Snapshot::new` accepts exactly graphs with distinct ids and names, no dangling link, no orphan window and no stray client |
| `Refusing.WindowRefused` | phoenix-core/src/snapshot.rs:165-189 | what `Window::new` refuses with: the index first repeated, or else the active index nothing is at |
| `Refusing.SessionRefused` | phoenix-core/src/snapshot.rs:249-281 | what `Session::new` refuses with: the index first repeated, or else the active, or else the last, that nothing is at |
| `Refusing.SnapshotRefused` | phoenix-core/src/snapshot.rs:365-415 | what `Snapshot::new` refuses with, the first fault in the order it looks, each the earliest of its kind |
| `Bytes.BytesRoundExactly` | phoenix-store/src/binary.rs:40-47 | a length-prefixed run comes back exactly when its length fits a `u32` |
| `Bytes.Writer.WriteVec` | phoenix-store/src/binary.rs:49-54 | the loop appends the count and each item |
| `Bytes.Reader.TakeBytes` | phoenix-store/src/binary.rs:67-72 | the cursor passes exactly the bytes taken, or stays in the buffer |
| `Bytes.Reader.ReadStr` | phoenix-store/src/binary.rs:98-103 | a length-prefixed run that is UTF-8 (section 4 of RFC 3629), or the error |
| `Checksum.Fnv1a64` | phoenix-store/src/checksum.rs:9-16 | the running hash is the specified fold |
| `Checksum.OneByteIsCaught` | phoenix-store/src/checksum.rs:9-16 | changing any single byte always changes the checksum |
| `Checksum.StepInjective` | phoenix-store/src/checksum.rs:12-13 | one xor-and-multiply loses nothing: equal results from equal hashes mean equal bytes, and the reverse |
| `Checksum.HashContent` | phoenix-store/src/checksum.rs:31-45 | both halves in one array are the specified key |
| `Checksum.PutKeeps` | phoenix-store/src/blob_store.rs:41-61 | a put keeps every blob and the store sound, and keeps the content exactly when no other content has its key |
| `Codec.PaneRounds` | phoenix-store/src/codec.rs:113-147 | a pane decodes from what was written for it, whatever follows |
| `Codec.PaneBacks` | phoenix-store/src/codec.rs:329-367 | whatever pane the decoder accepts is in range and is the bytes the encoder writes for it |
| `Body.BodyRounds` | phoenix-store/src/codec.rs:25-48 | a whole body decodes to the snapshot written |
| `Body.BodyBacks` | phoenix-store/src/codec.rs:252-291 | a whole body the decoder accepts is the encoding of the valid snapshot it gives |
| `Stored.PutBlobsKeeps` | phoenix-store/src/blob_store.rs:41-61 | every text put can be got back exactly when no two keys collide |
| `Stored.BodyOkIs` | phoenix-store/src/codec.rs:252-291 | a body can be decoded exactly for a valid snapshot within the bounds whose texts the store keeps |
| `Encoding.BlobStore.Add` | phoenix-store/src/blob_store.rs:41-61 | adds the content under its key unless one is there |
| `Encoding.BlobStore.Get` | phoenix-store/src/blob_store.rs:63-71 | the blob, or not found |
| `Encoding.EncodePane` | phoenix-store/src/codec.rs:113-147 | appends exactly the specified bytes, and puts exactly the specified blobs |
| `Encoding.EncodeWindow` | phoenix-store/src/codec.rs:62-81 | appends exactly the specified bytes, and puts exactly the specified blobs |
| `Encoding.EncodeSession` | phoenix-store/src/codec.rs:50-60 | appends exactly the specified bytes, and puts exactly the specified blobs |
| `Encoding.EncodeBody` | phoenix-store/src/codec.rs:25-48 | appends exactly the specified bytes, and puts exactly the specified blobs |
| `Encoding.EncodeFile` | phoenix-store/src/header.rs:52-87 | writes exactly the specified file and puts its blobs |
| `Decoding.DecodePane` | phoenix-store/src/codec.rs:329-367 | reads what the specification finds in the bytes left, moving the cursor past it, or fails with its error |
| `Decoding.DecodeWindow` | phoenix-store/src/codec.rs:307-327 | reads what the specification finds in the bytes left, moving the cursor past it, or fails with its error |
| `Decoding.DecodeSession` | phoenix-store/src/codec.rs:293-305 | reads what the specification finds in the bytes left, moving the cursor past it, or fails with its error |
| `Decoding.DecodeBody` | phoenix-store/src/codec.rs:252-291 | reads what the specification finds in the bytes left, moving the cursor past it, or fails with its error |
| `Decoding.ReadHeader` | phoenix-store/src/header.rs:129-178 | reads the header the specification finds |
| `Header.FileRounds` | phoenix-store/src/header.rs:182-195 | every valid snapshot and tag within the bounds decodes from its file to itself, from any blob store that keeps its texts |
| `Header.FileRoundsLater` | phoenix-store/src/header.rs:52-87 | encoded against one blob store, it decodes against any later state of it |
| `Header.FileBacks` | phoenix-store/src/header.rs:182-195 | every current-format file the decoder accepts is byte for byte what the encoder writes for the snapshot and tag it gives |
| `Header.HeaderRounds` | phoenix-store/src/header.rs:59-79 | a header decodes to the fields it was written from |
| `Header.HeaderBacks` | phoenix-store/src/header.rs:129-178 | an accepted header is the encoding of its fields |
| `Header.CutIsCaught` | phoenix-store/src/header.rs:99-195 | every proper prefix of an encoded file is refused as truncated |
| `Header.AdditionIsCaught` | phoenix-store/src/header.rs:182-188 | every proper extension of an encoded file is refused as truncated |
| `Header.ChangeIsCaught` | phoenix-store/src/header.rs:189-191 | any one byte of the body changed is a checksum mismatch |
| `Header.OlderHeaderExactly` | phoenix-store/src/header.rs:114-127 | where each field of the older format's header is, and how its numbers are spelt |
| `Header.WrongStartIsRefused` | phoenix-store/src/header.rs:99-112 | what each wrong start of a file is refused as |
| `KnownBytes.FileWritten` | phoenix-store/src/header.rs:52-87 | the bytes of a file, field by field |
| `KnownBytes.UntaggedFileWritten` | phoenix-store/src/header.rs:52-87 | the same with no tag and no origin |
| `KnownBytes.BodyWritten` | phoenix-store/src/codec.rs:25-48 | the bytes of a body, field by field |
| `KnownBytes.WindowWritten` | phoenix-store/src/codec.rs:62-81 | the bytes of a window |
| `KnownBytes.SessionWritten` | phoenix-store/src/codec.rs:50-60 | the bytes of a session, with a group and a last window and without |
| `KnownBytes.PaneWritten` | phoenix-store/src/codec.rs:113-147 | the bytes of a pane |
| `KnownBytes.CaptureWritten` | phoenix-store/src/codec.rs:133-145 | the bytes of captured content, its texts by their keys |
| `KnownBytes.ReasonsWritten` | phoenix-store/src/codec.rs:149-183 | the bytes of each reason something was not to be had |
| `KnownBytes.LinesWritten` | phoenix-store/src/codec.rs:195-199 | the bytes of a text |
| `KnownBytes.SmallNumbers` | phoenix-store/src/binary.rs:20-38 | numbers are little-endian |
| `KnownBytes.KnownSums` | phoenix-store/src/checksum.rs:6-16 | the published FNV-1a values of no bytes and of the letter `a` |
| `KnownBytes.KeyWritten` | phoenix-store/src/checksum.rs:31-45 | a key is the checksum of the text and the checksum of the salted text |
| `KnownBytes.UnknownTags` | phoenix-store/src/codec.rs:95-193 | each unknown tag is refused under the name of what it would have been |
| `KnownBytes.BadParts` | phoenix-store/src/codec.rs:201-216 | what a text that is not UTF-8, an empty name, an empty list and a missing text are refused as |
| `Generations.NextId` | phoenix-store/src/store.rs:370-381 | the least id above the newest and no lower than the capture time, failing only when no id is left |
| `Generations.SkippedAreDoomed` | phoenix-store/src/store.rs:386-397 | skipping the newest `keep` untagged is deleting exactly the untagged with at least `keep` newer untagged ones |
| `Generations.DoomedIffUntagged` | phoenix-store/src/store.rs:386-397 | from the headers alone: a generation is one to delete exactly when its header is read and has no tag, and at least `keep` newer ones are so |
| `Generations.NewestIsKept` | phoenix-store/src/store.rs:386-397 | a prune never takes the newest generation |
| `Generations.Existing` | phoenix-store/src/store.rs:165-171 | the readable generations with their tags, newest first, and the unreadable ones |
| `Generations.Store.Save` | phoenix-store/src/store.rs:146-213 | publishes the file under the next id; gone is exactly each generation whose header is read and has no tag, with at least `keep` newer ones so, that could be deleted, and the rest is unchanged; a failure writes nothing |
| `Generations.Store.Prune` | phoenix-store/src/store.rs:386-397 | removes exactly each generation whose header is read and has no tag, with at least `keep` newer ones so, that could be deleted, changes no other, and reports both kinds |
| `Saving.NoTornRead` | phoenix-store/src/store.rs:266-277 | over every interleaving of savers, crashes and readers, equal id listings around a read mean the store never changed in between and every file opened is as it stands |
| `Saving.LatestIsOfOneState` | phoenix-store/src/store.rs:281-287 | of a read that stands: when it listed nothing the store was empty all along, and when it listed something its look at the newest listed found that very generation, which is still the newest |
| `Saving.IdsRise` | phoenix-store/src/store.rs:152-160 | each published id is above every id published before and every one present, whatever the clocks |
| `Saving.SaveLeavesRetained` | phoenix-store/src/store.rs:186-204 | a save that ends, whatever others do from its publishing to then, leaves the store as it was when it published less exactly each generation whose header is read and has no tag, with at least `keep` newer ones so, whose deletion did not fail; its own is the newest |
| `Saving.SavedDecodes` | phoenix-store/src/store.rs:172-186 | a crash at any step leaves only whole generations: each published one, while it is there, decodes to the snapshot and tag saved |
| `Saving.NamedStays` | phoenix-store/src/store.rs:386-397 | no run ever removes or rewrites a generation whose header has a tag or cannot be read |
| `Saving.TaggedStays` | phoenix-store/src/store.rs:386-397 | a generation saved under a tag is there, as it was written, after any run that follows |
| `Saving.ReadsEndTrue` | phoenix-store/src/store.rs:266-277 | a read is over only when its ids have not moved, and then all it opened is what the store holds |
| `Saving.NewestSavedStays` | phoenix-store/src/store.rs:386-397 | after any run that published, cut off or not, the greatest id published is the newest in the store and decodes to the snapshot and tag saved under it |
| `Saving.SavedStays` | phoenix-store/src/store.rs:146-213 | the record of published generations only grows |
| `Framing.Codec.Feed` | tmux-control/src/protocol/codec.rs:43-68 | one pass of the cursor gives the specified messages and state |
| `Framing.Codec.ProcessLine` | tmux-control/src/protocol/codec.rs:76-132 | one line is the specified message, and opens or closes the block as specified |
| `Framing.ChunksMakeNoDifference` | tmux-control/src/protocol/codec.rs:43-68 | for every cut of a stream into chunks the messages and final state are those of the whole fed at once |
| `Framing.LinesOfUnlines` | tmux-control/src/protocol/codec.rs:56-66 | the line reader undoes joining lines at line feeds |
| `Framing.OneMessagePerLf` | tmux-control/src/protocol/codec.rs:43-68 | exactly one message for each line feed |
| `Framing.BlocksArePure` | tmux-control/src/protocol/codec.rs:95-108 | for arbitrary bytes, between a begin and its settling message there is only output under that command number |
| `Framing.TerminatorCloses` | tmux-control/src/protocol/codec.rs:91-130 | an open block closes on exactly the lines that look like its terminator, malformed ones included; every other is output |
| `Blocks.Demux.Route` | tmux-control/src/client/demux.rs:40-79 | routes one message as specified, taking or clearing the lines |
| `Blocks.GuardArgsAreParsed` | tmux-control/src/protocol/message.rs:241-251 | a written guard parses back |
| `Blocks.DecimalIsParsed` | tmux-control/src/protocol/fields.rs:58-64 | a written number parses back |
| `KnownWire.NumbersFit` | tmux-control/src/protocol/fields.rs:58-64 | a number parses exactly up to the largest the code holds it in |
| `KnownWire.OnlyDigits` | tmux-control/src/protocol/fields.rs:54-64 | and nothing but a run of digits is one |
| `KnownWire.PlainIsUnknown` | tmux-control/src/protocol/codec.rs:76-132 | outside a block, a line with no word after a percent sign is unknown, however notifications are read |
| `KnownWire.NoticesExactly` | tmux-control/src/protocol/codec.rs:76-132 | and any other line but a guard is what its word and the rest of it are read as, or else unknown |
| `Blocks.StreamComesBack` | tmux-control/src/client/demux.rs:40-79 | any run of reply blocks and notifications, however the bytes are cut, comes back as the same replies with the same lines and the same notifications, in order |
| `Blocks.CrlfMakesNoDifference` | tmux-control/src/protocol/codec.rs:34-42 | lines that end CR LF parse as lines that end LF |
| `Outputs.PaneBytesArrive` | tmux-control/src/protocol/message.rs:253-258 | whatever bytes a pane writes, escaped on the wire and cut anywhere, are what is handed on for that pane |
| `KnownWire.KnownBlock` | tmux-control/src/protocol/codec.rs:76-132 | the bytes of a reply block: opened by `%begin`, an answer when `%end` settles it and an error when `%error` does |
| `KnownWire.TerminatorsAre` | tmux-control/src/protocol/codec.rs:91-93 | which lines settle a block, spelt out |
| `KnownWire.BadTerminator` | tmux-control/src/client/demux.rs:64-72 | a settling line that is no guard closes the block as an error of the protocol, and what it had said is dropped |
| `KnownWire.KnownOutput` | tmux-control/src/protocol/message.rs:253-258 | how pane output names its pane |
| `Octal.DecodeOctal` | tmux-control/src/protocol/decode.rs:26-70 | the loop ends, and decodes as specified |
| `Octal.Escape` | tmux-control/src/protocol/decode.rs:41-62 | reads up to three digits over any CR, stepping back off the byte that is not one |
| `Octal.DecodeUndoesEscape` | tmux-control/src/protocol/decode.rs:26-70 | decoding undoes the wire's escaping for every byte sequence |
| `Octal.DecodeIgnoresCr` | tmux-control/src/protocol/decode.rs:46-48 | decoding any input is decoding it with every CR removed |
| `Octal.OutputSurvivesCr` | tmux-control/src/protocol/decode.rs:26-70 | so escaped bytes survive any CRs added to them |
| `KnownWire.OctalOutput` | tmux-control/src/protocol/decode.rs:41-66 | three octal digits are their byte, or a question mark beyond the largest |
| `KnownWire.MalformedOutput` | tmux-control/src/protocol/decode.rs:52-66 | an escape cut short is a question mark, and reading goes on from what cut it |
| `KnownWire.PlainOutput` | tmux-control/src/protocol/decode.rs:36-39 | a raw control byte is dropped, and any other byte but a backslash is itself |
| `CommandLines.Escape` | tmux-control/src/protocol/encode.rs:72-95 | one argument to its token as specified, or none for a NUL |
| `CommandLines.New` | tmux-control/src/protocol/encode.rs:40-48 | the specified line, or the first argument that holds a NUL |
| `CommandLines.LineReads` | tmux-control/src/protocol/encode.rs:66-118 | for all NUL-free words tmux's lexer reads the line back as exactly them, with no expansion, separator or second command |
| `CommandLines.TokenReads` | tmux-control/src/protocol/encode.rs:72-95 | one token is read as the argument it encodes |
| `CommandLines.LineIsOneLine` | tmux-control/src/protocol/encode.rs:21-27 | the line has exactly one newline, its last byte |
| `CommandLines.LineRefuses` | tmux-control/src/protocol/encode.rs:72-77 | refused exactly when a word holds a NUL, naming the first |
| `CommandLines.RelaunchReads` | phoenix-restore/src/step.rs:157-171 | single-quote splitting gives back the argument list a relaunch line was built from |
| `CommandLines.RelaunchArrives` | phoenix-restore/src/apply.rs:257-261 | through both parsers a relaunched program gets its saved arguments unchanged |
| `Connections.GreetLink` | tmux-control/src/client/connection.rs:406-433 | reads as far as the first reply, keeping the rest in order |
| `Connections.GreetsOnFirstReply` | tmux-control/src/client/connection.rs:406-433 | the greeting is the first reply the reads bring; the read that brings it is the last gone through, and everything else they brought is kept in order |
| `Connections.LostBeforeReply` | tmux-control/src/client/connection.rs:406-418 | reads that end with no reply among them lose the connection, with how they ended |
| `Connections.GreetingExactly` | tmux-control/src/client/connection.rs:419-427 | a reply that worked greets; an error of the one line `no sessions` means there are none; any other is refused |
| `Connections.ReadRouted` | tmux-control/src/client/connection.rs:440-458 | what one read holds, in order |
| `Connections.DeliveredExactly` | tmux-control/src/client/connection.rs:464-505 | for every split into reads and every interleaving the sink and the channel receive exactly the routed messages less the greeting, in order, with the ending last in each |
| `Connections.AnsweredInOrder` | tmux-control/src/client/connection.rs:266-320 | the nth call answered is answered by the nth block after the greeting |
| `Connections.CommandsAreAnswered` | tmux-control/src/client/connection.rs:266-334 | when the server settles one block per command no call closes the connection as out of step, and all commands but the one in flight are answered |
| `Connections.CloseIsFinal` | tmux-control/src/client/connection_state.rs:38-43 | the first recorded close reason never changes |
| `Connections.CloseSays` | tmux-control/src/client/connection.rs:117-131 | why a connection closes: an answer nothing asked for is a failure of the protocol, an ending is how the read ended, and with neither it was asked to or its reader is gone |
| `Connections.NeverVanished` | tmux-control/src/client/connection.rs:336-342 | a connection that is up always finds its reader's ending on the channel, so no call meets a vanished reader |
| `Disposing.CallsExactly` | tmux-control/src/client/connection.rs:266-291 | a call finds the way clear exactly when nothing waits on the channel, and then the reader is still reading; otherwise the connection closes and nothing is written |
| `Disposing.WritesExactly` | tmux-control/src/client/connection.rs:297-312 | over any run the commands written are the writes that worked before the input was closed, and no other |
| `Disposing.EndsExactly` | tmux-control/src/client/connection.rs:480-505 | how a read is said to have ended: as asked for when an abort or a close came before the step that ended it, and otherwise as that step found; nothing later changes it |
| `Clients.Client.NextReply` | tmux-control/src/client/mod.rs:231-247 | the oldest settled block, every read gone through to it fed and everything else dispatched in order; it fails only with how the reads ended, and closes with that reason |
| `Clients.Client.Execute` | tmux-control/src/client/mod.rs:260-274 | the reply handed out is the one next in arrival order, and only to a ready client with none waiting |
| `Clients.Client.ConsumeGreeting` | tmux-control/src/client/mod.rs:217-221 | the greeting answers no command |
| `Clients.Client.Reconnect` | tmux-control/src/client/mod.rs:171-178 | nothing of the last transport's stream is left |
| `Folding.GroupBy` | phoenix-capture/src/fold.rs:81-91 | one group per distinct key in order of first appearance, each holding exactly its items in order |
| `Folding.KeysAre` | phoenix-capture/src/fold.rs:81-91 | the keys are distinct and exactly those that occur |
| `Folding.OnlyOfIs` | phoenix-capture/src/fold.rs:81-91 | a group holds exactly the items with its key |
| `Folding.FoldSession` | phoenix-capture/src/fold.rs:114-140 | the loop computes the session `SessionFromRows` speaks of |
| `Tracing.SessionFromRows` | phoenix-capture/src/fold.rs:114-140 | name and group are the first row's; the links are, in order, the first row at each index; the active and the last window are the latest of those rows so flagged; it fails only when none is flagged active |
| `Folding.ReadPanes` | phoenix-capture/src/fold.rs:157-177 | each pane is read once, by its first row, in order |
| `Folding.FoldWindow` | phoenix-capture/src/fold.rs:146-191 | the window `WindowFromRows` speaks of, or its error, having read each of its panes once |
| `Tracing.WindowFromRows` | phoenix-capture/src/fold.rs:146-191 | id, mark, name, layout and zoom are the first row's; the panes are, in order, the first row of each with its reading; the active pane is the latest of those rows so flagged |
| `Tracing.WindowFoldsExactly` | phoenix-capture/src/fold.rs:146-191 | it succeeds exactly when the listing is not torn, every pane reads, some pane is flagged active, and no two panes share an index |
| `Tracing.WindowFailsWith` | phoenix-capture/src/fold.rs:151-183 | what it fails with: torn, or the earliest failed read, or no active pane |
| `Tracing.TornExactly` | phoenix-capture/src/fold.rs:151-158 | torn is some link missing a pane another lists |
| `Tracing.FoldFromRows` | phoenix-capture/src/fold.rs:93-112 | one session and one window for each the rows name, in order, each folded from all of its own rows |
| `Gathering.CountingFindsTorn` | phoenix-capture/src/fold.rs:151-158 | without repeated rows the counting test passes exactly when every link lists the same panes |
| `Gathering.FoldIsCoherent` | phoenix-capture/src/fold.rs:93-112 | a successful fold has valid windows and sessions, distinct ids and names, and no dangling link |
| `Gathering.OnlyOrphansAreRefused` | phoenix-capture/src/fold.rs:93-112 | `Snapshot::new` can refuse a folded graph only for an orphan window, and accepts exactly when every window leads some link |
| `Gathering.AgreedRowsAreAccepted` | phoenix-capture/src/fold.rs:93-112 | rows that agree on the window at each index always make an accepted snapshot |
| `Booting.StateOfIs` | phoenix-daemon/src/boot.rs:29-49 | a server counts as built exactly when a session is not a bootstrap one, and names exactly those |
| `Booting.BootstrapOnlyExactly` | phoenix-core/src/snapshot.rs:485-501 | bootstrap-only means every session has one link, to a window of one pane that a shell sits in |
| `Booting.ChosenExactly` | phoenix-daemon/src/boot.rs:165-232 | what connecting decides, case by case: keep, stay out with the names built, restore, wait, or refuse |
| `Booting.CarriedExactly` | phoenix-daemon/src/daemon.rs:285-342 | what a turn carries on: the last decision when nothing was attached to, the restored server settled, or what the run made of the decision |
| `Booting.Run` | phoenix-daemon/src/daemon.rs:209-262 | the loop advances the decision as `DeclinedExactly` and `SettledExactly` say |
| `Booting.DeclinedExactly` | phoenix-daemon/src/daemon.rs:228-252 | over the polls alone: a declined run is decided by its first dead link, refusal or save; a refusal that still holds every session boot named is a misreading, and any other, or a save, settles it |
| `Booting.SettledExactly` | phoenix-daemon/src/daemon.rs:228-252 | a settled run stays so, lost exactly when the link is found dead |
| `Booting.ASaveSettles` | phoenix-daemon/src/daemon.rs:228-236 | a save with no dead link and no misreading before it leaves the run settled |
| `Booting.RunResilient` | phoenix-daemon/src/daemon.rs:285-342 | what is carried between connections, as specified |
| `Booting.SettledStays` | phoenix-daemon/src/daemon.rs:228-252 | a settled run stays settled and never reports a misreading |
| `Booting.MisreadExactly` | phoenix-daemon/src/daemon.rs:238-248 | a run reports a misreading exactly when boot had declined and some capture was refused as bootstrap-only with every session it named still there, no poll before it having found the link dead, saved, or been refused |
| `Booting.ForgottenOnlyWhenMisread` | phoenix-daemon/src/daemon.rs:297-338 | a decision is dropped exactly then |
| `Booting.RestoresOnlyTheUnbuilt` | phoenix-daemon/src/boot.rs:170-228 | a restore runs only where there is no session, or only bootstrap ones on a server nothing was decided about |
| `Booting.SettledForGood` | phoenix-daemon/src/daemon.rs:297-338 | once a run on a server incarnation ends settled, no later turn that finds a session on it restores into it, and the decision stays |

## Left out

- Saving.NoTornRead: says nothing of a reader that never finishes; under endless saves the code's loop need not end, and liveness of reads and of waiting for the lock is not modelled.
- Matching.FreeFrom: indices are unbounded naturals, so the search goes on where the code panics; exactly when that is is `Matching.ExhaustsExactly`.
- Drafting.FreeFrom: likewise.
- Running.Applier.Run: writing a replay file and typing the line that reads it are one transition, since the file is no part of the server; switching clients is one transition there, and a stop between two of them is in `Resuming`.
- Convergence.NoStepIsRefused: counts refusals by tmux; the code's own, of a NUL in a command line, is `Accepting.PlanIsAccepted`, and a replay file that cannot be written is an I/O failure left out.
- Sending.StepIsAccepted: client names are text; one that is not UTF-8 ends the code's switch.
- Conveying.SendingIsRunning: assumes no saved layout begins with a dash, which tmux would take for a flag; that such a layout is refused is `Relaying.UnsayableIsRefused`, and tmux reports none.
- Relaying.SentIsRun: reads the targets, flags and reply formats the client's builders write, not the rest of tmux's command language.
- CommandLines.LineReads: the lexer is the one the encoder's own comments describe, and treats every bare special character as firing; locale-dependent name characters and `\u` escapes are outside it.
- Header.FileRounds: strings and counts beyond `u32` are written under the low 32 bits of their length by the code; that such a run does not come back is `Bytes.BytesRoundExactly`, and files holding one are outside the round trip.
- Booting.SettledForGood: a server replaced between the survey and the attach, which the code's own comments call out, is not modelled.
- Framing.Codec.Feed: an unknown line is kept as its bytes, not lossily converted to text; the parsers of notifications other than guards and pane output are an arbitrary function.
- Clients.Client.Reconnect: resets the codec and demultiplexer in place where the code makes new ones.
- Decoding of the format before the current one (`phoenix-store/src/codec_v1.rs`) is an arbitrary function of the body; its header is modelled.
- Filesystem detail: fsync, permissions, temporary names, retiring the old `latest` link, and I/O failures other than a deletion that fails.
- File names: two files whose names parse to one id are one generation here.
- Process spawning, pipes, kill handles, and reading what a pane runs.
- What tmux does beyond the transitions stated: geometry, `renumber-windows`, session groups, hooks, and when a shell reads what was typed.
- The text of marks and of error and log messages, and parsing options and rows from tmux's output.
- Retrying, debouncing and timing in the daemon, and its structure subscription.
- Command-line parsing, service files and JSON inspection.
