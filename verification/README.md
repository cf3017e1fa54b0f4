# yank, verified

`yank` keeps one clipboard on several machines, with no server. This project
models the parts of it that decide: what a machine does with a copy, how
machines agree, how files follow a clip, and the small protocols between them.
Each part is stated twice. Once as the program has it: classes whose methods
change their fields, and loops. Once as a value: what a step makes of a state.
The methods are proved to do what the values say, and the properties are proved
of the values, over every run.

| file | what it is about |
|---|---|
| `Basics.dfy`, `Stamps.dfy` | options, bytes, the order of byte strings; stamps and their order |
| `Boards.dfy`, `Clipboard.dfy` | the clipboard of one machine: its operations as values, and the class that performs them |
| `ClipService.dfy` | effects performed on disk, compositor, peers and job queue; whole runs with restarts |
| `Replication.dfy`, `Convergence.dfy` | any number of machines over a network that loses, repeats and reorders |
| `Membership.dfy`, `MachineNames.dfy`, `Gossip.dfy` | the versioned register per machine, its merge, the names it takes, and gossip; the store that commits changes |
| `Serving.dfy`, `Mime.dfy`, `UriList.dfy`, `Copies.dfy` | what is offered to the compositor, types, file lists, manifests and size limits |
| `Spool.dfy` | content by hash, partial transfers, trees of links |
| `Wire.dfy`, `ClipCodec.dfy` | framing, sizes, and a clip written and read back |
| `ContentStream.dfy`, `Pulls.dfy` | many files on one stream; fetching from one peer after another |
| `FileService.dfy`, `JobLoop.dfy`, `FileSharing.dfy` | the job queue and the fetch task next to everything that happens meanwhile; the manifests that come of it, and what sweeps leave |
| `Landing.dfy`, `LateLanding.dfy` | files laid out where the clip says and offered by paths that lead to them; files that land too late |
| `TieBreak.dfy` | two machines dialling each other |
| `Pairing.dfy` | one-time tickets and who saves whom when |
| `ReadSelection.dfy` | reading every type of a selection at once within a budget |

Hashes are taken to be injective: a hash is written as the content it names, or
as one no content has. Endpoint ids are natural numbers, only ever compared.
Every reading of a clock is an arbitrary value, one for each place the code
reads it, tied to no other. A change and its save are one step, since effects
are performed under the board's lock, and saving succeeds.

## Where the code falls short of what it says

- `validate` (`src/files/mod.rs:136-154`) compares sorted neighbours, and `.`
  sorts before `/`: `Spool.NeighboursMissAFolder` is a manifest it accepts
  though one file is in the place of another's folder. `Files.ValidateExactly`
  says what passes, and `Files.ValidateMisses` exactly when what passes cannot
  be laid out.
- `add_peer` (`src/config/mesh.rs:119-133`) can write a living record at the
  version ceiling, which `merge` refuses everywhere else:
  `Membership.LostRegistration`; `Membership.AdditionIsHeardBelowTheCeiling`
  gives the exact condition. What becomes of such a record over time:
  `Gossip.RefusedRecordsStay` and `Gossip.ConvergesIfItHears`.
- `uri_list` and `paths` (`src/files/mod.rs:160-180`) round trip exactly for
  absolute paths: `UriLists.UriListRoundTrips`.
- A secret's hint is announced twice exactly when the copy carried it as a type
  of its own: `Serving.SecretOfferRepeatsOnlyTheHint`, and such a copy in
  `Serving.HintAnnouncedTwice`.
- `read_selection` (`src/clip/wayland/mod.rs:623-631`) wants the first type
  whole, then drops it if it is empty: `ReadSelections.FirstTypeLeadsUnlessEmpty`.
- `materialized` (`src/clip/state.rs:270-277`) compares only stamps, so a tree
  can be noted on a clip whose copy has lapsed: `LateLandings.LateLandingsAreStale`
  gives the runs that end so, and `LateLandings.GoesStaleExactly`, over
  `Boards.TreesGoStale`, says exactly when it happens.

## Model

| member | source | states |
|---|---|---|
| Stamps.Next | src/clip/stamp.rs:39-46 | A new stamp carries its maker, comes after the one given and is not behind the clock; where it is ahead of the clock it is one millisecond past the one given |
| Stamps.NextReadsTheClock | src/clip/stamp.rs:39-46 | A new stamp says what the clock says, unless the one before it is not behind: then it is one millisecond past that one |
| Stamps.WallMillisExactly | src/clip/stamp.rs:39-46 | A reading is cut to whole milliseconds, and one before the epoch counts as zero |
| Stamps.PlausibleExactly | src/clip/stamp.rs:48-52 | A stamp is believed exactly up to five minutes ahead of the clock |
| Stamps.OrderIsTotal | src/clip/stamp.rs:27-34 | Stamps are strictly and totally ordered, so every machine picks the same newest one |
| Stamps.StampNamesDiffer | src/clip/stamp.rs:61-67 | No two stamps go by one name on disk |
| Clipboards.Clipboard.constructor | src/clip/state.rs:76-96 | Resuming sets the saved clip, drops it if it lapsed, and leaves the board of `Resume` |
| Clipboards.Clipboard.Saved | src/clip/state.rs:98-106 | What goes to disk is the clip, a secret only as an emptied clip |
| Clipboards.Clipboard.Copying | src/clip/state.rs:145-172 | A local copy is refused when empty, over the limit or malformed, and nothing changes then; else the board and the effects are those of `Board.Copying` |
| Clipboards.Clipboard.Capturing | src/clip/state.rs:178-216 | A captured selection: every way it is dropped, recognised or recorded, with the new fields and the effects |
| Clipboards.Clipboard.Accepting | src/clip/state.rs:219-242 | A pulled clip: the four refusals in the order they are checked, and the state and effects otherwise |
| Clipboards.Clipboard.Clearing | src/clip/state.rs:245-252 | Clearing replaces the clip by an emptied one with a newer stamp |
| Clipboards.Clipboard.Expiring | src/clip/state.rs:258-264 | Expiring drops a lapsed copy and says so, and does nothing otherwise |
| Clipboards.Clipboard.Materializing | src/clip/state.rs:270-277 | Files that landed are offered again if the stamp is still the head, and only then |
| Clipboards.Clipboard.Lapse | src/clip/state.rs:280-288 | A copy past its deadline is dropped, keeping the stamp |
| Clipboards.Clipboard.Replace | src/clip/state.rs:290-300 | A clip of this machine gets a stamp after the head |
| Clipboards.Clipboard.Set | src/clip/state.rs:302-311 | Setting a clip renews the deadline and forgets what was served and laid out |
| Clipboards.Clipboard.Apply | src/clip/state.rs:314-355 | What the compositor is sent for a clip that changed, and what is remembered of it |
| Clipboards.Clipboard.FitSelection | src/clip/state.rs:376-386 | The loop that pops alternates computes `Fit` |
| Boards.FitIsTheLongestPrefix | src/clip/state.rs:376-386 | What is kept is the longest run of best representations under the cap, and nothing exactly where the first of them is already too long |
| Boards.DoMovesTheClip | src/clip/state.rs:145-311 | Every operation does one of three things to the clip: makes one stamped after the head, adopts the one offered, or at most empties it |
| Boards.HeadNeverGoesBack | src/clip/state.rs:219-311 | The head only moves forward, an unchanged stamp never regains a copy, and the head moves exactly when a clip is made or adopted |
| Boards.CoherentKept | src/clip/state.rs:145-355 | Every operation keeps the ties between `clip`, `expires`, `applied` and `served` |
| Boards.ResumeIsCoherent | src/clip/state.rs:76-96 | They hold after a restart, which keeps the clip or empties it |
| Boards.ChangesReachTheCompositor | src/clip/state.rs:314-355 | Every change that is not a capture sends exactly the one command that matches the new clip, none from empty to empty; captures send nothing |
| Boards.OffersAreRemembered | src/clip/state.rs:335-350 | The payload offered first is the one remembered as served |
| Boards.ServedIsKept | src/clip/state.rs:302-355 | While the clip stays and is not offered anew, what was served is not forgotten |
| Boards.TreesGoStale | src/clip/state.rs:270-277 | A tree is noted on a clip with no copy exactly when files land for a clip whose copy is gone, and stays until the head moves |
| Boards.EchoIsNotACopy | src/clip/state.rs:186-198 | A selection that leads with the copy's own primary, or with what was last served, asks for nothing and leaves the clip |
| Boards.CapturesAreRecorded | src/clip/state.rs:178-216 | A captured selection becomes the clip if and only if capturing is on, its primary fits, it is neither what the copy leads with nor what was last served, and the copy passes; the copy is then the longest fitting prefix, the files, the secret flag as captured, and the default lifetime exactly for a secret |
| Boards.CopiesAreRecorded | src/clip/state.rs:145-172 | What is copied becomes the clip if and only if it is not empty, within the limit, and passes: that selection, those files, secret or not, for the lifetime asked for |
| Boards.AcceptedIsTheClip | src/clip/state.rs:219-242 | A pulled clip becomes the clip, whole unless it has run out, if and only if it is newer, of another machine, plausible and well formed; else nothing changes |
| Boards.ClearingEmpties | src/clip/state.rs:245-252 | Clearing leaves a newer clip with no copy and no deadline |
| Boards.FetchesExactly | src/clip/state.rs:314-355 | Files are asked for if and only if a clip that names some was just taken over and is held, with files shared and the clipboard kept |
| Boards.UnfetchedFilesAreText | src/clip/state.rs:364-370 | What reaches the compositor for a foreign clip whose files are not here names no file |
| Serving.ServeEach | src/clip/state.rs:452-470 | The loop announces each payload under the names nothing before it took, and skips one with none left: `ServesOfAll` |
| Serving.MakeServes | src/clip/state.rs:452-470 | Given the names of each representation, best first, it computes `ServesOf` |
| Serving.ServesAreFaithful | src/clip/state.rs:452-470 | No type is announced twice and none of the lists is empty; what is announced is exactly the names of the representations, and each name comes with the bytes of the best one it stands for, the primary's leading |
| Serving.AnnouncedExactly | src/clip/state.rs:452-470 | A type is announced if and only if some representation goes by it |
| Serving.BestGivesTheBytes | src/clip/state.rs:452-470 | A type several representations go by is served by the first of them, so by the best |
| Serving.ForeignPathsAreNotOffered | src/clip/state.rs:402-425 | A machine that neither made the clip nor laid it out offers no file-naming type |
| Serving.OnlyTreePathsAreOffered | src/clip/state.rs:431-448 | Once laid out, every file-naming payload is built from paths under the local tree, and reads back as exactly those |
| Serving.SecretOfferRepeatsOnlyTheHint | src/clip/state.rs:335-350 | Offered by whoever, laid out or not, a copy has a type announced twice exactly when it is secret and was copied with the hint among its own types |
| Serving.HintAnnouncedTwice | src/clip/state.rs:335-350 | A secret that `check` accepts, and whose offer announces the hint twice |
| Serving.SecretsAreHinted | src/clip/state.rs:335-350 | A secret is offered with the hint, and its payload says so |
| Serving.OwnCopiesAreOfferedWhole | src/clip/state.rs:388-400 | Where it was copied, every name of every representation is offered with the bytes of the best one going by it, and the primary leads |
| Serving.ForeignCopiesAreOfferedWhole | src/clip/state.rs:402-425 | Elsewhere, every name of every representation that is no list of files is offered, text included, with the bytes of the first of them going by it, and the first of them leads |
| Serving.ForeignListsAreOfferedAsText | src/clip/state.rs:402-425 | A copy of nothing but lists of files is offered as text: the list of URIs if there is one, else what it leads with |
| Serving.LaidOutFilesAreOffered | src/clip/state.rs:427-448 | Once laid out, the paths are offered as text, which leads, and as both kinds of lists |
| Serving.TheRestGoesAlong | src/clip/state.rs:427-448 | And so is every representation that is neither text nor a list of files, with its own bytes |
| Mime.Select | src/clip/mime.rs:90-114 | The chosen types start with the best, are bounded and distinct, and leave out nothing that qualifies while there is room |
| Mime.ChooseExactly | src/clip/mime.rs:116-139 | The type that names a selection is the best name of text among those offered, in any case, or else the first that is content |
| Mime.ExtrasExactly | src/clip/mime.rs:90-114 | Beside it, a type is taken exactly when it has a slash, is no name of text in any case, is not the mark of a copy made here, and is not ignored |
| Mime.Aliases | src/clip/mime.rs:144-157 | The names announced start with the type itself; the others are text names of a text type |
| Mime.AliasesExactly | src/clip/mime.rs:144-157 | The names of a type, exactly: itself, and for text that lists no files the other names of text, in order |
| Mime.AliasesDistinct | src/clip/mime.rs:144-157 | No name is announced twice for one payload |
| Mime.TextIsNotLocal | src/clip/mime.rs:161-184 | No name for text names a file |
| Mime.AliasesKeepLocality | src/clip/mime.rs:144-172 | Announcing a payload adds no file-naming type it was not carried as |
| UriLists.AppendEscaped | src/files/mod.rs:232-237 | The loop appends the escaped path and nothing else |
| UriLists.DecodeEscape | src/files/mod.rs:211-237 | Percent-decoding an escaped path gives every byte back |
| UriLists.PrintUriList | src/files/mod.rs:171-180 | The loop prints the list `UriList` stands for |
| UriLists.PrintGnome | src/files/mod.rs:188-197 | The loop prints the payload file managers read |
| UriLists.PrintText | src/files/mod.rs:200-208 | The loop prints one path a line |
| UriLists.EscapedExactly | src/files/mod.rs:232-237 | A byte that may stand in a URI stays, and any other becomes a percent sign and two capital digits |
| UriLists.EachOnItsLine | src/files/mod.rs:171-208 | A list of absolute paths is whole file URIs, a line each with a carriage return; the same behind a line that says copy; and the plain paths |
| UriLists.DigitsAreRead | src/files/mod.rs:211-229 | Escaped digits are read in either case |
| UriLists.OthersAreThemselves | src/files/mod.rs:211-229 | What is no escape is itself, a lone percent sign included |
| UriLists.LocalUris | src/files/mod.rs:211-229 | A file URI with no authority, an empty one or localhost leads to its path |
| UriLists.NoLocalUris | src/files/mod.rs:211-229 | One of another machine, with no path, or of another scheme leads nowhere |
| UriLists.OneLine | src/files/mod.rs:160-169 | A line is blank, a comment or a URI, with or without a carriage return |
| UriLists.LineByLine | src/files/mod.rs:160-169 | Lines are read in turn |
| UriLists.UriListRoundTrips | src/files/mod.rs:160-180 | Parsing a printed list gives the paths back, for any bytes, exactly when all of them are absolute |
| Copies.FileSelectionRoundTrips | src/clip/copy.rs:110-128 | The same through a selection made of files |
| Copies.FilePathsExactly | src/clip/copy.rs:122-128 | A selection names the files of its first list of URIs, the primary included, and none without one |
| Copies.CheckExactly | src/clip/copy.rs:152-187 | Every limit on a copy, in numbers: 4 MiB with 48 bytes for each file, eight types of 1 to 255 printable characters, 4096 files that pass, and none for a secret |
| Files.ValidateMeansDistinct | src/files/mod.rs:136-154 | A manifest that passes names every path once |
| Files.TotalSizeAdds | src/files/mod.rs:128-133 | What files weigh is added up |
| Files.ValidateExactly | src/files/mod.rs:136-154 | What passes, exactly: safe distinct paths, where one under another is only let through if something sorts between them |
| Files.ValidateMisses | src/files/mod.rs:136-154 | What passes and cannot be laid out, exactly: safe distinct paths with one under another, and something sorting between every such two |
| Files.ValidateIsEnoughWithoutShadows | src/files/mod.rs:136-154 | Without names that go on with a byte below a slash, what passes is exactly what can be laid out |
| Files.SafePathsStayBelow | src/files/mod.rs:118-126 | Resolving a safe path joined to a directory leads below that directory, one folder for each of its components |
| Files.UnsafeExactly | src/files/mod.rs:118-126 | A path is unsafe exactly when a component is empty, one dot, two dots or has a zero byte |
| Files.UnsafePathsAreRefused | src/files/mod.rs:136-154 | No manifest with such a path passes |
| Copies.UnsafeCopiesAreRefused | src/clip/copy.rs:165-187 | Nor does a copy with such a manifest |
| ClipServices.ClipService.constructor | src/daemon/clip.rs:98-122 | Opening resumes the saved clip, rewrites the disk and queues a sweep |
| ClipServices.ClipService.PerformEach | src/daemon/clip.rs:385-416 | Performing effects in order: what is saved, queued and sent |
| ClipServices.ClipService.Perform | src/daemon/clip.rs:385-416 | The same with the head told to peers; nothing at all for no effects |
| ClipServices.ClipService.Copying | src/daemon/clip.rs:161-163 | A local copy performed: the whole new state of the service |
| ClipServices.ClipService.Accepting | src/daemon/clip.rs:156-158 | A pulled clip performed, and when it is refused |
| ClipServices.ClipService.Record | src/daemon/clip.rs:254-272 | A queued selection is captured exactly when the head is its base or the last record's clip, and returns the head it leaves |
| ClipServices.ClipService.Clearing | src/daemon/clip.rs:344-346 | Clearing performed on the board |
| ClipServices.ClipService.Materialized | src/daemon/clip.rs:275-278 | Landed files performed on the board |
| DeskRuns.RunIsSound | src/daemon/clip.rs:376-416 | Over every run with restarts: the disk is `saved()`, peers are told the head, the board is coherent |
| DeskRuns.SecretsStayOffTheDisk | src/clip/state.rs:98-106 | The disk never holds a secret's bytes |
| DeskRuns.GivenSecretsStayOffTheDisk | src/clip/state.rs:98-106 | What is copied or captured as a secret, at any moment of any run, never gets to the disk under its stamp, whatever happens afterwards |
| DeskRuns.DiskHoldsExactly | src/clip/state.rs:98-106 | The disk has the clip, copy and all, unless that is a secret: then it has its stamp |
| DeskRuns.RestartKeepsExactly | src/clip/state.rs:76-96 | A restart keeps the clip, except the copy of a secret and one that ran out meanwhile |
| DeskRuns.HeldCopiesAreUsable | src/clip/copy.rs:152-187 | Whatever a machine holds is within every limit |
| DeskRuns.ChangesQueueExactly | src/daemon/clip.rs:385-416 | Every change to the clip queues a sweep, and then the fetch it asks for; nothing else queues a job |
| DeskRuns.RunMovesForward | src/clip/state.rs:258-311 | Across any stretch of a run the head never goes back, and a stamp once emptied never holds a copy again, restarts included |
| DeskRuns.DeadlineIsExact | src/clip/state.rs:302-311 | In every run the deadline is the earlier of the stamp's time and the time set, plus the lifetime; copies without one have none |
| DeskRuns.ExpiryIsExact | src/clip/state.rs:258-264 | After `expire(now)` nothing past its deadline is held, and nothing else was dropped |
| DeskRuns.EchoesAreIgnored | src/clip/state.rs:178-216 | Over every run, announcing what was last offered first changes neither clip, disk, queue nor compositor |
| DeskRuns.AppliedIsTheHead | src/clip/state.rs:314-355 | With apply on, `applied` is the head exactly while a copy is held |
| Replication.NoStampIsMintedTwice | src/clip/state.rs:290-300 | In every run of the mesh, with any clocks, restarts, loss, repetition and reordering, no two clips are made with one stamp |
| Replication.EqualStampsAgree | src/clip/state.rs:219-242 | Two clips anywhere with one stamp carry the same copy unless one was emptied |
| Replication.NewCopiesComeLast | src/clip/stamp.rs:39-46 | A new copy's stamp is above everything its machine made, held or was handed without refusing |
| Replication.RebootsExactly | src/clip/state.rs:76-106 | A reboot keeps the head, loses the copy of a secret, and keeps any other unless it ran out meanwhile |
| Replication.TheLatestCopyIsTheNewest | src/clip/stamp.rs:39-46 | In any run, a copy made when its machine's clock is past every stamp made so far is above all of them |
| Replication.NobodyIsAheadOfTheOrigin | src/clip/state.rs:224-230 | No clip anywhere is newer than the head of the machine it comes from |
| Replication.OnlyClocksRefuse | src/clip/state.rs:219-242 | Between honest machines a clip is refused exactly when it is newer and too far ahead of the clock, and for no other reason |
| Replication.StampsStayNearTheClocks | src/clip/stamp.rs:39-52 | Stamps stay within the drift and one millisecond a step of the furthest clock, so 64 bits are never used up |
| Convergence.AdoptingLowersTheDistance | src/daemon/peers.rs:657-684 | With no new copies, each adopted clip strictly lowers a measure over all heads, and every other step keeps it |
| Convergence.AdoptionsRunOut | src/daemon/peers.rs:657-684 | So only so many clips are ever adopted |
| Convergence.PullingWorks | src/daemon/peers.rs:657-684 | A machine behind another with plausible news can pull, and then has its head |
| Convergence.RestMeansAgreement | src/daemon/peers.rs:657-684 | Where no pull is left, everyone connected has one head |
| Convergence.RestIsTheNewest | src/daemon/peers.rs:657-684 | And if all are connected, in any state a run can reach, that head is the newest clip ever made on any machine |
| Convergence.AcceptAllTakesTheNewest | src/clip/state.rs:219-242 | Accepting any list of clips, a machine's own coming back among them, leaves the newest of them or of what was held, from one of the clips given |
| Convergence.OrderDoesNotMatter | src/clip/state.rs:219-242 | Any order and any repetition give the same head, with copies equal up to expiry |
| Convergence.LastingCopiesAreEqual | src/clip/state.rs:219-242 | A copy with no lifetime ends up on both, whole |
| Membership.RankIsTotal | src/config/mesh.rs:75-84 | `outranks` is a strict total order on records |
| Membership.MeshState.AddPeer | src/config/mesh.rs:119-133 | Registering a machine: each refusal, and the new record |
| Membership.MeshState.RemovePeer | src/config/mesh.rs:136-149 | Retiring a machine: each refusal, and the tombstone |
| Membership.MeshState.Merge | src/config/mesh.rs:200-224 | The loop over the remote records in the order of their ids computes `Merged` |
| Membership.MergeIsSafe | src/config/mesh.rs:200-224 | Whatever is gossiped: the size stays within 64, nobody is forgotten, no rank drops, the local record is untouched, a full state learns of nobody |
| Membership.MergeIsIdempotent | src/config/mesh.rs:200-224 | Merging a state twice is merging it once, even at the cap |
| Membership.MergeIsPointwise | src/config/mesh.rs:200-224 | Below the cap a merge is the higher-ranked record of the two, machine by machine |
| Membership.MergesCommute | src/config/mesh.rs:200-224 | Below the cap two states merged in either order give the same |
| Membership.MergesAssociate | src/config/mesh.rs:200-224 | Hearing two states through a machine that merged them is hearing both, about everyone but that machine |
| Membership.RemovalIsHeard | src/config/mesh.rs:136-149 | A removal outranks what its author held, and is adopted, even at the version ceiling |
| Membership.AdditionIsHeardBelowTheCeiling | src/config/mesh.rs:119-133 | Where nothing better is known, a registration is adopted exactly when the record replaced was at least two versions below the ceiling |
| Membership.LostRegistration | src/config/mesh.rs:204-238 | A registration at the ceiling that no other machine adopts |
| Membership.NewerRecordsWin | src/config/mesh.rs:71-84 | A newer record replaces an older one, whatever either says, and never the other way |
| Membership.TombstonesWinTies | src/config/mesh.rs:71-84 | Of one version, a removal replaces a living record and is not undone by one |
| Membership.SmallerNamesWinTies | src/config/mesh.rs:71-84 | Of two names of one version, the one that sorts first is left, whichever was held |
| Membership.DeafTo | src/config/mesh.rs:200-238 | What is never listened to: the machine itself, living records at the ceiling or with a bad name, and anything past it |
| Membership.LearnsOfUntilFull | src/config/mesh.rs:200-224 | A machine not known yet is learned of until there are 64 records |
| Membership.LowerIdsGoFirst | src/config/mesh.rs:200-224 | The last place goes to the lower id |
| Membership.AddingWrites | src/config/mesh.rs:119-133 | When a registration is refused, exactly, and that it writes the one record one version up |
| Membership.RemovingWrites | src/config/mesh.rs:136-149 | When a removal is refused, exactly, and that it leaves a tombstone one version up |
| MachineNames.ValidNameExactly | src/config/name.rs:16-62 | A name will do exactly when it has between 1 and 64 bytes and no character of it is a control, invisible or turns text around |
| Gossip.GossipConverges | src/config/mesh.rs:200-224 | Whatever else machines hold, register and retire: fair gossip along any route of machines that hear brings its end the best valid record of x, for good |
| Gossip.RefusedRecordsStay | src/config/mesh.rs:200-224 | A machine holding a record of x that outranks the best valid one keeps it, whatever it is told: others refuse such a record, and nothing heard replaces it |
| Gossip.ConvergesIfItHears | src/config/mesh.rs:200-224 | So a machine with a neighbour on such a route ends with the best valid record if and only if it did not start with one that outranks it |
| Gossip.NothingBetterAppears | src/config/mesh.rs:200-224 | A record of x that a machine did not start with is valid and never above the best one |
| Gossip.RecordsOnlyRise | src/config/mesh.rs:119-224 | Over any history of merges, registrations and removals, a record held at any time never outranks what is held later, at the cap too |
| Gossip.ChangesAreLocal | src/config/mesh.rs:119-149 | What a machine registers or retires is in its own state from then on, and in nobody else's until they are told |
| Gossip.ToldAsHeld | src/config/mesh.rs:200-224 | A machine that is told merges what the other one held at some earlier time |
| Gossip.RemovalBeatsAllSeen | src/config/mesh.rs:136-149 | After any such history, a removal is valid and beats every record its author ever held |
| MeshStores.MeshStore.Commit | src/daemon/store.rs:78-95 | A change is saved, aligned and committed; one that changes nothing writes nothing |
| MeshStores.MeshStore.MergeGossip | src/daemon/store.rs:101-116 | Gossip is committed as the merge, and written exactly when it changed something |
| MeshStores.MeshStore.Remove | src/daemon/store.rs:78-95 | A removed machine has lost its task by the time the call returns |
| MeshStores.MeshStore.AddPaired | src/daemon/store.rs:64-71 | Registering a paired machine, a no-op when it is known |
| Spool.Store.Take | src/files/store.rs:94-118 | Content goes under its hash, and only if it is not there yet |
| Spool.Store.Partial | src/files/store.rs:121-131 | How much of a transfer is here, an outgrown one dropped |
| Spool.Store.Receive | src/files/store.rs:141-161 | Opening a transfer resumes the part that is here, hashed so far |
| Spool.Store.LayOut | src/files/store.rs:167-183 | The loop links files up to the first that cannot be |
| Spool.Store.Sweep | src/files/store.rs:188-212 | Sweeping keeps the live tree and the content named, and drops the rest |
| Spool.TakingStoresOnce | src/files/store.rs:94-118 | Content goes into the spool as a file of its own, unless it is there already: then nothing changes |
| Spool.FittingPartsStay | src/files/store.rs:121-131 | A part no longer than its file is left alone, and counts for all of its length |
| Spool.FailingLeavesTheRest | src/files/store.rs:167-183 | Laying out that fails leaves the tree of the files in front of the first that does not go there |
| Spool.SweepsKeepExactly | src/files/store.rs:188-212 | A sweep keeps exactly the tree of the live clip and the content named, whole or in part, and what they lead to |
| Spool.NothingIsLaidOutOutside | src/files/store.rs:164-183 | In every run, every name in a tree resolves below the directory of its tree |
| Spool.UnsafePathsAreNotLaidOut | src/files/store.rs:167-183 | A manifest with an unsafe path is never laid out whole |
| Spool.Incoming.Write | src/files/store.rs:223-228 | Writing appends to the file and to the hasher |
| Spool.Incoming.Finish | src/files/store.rs:236-247 | Finishing names the content if it is what was asked for, and drops it if not |
| Spool.RunIsSound | src/files/store.rs:94-247 | Every sequence of takes, transfers, sweeps, layouts and restarts keeps the spool sound |
| Spool.ContentIsWhatItIsNamed | src/files/store.rs:94-247 | Every blob hashes to its name, every open hasher equals its file, every laid-out path holds the manifest's content |
| Spool.FinishedTransfersLeaveNoPart | src/files/store.rs:236-247 | A finished reply leaves no partial: right bytes are in the spool, wrong ones nowhere |
| Spool.OversizedPartsAreDropped | src/files/store.rs:121-131 | A partial that outgrew its file is not resumed |
| Spool.LayingOutSucceeds | src/files/store.rs:167-183 | Laying out succeeds exactly when all content is here and no path is in another's way; the tree is then the manifest |
| Spool.PathsNameOneFile | src/files/store.rs:88-91 | No two files laid out, of one clip or of two, are found at one path |
| Spool.OneContentAtAPath | src/files/store.rs:167-183 | So that what a path under the trees leads to is one content |
| Spool.NeighboursMissAFolder | src/files/mod.rs:141-151 | `a`, `a.b`, `a/b` passes the check and can never be laid out |
| Wire.Stream.WriteEncoded | src/net/wire.rs:25-36 | A message is written with its length, and refused exactly when over the cap |
| Wire.Stream.ReadMessage | src/net/wire.rs:41-57 | Reading takes the size, refuses it over the cap, then takes that many bytes |
| Wire.FramingRoundTrips | src/net/wire.rs:25-57 | Reading what was written gives it back and stops behind it, exactly when it is within the cap |
| Wire.FramesByteByByte | src/net/wire.rs:25-38 | A frame is the length in four bytes, the lowest first, and the message |
| Wire.LargeMessagesAreRefused | src/net/proto.rs:40-53 | What each limit is in bytes: a message is read exactly up to it |
| Wire.VarintRoundTrips | src/net/proto.rs:88-93 | Integers on the wire are read back, with what follows untouched |
| Wire.VarintsByteByByte | src/net/wire.rs:14-22 | A varint is the number in groups of seven bits, the lowest first, marked on all but the last, and no longer than needed |
| Wire.CheckedClipsFit | src/clip/copy.rs:154-188 | Every clip `check` accepts encodes within MAX_CLIP_SIZE, with any representations and files |
| ClipCodec.CheckedClipsArrive | src/net/wire.rs:25-57 | Every such clip, written field by field, framed, read and decoded, comes back as it was, and what follows is untouched |
| ClipCodec.TrailingClipBytesAreRefused | src/net/wire.rs:54-56 | A clip with anything behind it is refused |
| ClipCodec.ASecretOnTheWire | src/clip/copy.rs:26-80 | A secret of two types with a lifetime, byte by byte |
| ClipCodec.AFileOnTheWire | src/clip/copy.rs:26-80 | A copy of a file, byte by byte |
| ClipCodec.NothingOnTheWire | src/clip/copy.rs:26-80 | An emptied clip and none at all, byte by byte |
| ClipCodec.AnswersArrive | src/daemon/clip.rs:133-153 | Whatever a machine holds, a clip or none, is what the one that asked reads |
| ClipCodec.RepsAreTaken | src/clip/copy.rs:60-81 | Representations of any types and sizes are read back in order, and take the size computed |
| ClipCodec.FilesAreTaken | src/files/mod.rs:62-72 | So are the files of a manifest |
| Wire.ValidateAsk | src/net/proto.rs:101-115 | A request passes exactly when it names at most 4096 files, each once |
| Wire.AsksFit | src/net/proto.rs:40-45 | The longest request that passes fits MAX_REQUEST_SIZE |
| Wire.RepliesRoundTrip | src/net/proto.rs:86-93 | Every reply is read back and fits MAX_REPLY_SIZE |
| Wire.RepliesByteByByte | src/net/proto.rs:86-95 | Replies are told apart by their first byte |
| Wire.TrailingBytesAreRefused | src/net/wire.rs:54-56 | A reply with anything behind it is refused |
| Wire.OtherRepliesAreRefused | src/net/proto.rs:86-95 | So is one of a kind there is not, or of a size over 64 bits |
| ContentStreams.WireIsSelfDelimiting | src/net/wire.rs:25-57 | Headers on the wire end where they end: read back whole, and never taken from a part of one |
| ContentStreams.WrongSizesAreRefused | src/daemon/files.rs:318-326 | An announced size that does not make up the file ends the pull, and nothing of it is kept |
| ContentStreams.MovedPartsAreRefused | src/daemon/files.rs:345-352 | A part that is not as long as was said when asking ends it too |
| ContentStreams.SendBody | src/daemon/peers.rs:588-594 | The loop writes exactly what is left of the file, however much each read gives |
| ContentStreams.SendContents | src/daemon/peers.rs:561-597 | The loop writes header and rest of each file asked for, in order |
| ContentStreams.PullTouchesOnlyItsFiles | src/daemon/files.rs:310-327 | Reading a stream touches nothing but the files it was asked for, whatever the peer sends |
| ContentStreams.AnyPullIsSafe | src/daemon/files.rs:310-327 | Nor does any stream put wrong content under a name, or cost any that was right |
| ContentStreams.InterruptedPullsAdvance | src/daemon/files.rs:310-386 | Cut off anywhere, a stream from an honest peer loses nothing right, drops or leaves what was wrong, and lowers what is left by exactly what arrived |
| ContentStreams.WholePullsComplete | src/daemon/files.rs:310-327 | An uncut stream stays in step to its end: every file the peer has is here, the rest untouched, and what follows unread |
| ContentPulls.TakeRest | src/daemon/files.rs:359-375 | The loop that writes chunks, for any sizes they come in, and a stream that dies |
| ContentPulls.Receive | src/daemon/files.rs:337-386 | One transfer: resumed, received in chunks, finished or left for later |
| ContentPulls.Pull | src/daemon/files.rs:284-330 | The loop over one peer's replies computes `PullFrom` on the spool |
| ContentPulls.Ask | src/daemon/files.rs:291-306 | The loop asks for each file from where its part ends, outgrown parts dropped first |
| ContentPulls.AsksAreAnswered | src/net/proto.rs:98-115 | Every request built for a checked clip passes `validate` and fits its cap |
| ContentPulls.FindMissing | src/daemon/files.rs:256-260 | The filter keeps each content that is not here once |
| ContentPulls.MissingNamesAll | src/daemon/files.rs:256-260 | Every file of the clip is here or named among the missing, which are distinct |
| ContentPulls.PullAll | src/daemon/files.rs:249-278 | The loop over the machines that are up: what is held after, and that it succeeds exactly when nothing is missing |
| ContentPulls.FetchingConserves | src/daemon/files.rs:249-330 | Over any visits, cut or not: what was brought and what is left add up to what was left at first |
| ContentPulls.UsefulPullsRunOut | src/daemon/files.rs:249-330 | So only so many pulls can bring anything before all of it is here |
| ContentPulls.HeardOutMeansHere | src/daemon/files.rs:249-330 | A file is here in the end, and is the content its name says, once a machine that has it was heard out: one time, or a second time where wrong bytes were here at first |
| ContentPulls.FetchesEnd | src/daemon/files.rs:249-278 | The fetch is done exactly when every file is here |
| ContentPulls.WholeClipsArrive | src/daemon/files.rs:249-278 | From whatever parts, right or wrong: every file of a clip is here once each was, or was heard of so, and nothing is missing then |
| JobLoops.JobLoop.constructor | src/daemon/files.rs:104-121 | The loop starts with a sweep, no record made and nothing under way |
| JobLoops.JobLoop.OnCopied | src/daemon/clip.rs:471-490 | A reported selection is queued with the head it was read at, without files for a secret |
| JobLoops.JobLoop.TakeUp | src/daemon/files.rs:121-167 | Taking up the first job: what it decides before it waits |
| JobLoops.JobLoop.TakeFile | src/daemon/files.rs:183-193 | One more file into the spool and the manifest |
| JobLoops.JobLoop.RecordFirst | src/daemon/files.rs:123-139 | A selection whose turn has come is handed to the clipboard or dropped |
| JobLoops.JobLoop.CopyFirst | src/daemon/files.rs:140-146 | Spooled files are copied |
| JobLoops.JobLoop.End | src/daemon/files.rs:121-168 | The first job ends: with the files taken, or with the sweep it decided on |
| JobLoops.JobLoop.EndWithout | src/daemon/files.rs:123-146 | The first job goes on with no files, or a copy of them fails |
| JobLoops.JobLoop.ReadWanted | src/daemon/files.rs:204-220 | A fetch is for the manifest of the head, unless a tree of it is there or its size is over the limit |
| JobLoops.JobLoop.LayOutFetched | src/daemon/files.rs:234-237 | What was fetched is laid out, or the fetch fails |
| JobLoops.JobLoop.TellLanded | src/daemon/clip.rs:275-278 | The clipboard is told of the tree, and offers the files if the clip is still the same |
| FileServices.StepIsSafe | src/daemon/files.rs:104-200 | Every interleaved step keeps the content of the machine's own clip in the spool and in the sweep under way |
| FileServices.OwnFilesAreServed | src/daemon/files.rs:104-200 | At every moment of every run, restarts included, the spool has the content of each file of a clip made here |
| Landings.RunIsLanded | src/daemon/files.rs:104-243 | Over every run, restarts included: the fetch under way is for what the clip names, and no sweep takes a tree in use or on its way |
| Landings.FilesAreWhereTheyWereLaid | src/daemon/clip.rs:275-303 | Whenever a clip held is marked as laid out, its tree is on the disk with every file of its manifest, each being the content its hash names |
| Landings.OfferedFilesAreThere | src/clip/state.rs:402-470 | Over every run: each payload that names files, offered for a clip that was laid out, names one path for every file of the manifest, and each path leads to content with the hash the manifest gives |
| Landings.LandingOffersTheFiles | src/clip/state.rs:270-277 | When files land for the clip held, that offer is the one thing the compositor is sent |
| FileSharing.CopiedFilesAreNamed | src/daemon/files.rs:140-197 | A copy of files makes the clip of exactly those files, in order, each with its name, its length and its hash, once all of them are in the spool |
| FileSharing.SelectedFilesAreNamed | src/daemon/files.rs:123-197 | So does a selection of files if nothing replaced the clip since it was queued, and it is dropped if something did |
| FileSharing.JobsWithoutFiles | src/daemon/files.rs:123-146 | With no file to take, a selection is recorded as it is, and a copy of files comes to nothing |
| FileSharing.SecretFilesStayWhereTheyAre | src/daemon/clip.rs:471-497 | In every run no file of a secret is taken into the spool, and none where files are not shared |
| FileSharing.OwnManifestsAreTrue | src/daemon/files.rs:104-200 | At every moment of every run, each file of a clip made here is in the spool under its hash, at the size the manifest says |
| FileSharing.SweepsLeaveOnlyTheClip | src/daemon/files.rs:393-407 | A sweep leaves the content the clip names, whole or in part, and the tree of that clip, and nothing of any other |
| FileSharing.FetchingExactly | src/daemon/files.rs:204-220 | A fetch goes ahead if and only if its stamp is still the head's, the copy is held and names files without a tree, within the limit; and it is for that manifest |
| FileSharing.NewerFetchesGoFirst | src/daemon/files.rs:147-165 | A newer fetch replaces the one under way, and an older or equal one is dropped |
| FileSharing.AskingExactly | src/daemon/clip.rs:199-251 | Only files of a clip another machine made, with no tree of them known, are asked for |
| FileSharing.RestartsBeginAnew | src/daemon/files.rs:104-121 | A restart forgets what was queued, under way and recorded, keeps the disk, and begins with sweeps |
| LateLandings.FetchesBringFiles | src/daemon/files.rs:211-220 | In every run, what is being fetched is some files, within the limit |
| LateLandings.GoesStaleExactly | src/clip/state.rs:270-277 | Over every run, a tree is noted on a clip without a copy exactly when files land after it is gone, which only a clip that named files can come to, and stays until the head moves or a restart |
| LateLandings.LateLandingsAreStale | src/daemon/files.rs:204-243 | Every clip of another machine that has a lifetime, and files that can be fetched and laid out, has a run that ends so: asked for, looked up, received, laid out, lapsed, landed |
| FileServices.TakenUnlessReplaced | src/daemon/clip.rs:254-272 | Comparing the head with the base and the last record tells whether anything but a queued record replaced the clip |
| FileServices.SelectionsAreTakenUnlessReplaced | src/daemon/clip.rs:254-272 | Over every run: a queued selection is handed over if and only if nothing but an earlier queued record replaced the clip since |
| TieBreaks.PeerTask.Adopt | src/daemon/peers.rs:341-402 | An incoming connection taken while waiting or, by the higher id, while dialling |
| TieBreaks.PeerTask.BreakTie | src/daemon/peers.rs:422-435 | The duplicate rule: the lower id keeps its own dial, everything else gives way to the new one |
| TieBreaks.TheHigherGivesWay | src/daemon/peers.rs:341-435 | What becomes of the higher id's task and of its own connection when the other's comes in: it is taken, and the own one closed, whether dialled or served |
| TieBreaks.TheLowerKeepsItsOwn | src/daemon/peers.rs:341-435 | The lower id takes nothing while it dials, and closes what comes in while it serves its own dial; else it gives way too |
| TieBreaks.RunIsSound | src/daemon/peers.rs:333-445 | In every run only the last dial of each machine is up, held by it and not missed by the other |
| TieBreaks.LowerDialsAreNeverClosed | src/daemon/peers.rs:422-435 | However often both dial and whatever the network loses, neither side closes a connection the lower id dialled |
| TieBreaks.EstablishedForGood | src/daemon/peers.rs:422-435 | Once established it is kept as long as the network keeps it, and once both serve it both go on |
| TieBreaks.BothKeepTheSame | src/daemon/peers.rs:333-445 | With nothing left in flight both serve the same connection, the only one up |
| TieBreaks.SettlingEnds | src/daemon/peers.rs:333-445 | Without another dial or loss, no more can happen than a measure of both says |
| TieBreaks.NothingLeftMeansQuiet | src/daemon/peers.rs:333-445 | Where nothing else can happen, either neither serves anything or both serve a connection that is up |
| TieBreaks.LeftAloneTheySettle | src/daemon/peers.rs:333-445 | After any run the two can settle, in a bounded number of steps however they go about it; then neither serves anything and nothing is up, or both serve one connection, the only one up |
| Pairings.Pairing.Revoke | src/daemon/pairing.rs:65-70 | Hosting revokes whatever is outstanding first |
| Pairings.Pairing.Outstanding | src/daemon/pairing.rs:151-166 | An expired ticket is dropped when it is looked at |
| Pairings.Pairing.Redeem | src/daemon/pairing.rs:118-135 | Under one lock: a ticket no longer good changes nothing; else it is consumed and the machine saved |
| Pairings.RedeemingExactly | src/daemon/pairing.rs:118-147 | A completed exchange, exactly: with its ticket out and in time, the ticket is gone and the machine saved if it can be; else nothing changes and the joiner is not told it is in |
| Pairings.PairingWorks | src/net/pair.rs:183-321 | Whoever knows the secret and comes in time ends up saved by the host under the name it gave, and has the host saved under the name on the ticket |
| Pairings.HostingIssues | src/daemon/pairing.rs:65-85 | Hosting puts a new ticket out in the place of any other |
| Pairings.LateOnesAreTurnedAway | src/daemon/pairing.rs:98-103 | With no ticket out, or one past its time, a joiner is refused at once |
| Pairings.StrangersAreTurnedAway | src/net/pair.rs:206-219 | A joiner with another secret is refused, and the ticket stays out |
| Pairings.UnfitJoinersAreRefused | src/net/pair.rs:221-222 | A host welcomes under the name it has for a machine, or the one it gave if that will do and there is room; else it refuses |
| Pairings.OnlyDoneCompletes | src/net/pair.rs:234-244 | Only the joiner's confirmation completes the exchange |
| Pairings.JoinersPromiseExactly | src/net/pair.rs:288-303 | A joiner confirms only to a host that welcomed it and that it could save |
| Pairings.JoinersSaveExactly | src/net/pair.rs:305-321 | It saves the host if and only if the connection was closed as confirmed |
| Pairings.RunIsSound | src/daemon/pairing.rs:65-147 | Every interleaving of hosting, exchanges, expiry and misbehaving machines keeps the log of tickets and saves in order |
| Pairings.TicketsAreUsedWhileTheyLast | src/daemon/pairing.rs:118-135 | A ticket used was issued before, had not expired, and had not been revoked, replaced or used since |
| Pairings.TicketsAreUsedOnce | src/daemon/pairing.rs:118-135 | No ticket is used twice |
| Pairings.TicketsRegisterOneMachine | src/daemon/pairing.rs:118-135 | No ticket registers more than one machine, and that one presented its secret |
| Pairings.HalfPairingsAreTheHosts | src/net/pair.rs:233-321 | A joiner registers the host only after the host saved the joiner |
| ReadSelections.ReadReady | src/clip/wayland/mod.rs:590-609 | Reading whatever is ready: each pipe moves on by its own read, and the count held is exact and at most a chunk each higher |
| ReadSelections.DropOver | src/clip/wayland/mod.rs:611-615 | Dropping from the back until the rest fits, the count exact |
| ReadSelections.ReadSelection | src/clip/wayland/mod.rs:531-632 | The whole loop: what it returns for any schedule, and that it never holds more than a chunk per type over the budget |
| ReadSelections.OpenSoFar | src/clip/wayland/mod.rs:590-609 | A pipe is read until it ends or breaks; what is held of it meanwhile is all that came out, and nothing once it broke |
| ReadSelections.WholeMeansDelivered | src/clip/wayland/mod.rs:590-609 | A payload is whole exactly when its pipe ended, and is then every byte it delivered |
| ReadSelections.SelectionsArriveWhole | src/clip/wayland/mod.rs:623-631 | Only complete non-empty payloads come back, in the order offered, within the budget, and nothing unless the first type arrived |
| ReadSelections.KeptExactly | src/clip/wayland/mod.rs:611-615 | A type survives the drops of n rounds if and only if what had come for it and those before it fit after every round: later types never cost an earlier one its place |
| ReadSelections.NothingElseIsDropped | src/clip/wayland/mod.rs:531-632 | What comes back, exactly: a type does if and only if the first type ended, it ended with a payload, and what had come up to it fit the budget after every round |
| ReadSelections.FirstTypeLeadsUnlessEmpty | src/clip/wayland/mod.rs:623-631 | The first type leads what comes back exactly when it had a payload |
| ReadSelections.EmptyFirstTypeIsSkipped | src/clip/wayland/mod.rs:623-631 | An empty first type is dropped, and the next one leads |

## Left out

- Filesystem and save failures, permissions, hard links, directory walking (`walk`) and reflinks: the disk is maps from names to files, and what walking finds is given.
- A crash in the middle of one file operation, and the temporary names it leaves for the next sweep.
- The first eight characters of an id, which is all of it that the name of a tree on disk has (`src/clip/stamp.rs:61-67`): the name has the whole id here.
- The cache of the encoded clip in `encoded`, and sharing by reference counting: values are compared, not pointers.
- Connecting to and losing the compositor, its bindings, and commands dropped while it is away: commands are recorded as handed over.
- Timeouts, retries and back-off delays: they are steps that may happen at any time, or a stream cut off.
- Giving up a pull because the clip was replaced (`src/daemon/files.rs:311`): for what is held it is the stream cut off between two files.
- When a fetch is retried or gives up: the fetch task may look up what is wanted, receive, lay out, report and give up at any moment.
- One pull of a clip at a time (`Pulls::claim`), the senders and their intervals, and the allowlist check on incoming connections.
- JSON, TOML and the layout of the other messages on the wire: clips, replies, lengths and integers are encoded, requests only sized.
- The encoded size of an endpoint id, taken to be at most 33 bytes.
- Overflow of 64-bit milliseconds: `Replication.StampsStayNearTheClocks` bounds them instead.
- The number of pairing exchanges served at once, and how long a refusal lingers before its connection closes.
- Ticket printing and parsing, and randomness: secrets are fresh numbers.
- The queue of incoming connections overflowing, which closes one as busy.
- `preview`, `sanitize`, `resolve_peer`, `describe`, `paste` and everything the command line prints: one branch each, or display.
- Gossip.GossipConverges: takes what is known, and what is registered meanwhile, to fit under the cap of 64, above which who is learned of depends on who spoke first; and that x's own record is not changed meanwhile.
- Membership.MergesAssociate: is stated below the cap, and about everyone but the machine in between, since that machine keeps its own record; the record of the first state that is asked about is valid, or the machine in between may hold what others refuse.
- TieBreaks.LowerDialsAreNeverClosed: is about closing duplicates. `serve` also closes a connection that stalls and one whose machine was removed (`src/daemon/peers.rs:285-293`, `src/daemon/peers.rs:436-440`); here both are losses.
- Spool.RunIsSound: assumes one transfer per hash at a time. The service runs one fetch task, but a task aborted, or a transfer left early, does not wait for its writing thread (`src/daemon/files.rs:152-153`, `src/daemon/files.rs:337-386`), and what that thread still writes to a part that is opened again is not modelled.
- ClipCodec.CheckedClipsArrive: takes how ids and hashes are written as given, in bytes that read back for the clip at hand, and does not check that text is UTF-8.
- ContentPulls.WholeClipsArrive: is about peers whose spools hold what they name; of others `ContentStreams.PullTouchesOnlyItsFiles`, `ContentStreams.AnyPullIsSafe` and `Spool.ContentIsWhatItIsNamed` say that they do no harm.
