# Psiphon automation: a verified model

This project models the operations tooling of the Psiphon network in Dafny 4.11 and proves what that tooling is relied on for.
`dafny verify dfyconfig.toml` checks all of it.

| component | files |
|---|---|
| Country route files: an address range becomes netmask routes | `Bits.dfy`, `Routes.dfy`, `RouteCover.dfy`, `RouteTable.dfy` |
| The network database, its saves, and `deploy()` | `Network.dfy`, `DeployState.dfy`, `PsiphonNetwork.dfy`, `Sessions.dfy`, `DirectData.dfy` |
| Incremental log ingestion | `StatsRows.dfy`, `Stats.dfy`, `StatsRuns.dfy` |
| Discovery selection and the copies of the database sent to hosts | `Discovery.dfy`, `Compartments.dfy` |
| Protocol ports, server entries, the generated packet filter, the load script | `Ports.dfy`, `Firewall.dfy`, `LimitLoad.dfy` |
| The daily reply quota and the weighted choice | `Quota.dfy`, `WeightedChoice.dfy` |

How the outside world is modelled:

- An SSH session, an upload, a build or a push is one entry of an effect history. A call may take effect or not, and may report success or not, independently. Saving the database may fail in the same two ways. All four outcomes are covered by each proof.
- An entry for data sent to a host carries the whole database the data was made from, so what is promised about data is promised for every campaign of that database.
- A network object can be declared reliable: then no call fails. This tells an operation that may fail from one that must not, and makes the completeness results (`DeployNow`, `FirstRelease`, `PruneServers`) possible.
- An exception ends the operator's session. The next thing that happens is a restart, which loads the last save. `Operations.PsiphonNetwork.Valid` holds at every point in between, so what it says is a statement about every run.
- Random draws, directory order, dictionary order, the clock and the users on a host are arbitrary arguments or arbitrary choices.
- Integers are unbounded, as in Python. Bitwise operations are defined on them digit by digit. Addresses are numbers below 2^32.

Findings, each stated as a lemma or a contract:

- A row of the geolocation table that starts or ends at address 0 is skipped, because 0 reads as a parse failure. A row whose start is after its end adds no line but does open its country's file (`Routes.RouteFiles.ConsumeLine`, `RouteTable.MakeRoutes`).
- The bound of 62 lines per row is reached, by the row from 0.0.0.1 to 255.255.255.254 (`RouteCover.Exactly62`).
- `setup_server` and `reinstall_host` send data directly. Such data can name a version that is not published yet (`DirectDataSafety.DirectDataCanRunAhead`); `DirectDataSafety.DirectDataSafeExactly` says exactly for which databases it cannot. Only `deploy()` gives the ordering guarantee unconditionally.
- A client built for a bucket that was later renamed can be told of a version its old bucket never gets (`DirectDataSafety.RenamedBucketMissesOffer`). Data is safe for a client exactly when it offers the client nothing or some campaign of the data still names the client's bucket (`DirectDataSafety.OfferIsThereExactly`).
- Pruning a list with two servers of one host fails on the second exactly when the first was removed (`Operations.PsiphonNetwork.PruneServers`).
- Duplicate elimination of log rows compares only the columns an insert lists. The tables are independent of the reading order exactly when no row overlaps another (`StatsRuns.OrderMattersExactly`); rows of one event type with one field count never overlap. Any handshake line and the same line without its newest field do (`StatsRuns.ShorterFormOverlaps`).
- `select_servers` can show every server up to 65536 servers. A handshake skips client value 0, so through a handshake the number is 65025 (`Discovery.AllSelectable`, `Discovery.AllSelectableByHandshake`).
- INPUT of a container host never enters the rate-limit chain, whatever the chain holds (`Firewall.DockerAccepts`). The comment above the tunnel-core firewall places the limits in FORWARD, which is left out here.
- A client that uses an advertised alternate OSSH port of 443 reaches the web server instead when the web forward is generated (`Firewall.AlternateTakenByWeb`; the exact condition is `Firewall.AdvertisedPortReachesOssh`).
- Overlapping email requests are sure to stay within the quota exactly when the limit is at most one or there are no more requests than the limit (`Quota.WithinQuotaExactly`). The excess is exactly the increments that stale writes undo (`Quota.RepliesAccounted`). A limit below 1 still grants one reply.

## Model

| member | source | states |
|---|---|---|
| Bits.AlignedIsMultiple | Automation/psi_routes.py:101 | clear low bits are divisibility by the power of two |
| Bits.OrTestsBit | Automation/psi_routes.py:101 | or-ing the base with one bit leaves it unchanged exactly when that bit is set, so the loop's test reads the bit |
| Bits.OrFillsLowBits | Automation/psi_routes.py:102 | or-ing an aligned base with its low bits gives the last address of the block |
| Bits.XorClearsLowBits | Automation/psi_routes.py:108 | the computed mask is a contiguous netmask |
| Bits.MaskMatches | Automation/psi_routes.py:108-109 | an address and-ed with the mask is the base exactly for the addresses of the block, so also base & mask == base |
| Routes.ToQuad | Automation/psi_routes.py:121-126 | the dotted quad of an address decodes to the address, high octet first |
| Routes.RouteSpells | Automation/psi_routes.py:108-109 | a line gives the block's first address and the mask that clears the block's bits |
| Routes.GrowStep | Automation/psi_routes.py:100-104 | the step found is aligned, fits the range and cannot be doubled |
| Routes.WidestStep | Automation/psi_routes.py:100-104 | the inner loop, with its bit tests and shifts in range, ends and finds that step |
| Routes.RangeLines | Automation/psi_routes.py:97-110 | the outer loop ends, also when the last block ends at 2^32 - 1, and writes one line per block |
| Routes.RouteFiles.ConsumeLine | Automation/psi_routes.py:82-110 | a row with two non-zero addresses and a two-letter country appends its lines to that country's file and changes no other; any other row changes nothing |
| RouteCover.CoversExactly | Automation/psi_routes.py:97-110 | the blocks of a row cover exactly the addresses from start to end |
| RouteCover.BlocksAscend | Automation/psi_routes.py:97-110 | the blocks are aligned, inside the range, consecutive and disjoint |
| RouteCover.EmittedAreMaximal | Automation/psi_routes.py:97-110 | the emitted blocks are exactly the maximal aligned blocks inside the range |
| RouteCover.Minimal | Automation/psi_routes.py:97-110 | no list of aligned blocks covering exactly the range, overlapping or not, is shorter than the emitted list |
| RouteCover.EmittedCovers | Automation/psi_routes.py:97-110 | the emitted list is one of the covers it is compared with |
| RouteCover.Shape | Automation/psi_routes.py:97-110 | block sizes strictly rise while alignment limits them, then strictly fall while the end does |
| RouteCover.SizesAtMostTwice | Automation/psi_routes.py:97-110 | no block size occurs three times among the blocks of one row |
| RouteCover.AtMost62 | Automation/psi_routes.py:97-110 | a row yields at most 62 lines |
| RouteCover.Exactly62 | Automation/psi_routes.py:97-110 | one row does yield 62 lines |
| RouteCover.RowRoutesItsRange | Automation/psi_routes.py:97-110 | an address falls under one of a row's lines exactly when it is in the row's range |
| RouteTable.MakeRoutes | Automation/psi_routes.py:164-173 | a file exists for a two-letter country exactly when a six-cell row with parsing addresses names it in its fifth cell, and routes an address exactly when such a row spans it |
| RouteTable.FileRoutes | Automation/psi_routes.py:164-173 | a country's file routes an address exactly when one of the country's rows spans it |
| Network.OfferIsNewest | Automation/psi_ops.py:3308-3316 | the version offered is the newest one listed, and there is one exactly when a listed version is above the client's |
| Network.OutAppend | Automation/psi_ops.py:2606-2614 | a publication no older than the versions named so far leaves every promised build out |
| Network.PromisesAppend | Automation/psi_ops.py:2481-2483 | an effect that publishes nothing older than the saved version, or sends the data of a database all of whose campaigns are out and no host of which awaits an implementation, keeps every promise at every moment |
| Network.ServedAppend | Automation/psi_ops.py:2606-2614 | publishing a current build leaves every campaign served |
| Network.DoneAppend | Automation/psi_ops.py:2606-2626 | work done stays done on the way to a later database unless it is owed again: an owed email push is owed or made, a host that comes back was set up afresh, and a campaign that moved has its builds in the new bucket |
| Network.KeptTransitive | Automation/psi_ops.py:2471-2695 | losing no obligation composes over any number of steps, through hosts that leave and come back and campaigns whose buckets are renamed |
| Network.KeptEmailed | Automation/psi_ops.py:2660-2663 | the email flag may be cleared after the push that follows every publication |
| DeployState.DataIsSafe | Automation/psi_ops.py:2644-2651 | once no build and no implementation is flagged, every campaign the data speaks for has its bucket, with the named version saved and published |
| DeployState.TargetDone | Automation/psi_ops.py:2634 | a target is unflagged only with each of its campaigns published to its own bucket and then tweeted or flagged for the email push, and then nothing is lost |
| DeployState.BucketAssigned | Automation/psi_ops.py:2511-2525 | a campaign without a bucket is flagged on all its platforms, so naming one leaves it awaiting its builds |
| DeployState.CampaignAdded | Automation/psi_ops.py:1065-1072 | a new campaign is flagged on every platform, so it is served before data speaks for it |
| DeployState.DefaultEmailSet | Automation/psi_ops.py:1074-1093 | choosing the account of an email campaign as the default keeps every invariant and obligation |
| DeployState.VersionAdded | Automation/psi_ops.py:2992-3005 | a new version flags every campaign of the platform and the data |
| DeployState.HostDropped | Automation/psi_ops.py:2020-2048 | removing a host loses no obligation but the host's own, for as long as the host is gone, and keeps every live server's host live and every flag on a live host |
| DeployState.ServerAdded | Automation/psi_ops.py:1743-1774 | a new host joins without losing anything only once it has its implementation and data that holds all that was there before |
| DeployState.AnnouncingKeeps | Automation/psi_ops.py:1826-1857 | retiring the channel's old servers and raising the flags for new ones keeps every invariant and obligation |
| DeployState.RetiredExactly | Automation/psi_ops.py:1829-1841 | exactly the channel's embedded servers that are not permanent stop being embedded, or the channel's servers discoverable today stop being so today, and nothing else of a server changes |
| DeployState.AllCarriedOut | Automation/psi_ops.py:2487-2695 | losing nothing and ending unflagged means that every flag of the database had its effects, written out flag by flag |
| DeployState.RenamedMeans | Automation/psi_ops.py:1152-1167 | a renaming changes the bucket of the campaigns with the channel and account and nothing else of any campaign, and flags both platforms and the OSLs if there is one |
| DeployState.RebuiltAll | Automation/psi_ops.py:1849-1855 | after new embedded servers every campaign of the channel is built anew on each of its platforms |
| DeployState.CountConserved | Automation/psi_ops.py:2024-2034 | removal conserves live plus deleted servers |
| Operations.PsiphonNetwork.Perform | Automation/psi_ops_deploy.py:103-113 | an external call adds at most its own effect and keeps everything else, whatever its outcome |
| Operations.PsiphonNetwork.PerformWithRetries | Automation/psi_ops_deploy.py:103-113 | up to five attempts add only copies of the effect; success means it took effect |
| Operations.PsiphonNetwork.Save | Automation/psi_ops_cms.py:164-177 | a save stores the whole database or leaves the old one, and success means it is stored |
| Operations.PsiphonNetwork.DeployImplementations | Automation/psi_ops.py:2487-2494 | every flagged host exists and gets its implementation before the flags are cleared and saved |
| Operations.PsiphonNetwork.EnsureBucket | Automation/psi_ops.py:2511-2572 | the campaign ends with a bucket, a new one loaded with the website, and only a failed call or a missing default email account stops it |
| Operations.PsiphonNetwork.Publish | Automation/psi_ops.py:2604-2614 | success means exactly the current version went to the campaign's own bucket |
| Operations.PsiphonNetwork.BuildCampaign | Automation/psi_ops.py:2508-2626 | a build of the current version went to the campaign's own bucket since the deploy began, followed by the tweet or with the email push flagged |
| Operations.PsiphonNetwork.BuildTarget | Automation/psi_ops.py:2502-2526 | all campaigns of the channel and sponsor that allow the platform are out in their own buckets and announced |
| Operations.PsiphonNetwork.DeployPlatform | Automation/psi_ops.py:2498-2640 | no target of the platform stays flagged, nothing else of the flags changes but email, and what was built is saved |
| Operations.PsiphonNetwork.DeployBuilds | Automation/psi_ops.py:2496-2640 | no build stays flagged, nothing else is unflagged, and no unsaved version is left |
| Operations.PsiphonNetwork.SendData | Automation/psi_ops_deploy.py:541-559 | every host is sent the data of the whole database in memory, and nothing else is sent |
| Operations.PsiphonNetwork.DeployData | Automation/psi_ops.py:2642-2651 | that happens before the flag is cleared and saved |
| Operations.PsiphonNetwork.PushConfigs | Automation/psi_ops.py:2653-2663 | statistics and email configurations are pushed before their flags are cleared and saved |
| Operations.PsiphonNetwork.RemoveFromProviders | Automation/psi_ops.py:1962-1988 | every waiting host at Linode or DigitalOcean is removed there, and only hosts of other providers are left waiting |
| Operations.PsiphonNetwork.UpdateSite | Automation/psi_ops.py:2679-2685 | a bucket named on the way is saved, and the campaign's site is updated |
| Operations.PsiphonNetwork.DeploySites | Automation/psi_ops.py:2672-2688 | every flagged sponsor's sites are updated, each unflagged and saved in turn |
| Operations.PsiphonNetwork.PaveOsls | Automation/psi_ops.py:2692-2695 | every flagged channel is paved before the flags are cleared and saved |
| Operations.PsiphonNetwork.Deploy | Automation/psi_ops.py:2471-2695 | at every abort point nothing flagged is lost from memory or from any save and all data sent had its builds out first; a completed deploy leaves no flag, every flag had its effects and flagged data reached every host; with a default account and no failing call it completes |
| Operations.PsiphonNetwork.DeployNow | Automation/psi_ops.py:2471-2695 | the same as a session step, remembered when it ends saved: what was owed is owed or done, in memory and in what was saved |
| Operations.PsiphonNetwork.Load | Automation/psi_ops_cms.py:192-204 | a restart forgets what was only in memory and keeps the session's invariants |
| Operations.PsiphonNetwork.SaveNow | Automation/psi_ops_cms.py:164-177 | an explicit save that succeeds is remembered, a failed one ends the session |
| Operations.PsiphonNetwork.AddCampaign | Automation/psi_ops.py:1129-1150 | a campaign not yet listed is appended and flagged for both platforms and for paving |
| Operations.PsiphonNetwork.SetDefaultEmail | Automation/psi_ops.py:1074-1093 | the search succeeds exactly when an email campaign has the account, which then becomes the default; else it raises |
| Operations.PsiphonNetwork.SetBucketName | Automation/psi_ops.py:1152-1167 | exactly the campaigns with the channel and account are renamed and their target and channel flagged; it raises exactly when an account is given and a campaign on the channel has none |
| Operations.PsiphonNetwork.AddClientVersion | Automation/psi_ops.py:2989-3005 | the list gets the next number, and every campaign and all data are flagged |
| Operations.PsiphonNetwork.AddServerVersion | Automation/psi_ops.py:2981-2987 | all live hosts of the kind, and no others, are flagged |
| Operations.PsiphonNetwork.SetOslConfig | Automation/psi_ops.py:2958-2969 | data and every channel's paving are flagged |
| Operations.PsiphonNetwork.FlagWebsites | Automation/psi_ops.py:1043-1047 | every sponsor's website is flagged |
| Operations.PsiphonNetwork.RemoveHost | Automation/psi_ops.py:1990-2048 | exactly the host's servers move to the archive unchanged, the count is conserved, the host waits for its provider, its flag goes and the statistics flag is raised |
| Operations.PsiphonNetwork.PruneServers | Automation/psi_ops.py:1534-1545 | when no call fails it finishes exactly for lists in which no repeated host has 10 users or fewer; then exactly the hosts with 10 or fewer are gone, those below 50 closed, both are counted, and nothing else in memory is lost |
| Operations.PsiphonNetwork.SetupServer | Automation/psi_ops.py:1743-1774 | the new server's id is neither live nor archived, its host is new, and exactly an installation, an implementation and the data of a database with the host in it were sent to it |
| Operations.PsiphonNetwork.AddServer | Automation/psi_ops.py:1949-1953 | a launched host is set up, then rebooted, then saved |
| Operations.PsiphonNetwork.AddServers | Automation/psi_ops.py:1816-1960 | after success every launched host is live, the replaced servers are retired and kept, every campaign of the channel was rebuilt into its bucket if the servers are embedded, every host got data holding the new hosts, statistics were pushed and nothing is flagged; with a default account, new hosts and enough new ids only a failing call stops it |
| Operations.GenerateUniqueServerId | Automation/psi_ops_install.py:353-356 | the first draw that is not an existing id |
| Sessions.Execute | Automation/psi_ops.py:2471-2695 | an editing command makes exactly its edit, any other meets its own postcondition, none but a restart loses anything in memory, and only a command whose call or check can fail ends the session |
| Sessions.RunSession | Automation/psi_ops.py:2471-2695 | every sequence of commands, failures and restarts gives a log in which each step follows from its command and every state is sound: promises kept at every moment, databases well formed, nothing lost in memory or on disk since any remembered save |
| Sessions.BuildsPrecedeData | Automation/psi_ops.py:2481-2483 | when a host is sent data, no host awaits an implementation and, for every campaign and each of its platforms, a build at least as new as every listed version was published to the campaign's bucket earlier |
| Sessions.OfferedUpgradesAreThere | Automation/psi_ops.py:3308-3316 | what a host's data offers the clients of one of its campaigns is the newest version it lists, and is at that moment, and at every later one, in the bucket the campaign names in that data |
| Sessions.CompletedDeployDidEverything | Automation/psi_ops.py:2487-2695 | in any session, whatever was flagged when a completed deploy began has its effects among those of the deploy |
| Sessions.SavesAreRemembered | Automation/psi_ops_cms.py:164-177 | every successful save, every deploy that ends saved, every restart and every failure leaves a remembered state |
| Sessions.UnsavedWorkSurvives | Automation/psi_ops.py:2471-2695 | from any state of a session to any later one with no restart or failure in between, nothing in memory is lost, saved or not |
| Sessions.NoWorkIsLost | Automation/psi_ops.py:2487-2695 | from any remembered state of a session to any later one, an obligation is still owed in memory and by the latest save, or was discharged in between |
| Sessions.IdsAreNeverReused | Automation/psi_ops.py:2017-2034 | from a remembered state on, in memory and on disk, a server id stays with its host or in the archive, and an archived id is never live |
| Sessions.ReleaseIsPossible | Automation/psi_ops.py:2496-2663 | a concrete release that builds, sends data and pushes meets all invariants and leaves nothing owed |
| Sessions.FirstRelease | Automation/psi_ops.py:2471-2695 | on a reliable network, given one id to draw, the first release completes, with version 1 published, its email push made afterwards and the host told |
| DirectDataSafety.DirectDataCanRunAhead | Automation/psi_ops.py:2147-2155 | after a version is added, data sent outside deploy() can name a version nobody can download |
| DirectDataSafety.DirectDataSafeExactly | Automation/psi_ops.py:2147-2155 | such data is safe after every history that serves the database exactly when each campaign it speaks for has a bucket that a campaign awaiting no build publishes to |
| DirectDataSafety.OfferIsThereExactly | Automation/psi_ops.py:3308-3316 | after every history in which the data's builds are out, an offered upgrade is in a client's bucket exactly when nothing is offered or a campaign of the data names the bucket |
| DirectDataSafety.RenamedBucketMissesOffer | Automation/psi_ops.py:1152-1167 | after a renaming a client of the old bucket is offered a version the old bucket does not have |
| StatsRows.OneArityNoOverlap | Automation/psi_process_stats.py:465-482 | rows of one event type and one field count are duplicates only when equal |
| StatsRows.DecimalReads | Automation/psi_process_stats.py:550 | a field count is spelled in decimal without leading zeros |
| StatsRows.UnkeyedIsSkipped | Automation/psi_process_stats.py:547-565 | a line without a schema entry for its field count is skipped |
| StatsRows.RowHolds | Automation/psi_process_stats.py:567-624 | a server column of a stored row holds the mapped id or Unknown and never the address, last_connected of a connected event its three cases, every other column its own field |
| StatsRows.StoredExactly | Automation/psi_process_stats.py:536-597 | exactly when a line is stored and when it raises: event kept, byte counts in range, client version not 24, channel not excluded |
| Stats.StatsDatabase.ProcessFile | Automation/psi_process_stats.py:503-641 | the backward scan inserts the rows of exactly the scanned lines and tracks the latest timestamp |
| Stats.StatsDatabase.ProcessStats | Automation/psi_process_stats.py:424-657 | a run is one step of the specification, and a run that raises changes nothing |
| StatsRuns.ScanFindsNew | Automation/psi_process_stats.py:525-533 | in a chronological file, stopping at the first old line finds exactly the lines that are not old |
| StatsRuns.IngestIsUnion | Automation/psi_process_stats.py:465-470 | without overlapping rows, insert-if-absent is set union |
| StatsRuns.IncrementalIsComplete | Automation/psi_process_stats.py:441-657 | after any history of runs the tables hold exactly the rows of every line ever presented |
| StatsRuns.SameAsFullPass | Automation/psi_process_stats.py:441-657 | that is what one pass over the lines of all hosts, in any order, inserts into empty tables |
| StatsRuns.OneArityPerEvent | Automation/psi_process_stats.py:548-556 | one field count per event type rules overlaps out |
| StatsRuns.LatestIsMaximum | Automation/psi_process_stats.py:542-543 | the new watermark is the latest timestamp of the processed lines |
| StatsRuns.MarkIsLatest | Automation/psi_process_stats.py:649-657 | a committed run moves the host's watermark to the latest timestamp it processed, and leaves it when it processed none |
| StatsRuns.MarkNeverDecreases | Automation/psi_process_stats.py:649-657 | a host's watermark never decreases and other hosts' stay |
| StatsRuns.RerunChangesNothing | Automation/psi_process_stats.py:503-657 | a rerun over unchanged files commits and changes nothing, even out of chronological order |
| StatsRuns.OrderMattersExactly | Automation/psi_process_stats.py:465-470 | every reading order gives the same tables exactly when no line's row overlaps another's |
| StatsRuns.PrefixSubsumed | Automation/psi_process_stats.py:465-470 | a line stored under fewer columns of the same event, with the same values, asks for a duplicate that is not equal |
| StatsRuns.ShorterFormOverlaps | Automation/psi_process_stats.py:88-106 | with the two listed forms of a handshake, any handshake line and the same line without its newest field depend on their reading order |
| Discovery.BucketCount | Automation/psi_ops_discovery.py:34-38 | the least number whose square reaches the length |
| Discovery.BucketsAreTheList | Automation/psi_ops_discovery.py:42-44 | the buckets put together are the list |
| Discovery.BucketSizes | Automation/psi_ops_discovery.py:34-44 | no bucket is empty or larger than the bucket count, and sizes differ by at most one |
| Discovery.SelectsOne | Automation/psi_ops_discovery.py:58-97 | the one server selected is in the bucket numbered by the client value modulo the count, at the clock hour modulo the bucket's size |
| Discovery.BoundaryRounds | Automation/psi_ops_discovery.py:42-44 | a bucket boundary is a multiple of the share rounded to the nearest position |
| Discovery.EachOnceInWindow | Automation/psi_ops_discovery.py:79-97 | a client sees each server of its bucket exactly once in any window of as many hours |
| Discovery.EachOnceInSeconds | Automation/psi_ops_discovery.py:79-97 | asking every 3600 seconds shows each server of the bucket exactly once |
| Discovery.SameWithinHour | Automation/psi_ops_discovery.py:79-82 | the selection depends on the clock hour only, and no time or time zero means now |
| Discovery.AllSelectable | Automation/psi_ops_discovery.py:55-95 | with one-byte client values every server is selectable exactly up to 65536 servers |
| Discovery.AllSelectableByHandshake | Automation/psi_ops.py:3349-3355 | with non-zero one-byte values every server is selectable exactly up to 65025 servers |
| Compartments.CompartmentalizeForHost | Automation/psi_ops.py:3481-3508 | the copy holds exactly the host's own servers and the foreign ones still discoverable after the cutoff, without SSH keys and otherwise unchanged, and has the master's candidates from the cutoff on |
| Compartments.CompartmentalizeForTcs | Automation/psi_ops.py:3626-3652 | the list holds each server still discoverable after the cutoff once, without SSH keys and otherwise unchanged, and has the master's candidates from the cutoff on |
| Compartments.CopyGoodFromCutoffOn | Automation/psi_ops.py:3260-3264 | the copy's candidates are the master's for all databases exactly from the cutoff date on |
| Compartments.TcsCopyGoodFromCutoffOn | Automation/psi_ops.py:3626-3652 | so are those of the list for tunnel-core hosts |
| Ports.GetSupportedProtocolPorts | Automation/psi_ops_deploy.py:377-424 | which protocols get a port, and which port, in terms of the host and server records, outside and inside the container |
| Ports.EntryCapabilities | Automation/psi_ops.py:3196-3225 | a server entry offers a tunnel protocol exactly when the protocol is given a port, and which capabilities those are |
| Ports.ConfigureServer | Automation/psi_ops.py:1859-1947 | for every batch position and every draw, what a new tunnel-core server supports and on which ports; its listening ports are pairwise distinct and differ from its web port |
| Firewall.BuildRateLimitChain | Automation/psi_ops_install.py:954-1001 | on every dictionary order the appends give the chain whose verdicts are stated below |
| Firewall.PortsVerdict | Automation/psi_ops_install.py:990-999 | for every limiter state a new connection gets the verdict of the first protocol on its port that decides, and all else passes by |
| Firewall.FirstOfUnique | Automation/psi_ops_install.py:990-999 | a port that one protocol alone has is decided by that protocol, whatever the order |
| Firewall.NativeVerdict | Automation/psi_ops_install.py:954-1071 | the verdict on a new outside connection for every limiter state: management, web port, protocols, else reset |
| Firewall.ProtocolVerdict | Automation/psi_ops_install.py:954-1001 | on an unshared port SSH and OSSH drop a sender that was there too recently and meek resets without a token |
| Firewall.InputVerdict | Automation/psi_ops_install.py:1015-1057 | the verdict of INPUT on every packet, given the verdict of the rate-limit chain |
| Firewall.NativeAccepts | Automation/psi_ops_install.py:954-1071 | a new outside TCP packet no limiter stops is accepted exactly on the management port, the web port if handshakes are served, and the listening ports of the server's record, for every dictionary order |
| Firewall.ClosedPortsReset | Automation/psi_ops_install.py:954-1057 | whatever the limiters say, a port not opened is reset |
| Firewall.DockerAccepts | Automation/psi_ops_install.py:1044-1057 | on a container host INPUT accepts only management connections |
| Firewall.DockerChainAccepts | Automation/psi_ops_install.py:954-1001 | the chain of a container host accepts exactly the container ports of the supported protocols and the web port 1025 |
| Firewall.BuildLimitLoadChain | Automation/psi_ops_install.py:1435-1456 | the appends give the load-limiting chain whose verdicts are stated below |
| Firewall.LimitLoadResets | Automation/psi_ops_install.py:1435-1465 | with the jump at the head exactly the new connections to the server's SSH and OSSH ports are reset and every other packet keeps its verdict |
| Firewall.BuildForwards | Automation/psi_ops_install.py:1075-1096 | the appends give the forwards that the advertised port is followed through below |
| Firewall.AdvertisedPortReachesOssh | Automation/psi_ops.py:3187-3190 | the advertised OSSH port is the newest alternate unless meek is on, and ends up at the OSSH port exactly unless it is 443, the web forward takes it and the web server has another port |
| Firewall.ForwardedTo | Automation/psi_ops_install.py:1075-1096 | where a connection to any port ends up: HTTPS at the web server unless meek or OSSH uses 443, alternates at OSSH, others where they were sent |
| Firewall.AlternateTakenByWeb | Automation/psi_ops_install.py:1075-1096 | a server whose advertised alternate 443 leads to its web server |
| LimitLoad.Chain.Delete | Automation/psi_ops_install.py:1247 | the first copy of a rule goes and nothing else |
| LimitLoad.Chain.RunScript | Automation/psi_ops_install.py:1286-1295 | a run deletes each limiting rule once and, under load, inserts each again at the head |
| LimitLoad.RunCount | Automation/psi_ops_install.py:1286-1295 | the copies of each rule after one run, whatever was there before |
| LimitLoad.LastRunDecides | Automation/psi_ops_install.py:1229-1297 | from no excess copies, after any runs each limiting rule is there as often as generated or not at all, as the last run says |
| LimitLoad.ChainAfterRuns | Automation/psi_ops_install.py:1229-1297 | the whole chain after any runs: the limiting rules in front of the untouched other rules |
| LimitLoad.JumpOnceOrNever | Automation/psi_ops_install.py:1398-1405 | the tunnel-core jump is there once or not at all, as the last run says |
| LimitLoad.ExcessSurvives | Automation/psi_ops_install.py:1286-1295 | copies beyond those generated are never removed by a run |
| Quota.DomainIsAfterLastAt | EmailResponder/blacklist.py:94 | the domain is what follows the last at sign |
| Quota.Blacklist.CheckAndAdd | EmailResponder/blacklist.py:87-146 | settings decide before the stored lists, exemption before blocking and white before black; a counted address is granted and counted up below the limit, else refused |
| Quota.Blacklist.SerialRequests | EmailResponder/blacklist.py:120-146 | after a clearing, an address asking k times gets min(k, limit) replies whoever else asks in between, with a limit below one counting as one |
| Quota.RequestAlone | EmailResponder/blacklist.py:120-146 | a request that nothing comes between is decided and counted like a request alone |
| Quota.EveryInterleaving | EmailResponder/blacklist.py:120-146 | in every interleaving the stored count stays within the limit and at most one request that read no record gets a reply |
| Quota.RepliesAccounted | EmailResponder/blacklist.py:120-146 | replies are the stored count plus every increment a stale write undid |
| Quota.SerialWithinQuota | EmailResponder/blacklist.py:120-146 | requests that do not overlap never exceed the quota |
| Quota.OverlapExceedsQuota | EmailResponder/blacklist.py:120-146 | with a limit of two or more, any number of overlapping requests can all get a reply |
| Quota.WithinQuotaExactly | EmailResponder/blacklist.py:120-146 | all interleavings of n requests stay within the quota exactly when the limit is at most one or n is at most the limit |
| WeightedChoice.Choose | Automation/psi_ops.py:2206-2221 | the loop returns the first position whose running total exceeds the draw, and raises exactly when there is no rank to draw from |
| WeightedChoice.EachByItsRank | Automation/psi_ops.py:2206-2221 | each position is returned for exactly its rank of the draws, so rank zero never is |

## Left out

- Log ingestion assumes that files are chronological and that a line appearing later is no older than the host's watermark; the source admits a moving clock and a daylight-saving hour break this.
- Log ingestion uses one database with one atomic commit; the source can spread tables over several connections, and an error the database raises for a value is not modelled.
- Log timestamps are numbers in the order their text compares in; the pattern match of a line and the repair of a timestamp are not modelled.
- The event schema is an arbitrary table, so the proofs hold for any; only its two handshake entries are written out.
- Floating-point rounding in the partition and the square root: exact arithmetic is used.
- Compartments.CompartmentalizeForTcs: does not model the final sort by host id, which does not change the set of candidates.
- The cutoff of a database copy defaults to the time the program was loaded; here it is any date.
- Operations.PsiphonNetwork.AddServers: does not model the server details drawn for each host, which are `Ports.ConfigureServer`.
- Operations.PsiphonNetwork.SetupServer: its direct data push is in the history but outside the ordering guarantee of deploy(), because the source does not give one there.
- Operations.PsiphonNetwork.PruneServers: the number of users on a host is a function of the host, because a count that changes or fails between two servers of one host would need a clock.
- `replace_propagation_channel_servers` catches an exception and goes on with the same memory; the model restarts after every exception.
- The `vpsnet` provider, whose removal branch compares where it should assign, counts as a provider without an interface.
- `import_server`, `import_host_and_server` and `upgrade()` bypass the operations modelled here.
- Alternate bucket names of campaigns, setters that only raise one of the modelled flags, and the content of builds, sites and configurations.
- Signing, hashing, encoding and encryption; an email address or domain stands for its lower-cased hash.
- The FORWARD and OUTPUT chains, the legacy host's packet filter, and the load measurement in the load scripts.
- `inet_aton`, CSV and archive handling: address parsing is an arbitrary function from text to an optional address.
