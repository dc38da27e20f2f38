# A verified model of the DRBD test driver

The repository drives DRBD clusters through tests. The DRBD protocol itself lives
in the kernel and is not part of it; what the driver keeps itself is state that has
to stay right over long runs: configuration files on the hosts and the flags that
say whether they are current, rules in packet filters, queueing disciplines, futures
of commands, streams to write to. This project models that state in Dafny and proves
what the driver relies on.

`dafny verify dfyconfig.toml` checks everything.

## What is where

| file | what it models |
|---|---|
| `OrderedSet.dfy`, `Connections.dfy` | the ordered set under all collections; the builder of connections |
| `ConfigText.dfy`, `NodeConfig.dfy`, `ConfigWriter.dfy` | the text of nested blocks and a reader for it; the block tree of a node's configuration; the objects and the shared stack that print it |
| `ConfigMeaning.dfy`, `Decimals.dfy` | what a reader finds in a printed file, in terms of the settings; numbers as text |
| `ConfigErrors.dfy`, `ConfigSizes.dfy` | when printing raises; which changes show in the text |
| `ClusterState.dfy`, `ClusterConfig.dfy` | the settings, files and flags of a cluster and every step of a test as a function of them; the objects that do these steps in place |
| `ClusterSettings.dfy` | what setters set, over every run and in the files |
| `ClusterAllocation.dfy`, `NodeIds.dfy` | minors, ports, node ids and the places of volumes over every run |
| `ConfigCache.dfy`, `SharedFiles.dfy`, `CacheTransparency.dfy` | the flag `config_changed` as a cache: which steps leave files stale, resources that share files, and that the cache cannot be noticed otherwise |
| `CacheFailures.dfy`, `OutdatedFiles.dfy` | which steps raise, and runs in which a command finds an outdated file |
| `WeightedDraw.dfy`, `RandomExplorer.dfy`, `ExplorerSafety.dfy`, `ExplorerResults.dfy`, `ExplorerTotals.dfy`, `ExplorerFate.dfy` | the random explorer as interleaved statements of a main thread and a pool |
| `ExplorerSteps.dfy`, `ExplorerLoops.dfy`, `ExplorerPolls.dfy` | which steps it offers and which commands it gives, on which answers of the nodes |
| `Firewall.dfy`, `FirewallRuns.dfy` | the rule chains of a host and what they cut; a test and its background shells |
| `TrafficControl.dfy` | delays and rate limits per destination |
| `VersionOrder.dfy`, `TestsGenerator.dfy`, `GeneratedTests.dfy` | the order of versions and the selection that rests on it; exactly what a run writes |
| `Tee.dfy` | the stream that copies to a set of streams |
| `JsonText.dfy`, `JsonReader.dfy`, `StreamJson.dfy`, `JsonStreams.dfy` | JSON texts and the reader of Python's library; the runner's generator over a text file; which files it reads right |
| `MetadataSize.dfy` | the size arithmetic of the resize test |
| `Runner.dfy`, `TestRuns.dfy` | the test runner; what it does in plain words |
| `Wrappers.dfy` | Option and Result |

Objects that the source updates in place are classes, and its loops are loops; each
is proved against a function or relation whose properties are then proved for all
inputs, all sequences of calls or all interleavings. An exception is a result
(`ok == false`, `None`, `Err`).

## Where the code does not keep a promise

Each of these has a condition under which the promise holds, and an input or a run
for which it does not.

- An index of an ordered set is the position only while nothing before it has been
  discarded (`OrderedSets.LookupExactIff`, `OrderedSets.IndexCollision`).
- Building a node, `Node.remove_disks` and a lone `Node.add_disk` leave the files of
  members that are not marked stale, and it is stated exactly when
  (`ConfigCache.LeftStaleIff`, `OutdatedFiles.OutdatedRun`); `touch_config` puts it
  right (`ConfigCache.MarkingHeals`). With `zero_out`, a command runs in the middle of
  such a change (`CacheFailures.BlankingSeesOld`).
- Files are named after resources, but nothing keeps two resources from having one
  name: `create_resource` uses the same one whenever none is given, and `rename` takes
  any. Their members on one host then overwrite each other's files and do not notice
  (`SharedFiles.SharedFilesIff`, `OutdatedFiles.SameNameRun`).
- A node's id is the number of members at its making. Members that leave and come back keep
  different ids, but a node made after one has left can get an id that is in use
  (`NodeIds.NextIds`, `NodeIds.RunIds`, `NodeIds.MadeAfterRemoval`).
- An exception out of `config()` leaves the flag cleared, and the next command runs
  with an old file or none (`CacheFailures.ExceptionForgotten`,
  `OutdatedFiles.ForgottenRun`); it happens iff some text that is written has a
  percent sign that Python's formatting rejects (`ConfigErrors.ConfigRaisesIff`).
- A commit id that happens to have decimal digits only is not taken for a development
  build (`VersionOrder.DevelopmentBuild`, `VersionOrder.DigitsOnlyBuild`).
- A command of the explorer that raises after the last check for completion can go
  unnoticed, and it is stated from which states (`ExplorerFate.UnnoticedIff`,
  `ExplorerResults.LastFailureUnnoticed`); and where a node reports a role
  other than Primary and Secondary the list of steps can be impossible to draw from
  (`ExplorerTotals.ZeroTotalIff`, `ExplorerTotals.ZeroTotalReached`).
- A packet block with `from_node` covers the peer's first address only
  (`Firewall.PacketBlockFirstAddressOnly`).
- Two threads that change a `Tee` can lose a change (`Tee.LostUpdate`,
  `Tee.AssignmentExactIff`).
- For sizes that are not whole MiB the page count can be one too small
  (`MetadataSize.PagesHoldIff`), and leading sizes of zero are not compared
  (`MetadataSize.PassMeansEqualIff`).
- `run_tests` returns zero for a run that it cut short when the test that timed out
  ended with status zero (`Runner.ExitCodeZero`). `main` returns that value for its
  last iteration only (`Runner.ReturnedIff`, `Runner.EarlierFailureForgotten`), and the
  script drops it: the status of the process does not tell of failed tests
  (`Runner.RunScript`).
- `stream_read_json` seeks by the characters it has read, while CR LF is two bytes and
  one character. Files with DOS line ends go wrong, with six lines or more if each
  line holds a text (`JsonStreams.DosReadsIff`), earlier if a text has several lines
  (`JsonStreams.LongTextFails`).

## Model

| member | source | states |
|---|---|---|
| `OrderedSets.Represented` | python/ordered_set.py:103-147 | after any sequence of additions and discards the items are duplicate-free and are exactly the keys of the map |
| `OrderedSets.IndexDrift` | python/ordered_set.py:103-147 | over every such sequence, the stored index of the key at position p minus p is the number of keys that stood before it and were discarded since it was added |
| `OrderedSets.LookupExactIff` | python/ordered_set.py:130-147 | `items[index(k)]` is k iff no key before k was discarded since k was added |
| `OrderedSets.DiscardFreeExact` | python/ordered_set.py:103-114 | without discards every index is the position |
| `OrderedSets.IndexCollision` | python/ordered_set.py:103-147 | a concrete sequence after which two members have the same index, so that the promise that indexes can be looked up is broken by discard |
| `OrderedSets.BuiltFrom` | python/ordered_set.py:43-48 | a set built from any list holds its different keys in the order of their first occurrences, with exact indexes |
| `OrderedSets.FreshExact` | python/ordered_set.py:43-48 | a set built from a list without repetitions is that list, with exact indexes |
| `OrderedSets.WithoutKeeps` | python/ordered_set.py:124-128 | the difference holds exactly the members that are not taken away |
| `OrderedSets.WithoutKeepsOrder` | python/ordered_set.py:124-128 | and keeps the order of any two of them |
| `OrderedSets.WithoutStep` | python/ordered_set.py:142-147 | discarding one more key gives the order-preserving filter for one more key |
| `OrderedSets.OrderedSet.constructor` | python/ordered_set.py:43-48 | the loop of additions: first occurrences in order, indexes exact |
| `OrderedSets.OrderedSet.Insert` | python/ordered_set.py:103-114 | appends a new key with the length as its index, and returns the stored index of a key that is there |
| `OrderedSets.OrderedSet.Remove` | python/ordered_set.py:142-147 | takes the key out of list and map, and no index is changed |
| `OrderedSets.OrderedSet.Update` | python/ordered_set.py:116-117 | the returned indexes, and the set as the fold of the additions |
| `OrderedSets.OrderedSet.DifferenceUpdate` | python/ordered_set.py:119-122 | the set in place becomes the order-preserving filter |
| `OrderedSets.OrderedSet.Copy` | python/ordered_set.py:79-80 | a new object with the same order and exact indexes; the old one is unchanged |
| `OrderedSets.OrderedSet.Difference` | python/ordered_set.py:124-128 | a new object with the order-preserving filter; the old one is unchanged |
| `OrderedSets.OrderedSet.Index` | python/ordered_set.py:140 | for one key the stored index, which is the position plus the drift, None (the KeyError) iff the key is missing |
| `OrderedSets.OrderedSet.IndexAll` | python/ordered_set.py:138-140 | for an iterable of keys their stored indexes in order, None iff one is missing |
| `OrderedSets.OrderedSet.SetState` | python/ordered_set.py:94-98 | rebuilds the set from a pickled state, `(None,)` standing for the empty one |
| `OrderedSets.OrderedSet.PickleRoundTrip` | python/ordered_set.py:82-98 | pickling and unpickling keeps the order and makes every index exact |
| `Connections.Build` | python/drbdtest.py:2586-2633 | the whole constructor: the nodes selected or the refusal, the assertion that all are of one resource, and the resulting pairs in order |
| `Connections.AddRow` | python/drbdtest.py:2625-2628 | the inner loop adds the pairs of one node in order |
| `Connections.AddBetween` | python/drbdtest.py:2625-2628 | the double loop against the specification, with the assertion that all nodes are of one resource |
| `Connections.AddReversed` | python/drbdtest.py:2630-2631 | the reversed pairs are added after the originals |
| `Connections.BetweenExact` | python/drbdtest.py:2623-2628 | the result holds exactly the pairs (f, t) with f among from, t among to and f different from t, each once even with repeated inputs |
| `Connections.BidirLeast` | python/drbdtest.py:2630-2631 | with bidir: the least superset closed under reversal, originals first and in order |
| `Connections.BidirChainExact` | python/drbdtest.py:612-614 | a chain built with bidir_add holds both orientations of its edges and nothing else |
| `Connections.NonChainPairs` | python/drbdtest.py:313-318 | the difference of all pairs and such a chain is exactly the non-chain pairs |
| `Connections.BetweenInOrder` | python/drbdtest.py:2625-2628 | the pairs stand in the order of the double loop, nodes that are repeated counting at their first occurrence |
| `Connections.BidirInOrder` | python/drbdtest.py:2630-2631 | the pairs that bidir adds stand in the order of their originals |
| `Connections.SelectsByDefault` | python/drbdtest.py:2607-2621 | which nodes each combination of arguments selects or refuses |
| `Connections.OfOneNode` | python/drbdtest.py:2607-2628 | of one given node the connections are those with every other member of its resource, from it or to it |
| `ConfigText.IndentGrows` | python/drbdtest.py:1369-1382 | a nested block is indented more than its parent block and its parent's statements |
| `ConfigText.PrintThen` | python/drbdtest.py:1387-1410 | printing contents one after the other is printing them together |
| `ConfigText.FormatPlain` | python/drbdtest.py:1405-1406 | a statement without percent signs is written as it is |
| `ConfigText.FormatExamples` | python/drbdtest.py:1405-1406 | what doubled percent signs, their longer forms and a lone percent sign do |
| `ConfigText.FormatBetween` | python/drbdtest.py:1405-1406 | a piece of state between fixed texts can be formatted iff it can be formatted alone |
| `ConfigText.PrintedTokens` | python/drbdtest.py:1387-1410 | the lines of a printed tree read as the tokens of the tree, at every depth |
| `ConfigText.ParseTokensOf` | python/drbdtest.py:1387-1410 | a reader of the token sequence finds the tree and stops where it ends |
| `ConfigText.RoundTrip` | python/drbdtest.py:1353-1410 | reading the printed text of a tree without braces and newlines in its names and statements gives the tree back, empty statements dropped |
| `ConfigWriter.Enter` | python/drbdtest.py:1360-1389 | a new block on the shared stack: its parent, indentation and destination, and the line it writes |
| `ConfigWriter.Exit` | python/drbdtest.py:1391-1397 | the closing line is written and the block popped is the one being left, so the assertion never fails |
| `ConfigWriter.Write` | python/drbdtest.py:1405-1410 | writes the formatted statement on a line, or raises where `data % ()` does |
| `ConfigWriter.WriteLines` | python/drbdtest.py:1963-1987 | the statements of a block, up to the first that raises |
| `ConfigWriter.WriteBlock` | python/drbdtest.py:1963-1967 | a block of statements; the stack is as before even after an exception |
| `ConfigWriter.WriteHost` | python/drbdtest.py:1939-1954 | the `on` block of HostEntry, of which ConfigMeaning.ReaderFinds says what a reader finds in it: the node's id, and by position each volume's minor, disk, metadata and tiebreaker; stack restored |
| `ConfigWriter.WriteConnection` | python/drbdtest.py:1909-1932 | the `connection` block: net, and one path per pair of addresses |
| `ConfigWriter.CollectDiskLines` | python/drbdtest.py:1969-1978 | the disk statements with the work-around for one distribution |
| `ConfigWriter.Contains` | python/drbdtest.py:1972 | substring search, both directions |
| `ConfigWriter.WriteFixed` | python/drbdtest.py:1963-2004 | the five fixed blocks |
| `ConfigWriter.WriteHosts` | python/drbdtest.py:2006-2007 | one `on` block per node in order |
| `ConfigWriter.WriteConnections` | python/drbdtest.py:1934-1937 | the double loop writes the block of every later pair |
| `ConfigWriter.WriteConnectionRow` | python/drbdtest.py:1936-1937 | its inner loop |
| `ConfigWriter.WriteConfig` | python/drbdtest.py:1956-2015 | the objects, the shared stack and the loops together produce the specified text, or raise exactly when the specification does, and the stack is empty again; for clean names and options a reader of that text finds each setting in its place: ids, minors, disks, tiebreakers, addresses with ports, options, handlers, disk and net |
| `NodeConfig.EachPairOnce` | python/drbdtest.py:1934-1937 | each unordered pair of nodes is visited in one orientation only, and there are n(n-1)/2 visits |
| `NodeConfig.PairsExact` | python/drbdtest.py:1934-1937 | which pairs the loop visits |
| `NodeConfig.PlainTree` | python/drbdtest.py:1956-2015 | clean names and option lines give a tree that formatting leaves alone and that can be read |
| `NodeConfig.ConfigRoundTrip` | python/drbdtest.py:1956-2015 | for clean names and option lines, config() does not raise and reading its text gives back the block tree |
| `NodeConfig.ReadResource` | python/drbdtest.py:1960-1961 | the reader finds one block for the resource |
| `NodeConfig.ReadParts` | python/drbdtest.py:1963-2010 | in it the five fixed blocks, the hosts in order and one connection for each pair |
| `NodeConfig.ReadHost` | python/drbdtest.py:1939-1954 | in a host its volumes in order |
| `NodeConfig.ReadConnection` | python/drbdtest.py:1926-1932 | in a connection one path per pair of addresses |
| `NodeConfig.VolumeCountsDetermined` | python/drbdtest.py:1947-1954 | equal texts have equal numbers of volumes on each node: a volume more makes every file stale |
| `NodeConfig.NodeCountDetermined` | python/drbdtest.py:2006-2010 | equal texts have equal numbers of nodes |
| `NodeConfig.VolumeDetermined` | python/drbdtest.py:1947-1954 | equal texts say the same of each volume |
| `NodeConfig.MinorDetermined` | python/drbdtest.py:1949-1950 | the statements on a volume tell its minor |
| `NodeConfig.HostnameDetermined` | python/drbdtest.py:1939-1940 | equal texts have the same hosts in order |
| `NodeConfig.FencingDetermined` | python/drbdtest.py:1980-1987 | equal texts of two nodes of one resource have equal fencing modes |
| `NodeConfig.SameVolumeIff` | python/drbdtest.py:1949-1954 | when the statements on two volumes with one minor are the same: disk, metadata and tiebreaker |
| `NodeConfig.SameConfig` | python/drbdtest.py:1939-1954 | volumes of which the same is said leave the text the same |
| `ConfigMeaning.ReaderFinds` | python/drbdtest.py:1956-2015 | for clean names and options, what a reader finds in the file, said without the functions that write it: the resource's name; handlers, options, disk and net with exactly their texts and the work-around; for each host the digits of its node's id and of each volume's minor, its disk, metadata and tiebreaker; each pair of nodes once with the k-th addresses of both and their own ports |
| `ConfigMeaning.PairsAreAll` | python/drbdtest.py:1934-1937 | the connections are those of all pairs of nodes, each once, in order |
| `Decimals.DecRead` | python/drbdtest.py:1942 | a number is written as decimal digits whose value it is, without leading zeros |
| `ConfigErrors.ConfigRaisesIff` | python/drbdtest.py:1956-2015 | config() raises iff an option text, a disk path, or a name or address that it writes cannot be formatted, over all pieces of state |
| `ConfigErrors.PercentOptionRaises` | python/drbdtest.py:1980-1987 | it raises on the net option `ping-timeout 50%;` |
| `ConfigSizes.VolumesChangeText` | python/drbdtest.py:1947-1954 | more volumes on a node change every text, whatever the names and options |
| `ConfigSizes.NodeChangesText` | python/drbdtest.py:2006-2010 | one more node changes every text, whatever the names and options |
| `ClusterConfig.Host.NextMinor` | python/drbdtest.py:1648-1650 | counts up, returns the new value |
| `ClusterConfig.Host.NextPort` | python/drbdtest.py:1652-1655 | returns the old value and counts up |
| `ClusterConfig.Node.SetFencingMode` | python/drbdtest.py:1893-1896 | the setter marks its own node only, and the new state is exactly that |
| `ClusterConfig.Node.WriteCurrent` | python/drbdtest.py:2025 | config() returns the text specified for the objects as they are, and changes nothing |
| `ClusterConfig.Node.UpdateConfig` | python/drbdtest.py:2020-2031 | a node that is not marked is left alone; otherwise the flag goes, and the file of the resource's name on its host is what config() gives, or the exception leaves all files |
| `ClusterConfig.Node.Deploy` | python/drbdtest.py:2023-2031 | the flag is cleared first; then the file of the resource's name on the host is that of config() as it is now, or an exception leaves the old one |
| `ClusterConfig.Node.Run` | python/drbdtest.py:2038-2047 | the update, if it is asked for, and the file on the host that the command then finds |
| `ClusterConfig.Node.ChooseMinor` | python/drbdtest.py:1863-1867 | the next minor of the host, or the minor of the replaced volume |
| `ClusterConfig.Node.PlaceVolume` | python/drbdtest.py:1873-1877 | append or replace, and mark |
| `ClusterConfig.Node.AddDisk` | python/drbdtest.py:1840-1878 | a fresh volume with the given number, disk and metadata at that position or at the end, a new minor of the host or the old one, and the node marked; an exception of the storage or of config() leaves the list |
| `ClusterConfig.Node.RemoveDisks` | python/drbdtest.py:1880-1887 | forgets the volumes and marks nobody |
| `ClusterConfig.Resource.TouchConfig` | python/drbdtest.py:1050-1052 | marks every member, and nothing else changes |
| `ClusterConfig.Resource.SetNetOptions` | python/drbdtest.py:927-930 | the field has the new value, all members are marked, and the rest of the state is as ClusterSettings.SetterAssigns says |
| `ClusterConfig.Resource.SetDiskOptions` | python/drbdtest.py:936-939 | the disk options have the new value, all members are marked, the rest as there |
| `ClusterConfig.Resource.SetResourceOptions` | python/drbdtest.py:945-948 | the resource options have the new value, all members are marked, the rest as there |
| `ClusterConfig.Resource.SetHandlers` | python/drbdtest.py:954-957 | the handlers are the new text, all members are marked, the rest as there |
| `ClusterConfig.Resource.Rename` | python/drbdtest.py:1067-1068 | the name, by which the files are found, is the new one, all members are marked, the rest as there |
| `ClusterConfig.Resource.SetTiebreaker` | python/drbdtest.py:1101-1103 | the tiebreaker of one volume changes, and all members of its resource are marked |
| `ClusterConfig.Resource.SetFencingMode` | python/drbdtest.py:959-961 | every member has the mode and is marked |
| `ClusterConfig.Resource.AddNode` | python/drbdtest.py:1054-1056 | the node is listed, once, and all members are marked |
| `ClusterConfig.Resource.RemoveNode` | python/drbdtest.py:1058-1060 | the list without the node, and those that remain are marked |
| `ClusterConfig.Resource.AddDisk` | python/drbdtest.py:870-917 | the counted number, a volume on every node, the metadata commands, and where an exception ends it |
| `ClusterConfig.Resource.AddVolumes` | python/drbdtest.py:904-908 | the first loop against its specification, exceptions included |
| `ClusterConfig.Resource.CreateMetadata` | python/drbdtest.py:910-915 | the second loop, which runs a command on each node with storage |
| `ClusterConfig.Resource.CreateNode` | python/drbdtest.py:1810-1821 | a new node with the number of members as its id, the next port of its host, no disks and no fencing mode; only it is marked |
| `ClusterConfig.Cluster.AddResource` | python/drbdtest.py:802-815 | the new resource of the given name after the others, with a node on every host |
| `ClusterConfig.Cluster.AddNodes` | python/drbdtest.py:806-807 | its loop over the hosts |
| `ClusterConfig.Cluster.Apply` | python/drbdtest.py:870-1103 | any step on one resource: the exact new state, whether it raised, and the file that a command found |
| `ClusterConfig.Cluster.Perform` | python/drbdtest.py:802-1103 | any step, the creation of resources included |
| `ClusterConfig.Cluster.Drive` | python/drbdtest.py:802-1103 | any sequence of steps up to the first exception is the replay of the steps on the state that the objects stand for: last state, success, and what each command found |
| `ClusterSettings.SetterAssigns` | python/drbdtest.py:927-957 | each setter gives its one text the new value; the four other texts, transport, TLS, members and all other resources are as before, and exactly the members are marked |
| `ClusterSettings.FencingAssigns` | python/drbdtest.py:959-961 | the fencing mode is that of exactly the members, which are marked; volumes and settings stay |
| `ClusterSettings.TiebreakerAssigns` | python/drbdtest.py:1101-1103 | the tiebreaker of exactly the one volume is the new answer, and every member is marked |
| `ClusterSettings.NextTexts` | python/drbdtest.py:802-1103 | what any step does to every text of every resource: nothing, unless it is the setter of this text |
| `ClusterSettings.RunTexts` | python/drbdtest.py:802-1103 | after any run, one that raised included, each text of each resource is the value of its last setter, or what it was at first; of a resource made in the run, its name or nothing |
| `ClusterSettings.SetStays` | python/drbdtest.py:927-957 | a text that was set keeps the value through any steps that do not set it again |
| `ClusterSettings.CurrentSays` | python/drbdtest.py:1956-2015 | for clean names and options a reader of the file that config() gives finds the settings of the state: the option texts, the fencing mode, the transport, ids, minors, disks, ports |
| `ClusterSettings.RunFile` | python/drbdtest.py:927-2015 | so after any run the blocks of the file of every node end with the last values that were set |
| `NodeIds.NextIds` | python/drbdtest.py:1810-1821 | from members with different node ids, a step leaves them different iff it does not make a node while a member has the number of members as its id, nor bring back a node whose id a member has |
| `NodeIds.ThroughoutIff` | python/drbdtest.py:1810-1821 | over every run, ids differ in all states iff no step does so |
| `NodeIds.RunIds` | python/drbdtest.py:802-1060 | where nodes are made by create_resource only, all nodes of a resource have different ids throughout, however they leave and come back |
| `NodeIds.MadeAfterRemoval` | python/drbdtest.py:1818-1819 | a node made after the first has left gets the id of the last |
| `ClusterAllocation.DisksAddedIs` | python/drbdtest.py:904-908 | the first loop of Resource.add_disk: which volume every node gets, that replaced volumes keep their minors, that nodes not listed are unchanged |
| `ClusterAllocation.VolumeAddedIs` | python/drbdtest.py:870-917 | Resource.add_disk changes the count, the volumes of the members as said, and otherwise flags, files and counters only |
| `ClusterAllocation.VolumeGot` | python/drbdtest.py:1861-1877 | what such a node has then: the volume with its number, disk and metadata and no tiebreaker answer, the others as they were |
| `ClusterAllocation.NextAllocated` | python/drbdtest.py:802-1103 | every step, one that raises included, keeps minors and ports distinct on each host and not above its counters |
| `ClusterAllocation.RunAllocated` | python/drbdtest.py:802-1103 | so does every sequence of steps on any number of resources |
| `ClusterAllocation.PlacedAfter` | python/drbdtest.py:1873-1876 | which positions are out of place after one more addition |
| `ClusterAllocation.PlacedAllExact` | python/drbdtest.py:1873-1876 | over any sequence of additions: the disk at position i has number i unless it was appended with a number beyond the end and not replaced since |
| `ClusterAllocation.NextInOrder` | python/drbdtest.py:1873-1876 | from disks that all stand at their numbers, a step leaves them so iff it adds no number beyond the end of a member's list |
| `ClusterAllocation.RunInOrder` | python/drbdtest.py:1873-1876 | so does every run in which no step does |
| `ClusterAllocation.RegularRunInOrder` | python/drbdtest.py:870-917 | and every run whose steps add volumes to whole resources only, take away no disks and bring back no members |
| `ConfigCache.FreshAfterUpdate` | python/drbdtest.py:2017-2031 | after an update of one node another one is current iff it was, or, if the update wrote the file that both share, iff it is marked or has the same configuration |
| `ConfigCache.CurrentAfterUpdate` | python/drbdtest.py:2020-2031 | the updated node finds what config() gives at that moment if it was marked or current |
| `ConfigCache.MarkingHeals` | python/drbdtest.py:1050-1052 | marking all members makes a resource current, whatever was wrong before |
| `ConfigCache.VolumeAddedKeeps` | python/drbdtest.py:870-917 | Resource.add_disk leaves its resource current and no other one stale |
| `ConfigCache.VolumeAddedMarks` | python/drbdtest.py:870-917 | after Resource.add_disk exactly the diskless members are still marked, since create-md has run on the others, and other nodes are as before |
| `ConfigCache.AdditionShows` | python/drbdtest.py:1840-1878 | a lone Node.add_disk leaves every other member stale that is not marked: for a new volume always, for a replaced one if the configuration says something else of it |
| `ConfigCache.RemovalShows` | python/drbdtest.py:1880-1887 | Node.remove_disks leaves every member stale that is not marked, the node itself included, if there were volumes |
| `ConfigCache.CreationShows` | python/drbdtest.py:1810-1821 | the constructor of Node leaves every older member stale that is not marked |
| `ConfigCache.ResourceCreatedIs` | python/drbdtest.py:802-815 | create_resource makes one marked node on each host, with ids in order and the next port of each host |
| `ConfigCache.ChangeWithin` | python/drbdtest.py:870-1103 | a step on one resource leaves all other resources, their nodes and the files of other names as they are |
| `ConfigCache.NextKeeps` | python/drbdtest.py:802-1103 | after any step, the members of every resource that is not counted as stale are marked or up to date |
| `ConfigCache.LeftStaleIff` | python/drbdtest.py:1810-1887 | a step leaves a current resource stale iff it changes what is written while a member that it does not mark is not marked |
| `ConfigCache.RunKeeps` | python/drbdtest.py:2017-2047 | over every run in which members share no files: which resources are current in the end, and that each command on a resource not counted as stale finds the current file |
| `ConfigCache.OrderlyRunsStay` | python/drbdtest.py:802-1103 | without steps that create nodes by hand or change the disks of one node, no resource is ever counted as stale |
| `SharedFiles.DistinctNamesThroughout` | python/drbdtest.py:2017-2018 | as long as no step gives a resource the name of another one, no two members ever share a file |
| `SharedFiles.OrderlyRun` | python/drbdtest.py:802-1103 | over every such sequence of steps, every command with update_config finds the file that config() gives at that moment |
| `SharedFiles.ResourcesDiffer` | python/drbdtest.py:1956-2015 | two resources, one of which has a volume, never write the same configuration |
| `SharedFiles.Overwrites` | python/drbdtest.py:2017-2031 | of two nodes that share a file, the first does not notice when the second has written it |
| `SharedFiles.SharedFilesIff` | python/drbdtest.py:2017-2047 | every command of every run of commands sees the current file iff no two members on one host are of different resources of one name, or of one resource with different fencing modes |
| `CacheTransparency.CachedSuffices` | python/drbdtest.py:904-908 | the updates that the flags skip within Resource.add_disk would not have raised |
| `CacheTransparency.TwinStep` | python/drbdtest.py:802-1103 | one step with the flags and with a write before every command: both raise or neither, the settings agree, and an updating command finds the same file |
| `CacheTransparency.Transparent` | python/drbdtest.py:802-1103 | over every sequence of setters, members that come and go, volumes for whole resources, new resources and commands that gives no name twice, the cache cannot be noticed |
| `CacheTransparency.FromTheStart` | python/drbdtest.py:802-1103 | all of this for tests that start without resources, under conditions on the steps alone |
| `CacheFailures.VolumeAddedRaisesIff` | python/drbdtest.py:870-917 | Resource.add_disk raises iff some storage cannot be created, or the configuration of a node with storage cannot be written in the state that it comes to |
| `CacheFailures.NextRaisesIff` | python/drbdtest.py:802-1103 | exactly which steps raise |
| `CacheFailures.RunRaises` | python/drbdtest.py:802-1103 | a run is cut short only at a step that raises |
| `CacheFailures.ExceptionForgotten` | python/drbdtest.py:2023-2025 | after an exception of config() the next command runs, with the old file or none |
| `CacheFailures.BlankingSeesOld` | python/drbdtest.py:1868-1877 | with zero_out, the blkdiscard of a member that is not marked yet finds a file that is not current once another member has its volume |
| `OutdatedFiles.OutdatedRun` | python/drbdtest.py:1810-1887 | three runs, with a node created by hand, a lone addition and a removal of disks, in which the last command finds the configuration of before |
| `OutdatedFiles.SameNameRun` | python/drbdtest.py:802-804 | create_resource called twice without a name: a command finds the file of the other resource |
| `OutdatedFiles.ForgottenRun` | python/drbdtest.py:2023-2025 | a run in which a first command raises and the next one finds no file, the option being still there |
| `WeightedDraw.Draw` | tests_special/random:328-335 | the loop ends at the step whose interval of the running sum holds the drawn number |
| `WeightedDraw.SelectsOne` | tests_special/random:328-335 | no number selects two steps, and only numbers below the total select any |
| `WeightedDraw.Selected` | tests_special/random:328-335 | every number below the total selects a step |
| `WeightedDraw.WeightManyDraws` | tests_special/random:328-335 | step k is selected by exactly as many numbers as its weight |
| `WeightedDraw.PositiveTotal` | tests_special/random:328-329 | the total is positive iff some weight is |
| `RandomExplorer.CountConnected` | tests_special/random:270-272 | the cluster's count of connected connections |
| `RandomExplorer.ListStepsLoop` | tests_special/random:274-302 | the loops against ListSteps, of which ExplorerSteps.ListedIff and ListInOrder say what it holds |
| `RandomExplorer.ListLinkSteps` | tests_special/random:290-300 | its inner loop |
| `ExplorerSafety.StepsEnabled` | tests_special/random:274-302 | every listed step that submits is for a node without a command; a listed wait is for two such nodes |
| `ExplorerSteps.ListedIff` | tests_special/random:265-302 | the list holds exactly these: the concurrent promotion with 500 if some connection is Connected; for an idle node its promotion with 50 and 100 for each connected peer if it is Secondary, its demotion with 100 if Primary; for each peer a disconnect with 10 for each connected connection of the cluster if the link is Connecting or Connected, a connect with 100 if StandAlone; a wait with 700 if the link is neither, and the peer is idle and not StandAlone |
| `ExplorerSteps.ListInOrder` | tests_special/random:274-302 | in order of nodes, role first, then peers, so that no step is listed twice |
| `ExplorerSteps.DrawnStep` | tests_special/random:327-335 | a drawn number leads to the step whose interval of the running sum holds it, and this step begins with its own command on its own node |
| `ExplorerSteps.RunFits` | tests_special/random:166-302 | in every run, a command about to be submitted is one that the polled state of its node calls for: a disconnect goes to a link that is Connecting or Connected, a connect to one that is StandAlone, a lone promotion to a Secondary, a demotion to a Primary |
| `ExplorerLoops.RunShows` | tests_special/random:139-151 | in every run, a node's role and links are those of the last status that it answered |
| `ExplorerLoops.WholePhase` | tests_special/random:230-263 | in the concurrent promotion, in every interleaving with the workers, both demoting loops submit one demotion to each node that was reported Primary and to no other, and the promoting loop one promotion to each node, in order |
| `ExplorerLoops.CountingLoop` | tests_special/random:247-257 | the test writes once on each node that was reported Primary and on no other, and goes on iff there was one and each write went well |
| `ExplorerPolls.RunPolled` | tests_special/random:131-339 | in every run, wherever the main thread decides something, every node without a command has been polled since its last command was submitted |
| `ExplorerPolls.RunChecked` | tests_special/random:131-137 | in every run, a node is left with a completed command iff the command has completed since check_for_completion last looked at it |
| `ExplorerPolls.RunRounds` | tests_special/random:314-339 | a run that finishes has exactly 100 rounds, each ended by one sleep, and any other has fewer |
| `ExplorerPolls.WaitLoop` | tests_special/random:210-221 | in every interleaving, the wait ends after the first test at which both ends report Connected or one StandAlone, and fails iff a status command does or ten tests pass |
| `ExplorerSafety.MainKeeps` | tests_special/random:131-339 | every statement of the main thread keeps the invariant |
| `ExplorerSafety.WorkerKeeps` | tests_special/random:166-208 | every statement of a worker thread keeps it |
| `ExplorerSafety.RunInv` | tests_special/random:131-339 | the invariant holds in every state of every run, for any number of nodes |
| `ExplorerResults.SubmitsToIdle` | tests_special/random:166-208 | in every run a command is submitted only to a node whose future slot is empty, and with exactly its own marker set; that the command is that of the drawn step and fits the polled state is in ExplorerSteps.DrawnStep and RunFits |
| `ExplorerResults.MarkersMatchCommands` | tests_special/random:166-208 | in every run a role or connect marker is set iff a command of that kind on that node is unfinished, raised or next to be submitted |
| `ExplorerResults.OneMarker` | tests_special/random:166-208 | a node never has two markers |
| `ExplorerResults.MainThreadCommandsAlone` | tests_special/random:139-151 | the main thread polls a node only while it runs no command, and writes only while no node runs one |
| `ExplorerResults.PoolSuffices` | tests_special/random:313 | a queued command always finds a free thread, so no more than max_workers are in flight |
| `ExplorerResults.WaitCanMove` | tests_special/random:223-243 | at a wait some thread can move |
| `ExplorerResults.NoDeadlock` | tests_special/random:313-339 | no reachable state is stuck: some step is enabled until the main thread has ended and all commands are settled |
| `ExplorerResults.MainDecreases` | tests_special/random:313-339 | each statement of the main thread uses up a bound, commands it starts included |
| `ExplorerResults.EveryRunEnds` | tests_special/random:313-339 | every run, under any schedule and answers, is shorter than a bound that depends on the number of nodes only |
| `ExplorerResults.KnownRolesGivePositiveTotal` | tests_special/random:274-302 | if every idle node is Primary or Secondary, a non-empty list has positive total, and it is empty only when all nodes are busy |
| `ExplorerResults.NeverStopsEarly` | tests_special/random:319-329 | if every poll answers Primary or Secondary, no run reaches the stop for nothing to do, and none draws from zero |
| `ExplorerTotals.CountedIff` | tests_special/random:265-272 | the count is positive iff some connection is Connected |
| `ExplorerTotals.ZeroTotalIff` | tests_special/random:274-302 | exactly when a non-empty list has total zero: nothing is Connected, some idle node is Connecting, and no idle node has an ordinary role, a StandAlone link or a link that can be waited for |
| `ExplorerTotals.ZeroTotalReached` | tests_special/random:313-329 | a run of two nodes, one reporting another role, that comes to such a list and ends with the exception of the draw |
| `ExplorerResults.RaisedEndsRun` | tests_special/random:131-137 | a command that has raised when completion is checked leads to failure in every continuation |
| `ExplorerResults.LastFailureUnnoticed` | tests_special/random:314-342 | a run that finishes normally although its last command raised: completion is not checked after the last round |
| `ExplorerFate.UnnoticedIff` | tests_special/random:131-137 | from any reachable state in which a command has raised, some continuation ends as if it had not iff the run has ended so, or is in its last round at a place past the last check from which the end can be reached |
| `ExplorerFate.NoticedBefore` | tests_special/random:313-342 | no continuation does before the last round, nor while the node is still to be checked |
| `Firewall.HostFilter.Iptables` | python/drbdtest.py:2206-2218 | one command on the two chains: what it changes and when it fails |
| `Firewall.HostFilter.Run` | python/linuxplatformhelper.py:181-182 | the loop over commands, which ends at the first failure |
| `Firewall.HostFilter.BlockPath` | python/linuxplatformhelper.py:180-182 | the commands of a path block in order, or the IndexError; whatever the chains held, after success a segment is cut iff it was before or runs between the two addresses on that net, over rdma as UDP to port 4791, over tcp using one of the two nodes' ports |
| `Firewall.HostFilter.UnblockPath` | python/linuxplatformhelper.py:184-189 | the commands of its removal, which undo exactly those (PathUndone) |
| `Firewall.HostFilter.BlockPacketType` | python/drbdtest.py:2241-2272 | the loop over the two targets, for adding and removing; after adding, a segment on its way in is cut iff it was before or is UDP to 4791 over rdma, TCP over tcp, from the peer's first address where a peer is given, and has a header of that volume and packet |
| `Firewall.RemoveFirst` | python/drbdtest.py:2206-2218 | a deletion takes out the first equal rule |
| `Firewall.ExecuteContents` | python/drbdtest.py:2206-2218 | the multiset of rules after a command; it fails iff it deletes a rule that is not there |
| `Firewall.BlockUndone` | python/drbdtest.py:2241-2272 | blocking and unblocking restores the multiset of rules, for paths and packets |
| `Firewall.PathUndone` | python/linuxplatformhelper.py:162-189 | blocking a path and unblocking it restores both chains exactly, order included, whatever they held |
| `Firewall.UnblockFails` | python/linuxplatformhelper.py:184-189 | removing a block that nobody holds raises and changes nothing |
| `Firewall.CutIff` | python/drbdtest.py:2206-2218 | a chain cuts a segment iff some matching rule is not a LOG rule |
| `Firewall.RulesCut` | python/drbdtest.py:2220-2233 | the rules of a block cut exactly the segments the block means |
| `Firewall.BlockCuts` | python/drbdtest.py:2220-2253 | the rules of a path or packet block, added to any chains, cut what they cut before and what the addresses, ports, transport, volume and packet of the arguments say |
| `Firewall.CutMeaning` | python/drbdtest.py:2220-2253 | chains that hold the rules of some blocks, in any order, cut a segment iff one of the blocks means it |
| `Firewall.SegmentCut` | python/drbdtest.py:2220-2253 | a TCP segment between two hosts is cut iff an outstanding path block at either end names both addresses and one of the two DRBD ports, or an outstanding packet block at the receiver names its sender and a header in it |
| `Firewall.FlowCutBothWays` | python/drbdtest.py:2220-2233 | path blocks cut a flow in both directions or not at all, whichever end made them |
| `Firewall.OnlyThatPath` | python/drbdtest.py:2220-2233 | with distinct addresses a path block touches a flow iff it is between its two hosts on its net and uses one of its two ports |
| `Firewall.PacketBlockFirstAddressOnly` | python/drbdtest.py:2241-2248 | with from_node only packets from the peer's first address are blocked, which leaves its other nets open |
| `FirewallRuns.StepKeeps` | python/linuxplatformhelper.py:162-189 | a command of the test or of a background shell, or the start of a shell, keeps the invariant |
| `FirewallRuns.NothingFails` | python/linuxplatformhelper.py:162-189 | in every interleaving of a test that unblocks only what it blocked with the shells of its timed blocks, no command fails and the chains hold exactly what the threads hold |
| `FirewallRuns.ProgramHeld` | python/linuxplatformhelper.py:162-189 | after any sequence of operations the test itself holds the rules of its blocks still outstanding |
| `FirewallRuns.ShellsOwn` | python/linuxplatformhelper.py:173-180 | the shell of a timed block deletes only rules it put in or took over, and in the end holds none |
| `FirewallRuns.RunLeaves` | python/linuxplatformhelper.py:162-189 | a finished run leaves exactly the outstanding blocks, and empty chains if there are none |
| `FirewallRuns.StartedByProgram` | python/linuxplatformhelper.py:173-180 | a test starts exactly the shells of its timed blocks, in order |
| `FirewallRuns.RunShells` | python/linuxplatformhelper.py:162-189 | in every run, thread i from 1 on is the shell of the timed block number i |
| `FirewallRuns.NowContents` | python/linuxplatformhelper.py:162-189 | at every quiet moment of every run the chains hold exactly the rules of the blocks outstanding then and of those whose shells are asleep |
| `FirewallRuns.CutNow` | python/linuxplatformhelper.py:162-189 | so a segment is cut iff one of these blocks means it |
| `FirewallRuns.FlowCutNow` | python/drbdtest.py:2220-2233 | of two hosts at quiet moments of their runs: a flow is cut in both directions or in none, and it is cut iff one of them currently blocks a path between the two addresses with one of the ports |
| `FirewallRuns.TestSteady` | python/linuxplatformhelper.py:162-189 | what the test holds after its first k operations |
| `FirewallRuns.PathShellSteady` | python/linuxplatformhelper.py:168-180 | a timed path block is held while its shell sleeps, not before and not after |
| `FirewallRuns.PacketShellSteady` | python/drbdtest.py:2255-2269 | a timed packet block is held from the start until its shell has deleted it |
| `TrafficControl.GetNodesByDev` | python/trafficcontrol.py:76-89 | the dictionary of devices with their nets and nodes in order; raises iff one device leads to nodes on two nets |
| `TrafficControl.TrafficControl.constructor` | python/trafficcontrol.py:12-46 | fresh trees on all devices of the nodes whatever they held before, nothing limited, other devices untouched; raises before any command iff a device serves two nets, and at the first tree iff the source has no band |
| `TrafficControl.TrafficControl.ConfigureDevice` | python/trafficcontrol.py:18-46 | the tree of one device |
| `TrafficControl.TrafficControl.SlowDown` | python/trafficcontrol.py:52-67 | the node's setting is replaced on all nets; raises, changing nothing, iff the node has no class |
| `TrafficControl.TrafficControl.RemoveSlowDown` | python/trafficcontrol.py:69-74 | the setting is removed on all nets; raises iff there is none, and then changes nothing |
| `TrafficControl.TrafficControl.Reset` | python/trafficcontrol.py:48-50 | everything on the devices of the nodes is removed, nothing else |
| `TrafficControl.NodeShape` | python/trafficcontrol.py:34-46 | trees that carry out the settings give a packet to any node, on any net, exactly that node's setting, addresses being distinct |
| `TrafficControl.UnfilteredShape` | python/trafficcontrol.py:25-32 | a packet to any other destination is never limited |
| `TrafficControl.ClassOfMember` | python/trafficcontrol.py:39-46 | the filters send an address to the class of the node that has it, any other to the default |
| `TrafficControl.Drive` | python/trafficcontrol.py:12-98 | the calls succeed iff every removal follows a setting and every node slowed down has a class; after any such sequence, addresses being distinct, a packet to a node gets that node's last setting not removed since |
| `VersionOrder.IsLowerLoop` | virter/vmshed_tests_generator.py:109-122 | the loop with its early returns and the TypeError, against its specification |
| `VersionOrder.IsLowerIsLex` | virter/vmshed_tests_generator.py:109-122 | is_lower is lexicographic order of the lists cut after their first `*`, a proper prefix below its extensions, with numbers by size, infinity above them, texts by their first difference and `*` above everything; it raises iff a number meets a text first |
| `VersionOrder.Irreflexive` | virter/vmshed_tests_generator.py:109-122 | nothing is lower than itself |
| `VersionOrder.Transitive` | virter/vmshed_tests_generator.py:109-122 | transitive on comparable lists |
| `VersionOrder.IncomparableTransitive` | virter/vmshed_tests_generator.py:109-122 | incomparability is transitive |
| `VersionOrder.Trichotomy` | virter/vmshed_tests_generator.py:109-122 | two comparable lists are ordered or equal up to the cut |
| `VersionOrder.LowerRespects` | virter/vmshed_tests_generator.py:109-122 | incomparable lists are interchangeable |
| `VersionOrder.IsLowerCutEqual` | virter/vmshed_tests_generator.py:109-122 | what follows a `*` plays no part |
| `VersionOrder.ParsedExactly` | virter/vmshed_tests_generator.py:126-138 | which versions are cut down to a build, and what every element is otherwise |
| `VersionOrder.SplitJoined` | virter/vmshed_tests_generator.py:127 | splitting at the dots is the inverse of joining: no part has a dot, and the parts with dots between them are the text |
| `Decimals.ValueWritten` | virter/vmshed_tests_generator.py:138 | a decimal text without leading zeros is the one way its value is written |
| `Decimals.LeadingZero` | virter/vmshed_tests_generator.py:138 | a leading zero does not change the value |
| `VersionOrder.DevelopmentBuild` | virter/vmshed_tests_generator.py:126-148 | a version `M.m.0.x` with x `latest` or 40 or 64 hexadecimal digits parses as a development build iff x is not all decimal digits |
| `VersionOrder.BuildAboveSeries` | virter/vmshed_tests_generator.py:130-136 | a build is above every numeric version of its series |
| `VersionOrder.BuildsEquivalent` | virter/vmshed_tests_generator.py:130-136 | any two recognized builds of a series are equivalent |
| `VersionOrder.BuildBelowLater` | virter/vmshed_tests_generator.py:130-136 | and below every numeric version of a later series |
| `VersionOrder.DigitsOnlyBuild` | virter/vmshed_tests_generator.py:127-136 | a commit id of decimal digits only is taken as a number and is below a release of its series |
| `TestsGenerator.ParseVariantsAdd` | virter/vmshed_tests_generator.py:161-168 | the set grown in the loop, or the first exception |
| `TestsGenerator.WriteTest` | virter/vmshed_tests_generator.py:66-94 | one round of the loop against Emit, of which GeneratedTests.EmitExact says what it writes |
| `TestsGenerator.WriteTests` | virter/vmshed_tests_generator.py:25-94 | the whole output for two optional versions against Generate, of which GeneratedTests.GenerateExact says what it holds |
| `GeneratedTests.EmitExact` | virter/vmshed_tests_generator.py:66-94 | one test is written iff it is selected, some machine count is left, and no version is given, or no minimum, or the minimum is not above the version in the lexicographic order of cut lists; with its machine counts as they are, or those of at most 2 in order for a version whose first number is below 9; and with the default variants and those of VariantsAddExact; it raises iff a comparison that is reached does |
| `GeneratedTests.VariantsAddExact` | virter/vmshed_tests_generator.py:161-168 | a variant is added iff it is listed plainly, or with a minimum below the version, or with any if no version is given |
| `GeneratedTests.LowerVersionExact` | virter/vmshed_tests_generator.py:24-37 | which of two versions counts, and that it raises iff both are given and a number meets a text first |
| `GeneratedTests.GenerateExact` | virter/vmshed_tests_generator.py:24-94 | a whole run, with or without versions: exactly the tests that are written, in their order, each as said; it raises iff the versions cannot be compared or some test raises |
| `TestsGenerator.AtLeastMonotone` | virter/vmshed_tests_generator.py:80-82 | what a version excludes a lower one excludes too |
| `TestsGenerator.VariantsMonotone` | virter/vmshed_tests_generator.py:161-168 | a lower version adds fewer variants |
| `TestsGenerator.VmListMonotone` | virter/vmshed_tests_generator.py:68-76 | the machine list for a lower version is the common part |
| `TestsGenerator.EmitMonotone` | virter/vmshed_tests_generator.py:66-94 | one test: the lower version's output is the meet of both |
| `TestsGenerator.EmitAllMeet` | virter/vmshed_tests_generator.py:66-94 | all tests likewise |
| `TestsGenerator.GenerateIsMeet` | virter/vmshed_tests_generator.py:25-94 | with two versions given, the output is the meet of the outputs for each alone |
| `TestsGenerator.MeetExact` | virter/vmshed_tests_generator.py:25-94 | what the meet holds: the tests of both with the common machines and variants |
| `Tee.Tee.Add` | python/drbdtestlogger.py:16-20 | the set with the stream, by copy |
| `Tee.Tee.Remove` | python/drbdtestlogger.py:22-26 | the set without the stream, raises iff it is not there |
| `Tee.Tee.Write` | python/drbdtestlogger.py:28-30 | every stream of the set gets the message once |
| `Tee.ExactlyOnce` | python/drbdtestlogger.py:13-30 | in every interleaving with any number of other threads, after a write each stream has received, once each and in order, exactly the messages at whose beginning it was in the set |
| `Tee.RunLinear` | python/drbdtestlogger.py:16-26 | with one other thread no change of the set is lost |
| `Tee.LostUpdate` | python/drbdtestlogger.py:16-26 | with two other threads an addition can be lost |
| `Tee.AssignmentExactIff` | python/drbdtestlogger.py:16-26 | with any number of them, an assignment loses nothing iff since the copy the set has changed at most in the stream in question |
| `Tee.RunPhase` | python/drbdtestlogger.py:13-30 | a stream added once is in a contiguous stretch of snapshots |
| `Tee.CaptureIsContiguous` | python/drbdtest.py:1610-1614 | so a capture stream receives a contiguous stretch of the messages in order |
| `MetadataSize.VerifySize` | tests/resize:20-45 | passes iff every size is the expected one and equals every earlier non-zero one; otherwise reports the first node that fails |
| `MetadataSize.ExpectedIs` | tests/resize:22-35 | the expected size: without adjustment that of the device, with it less 36 KiB and the least number of pages that hold one bit per 4 KiB block and peer |
| `MetadataSize.PassMeansEqualIff` | tests/resize:22-42 | passing means that all nodes have one size iff the first size is not zero or all are |
| `MetadataSize.PagesNotTooMany` | tests/resize:32 | with fewer pages the bits would not fit |
| `MetadataSize.PagesHoldIff` | tests/resize:32 | the pages suffice iff the bits do not exceed a page boundary by less than eight |
| `MetadataSize.PagesTooFew` | tests/resize:32 | a size where they do not |
| `MetadataSize.MibPagesLeast` | tests/resize:28-32 | for sizes in MiB it is the least number of pages that hold one bit per 4 KiB block and peer |
| `MetadataSize.GrowthIff` | tests/resize:28-35 | usable size is strictly increasing in device size iff there are at most 32640 peers |
| `Runner.GenerateTestSet` | run.py:220-246 | the dictionary and its order: one set for each number of machines in use, in the order of their first tests, with the names of exactly the tests that use it, in order, a test using as many as there are but not more than it can |
| `Runner.UsingExact` | run.py:225-236 | the names listed for a number of machines are those of the tests at exactly the positions that use it |
| `Runner.SetsExact` | run.py:220-246 | each number of machines in use has one set, and the sets stand in the order of their first tests |
| `Runner.PlacedOnce` | run.py:220-246 | every test that can run is placed exactly once for each time it is given |
| `Runner.SizesAre` | run.py:231-236 | every number of machines in use has one set, and it is not empty |
| `Runner.RunTests` | run.py:248-303 | which tests are skipped and run in which order, the counts, the last result of each test, and the exit code that is returned |
| `TestRuns.EligibleExact` | run.py:257-262 | the tests met by the loop are exactly those not excluded, of sets for which there are machines, each in its place |
| `TestRuns.RunExact` | run.py:248-303 | in plain words: the first so many of these are skipped, the following run in order, all or up to the first that fails; the counts are those of the processes that ended well; each test has the outcome of its last process; and the exit code |
| `Runner.ExitCodeZero` | run.py:280-303 | the exit code that run_tests returns is zero iff all that ran succeeded, or the run was cut short by a time-out whose process ended with zero |
| `Runner.ExitCodeZeroIff` | run.py:280-303 | so where time-outs give a non-zero status, it is zero iff num_successful equals num_total |
| `Runner.RunMain` | run.py:429-463 | the loop over iterations: the totals of all, and as the value the exit code of the last; raises iff there is none |
| `Runner.TotalsAgree` | run.py:433-461 | the two totals are equal iff every iteration succeeded |
| `Runner.ReturnedIff` | run.py:429-463 | where time-outs give a non-zero status, main's value is zero exactly when all tests of all iterations succeeded iff no failure comes before a successful last iteration |
| `Runner.EarlierFailureForgotten` | run.py:429-463 | two iterations of which the first fails, and the value is zero |
| `Runner.RunScript` | run.py:465-466 | the script drops that value: its own status is zero whenever there is an iteration, whatever failed |
| `Runner.Complete` | run.py:257-303 | skipped and run tests together are a prefix of the eligible ones, and all of them unless a failure ended the run |
| `JsonText.NumberExact` | run.py:32 | a number of the grammar is read whole when what follows cannot belong to it |
| `JsonText.NumberGrows` | run.py:32 | a digit behind it lengthens it, unless it is zero |
| `JsonText.StringExact` | run.py:32 | a string is read up to its closing quote |
| `JsonReader.ReadsRendered` | run.py:32 | every text of the grammar of section 2 of RFC 8259 is read, up to its end, as what it is |
| `JsonReader.RenderedWhenRead` | run.py:32 | and whatever is read is such a text |
| `JsonReader.ReadCut` | run.py:42-43 | what stands behind a value plays no part in how it is read |
| `StreamJson.LoadText` | run.py:32 | extra data is reported at a position that is neither the beginning nor the end |
| `StreamJson.StreamReadJson` | run.py:25-46 | the loop with its byte position and the text that is left, which ends because the position grows |
| `JsonStreams.FollowsIff` | run.py:25-46 | exactly when a text needs white space behind it: a number other than zero in front of a digit |
| `JsonStreams.ReadAgain` | run.py:39-43 | the part in front of extra data can be read on its own |
| `JsonStreams.Window` | run.py:39-44 | a position that lags by white space does no harm if as much white space follows the text |
| `JsonStreams.FileReadsIff` | run.py:25-46 | of a file with no CR LF before its last text but one, exactly the values are yielded in order iff the texts are separated where they need to be |
| `JsonStreams.DosReadsIff` | run.py:25-46 | of a file with one text per line and CR LF line ends, exactly the values are yielded iff there are at most five lines |
| `JsonStreams.LongTextFails` | run.py:25-46 | a file of three texts of which only the first is yielded |

Where a row's contract mentions an invariant: `ExplorerSafety.Inv` says that every
node carries the marker of its own unfinished command and no other, and what each
place of the main thread knows about the futures; `FirewallRuns.Inv` says that
nothing has failed and the chains hold what the threads hold;
`TrafficControl.Configured` that each device's tree is the one for its nodes and the
current settings. `ClusterConfig.Cluster.Valid` says that the objects stand for the
field `state`, a value of `ClusterState.State`; a method's contract gives the new state
as a function of the old one, and what holds of these functions over every run is in
the lemmas of the modules after it.

## Left out

- The DRBD kernel protocol (data generations, quorum, two-phase commit, resync): its code is not in the repository.
- SSH, subprocesses, sysfs, kernel logs, LVM, ZFS, fio, TLS set-up and provisioning scripts: input and output.
- `lbpytest` is not part of this model, and with it event filters and log scanning.
- `WindowsPlatformHelper`, console and audit capture.
- ConfigWriter.Write: a field width or precision too large for a machine word, for which Python raises, is taken as any other.
- ConfigWriter.WriteHost: the address statement of version 8.4 is not modelled.
- ConfigWriter.WriteConnection: the branch for DRBD proxy is not modelled.
- ConfigWriter.CollectDiskLines: the fencing statement of version 8.4 is not modelled.
- ConfigWriter.WriteFixed: the contents of the proxy block and the fencing statement of version 8.4 are not modelled.
- ConfigWriter.WriteConfig: like the three above, for version 9 without proxy.
- The copy of the configuration in the log directory, and concurrent use of the shared block stack (the other threads of a test do not print configurations).
- Direct writes to fields by tests (`disk_volume = None`, `num_volumes = 0`), and `Node.cleanup`.
- ClusterConfig.Node.UpdateConfig: a log file that cannot be opened, or a failing command that writes the file, after the flag was cleared; the effect would be that of an exception of `config()`.
- ClusterConfig.Node.Deploy: likewise.
- ClusterConfig.Node.AddDisk: an empty storage path, which would be written as none; the paths of logical volumes are not empty.
- ConfigMeaning.ReaderFinds: option texts and names with braces, newlines or percent signs, which a reader of blocks and lines need not find as they were.
- ClusterSettings.RunFile: likewise, for the state at the end of the run.
- ClusterConfig.Resource.Rename: the commands and the event before the name changes.
- ClusterConfig.Resource.AddDisk: a create-md command that fails raises after the configuration was written, which is kept; it is not a step of its own. What blkdiscard finds is not among the files that a step reports (but see `CacheFailures.BlankingSeesOld`).
- ClusterConfig.Resource.CreateMetadata: a create-md command that fails.
- ClusterConfig.Cluster.Drive: commands on nodes that were removed from their resource, removed nodes that a test adds to another resource, which `same_resource` rejects, and what a test does after it has caught an exception (single steps from any state are in `ClusterConfig.Cluster.Perform`).
- ConfigCache.LeftStaleIff: where a volume is replaced, names and options are without braces, newlines and percent signs.
- SharedFiles.SharedFilesIff: names and options without these, distinct host names, and at most one resource without volumes; otherwise two configurations can be equal by accident.
- `OrderedSet.difference_update` with the set itself as its argument: it changes the list it iterates over. Slices.
- OrderedSets.OrderedSet.IndexAll: iterables of iterables of keys, which the source resolves recursively, are not modelled.
- Submitting a command of the explorer and storing its future are one statement; the worker does not look at the future, so nothing could be observed in between.
- The explorer's status command and write are single statements, and the polled disk state is dropped, as nothing reads it; its sleeps and the choice of `force` have no state.
- `block_path` with a non-empty `iptables_filter`: the commands that delete do not carry it. Targets other than DROP, REJECT and LOG.
- A timed path block whose duration is not longer than its lead time raises before any command; the runs of FirewallRuns do not have it.
- Firewall.HostFilter.BlockPath: network numbers are not negative, while Python would count these from the end. Its timed form is a program of FirewallRuns.
- FirewallRuns.CutNow: a moment at which a shell or the test is in the middle of its commands is not described block by block; what the chains hold then is in `FirewallRuns.NothingFails`.
- Hosts do not share chains, so the commands on each host are a run of its own.
- TrafficControl.TrafficControl.SlowDown: parameters that the kernel keeps from the replaced discipline when an argument is left out, the limit of tc on the number of bands and the textual labels of classes are not modelled, and the way to a node is a fixed table of devices. Slowing down the source itself is not described, nor is removing it.
- TrafficControl.TrafficControl.RemoveSlowDown: as for slowing down.
- TrafficControl.TrafficControl.constructor: two nodes with the same id, which would share a class, are excluded.
- TrafficControl.UnfilteredShape: rests on distinct ids.
- Non-ASCII digits that `str.isdecimal` accepts.
- TestsGenerator.WriteTests: `main` sorts the configurations and skips files without machines, and a list of machines that is missing raises; the model takes the sorted list of those with machines, without headers, tags and networks, which do not depend on versions.
- Tee.Tee.Write: the order in which a set is iterated is any fixed one; a message is one call of `write`, of which `print` makes several; `flush` has no state.
- Floating point in the resize formula: quotients are exact.
- MetadataSize.VerifySize: the sizes that nodes report are an argument.
- Preparation and clean-up of machines, statistics, the result database and the progress display of the runner; a test's process is an outcome. The signal handler of its script.
- StreamJson.LoadText: the library's limit on nested values is not modelled.
- StreamJson.StreamReadJson: files that are not ASCII, the library's limit on nested values, and the conversion of numbers, escapes and repeated keys to Python values: a value is the tree of what was read, without white space.
