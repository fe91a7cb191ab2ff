# gst-rtsp-app: a verified model of the topology, registry and RTSP bridge

gst-rtsp-app builds GStreamer pipelines, joins them with intervideo
gateways and serves some of them over RTSP. Most of it calls into
GStreamer. Around those calls it keeps name-keyed bookkeeping and
validates its input, and this project models that part in Dafny:

- **The declarative topology loader** (`src/json.cpp`). It walks a parsed
  JSON document section by section and checks each value's kind. From it
  comes an ordered list of `Topology` commands (CreateCap,
  CreatePipeline, CreateElement, SetProperty, AssignCap,
  AddElementToBin, SetRtspPipe, ConnectPipe, ConnectElements), or the
  first `JsonInvalidTypeException` stops it.
  - Module `JsonSpec` states the translation as pure functions.
  - Module `JsonLoader` has the imperative `Json` class. Its loops issue
    commands into a `TopologySink` one at a time, and each method is
    proved against the stage it carries out.
  - Module `JsonLaws` proves what the translation promises.
- **The topology registries** (`src/topology.cpp`). The `Topology` class
  keeps `elements`, `pipes`, `rtspPipes` and `caps`. `LoadJson` fills them
  from hard-coded tables and returns false at the first element, member,
  link or gateway that fails. `ConnectRtspPipe` wires an RTSP pipe to
  another pipe through an intervideo sink/source pair.
  - Module `RegistrySpec` states every loop as a run over its table
    (`Seqn`) on a snapshot of the registries and the engine (`World`).
  - Module `Registry` is the imperative class, proved against
    `RegistrySpec`.
  - Modules `RegistryLaws` and `RegistryTables` prove the loops' laws and
    facts about the literal tables.
- **The RTSP bridge** (`src/server.cpp`). Module `Bridge` covers:
  - mounting each RTSP pipe at `"/" + name`, with a shared factory whose
    launch string is the pipe's name;
  - the static name → pipeline map that `ImportPipeline` reads back;
  - the `"e_" + launch` media pipelines.
- **The fixed-size slot table** (`src/rtsp-server.c`). Module `SlotServer`
  covers:
  - the eight-slot array that `use_rtsp_pipeline` writes in place;
  - the base-2 `strtol` index parse of `create_element`;
  - the deinit sweep and the single `/test` registration.
- **The console** (`src/main.cpp`). Module `Control` covers:
  - the stream-status names;
  - the bus-message log levels;
  - the keyboard dispatch, with its `led` toggle and `Stop`.

The keyboard handler names the pipes TestPipe, MainPipe and ViewPipe and
the element MainSource (src/main.cpp:136-177). `main` loads the topology
with `LoadJson`, and its tables register none of these names. So on a
fresh topology, every pipe key and 'l' do nothing after loading; only
'q' has an effect (`Control.KeysIdleAfterLoad`). The tables give no sign
of which names the keys were meant to reach, so this is recorded here
rather than corrected.

The GStreamer engine is module `Gst`. Its `Oracle` decides which factories
exist, which pairs of elements link and which pad links succeed. The
`Engine` class records bins, edges, properties, request pads, states and
released references.

## Model

| member | source | states |
|---|---|---|
| JsonLoader.Json.CreateTopology | src/json.cpp:279-285 | the command log grows by exactly the translation of the document, and the error is the translation's |
| JsonLoader.Json.GetCaps | src/json.cpp:32-54 | appends the caps stage's commands and returns its error |
| JsonLoader.Json.GetPipelineStructure | src/json.cpp:131-229 | appends the pipes stage's commands and returns its error |
| JsonLoader.Json.LoadPipe | src/json.cpp:146-220 | one pipe's commands: CreatePipeline, then each element, stopping at the first error |
| JsonLoader.Json.LoadElements | src/json.cpp:160-220 | the pipe's elements one after another, stopping at the first error |
| JsonLoader.Json.LoadElement | src/json.cpp:163-217 | one element: the type check, CreateElement, its properties, then AddElementToBin |
| JsonLoader.Json.SetProperties | src/json.cpp:187-214 | the property loop: one command per property, stopping at the first non-string |
| JsonLoader.Json.GetRtspPipes | src/json.cpp:57-82 | appends the rtsp stage's commands and returns its error |
| JsonLoader.Json.GetInterConnections | src/json.cpp:85-128 | appends the connections stage's commands and returns its error |
| JsonLoader.Json.LinkChain | src/json.cpp:250-272 | the while loop over one chain appends the pairs of that chain's fold |
| JsonLoader.Json.GetConnections | src/json.cpp:232-277 | appends the links stage's commands and returns its error |
| JsonLaws.StagesInOrder | src/json.cpp:279-285 | all caps commands come before all structure commands, those before rtsp flags, before pipe connections, before element links |
| JsonLaws.SectionShapes | src/json.cpp:34-40 | a missing section issues nothing and raises nothing; caps, pipes and connections that are not objects, and rtsp and links that are not arrays, fail with no commands |
| JsonLaws.EmptyDocumentIssuesNothing | src/json.cpp:279-285 | a document with none of the five sections translates to no commands and no error |
| JsonLaws.WrongCapsKindStopsEverything | src/json.cpp:38-40 | a non-object caps section throws before any later stage runs |
| JsonLaws.CapsCreateEveryCap | src/json.cpp:42-50 | the caps stage succeeds iff every value is a string, and then issues CreateCap(name, value) for each member in order |
| JsonLaws.RtspFlagsEveryEntry | src/json.cpp:67-76 | the rtsp stage succeeds iff every entry is a string, and then issues SetRtspPipe(name, name) for each in order |
| JsonLaws.ConnectionStepShape | src/json.cpp:98-123 | one connection succeeds iff it is well formed, and then issues exactly one ConnectPipe; a malformed one issues nothing |
| JsonLaws.ConnectionsConnectEveryPipe | src/json.cpp:95-124 | the connections stage succeeds iff every entry is well formed, and then issues ConnectPipe(pipe, first_elem, src_pipe, src_last_elem) per entry in order |
| JsonLaws.PropertiesIssueCommands | src/json.cpp:187-214 | when all properties are strings, "type" is skipped, "filter" becomes AssignCap and any other key becomes SetProperty, in order |
| JsonLaws.WellFormedElementCommands | src/json.cpp:175-217 | a well-formed element issues CreateElement first, then its property commands, then AddElementToBin last |
| JsonLaws.MalformedPropertyStopsElement | src/json.cpp:191-193 | a non-string property throws after CreateElement and the earlier properties, and AddElementToBin is never issued |
| JsonLaws.PropertyCommandsNeverAdd | src/json.cpp:199-211 | every property command is an AssignCap or a SetProperty |
| JsonLaws.PipeCreatedBeforeBodyCheck | src/json.cpp:142-156 | when the pipes before the k-th loaded and the k-th body is not an object, the pipes stage issues the earlier pipes' commands, then CreatePipeline for the k-th, then throws |
| JsonLaws.ElementTypeRequired | src/json.cpp:169-184 | an element issues no command exactly when its body is not an object or its "type" is missing or not a string; each case throws its own error, checked in that order |
| JsonLaws.MalformedElementStopsPipe | src/json.cpp:160-180 | when the elements before the k-th loaded and the k-th has a malformed body or type, the pipe ends with CreatePipeline and the earlier elements' commands, and throws that element's error |
| JsonLaws.ChainLinksNeighbours | src/json.cpp:247-272 | a chain of k strings issues k-1 ConnectElements, the i-th linking item i to item i+1 |
| JsonLaws.ChainStopsAtNonString | src/json.cpp:256-268 | a non-string at position k throws after linking the first k items pairwise |
| JsonLaws.ChainMustBeArray | src/json.cpp:243-249 | when the chains before the k-th linked and the k-th is not an array, the links stage ends with the earlier chains' commands and throws, linking nothing of the k-th |
| Registry.Topology.GetElement | src/topology.cpp:228-230 | returns the stored reference or NULL, and leaves the name mapped (to NULL if it was unknown) |
| Registry.Topology.GetPipe | src/topology.cpp:212-214 | the same operator[] lookup on pipes |
| Registry.Topology.GetRtspPipe | src/topology.cpp:220-222 | the same operator[] lookup on rtsp_pipes |
| Registry.Topology.CreateElements | src/topology.cpp:109-114 | the creation loop, with its early false, as a run of CreateStep over the table |
| Registry.Topology.TuneElements | src/topology.cpp:121-130 | the pt, name, pattern and is-live settings on the named elements |
| Registry.Topology.BuildPipes | src/topology.cpp:140-155 | each pipe is created and registered, then filled, with false at the first undeclared member |
| Registry.Topology.BuildRtspPipes | src/topology.cpp:158-173 | the same for rtsp_pipes |
| Registry.Topology.LinkAll | src/topology.cpp:176-181 | the plain links in list order, with false at the first refused link |
| Registry.Topology.LinkAllFiltered | src/topology.cpp:183-188 | the caps-filtered links in list order, with false at the first refused link |
| Registry.Topology.ConnectRtspPipe | src/topology.cpp:235-277 | the new state and result are those of the gateway function Connect |
| Registry.Topology.ConnectAll | src/topology.cpp:191-207 | each table row looks up its pipes and elements and is wired as a gateway, with false at the first failure |
| Registry.Topology.LoadJson | src/topology.cpp:18-210 | the state and result are those of Load: caps, elements, settings, pipes, rtsp pipes, links, cap links, gateways, in that order |
| Registry.Topology.LinkToTee | src/topology.cpp:279-305 | succeeds iff the tee has a "src_%u" template, the element is real and the pad link is OK; a request pad is taken even when the link fails |
| Registry.Topology.Destroy | src/topology.cpp:8-16 | every pipes entry that is an element is set to NULL and released, and nothing else is |
| RegistrySpec.ConnectGuard | src/topology.cpp:243-246 | never throws, and proceeds exactly when both arguments are pipelines |
| RegistryLaws.TouchKeepsLookups | src/topology.cpp:212-230 | an operator[] lookup changes no lookup's answer, is idempotent, and inserts NULL for an unknown name |
| RegistryLaws.CreateSucceedsIffAllFactories | src/topology.cpp:109-114 | element creation succeeds iff every factory exists, and then registers every table name |
| RegistryLaws.CreateStopsAtFirstMissingFactory | src/topology.cpp:109-114 | the first missing factory stores NULL under its name, returns false and creates nothing after it |
| RegistryLaws.MembersSucceedIffDeclared | src/topology.cpp:145-154 | filling a pipe succeeds iff every member is a registered element, and then the pipe holds exactly those elements |
| RegistryLaws.UndeclaredMemberStops | src/topology.cpp:147-151 | the first undeclared member stops the fill after adding only the members before it |
| RegistryLaws.FirstUndeclared | src/topology.cpp:163-172 | any undeclared member makes the fill return false |
| RegistryLaws.PipeRegisteredThenFilled | src/topology.cpp:144-154 | the pipe is registered before its members are checked, so it stays registered when the fill fails |
| RegistryLaws.LinksSucceedIffAllLink | src/topology.cpp:176-188 | a link loop succeeds iff every pair links, and then adds exactly those edges |
| RegistryLaws.FirstRefusedLinkStops | src/topology.cpp:177-180 | the first refused link returns false with only the earlier edges added |
| RegistryLaws.ConnectRefusesNonPipelines | src/topology.cpp:243-246 | if either argument is not a pipeline, nothing changes and the result is false |
| RegistryLaws.GatewayWiring | src/topology.cpp:249-276 | succeeds iff both gateway factories exist and both links are accepted; on success the sink is in the source pipe, the source in the rtsp pipe, both share channel "gateway_"+p, and the two edges are added |
| RegistryLaws.ConnectKeepsRegistries | src/topology.cpp:235-277 | a gateway never changes the elements, pipes or rtsp_pipes registries |
| RegistryLaws.GatewayNotUndone | src/topology.cpp:264-274 | when the first gateway link fails, the sink and source stay in their bins |
| RegistryLaws.GatewayNamesDistinct | src/topology.cpp:249-262 | gateway sink, source and channel names never collide, and each determines its pipe name |
| RegistryLaws.NullRtspPipeThrows | src/topology.cpp:242-246 | as written a NULL rtsp pipe throws before the pipeline check; the corrected guard refuses it |
| RegistryLaws.GuardsAgreeOtherwise | src/topology.cpp:242-246 | on any rtsp pipe that is not NULL, the as-written and corrected guards agree |
| RegistryLaws.TeardownStopsExactlyPipes | src/topology.cpp:8-16 | teardown stops and releases every real pipes entry, only those, skips NULL and rtsp-only entries, and touches nothing else |
| RegistryTables.TableNamesDeclared | src/topology.cpp:52-65 | every name of the element table is one of the 26 declared names |
| RegistryTables.DeclaredNamesInTable | src/topology.cpp:52-65 | each of the 26 declared names has a row in the element table |
| RegistryTables.PipeTablesDeclared | src/topology.cpp:67-82 | every pipe and rtsp-pipe member is a declared element |
| RegistryTables.LinkTablesDeclared | src/topology.cpp:84-100 | every linked and cap-linked name is a declared element |
| RegistryTables.GatewayTableDeclared | src/topology.cpp:102-106 | every gateway row names a table pipe, a table rtsp pipe and declared elements |
| RegistryTables.PipesFollowElements | src/topology.cpp:108-173 | once every factory exists, creation, pipe filling and rtsp-pipe filling all succeed |
| RegistryTables.SetOnKeepsLookups | src/topology.cpp:121-123 | a setting on a named element changes no lookup, and adds only that name to elements |
| RegistryTables.TuneKeepsLookups | src/topology.cpp:121-130 | the pre-pipe settings change no registry lookup |
| RegistryTables.LoadStaysWithinTables | src/topology.cpp:18-210 | after LoadJson every key of elements, pipes and rtsp_pipes came from the tables or was there before |
| RegistryTables.KeyboardNamesNeverLoaded | src/topology.cpp:52-82 | on a fresh Topology, LoadJson never registers TestPipe, MainPipe, ViewPipe or MainSource |
| Bridge.RtspServer.constructor | src/server.cpp:23-34 | service "8554", no source yet, no mounts, and a cleanup period of 2 seconds |
| Bridge.RtspServer.Start | src/server.cpp:42-54 | fails exactly when the attach id is 0, and stores the id |
| Bridge.RtspServer.RegisterRtspPipes | src/server.cpp:56-79 | always true; every pipe is mounted at "/"+name with its own shared factory, other mounts stay, and the static map is overwritten by the new entries |
| Bridge.RtspServer.ImportPipeline | src/server.cpp:81-92 | returns rtsp_pipes[launch] through operator[], inserting NULL for an unknown launch |
| Bridge.RtspServer.CreateMediaPipe | src/server.cpp:94-116 | NULL and no change without a launch string; otherwise a new pipeline "e_"+launch taken by a reusable media whose state is watched |
| Bridge.SessionPoolTimeout | src/server.cpp:118-125 | the cleanup timer always asks to run again |
| Bridge.MountPath | src/server.cpp:70 | the path is "/" followed by the pipe name |
| Bridge.MediaPipeName | src/server.cpp:105 | the media pipeline is named "e_" followed by the launch string |
| Bridge.MountPathIsMount | src/server.cpp:70 | each registered name's path is a mount path whose tail is that name |
| Bridge.MountedPipeImportsBack | src/server.cpp:64-91 | the factory mounted for a pipe leads ImportPipeline back to that pipe's pipeline |
| Bridge.MountsKeepOthers | src/server.cpp:56-79 | a path that is not one of the new mount paths keeps its old factory |
| Bridge.RegisteredFactoriesShared | src/server.cpp:67 | registration keeps every mount shared: if every mount was shared before, every mount is shared after |
| Bridge.RegisterTwice | src/server.cpp:70-75 | registering the same pipes again changes no mount |
| Bridge.MediaPipeNamesDistinct | src/server.cpp:105-106 | two launch strings give the same media pipeline name iff they are equal |
| SlotServer.SlotName | src/rtsp-server.c:126-127 | a slot's pipeline is named "rtsppipe" followed by its index digit |
| SlotServer.StrtolBase2 | src/rtsp-server.c:46 | the base-2 parse stays within long's range and gives the signed value of its leading bits when that fits |
| SlotServer.BitsValueOfBinary | src/rtsp-server.c:46 | the bits of a number's binary form read back to that number |
| SlotServer.StrtolOfBinary | src/rtsp-server.c:46 | strtol(·, 2) of a binary numeral, followed by any non-bit tail, is that number |
| SlotServer.StrtolOfNegative | src/rtsp-server.c:46 | a leading minus negates the parsed value |
| SlotServer.SpaceIgnored | src/rtsp-server.c:46 | leading white space does not change the parse |
| SlotServer.Pick | src/rtsp-server.c:48 | the chosen pipeline is one of the slots |
| SlotServer.PipeSlots.constructor | src/rtsp-server.c:9-11 | eight slots, all NULL |
| SlotServer.PipeSlots.UseRtspPipeline | src/rtsp-server.c:122-133 | out of range: NULL and nothing changes; in range: only slot i changes, to a new pipeline "rtsppipe"+i |
| SlotServer.PipeSlots.CreateElement | src/rtsp-server.c:42-49 | the launch string read as a base-2 index picks one of the slots |
| SlotServer.PipeSlots.Init | src/rtsp-server.c:69-107 | exactly one shared factory with launch "0" is mounted at "/test", and the result is false exactly when attach fails |
| SlotServer.PipeSlots.ReleaseSlots | src/rtsp-server.c:114-118 | exactly the non-NULL slots are released; nothing else in the engine changes |
| SlotServer.PipeSlots.DeinitAsWritten | src/rtsp-server.c:109-120 | the sweep is reached exactly when the RTSP thread is not running, and then releases exactly the non-NULL slots; otherwise nothing is released |
| SlotServer.PipeSlots.Deinit | src/rtsp-server.c:109-120 | with the thread's loop quit before the join, the thread is stopped and exactly the non-NULL slots are released |
| SlotServer.DeinitAfterInit | src/rtsp-server.c:51-56 | after use_rtsp_pipeline(0) and a successful init, deinit as written never reaches the sweep, while the intended deinit releases slot 0's pipeline |
| SlotServer.NonNullExactly | src/rtsp-server.c:114-118 | the swept set is exactly the slots that are not NULL |
| SlotServer.SweepReleasesPipelinesOnly | src/rtsp-server.c:115-116 | NULL is never released, and every filled slot is |
| SlotServer.SlotNamesDistinct | src/rtsp-server.c:127 | distinct slots get distinct pipeline names |
| SlotServer.PickAfterUse | src/rtsp-server.c:42-49 | after use_rtsp_pipeline(i), a factory whose launch is i in binary serves that new pipeline |
| SlotServer.TestMountServesSlotZero | src/rtsp-server.c:82 | the /test launch string "0" selects slot 0 |
| SlotServer.InitReturnAsWritten | src/rtsp-server.c:94-107 | as written the result is FALSE when attach fails, and indeterminate exactly when it succeeds |
| SlotServer.InitSuccessReturnsNothing | src/rtsp-server.c:94-107 | a successful attach reaches the end with no return value |
| Control.StreamStatusString | src/main.cpp:44-63 | "UNKNOWN" exactly for the statuses outside the seven named ones |
| Control.StreamStatusRoundTrip | src/main.cpp:44-63 | every known status's name reads back to that status |
| Control.MessageHandler | src/main.cpp:65-123 | error, warning and info are reported at their own levels, and the watch is always kept |
| Control.MessageHandlerAsWritten | src/main.cpp:85-88 | as written the watch is always kept |
| Control.ReportLevelsCollapsed | src/main.cpp:85-88 | as written an error and an info leave the same LOG-level line; corrected they differ |
| Control.HandlersAgreeOnNotices | src/main.cpp:94-113 | on EOS, state changes, stream status and other messages both handlers agree, and a stream status is named by StreamStatusString |
| Control.AsciiLower | src/main.cpp:133 | upper-case ASCII letters move to lower case, everything else stays |
| Control.DispatchFollowsKeyTable | src/main.cpp:133-178 | a line sets a pipe state iff its lowered first character is in the key table, with the table's pipe and state |
| Control.DispatchIgnoresCase | src/main.cpp:133 | an upper-case key acts as its lower-case one, and is ignored iff it is no command key |
| Control.DispatchIgnoresUnknownKeys | src/main.cpp:133-192 | any line is ignored exactly when its lowered first character is none of the handler's keys, and an ignored line changes nothing |
| Control.LedTwiceRestores | src/main.cpp:151-154 | two presses of 'l' restore the flag and set led-power to the text of the restored flag |
| Control.PipeKeyOnMissingPipe | src/main.cpp:136 | a pipe key on an unregistered pipe only inserts NULL for it and sets no state |
| Control.KeysIdleAfterLoad | src/main.cpp:133-191 | on a fresh Topology after LoadJson, no key changes a property, and no key except 'q' changes a state |
| Control.Console.KeyboardHandler | src/main.cpp:126-197 | a failed read changes nothing; otherwise the key's command is carried out; the watch is always kept |
| Control.Console.Stop | src/main.cpp:19-42 | the topology is torn down and the process ends |

## Left out

- GStreamer itself is an oracle. Factories, linking, caps negotiation, pad templates, pad links, property type coercion and state changes only answer success or failure. The engine records what was asked of it.
- `g_error` in ConnectRtspPipe (src/topology.cpp:244, 256, 271) aborts the process. The model treats it as the `false` return that follows it.
- rapidjson text parsing (src/json.cpp:11-26) is not modelled. The loader starts from a parsed document, given as an object's members. Member names are always strings, so the name checks cannot fail. `HasMember` on a connection entry that is not an object is a rapidjson assertion, modelled as an error.
- The `Topology` methods that json.cpp calls (CreateCap, SetRtspPipe, AddElementToBin and the rest) have no bodies in the source. They are a sink that records each command. `SetRtspPipe(name, GetPipe(name))` is recorded as the pair of names.
- The containers of LoadJson's tables are not shown. They are modelled as sequences in written order.
- Property values are strings in the model. The integer and boolean arguments of `g_object_set` (pt 96, pattern 18, is-live TRUE, led-power) are written as their text. The rename to "pay0" is recorded as a "name" property rather than a new registry key.
- The caps in the caps table are plain width/height/framerate records; no caps algebra.
- RTSP serving, session pools, the GLib main loops, `rtsp_thread_loop` and the `g_thread_*` calls are network, event-loop and concurrency plumbing. `PipeSlots.Init` records only that the thread was started, and `PipeSlots.Deinit` only that it stopped.
- `StateChange` (src/server.cpp:127-133) only logs and is not modelled.
- The RtspServer destructor (src/server.cpp:36-40) is not modelled. Neither are main() startup and Stop's `exit(0)`, watch removal, channel unref and server delete. Stop is modelled as the topology teardown plus an `exited` flag.
- Logging output (debug categories, messages, URL text in ImportPipeline) is not modelled. Only MessageHandler's level and format are kept, because they are the point of a finding.
- src/appsrc.c, src/PlayCT1YUV422.c and src/logger.cpp are not part of this model.
- Element and pipeline references (`Gst.Ref`) are identified by the name they were created with, not by address. Two objects created under one name are one `Ref`. So when `use_rtsp_pipeline(i)` is called twice, the first pipeline is overwritten in its slot without being released (src/rtsp-server.c:128), and the model cannot show that leak.
- Bridge.RtspServer.ImportPipeline: requires a launch string. The source builds a std::string from it unchecked and would throw on NULL.
- Bridge.RtspServer.RegisterRtspPipes: the loop visits the names in any order, while std::map visits them sorted. The result does not depend on the order, and the contract states the result.
- SlotServer.StrtolBase2: models strtol with a 64-bit long and without the "0b" prefix accepted since C23. `errno` is not modelled.
- SlotServer.PipeSlots.CreateElement: requires that the parsed index is a slot. The source indexes the array without a bounds check.
- SlotServer.PipeSlots.UseRtspPipeline: the model's `gst_pipeline_new` always succeeds, so the NULL check after it never triggers.
- Control.Console.KeyboardHandler: takes the line already read; a read that is not normal is `None`. An empty line dispatches on NUL, as `str[0]` does.
- Registry.Topology.LinkToTee: requires a real tee. The source dereferences the tee's class and cannot be called with NULL.

## Findings

| source | as written | input that shows it | evidently intended | confidence | as-written member | corrected member |
|---|---|---|---|---|---|---|
| src/topology.cpp:242-246 | the RTSP pipe's name is taken before the pipeline check, and `std::string` is built from `gst_element_get_name(NULL)`, which is NULL | `ConnectRtspPipe(NULL, p, a, b)` | a NULL RTSP pipe is refused by the pipeline check and false is returned | not executed | RegistrySpec.ConnectGuardAsWritten (RegistryLaws.NullRtspPipeThrows) | RegistrySpec.ConnectGuard (RegistryLaws.GuardsAgreeOtherwise) |
| src/rtsp-server.c:94-107 | `rtsp_server_init` has no return statement after a successful attach, so its gboolean result is indeterminate | an attach that returns a non-zero source id | TRUE on success | not executed | SlotServer.InitReturnAsWritten (SlotServer.InitSuccessReturnsNothing) | SlotServer.PipeSlots.Init |
| src/rtsp-server.c:109-118 | `rtsp_server_deinit` joins the RTSP thread before releasing the slots, but that thread runs a main loop that nothing can quit, so after a successful `rtsp_server_init` the join never returns and no slot is released | `rtsp_server_init()` returning success, then `rtsp_server_deinit()` | the thread's loop is quit, the join returns and every non-NULL slot is released | not executed | SlotServer.PipeSlots.DeinitAsWritten (SlotServer.DeinitAfterInit) | SlotServer.PipeSlots.Deinit |
| src/main.cpp:85-88 | `GST_LOG` takes its first argument as the format, so error, warning and info reports are all logged at the LOG level with the category name as text, and `msg_level` is unused | any ERROR message and any INFO message | each report is logged at `msg_level` with the "Message received from element" format | not executed | Control.MessageHandlerAsWritten (Control.ReportLevelsCollapsed) | Control.MessageHandler (Control.HandlersAgreeOnNotices) |
