# A verified model of the MCP bridge plugin

The plugin connects a host to several MCP servers. It lists their tools under
`server__tool` names, routes calls to them over Streamable HTTP or SSE, keeps a
cache of tool lists for servers that are down, reconnects in the background, and
replaces its whole registry when it is configured again or refreshed, while calls
go on. This project models that behaviour in Dafny and proves what it keeps.

Network, clock, disk contents and the order in which Go visits a map are arbitrary:
they are parameters, oracles, or choices the proofs range over. Every section of code
under a mutex is one atomic step, and everything between such sections interleaves
freely, with any number of threads.

| module (file) | what it models |
|---|---|
| `Text`, `Naming` | Go string operations; `server__tool` names and when they can be taken apart |
| `Options`, `Json`, `Schema` (Schema.dfy) | JSON trees; tools and schemas as they cross the cache |
| `RegistrySpec` (Registry.dfy) | what a registry built from given server outcomes contains |
| `RegistryBuild` (Build.dfy) | `Build`, its cache and the registry's locked sections, as code |
| `JsonRpc`, `SseFraming` (Sse.dfy) | `readLoop`, `handleEvent`, `decodeSSEResponse`, and section 9.2.6 of the WHATWG HTML Standard |
| `Correlation` | the SSE request/response protocol: a step relation over any number of callers |
| `McpClient` (Client.dfy) | `Connect`, SSE fallback, request ids, `fetchTools` |
| `Lifecycle` | the handler, registries, threads and clients: a step relation |
| `LifecycleInvariant`, `LifecycleSteps` | the invariant of that relation, and that every step keeps it |
| `LifecycleTheorems`, `LifecycleConfig` | what follows for every run |
| `LifecycleCalls`, `LifecycleLoops` | what single threads do in every run: calls, reconnects, refreshes, loops, closing |
| `LifecycleOrphans` | clients that no registry holds any more |
| `ToolArguments` (Arguments.dfy), `Headers` | the passes of `Execute` over arguments and headers |
| `Retry`, `Grace` | the two retry loops; calls in flight across the delayed close |

The step relations of `Correlation` and `Lifecycle` are written with the same functions that specify the classes:
`Lifecycle.Handler` holds the handler's locked sections, `RegistryBuild.Registry` the
registry's, `Correlation.SseConn` those of a connection, `McpClient.Client` the client's
methods, and each method is proved to compute the function the relation uses.

## What was found on the way

The model follows the code. Where the code differs from its comments or from what one
would like, a lemma says exactly where:

- A refresh reads the configuration in one critical section and installs its registry in
  another. If `Configure` swaps in between, the handler ends up with the new configuration
  and a registry built from the old one (`RefreshMayInstallOldConfiguration`); nothing else
  can separate the two (`MatchLostOnlyByStaleCommit`).
- `dispatch` converts ids through float64 and cuts fractions off: ids up to 2^53 survive, 2^53 + 1
  is the first that does not, and a caller's response carries its very id exactly when the
  number was an integer (`EchoKeepsId`, `OwnResponse`).
- The reader of an SSE connection can block, and stay blocked, exactly when the server answers
  some id of the connection twice, the first time when the client may have given the id out:
  the first ids go to calls made one after the other, each after the success of the one before
  (`BlockingIsExact`, `AfterInitialize`).
- `CallTool` takes its id before it sends and holds no lock in between. Concurrent calls on one
  client may overtake each other, so ids on a transport are distinct but increase exactly when
  none does (`SendOrder`, `IdsIncreaseUnlessOvertakenIn`, `CallsMayOvertake`).
- `readLoop` trims every line and acts on events without data; the lines on which it and
  the WHATWG algorithm agree are characterised exactly, and so are the streams whose endpoint
  differs (`EffectsMeetStandard`).
- The outcome of the `notifications/initialized` POST is ignored, so what a server accepted
  may lack it (`AcceptedOrder` gives the exact condition, `NotificationMayBeMissing` a run).
- An SSE stream may end while the handshake is answered; `Connect` then succeeds with a
  cancelled transport. Only closing by the client itself is excluded (`ConnectOutcome`). The wait
  for the endpoint event has no time limit.
- `fetchTools` drops a client without closing it when the last `tools/list` fails; exactly then, over
  SSE, a connection is left open and read (`FetchOutcome`, `FetchMayLeak`). The connect path itself
  leaves nothing reading.
- Two calls that find the same client dead both reconnect. The second overwrites the first one's client in
  every entry; that client stays open, and since closing goes through the entries nobody ever closes it
  (`OverwrittenClientLeaks`, `NobodyClosesOrphans`). Every registry that is replaced or rejected is closed
  (`RetiredIsClosed`).
- `retryLoop` names a 30-second limit, but its wait goes from 16 to 32 seconds and stays there.
- The 70-second grace covers Streamable HTTP calls started less than ten seconds after the
  swap, and this is exact. On SSE the 60 seconds start when the POST is accepted: ten seconds are
  exact for that moment, and a call whose POST is not accepted may be cut off whenever it started.
- Two servers whose names differ in slashes only share a cache file: a server comes back with the list
  of the last one that wrote it, or not at all if that write failed half-way (`CacheSubstitutes`).
- What is advertised as live is connected, and no action is listed twice, exactly for configurations
  in which no server's prefix `name__` begins another's (`AdvertisingIsExact`,
  `NamesDistinctExactly`). Distinct clean names, without `__` and not ending in `_`, are enough.
- Context arguments of different value sent as the same header make the request depend on map order,
  and nothing else in the forwarding does (`ContextOrderShows`, `HeaderOrderShows`).

## Model

| member | source | states |
|---|---|---|
| `Naming.FirstSeparator` | plugin/handler.go:353-355 | the first `__` of `name__rest` is the appended one exactly for clean names |
| `Naming.PrefixSelectsServer` | plugin/registry.go:479 | of two servers whose prefixes cannot be mistaken for each other, `a__` selects the actions of `a` and none of the other |
| `Naming.NameInjective` | plugin/registry.go:135 | action names of such servers determine server and tool |
| `Naming.ApartExactly` | plugin/registry.go:135 | two servers never share an action name exactly when neither prefix `a__`, `b__` begins the other |
| `Naming.CleanNamesApart` | plugin/registry.go:135 | which holds for different clean names |
| `RegistrySpec.DistinctCleanNamesApart` | plugin/registry.go:135 | so a configuration with distinct clean server names has its servers apart |
| `Naming.UncleanNamesClash` | plugin/registry.go:135 | `a` and `a_` do share one |
| `Schema.UnmarshalJSON` | mcp/types.go:184-224 | the loop over `type` computes the decoding function: plain types, type arrays with null, malformed input |
| `Schema.PickTypeIsFirst` | mcp/types.go:196-214 | the chosen type of an array is its first element other than null |
| `Schema.AnnotationRoundTrip` | mcp/types.go:117-130 | hints survive the cache, unset and false kept apart |
| `Schema.SchemaRoundTrip` | mcp/types.go:140-153 | an input schema of coherent properties survives the cache |
| `Schema.ToolRoundTrip` | mcp/types.go:107-114 | a tool with coherent properties survives the cache, raw JSON compared as trees |
| `Schema.ToolsRoundTrip` | plugin/registry.go:210-233 | so does a tool list |
| `Schema.DecodedToolsCoherent` | mcp/types.go:184-224 | every tool that was decoded from JSON has coherent properties, so the hypothesis holds for all tools from a server |
| `Schema.ToolFromTree` | mcp/types.go:107-153 | every part of a decoded tool is the member of that name in its JSON tree: hints, properties with their raw JSON, required names, output schema, `_meta` |
| `Schema.PropFromTree` | mcp/types.go:184-224 | a decoded property has the type of its `type` string, or of the first element other than null of its `type` array, and is nullable exactly if that array has a null |
| `Schema.ToolSoundExactly` | mcp/types.go:107-153 | a tree decodes as a tool exactly when every member has the right kind, is null or is absent |
| `RegistrySpec.ParamsCoverProperties` | plugin/registry.go:345-370 | one parameter per property and no other, in strictly increasing order of name, each with the description and raw schema of its property, and required exactly if the schema lists its name |
| `RegistrySpec.ToolIsAdvertised` | plugin/registry.go:143-162 | every tool of every server that did not fail is in the message list with all it declares: name, description with or without the offline prefix, output schema, parameters, read-only and always-include flags, trimmed confirmation hint, prefixed companions, sorted context arguments |
| `RegistrySpec.AdvertisedIsTool` | plugin/registry.go:143-162 | and everything in the list is such a message |
| `RegistrySpec.HintIsTrimmed` | plugin/registry.go:292-303 | the hint is the string under `confirmation_hint` without the white space at its ends |
| `RegistrySpec.CompanionsAreNamed` | plugin/registry.go:313-331 | the companions are those under `companions` by their action names, all or none |
| `RegistrySpec.OutcomesPartition` | plugin/registry.go:63-78 | every configured server is in exactly the list of its outcome, and the lengths add up |
| `RegistrySpec.OutcomesInOrder` | plugin/registry.go:63-78 | each list is the sublist, in configuration order, of exactly the servers with its outcome |
| `RegistrySpec.IndexIsLast` | plugin/registry.go:134-141 | the index maps each listed name, and nothing else, to the last entry listed under it |
| `RegistrySpec.ListingOrigin` | plugin/registry.go:134-163 | every list position is one tool of one configured server |
| `RegistrySpec.ToolListed` | plugin/registry.go:134-163 | every tool of every server that did not fail is listed |
| `RegistrySpec.NamesDistinct` | plugin/registry.go:134-163 | servers apart with distinct tool names give no duplicate action |
| `RegistrySpec.NamesDistinctExactly` | plugin/registry.go:134-163 | and for no other configuration is that so for all outcomes |
| `RegistrySpec.IndexBijection` | plugin/registry.go:134-163 | then index and list are in bijection, position by position |
| `RegistrySpec.EntryServer` | plugin/registry.go:134-163 | a listed name leads to an entry of its own server with its own client, even when tool names clash |
| `RegistrySpec.EntryIsTool` | plugin/registry.go:134-141 | the entry under an action name is that of its tool: raw name, input schema, configuration and client; of tools of one name on a server, the last |
| `RegistrySpec.KeyNamesTool` | plugin/registry.go:134-141 | every index key is the name of a configured server joined with the entry's raw tool name |
| `RegistrySpec.CompanionIsAction` | plugin/registry.go:313-331 | a companion that names a tool of the same server is a key of the index |
| `RegistrySpec.HonestExactly` | plugin/registry.go:134-151 | whatever the outcomes, an action that Build lists without the offline prefix leads to an entry with a client, exactly when the servers are apart |
| `RegistrySpec.StripCommutesWithFlatten` | plugin/registry.go:143-151 | testing and trimming the prefix on the sent string is the same as on the prose, whatever the schema's spelling |
| `RegistrySpec.StripRestoresLive` | plugin/registry.go:475-483 | stripping a server gives its offline actions the live form and leaves servers apart from it unchanged |
| `RegistrySpec.StripHitsUncleanServer` | plugin/registry.go:475-483 | stripping `a` changes a tool of `a_` |
| `RegistryBuild.CacheFileInjective` | plugin/registry.go:204-207 | two servers share a cache file exactly when their names are equal after replacing slashes |
| `RegistryBuild.Sort` | plugin/registry.go:132 | sorting yields the strictly increasing enumeration of its elements |
| `RegistryBuild.SchemaToParams` | plugin/registry.go:345-370 | for every visiting order of the properties the loops give that list, field by field |
| `RegistryBuild.SortedParamsUnique` | plugin/registry.go:345-370 | a sorted list with these parameters is unique |
| `RegistryBuild.InjectContextArgs` | plugin/registry.go:128-132 | for every visiting order the result is the sorted list of context arguments |
| `RegistryBuild.CompanionsFromMeta` | plugin/registry.go:313-331 | the loop gives the prefixed companions, and none for a malformed or empty element |
| `RegistryBuild.ActionFor` | plugin/registry.go:143-162 | the listed message of one tool |
| `RegistryBuild.Registry.AddTool` | plugin/registry.go:134-163 | one round of the inner loop appends one listing to list and index |
| `RegistryBuild.Registry.AddServer` | plugin/registry.go:128-163 | the inner loop appends a server's listings in order |
| `RegistryBuild.Registry.AddConfigured` | plugin/registry.go:63-163 | one round of the outer loop: live, cached or failed, with what a live server says about itself and the effect on the disk |
| `RegistryBuild.Build` | plugin/registry.go:50-173 | the registry, its instructions, glossary and articles, and the disk are functions of the configuration, the answers and the disk, so equal answers give equal registries |
| `RegistryBuild.Registry.AddInfo` | plugin/registry.go:85-121 | the loops over glossary and articles keep the complete ones in order, article ids prefixed |
| `RegistryBuild.KnowledgeOrigin` | plugin/registry.go:111-121 | every article of the registry is a complete one of a server that answered, under its prefixed id |
| `RegistryBuild.KnowledgeIsComplete` | plugin/registry.go:111-121 | the list is exactly the complete articles of the servers that answered, in configuration order and then each server's |
| `RegistryBuild.GlossaryIsComplete` | plugin/registry.go:88-99 | the same for glossary entries with a term and a definition |
| `RegistryBuild.SectionsAreComplete` | plugin/registry.go:85-87 | one prompt section per server that gave instructions, under its name, in configuration order |
| `RegistryBuild.KnowledgeIdsDistinct` | plugin/registry.go:106-121 | with servers apart and distinct ids on each server no article id is used twice |
| `RegistryBuild.Registry.SetClient` | plugin/registry.go:507-514 | the loop of `reconnect`'s locked section gives every entry of the server the new client and changes nothing else |
| `RegistrySpec.ServerGetsClient` | plugin/registry.go:507-514 | whatever client an entry of the server had, it has exactly the new one; nothing else changes |
| `RegistryBuild.Registry.StripOffline` | plugin/registry.go:476-483 | the loop strips every action selected by the prefix and no other |
| `RegistryBuild.Registry.Close` | plugin/registry.go:540-550 | each client of the entries is closed exactly once |
| `RegistryBuild.FileOf` | plugin/registry.go:63-85 | after any number of servers a cache file holds what the last of them to write it was sent, nothing if that save failed half-way, and is untouched if none did |
| `RegistryBuild.LoadSavedUnder` | plugin/registry.go:223-233 | a saved list is loaded as it was, whoever wrote it |
| `RegistryBuild.LostWithoutFile` | plugin/registry.go:65-76 | a server that cannot be reached and has no file has failed |
| `RegistryBuild.LastWriterIsLoaded` | plugin/registry.go:65-85 | a Build that cannot reach a saved server gets the tool list that the last server to write its file left there, or fails for an empty one |
| `RegistryBuild.CacheSubstitutes` | plugin/registry.go:65-85 | it gets the server's own live list exactly when that last writer left the same list |
| `RegistryBuild.UnsharedFileSubstitutes` | plugin/registry.go:204-207 | which is the server itself when no other shares its file |
| `RegistryBuild.CachedListingIsLiveListing` | plugin/registry.go:134-162 | then, with the same configuration, each of its tools is listed by the second registry as by the first but for the prefix and the missing client |
| `RegistryBuild.NamesShareFile` | plugin/registry.go:204-207 | `x/y` and `x_y` share a file |
| `SseFraming.StreamReader.HandleEvent` | mcp/sse.go:228-243 | only the first endpoint event counts; messages that decode are dispatched, all else is dropped |
| `SseFraming.StreamReader.ReadLoop` | mcp/sse.go:188-226 | the line loop has the effects of the events that the framing function yields, and cancels the connection at the end |
| `SseFraming.FirstEndpointWins` | mcp/sse.go:228-235 | the endpoint is the one of the first endpoint event of the stream |
| `SseFraming.DispatchedExactly` | mcp/sse.go:236-242 | what is dispatched are the decoded data of exactly the untyped and `message` events that decode, in the order of the stream |
| `SseFraming.ReadSplitsAtBlank` | mcp/sse.go:204-226 | reading is compositional at blank lines |
| `SseFraming.TailIsDropped` | mcp/sse.go:204-226 | an unterminated tail yields nothing |
| `SseFraming.ReadPrinted` | mcp/sse.go:204-226 | printing any sequence of events and reading it back gives the same sequence |
| `SseFraming.DataDeterminesLines` | mcp/sse.go:209-212 | joining data lines with line feeds loses none of them |
| `SseFraming.ReadMeetsStandard` | mcp/sse.go:204-226 | when every line agrees, the data-bearing events are the messages of section 9.2.6 of the WHATWG HTML Standard |
| `SseFraming.DisagreementShows` | mcp/sse.go:204-226 | every other line makes the two differ in some stream whose remaining lines agree |
| `SseFraming.EffectsMeetStandard` | mcp/sse.go:204-243 | on agreeing lines, where empty data is no message, the responses dispatched are those of the standard's messages, and the endpoint too exactly when the first endpoint event leads where the first one with data leads |
| `SseFraming.EmptyEndpointIsTaken` | mcp/sse.go:228-235 | an endpoint event without data, which the standard discards, sets the endpoint |
| `SseFraming.DecodeSseResponse` | mcp/streamable.go:102-120 | the loop returns the first data line's payload |
| `SseFraming.DecodersAgreeExactly` | mcp/streamable.go:102-120 | its payload is the first one `readLoop` would frame exactly when there is none, or the first data-bearing event is terminated and has one data line |
| `Correlation.EchoKeepsId` | mcp/sse.go:132-137 | an echoed id n finds request n exactly when float64 represents n; all ids up to 2^53 do |
| `Correlation.FirstLostId` | mcp/sse.go:132-137 | the answer to 2^53 + 1 goes to request 2^53 |
| `Correlation.CutOff` | mcp/sse.go:132-137 | an id in the range of int64 keeps its value exactly when it is an integer |
| `Correlation.FractionIsCutOff` | mcp/sse.go:132-137 | an id between n and n + 1 goes to request n |
| `Correlation.SseConn.Subscribe` | mcp/sse.go:115-121 | the locked section adds the entry |
| `Correlation.SseConn.Unsubscribe` | mcp/sse.go:124-128 | the locked section removes the entry |
| `Correlation.SseConn.Lookup` | mcp/sse.go:131-141 | the locked section finds the channel of the truncated id |
| `Correlation.StepKeeps` | mcp/sse.go:24-51 | every step of every caller, the reader and the environment keeps the protocol invariant |
| `Correlation.FateIsExact` | mcp/sse.go:31-50 | after any number of steps: a round trip has ended in the POST failure exactly if its POST failed; it waits or has ended otherwise exactly if its POST was accepted; it has ended in a response, a timeout or a closed connection exactly if that is what it saw |
| `Correlation.EndsAreTimely` | mcp/sse.go:40-50 | it times out, sees the end of the connection or takes a response only after its POST was accepted, the end only after the connection was cancelled, and the response is the first in its channel |
| `Correlation.ReachedByTrace` | mcp/sse.go:24-149 | every reachable state is the end of such a sequence of steps |
| `Correlation.ReachedInv` | mcp/sse.go:24-149 | every reachable state satisfies the protocol invariant |
| `Correlation.PendingExactly` | mcp/sse.go:31-32 | the table's keys are exactly the ids of round trips between subscribe and unsubscribe |
| `Correlation.IdsAreUnique` | mcp/client.go:351-353 | no two round trips of a connection carry the same id, however many ids earlier attempts used up |
| `Correlation.SubscribeIsFresh` | mcp/sse.go:115-121 | subscribing never overwrites a live entry |
| `Correlation.OwnResponse` | mcp/sse.go:38-41 | a caller receives only a response whose id, cut off, is its own, and it carries exactly that id (section 5 of JSON-RPC 2.0) when it was an integer |
| `Correlation.DroppedExactly` | mcp/sse.go:131-149 | a response is dropped exactly when no round trip with its id is subscribed, and else routed to that one |
| `Correlation.NeverLost` | mcp/sse.go:31-50 | a routed response is at every later time in the reader's hand, in its channel, or received |
| `Correlation.ReaderNeverBlocks` | mcp/sse.go:131-149 | if no id is answered twice the reader can always send, even to a caller that has left |
| `Correlation.BlockingIsExact` | mcp/sse.go:131-149 | on what the server sends the reader can be blocked, and can be blocked for good, exactly when some id of the connection is answered twice, the first time after the successful answers without which the client does not give the id out; for any number of ids used up before and of calls made before the client is shared |
| `Correlation.AfterInitialize` | mcp/client.go:130-158 | for a client shared after initialize the first of the two answers is one to initialize, or comes after a successful one |
| `Correlation.DuplicateAnswersBlock` | mcp/sse.go:131-149 | the run that leaves it stuck, for any such answers, with every earlier call made in turn and answered |
| `Correlation.StuckForever` | mcp/sse.go:131-149 | nothing that can happen later frees a stuck reader |
| `McpClient.Client.Connect` | mcp/client.go:46-80 | the attempt loop computes: Streamable HTTP, one retry if transient, then SSE |
| `McpClient.Client.TryStreamableHTTP` | mcp/client.go:83-98 | one attempt, its transport closed on failure |
| `McpClient.Client.ConnectSSE` | mcp/client.go:101-125 | the GET, the wait for the endpoint and the handshake, with every way to fail, and streams that end during it |
| `McpClient.Client.SendInitialize` | mcp/client.go:130-143 | the first message, with a new id |
| `McpClient.Client.FinishInitialize` | mcp/client.go:150-158 | the notification, sent whether or not it is accepted, then the transport is the client's |
| `McpClient.Client.TakeId` | mcp/client.go:198 | the first half of a request: a new id |
| `McpClient.Client.RoundTrip` | mcp/client.go:207 | the second half: the request goes out on the transport current then, with that id |
| `McpClient.Client.ListTools` | mcp/client.go:197-223 | both halves, and the list if one came back |
| `McpClient.Client.CallTool` | mcp/client.go:229-303 | both halves; then, read off the tree of the result: an error if `isError` is true or it does not decode, and else the non-empty `text` members of the content items, in order, one to a line, with the tree under `structuredContent` unless absent or null |
| `McpClient.ContentIsAnswer` | mcp/client.go:262-303 | the same for the function that specifies it; results that decode are characterised exactly |
| `McpClient.ItemTextsAre` | mcp/types.go:244-247 | an item contributes its `text` member, empty when absent or null |
| `McpClient.NonEmptyTextsAre` | mcp/client.go:279-285 | the non-empty texts, all of them, in order |
| `McpClient.Client.FallbackSSE` | mcp/client.go:316-326 | closes the transport, resets the counter, connects by SSE |
| `McpClient.Client.Close` | mcp/client.go:331-335 | closes the current transport, if any |
| `McpClient.FetchTools` | plugin/registry.go:176-201 | connect, list, and fall back to SSE only from Streamable HTTP; the list obtained, if any |
| `McpClient.HandshakeOrder` | mcp/client.go:46-158 | in every run of a client with any number of concurrent callers, on each of its transports: initialize, initialized, then requests, possibly cut short (MCP specification 2025-03-26, Lifecycle), and no id twice |
| `McpClient.IdsIncreaseAsTaken` | mcp/client.go:351-353 | ids increase in the order in which callers take them |
| `McpClient.SendOrder` | mcp/client.go:197-257 | for every run: no request overtook another between taking its id and going out exactly when the ids sent on every transport increase and those still to be sent are above them |
| `McpClient.IdsIncreaseUnlessOvertaken` | mcp/client.go:197-257 | so when nobody stands in between, ids increase on every transport exactly when no request overtook another |
| `McpClient.LaterIdSentFirst` | mcp/client.go:197-257 | a run in which one did, and they do not |
| `McpClient.AcceptedOrder` | mcp/client.go:150-158 | on every transport of every run, what the server accepted is in that order exactly when the notification was not sent, or accepted, or nothing after it was |
| `McpClient.NotificationMayBeMissing` | mcp/client.go:150-158 | a run in which the server accepts a tools/call without the notification |
| `McpClient.ConnectOutcome` | mcp/client.go:46-125 | at most two Streamable HTTP transports and one SSE connection; success exactly as the answers say; on success the last is the client's, which it did not close itself, earlier ones are closed; on failure nothing is left reading |
| `McpClient.FetchOutcome` | plugin/registry.go:176-201 | by the answers alone: which list is returned, with an accepted tools/list on a transport the client did not close; and on failure a read loop is left on a live context exactly when the last tools/list went over SSE and the stream has not ended |
| `McpClient.ConnectNumbers` | mcp/client.go:46-125 | exactly how many transports Connect makes; the initialize on the n-th has id n, and its recorded acceptance is that of its POST |
| `McpClient.FetchNumbers` | mcp/client.go:316-326 | every Streamable HTTP transport that is not the client's own is closed, the one a fallback abandons too; after a fallback ids begin again at 1 |
| `McpClient.FetchMayLeak` | plugin/registry.go:176-201 | answers for which one is left |
| `Lifecycle.Handler.SetRegistry` | plugin/handler.go:54-59 | the bootstrap section |
| `Lifecycle.Handler.SwapConfigured` | plugin/handler.go:76-80 | Configure's section: pointer and configuration change together |
| `Lifecycle.Handler.BeginRefresh` | plugin/handler.go:118-131 | refresh starts only when none is in flight and there is something to refresh |
| `Lifecycle.Handler.CommitRefresh` | plugin/handler.go:144-166 | refresh installs only a registry with no failed and no offline server |
| `Lifecycle.Handler.ClearRefreshing` | plugin/handler.go:135-139 | the deferred section |
| `Lifecycle.WithClientKeeps` | plugin/registry.go:507-514 | reconnecting keeps a registry's record consistent, loses no client and connects the whole server |
| `Lifecycle.StripKeeps` | plugin/registry.go:475-483 | stripping a connected server once keeps a registry's record consistent |
| `LifecycleSteps.StepKeeps` | plugin/handler.go:64-192 | every step of every thread keeps the invariant of the whole plugin |
| `LifecycleSteps.BuiltClients` | plugin/registry.go:134-141 | the clients of a built registry are those of its live servers |
| `LifecycleTheorems.ReachedInv` | plugin/handler.go:64-192 | every reachable state satisfies it |
| `LifecycleTheorems.OneRegistryPerClient` | plugin/registry.go:500-518 | in every reachable state no client is stored in two registries, and every stored client has a transport |
| `LifecycleTheorems.CallersHoldUsableClients` | plugin/handler.go:237-256 | Execute and the reconnect loop never hold a client without a transport; on which of them Execute calls is the next rows' matter |
| `LifecycleCalls.CallsOnlyIfAlive` | plugin/handler.go:231-256 | in every run: Execute goes on to its call exactly if its client's current transport is neither closed nor ended, and to a reconnect exactly if it has no client or that transport is |
| `LifecycleCalls.CallsOnlyOnLiveClients` | mcp/client.go:338-340 | in every run: a thread comes to call on a client only by having found it so in that step, or by having just connected it |
| `LifecycleCalls.ReconnectsThenCalls` | plugin/registry.go:500-518 | a reconnect that succeeds adds one client with a completed handshake, gives it to every entry of the server and to no other, and Execute goes on with it; one that fails changes no registry and ends the call |
| `LifecycleCalls.ReadyThenCalls` | plugin/handler.go:307 | an Execute that has a client ends by sending one tools/call, with the id it took, on the client's current transport |
| `LifecycleCalls.LooksUpEntry` | plugin/handler.go:217-219 | it holds client and configuration of the entry that the table had for the action |
| `LifecycleCalls.NewThreads` | plugin/handler.go:96-131 | a refresh begins only with none in flight, with the configuration stored then; Capabilities and Execute begin with the current registry |
| `LifecycleLoops.RefreshInstallsOrRejects` | plugin/handler.go:144-166 | a refresh installs what it built exactly if no server failed or came from the cache, and else rejects it and changes nothing |
| `LifecycleLoops.ConfigureInstalls` | plugin/handler.go:75-80 | Configure installs what it built with its configuration, whatever is missing |
| `LifecycleLoops.SwapStartsLoop` | plugin/registry.go:377-394 | after the swap a reconnect loop begins with all servers from the cache, if there are any |
| `LifecycleLoops.LoopGoesOn` | plugin/registry.go:449-495 | how the loop goes on: a server that is reconnected has its actions shown as live, one that is not is kept for the next round |
| `LifecycleLoops.LoopForgetsNoServer` | plugin/registry.go:449-495 | in every reachable state each server from the cache is still to be tried by its loop, or shown as live |
| `LifecycleLoops.ResultsAreSnapshots` | plugin/registry.go:527-536 | what a call returns is the list that its registry has at that moment |
| `LifecycleLoops.RetiredIsClosed` | plugin/handler.go:168-192 | in every run, a registry that was replaced or rejected has been closed, or some thread is still to close it |
| `LifecycleLoops.ClosedIsClosed` | plugin/registry.go:540-550 | closing it closes the current transport of every client in its entries |
| `LifecycleOrphans.NobodyClosesOrphans` | plugin/registry.go:507-550 | a client that is in no entry never comes into one, and the plugin never closes it, in any run |
| `LifecycleOrphans.OverwrittenClientLeaks` | plugin/registry.go:500-518 | a run with such a client, open: two Executes find one client dead, both reconnect, and the second overwrites the client of the first |
| `LifecycleTheorems.HistoryIsComplete` | plugin/handler.go:75-80 | the recorded histories hold every value of the pointer and of the configuration |
| `LifecycleTheorems.InstalledOnce` | plugin/handler.go:75-80 | each registry is current at most once, and the pointer is the last one installed |
| `LifecycleTheorems.NeverNilAgain` | plugin/handler.go:75-80 | no step makes a non-nil registry nil |
| `LifecycleTheorems.ClosingSparesOthers` | plugin/handler.go:183-192 | only replaced or rejected registries are closed, never the current one, and no client of another registry is touched |
| `LifecycleTheorems.CurrentStaysConnected` | plugin/handler.go:142-178 | a live client of the current registry goes dead in a step only by losing its own connection |
| `LifecycleTheorems.OneRefreshAtATime` | plugin/handler.go:118-139 | `refreshing` is set exactly while a refresh is in flight, and at most one is |
| `LifecycleTheorems.RefreshInstallsFullyLive` | plugin/handler.go:144-166 | every registry a refresh installed has all servers live |
| `LifecycleTheorems.AnswersAreCurrent` | plugin/handler.go:96-104 | every call returns the default set, if no registry had been installed when it began, or the snapshot of one that was current during the call |
| `LifecycleTheorems.AnswersAreNeverHalfDone` | plugin/registry.go:527-536 | every snapshot shows each server whole: as built, or as a live Build lists it if it was offline and stripped since |
| `LifecycleTheorems.ListIsAsShown` | plugin/registry.go:475-483 | the same for the list each registry holds, in every reachable state |
| `LifecycleTheorems.AdvertisedLiveIsConnected` | plugin/registry.go:442-518 | with servers apart an action listed without the offline prefix has a client, in every reachable state |
| `LifecycleConfig.AdvertisingIsExact` | plugin/registry.go:442-518 | for a configuration that is so in every reachable state exactly when its servers are apart |
| `LifecycleTheorems.EveryThreadCanGoOn` | plugin/handler.go:64-192 | in every reachable state every thread has a next step: the registry, server or transport it relies on is there |
| `LifecycleConfig.MatchLostOnlyByStaleCommit` | plugin/handler.go:117-178 | in a step the current registry stops matching the stored configuration exactly by a refresh committing another configuration's registry |
| `LifecycleConfig.AlwaysMatchesUnlessStale` | plugin/handler.go:117-178 | along a run it matches in every state exactly when no commit of the run is such |
| `LifecycleConfig.MatchesIfRefreshesAreUndisturbed` | plugin/handler.go:117-178 | so it always matches in runs in which no Configure swaps between the two sections of a refresh that commits |
| `LifecycleConfig.UnchangedConfigurationIsNotStale` | plugin/handler.go:117-178 | a commit is not stale when no Configure swapped since the refresh began |
| `LifecycleConfig.RefreshMayInstallOldConfiguration` | plugin/handler.go:117-178 | some run has a stale commit, for any two configurations |
| `LifecycleConfig.EveryClientLives` | mcp/client.go:46-326 | in every run of the plugin the life of every client is a run of a client |
| `LifecycleConfig.HandshakesAreOrdered` | mcp/client.go:46-158 | so on every transport of every client messages are in handshake order and no id is used twice |
| `LifecycleConfig.IdsIncreaseUnlessOvertakenIn` | mcp/client.go:197-257 | for every run and client: ids increase on its transports, with those still to be sent above them, exactly when no thread's request overtook another's between taking its id and going out |
| `LifecycleConfig.CallsMayOvertake` | plugin/handler.go:307 | two Executes on one client may do that |
| `ToolArguments.KeyResolves` | plugin/handler.go:346-349 | an action's key resolves to its raw tool name |
| `ToolArguments.QualifiedResolves` | plugin/handler.go:350-358 | so does the key behind a clean plugin name, unless the whole is itself a key |
| `ToolArguments.QualifiedFailsExactly` | plugin/handler.go:346-358 | for every table a qualified name fails exactly when neither it nor what follows its first separator is a key; that is the key itself exactly for clean plugin names |
| `ToolArguments.QualifiedNeedsCleanPlugin` | plugin/handler.go:350-358 | the qualified name finds its action in every table in which it is not itself a key exactly when the plugin name is clean |
| `ToolArguments.ResolvedChangesOnlyToolNames` | plugin/handler.go:333-383 | only the tool-name arguments, top level and per task, change, and only to what they resolve to |
| `ToolArguments.ResolvedIsIdempotent` | plugin/handler.go:333-383 | resolving twice is resolving once, for all arguments, exactly when no raw tool name is taken for another action |
| `ToolArguments.PlainToolsAreFinal` | plugin/handler.go:333-383 | so it is in a built registry whose raw tool names have no separator |
| `ToolArguments.ResolvingTwiceDiffers` | plugin/handler.go:333-383 | with a tool `s__t` beside `t` of server `s` a second pass goes on |
| `ToolArguments.ParseOptInFields` | plugin/handler.go:501-520 | the loop computes the set of offered fields |
| `ToolArguments.ParseInvertsPhrase` | plugin/handler.go:498-520 | parsing `... a subset of: f1, ..., fn.` gives exactly the listed names |
| `ToolArguments.WithoutPhraseNothing` | plugin/handler.go:501-506 | a description without the phrase offers nothing |
| `ToolArguments.ValidOnlyIsSublist` | plugin/handler.go:478-490 | what is kept is the sublist, in order, at the positions of valid names |
| `ToolArguments.SanitizedIsIdempotent` | plugin/handler.go:446-496 | sanitising twice is sanitising once |
| `ToolArguments.SanitizedLeavesTheRest` | plugin/handler.go:446-496 | no other argument changes and no null is sent |
| `ToolArguments.SanitizedKeepsExactlyValidNames` | plugin/handler.go:446-496 | with known names and a list that is neither empty nor `["all"]`, the valid sublist is sent, or nothing when it is empty |
| `ToolArguments.KeepValid` | plugin/handler.go:478-490 | the filter loop |
| `ToolArguments.CoerceReads` | plugin/handler.go:403-439 | what a string is read as, for every declared type: the parsed number, flag or tree, a tree that is no array wrapped, null if nullable, and else the string |
| `ToolArguments.PassesDeliver` | plugin/handler.go:258-305 | the three passes together, argument by argument and by the request, the schema and the table alone: tool names that are keys, plain or qualified, arrive as the tool's own name, top level and per task; include_fields with the offered names only, or as it was for no list, an empty one, `["all"]` or nothing offered; every other argument as it was read; and no argument is added |
| `ToolArguments.Arguments.ConvertArgs` | plugin/handler.go:387-398 | for every visiting order each argument is coerced by its own property, or kept |
| `ToolArguments.Arguments.ResolveToolNameArgs` | plugin/handler.go:333-383 | the in-place pass over two keys and all tasks computes the specified map |
| `ToolArguments.Arguments.SanitizeIncludeFields` | plugin/handler.go:446-496 | the in-place pass computes the specified map |
| `Headers.CanonicalTwice` | plugin/handler.go:277 | canonical header names are canonical |
| `Headers.OneHeaderExactly` | plugin/handler.go:277 | names are one header exactly when they differ in case only (section 5.1 of RFC 9110); each part begins in upper case and goes on in lower case |
| `Headers.Outgoing.AddCredential` | plugin/handler.go:273-282 | a credential sets one header |
| `Headers.Outgoing.ForwardContext` | plugin/handler.go:287-305 | for some order of the map: forwardable arguments are set as headers in that order, and every context argument is removed |
| `Headers.Outgoing.Prepare` | plugin/handler.go:258-305 | the passes of Execute together: every argument that is no context argument arrives as in `PassesDeliver`, no other does, and the extra headers are the credential and the forwarded arguments |
| `Headers.RoundTrip` | mcp/client.go:404-418 | for some orders: the client's own headers, then the extra ones |
| `Headers.KeysSent` | plugin/handler.go:258-305 | the keys sent are the request's minus the context arguments and minus `include_fields` when sanitised away |
| `Headers.KeyArrivesAsToolName` | plugin/handler.go:333-370 | a `tool_name` or `default_tool_name` that is a key is sent as the name of that action's tool |
| `Headers.UndeclaredArrives` | plugin/handler.go:387-394 | an argument that the schema does not declare and that is not special is sent as the string it is |
| `Headers.ContextArgumentIsHeader` | plugin/handler.go:287-305 | a context argument that is a non-empty string is sent as its header, if that has a name and no other argument has it |
| `Headers.ExtraHeaderOrigin` | plugin/handler.go:270-305 | every extra header is such an argument or the credential |
| `Headers.SetAllValue` | mcp/client.go:404-418 | after a series of settings a header has a value set for it, or what it had |
| `Headers.SomeSourceDecides` | plugin/handler.go:270-305 | every header has a source: context argument, credential, client configuration or request |
| `Headers.HeaderPrecedence` | mcp/client.go:404-418 | for all orders of the three maps each header has the value of its source, if sources that share a header agree |
| `Headers.DistinctNamesAgree` | plugin/handler.go:287-305 | distinct canonical names suffice for agreement |
| `Headers.ContextOrderShows` | plugin/handler.go:287-305 | for all context maps: the order of forwarding never shows exactly when the arguments for one header have one value |
| `Headers.HeaderOrderShows` | mcp/client.go:406-408 | the same for the client's own headers |
| `Retry.RetryLoop` | plugin/registry.go:396-436 | waits are min(2^n, 32) seconds; it exits exactly when nothing is pending, and goes on otherwise; the servers saved are those reached, in order |
| `Retry.ReconnectOfflineLoop` | plugin/registry.go:442-495 | waits are min(5*2^n, 120) seconds; it ends only when nothing is pending or the context is done; the servers brought online are those reached, in order |
| `Retry.FailedWaits` | plugin/registry.go:431-433 | doubling below 30 follows min(2^n, 32) |
| `Retry.OfflineWaits` | plugin/registry.go:486-491 | capped doubling follows min(5*2^n, 120) |
| `Retry.WaitsInSeconds` | plugin/registry.go:398-491 | the waits are 1, 2, 4, 8, 16, then always 32; and 5, 10, 20, 40, 80, then always 120 |
| `Retry.PendingIsSublist` | plugin/registry.go:399-424 | the pending servers are always a subsequence of the initial ones, in order |
| `Retry.ServersAreConserved` | plugin/registry.go:399-424 | the servers reached and those pending always make up the initial list, with multiplicity |
| `Retry.RemovedWasReached` | plugin/registry.go:409-424 | a server is no longer pending exactly when it answered in some round |
| `Retry.SucceedsOnce` | plugin/registry.go:409-424 | a server that answered is not tried again |
| `Retry.ExitMeansAllReached` | plugin/registry.go:426-429 | nothing is pending exactly when every server answered in some round |
| `Grace.EarlyCallsFinish` | plugin/handler.go:183-192 | while the handler lives, no Streamable HTTP call started, and no SSE POST accepted, less than ten seconds after the swap is cut off |
| `Grace.TenSecondsAreExact` | plugin/handler.go:19-23 | with a start d seconds after the swap some run cuts a Streamable HTTP call off exactly when d >= 10; an SSE call may be cut off for every d |
| `Grace.TenSecondsAfterAcceptance` | mcp/sse.go:34-46 | with its POST accepted d seconds after the swap, an SSE call may be cut off exactly when d >= 10 |

## Left out

- HTTP, TLS, gRPC serving, sockets, process startup and logging: each POST or GET is an oracle outcome.
- Text parsing by libraries (JSON, URLs, numbers, header values, regular expressions): results are trees or parameters; key case-folding of JSON decoding and the scanner's buffer limits are not modelled.
- Byte identity of JSON through the cache: raw values are compared as trees, because they are re-spelled.
- Decoding of the initialize result: what a server says about itself is a parameter of Build.
- Error and log texts, `credKeys`, `rpcError.String`, `resolveEndpoint`: single expressions.
- Ids on Streamable HTTP responses and its session id: the code neither checks nor locks them.
- Eventual closing of every client: not what the code does, see `FetchOutcome` and `OverwrittenClientLeaks`.
- `retryLoop` in the interleaving model: it touches no registry; its own behaviour is in `Retry`.
- Cleaning of the cache directory path and the Windows separator: the directory is a prefix, the separator a slash.
- `ToolArguments.ParseOptInFields`: lower-cases ASCII letters only; outside ASCII the lower-cased description may have another length, which shifts the cut.
- Lower-casing of schema type names outside ASCII.
- Conversion of out-of-range floats to int64: taken as the least int64, as on amd64; Go leaves it open.
- Sharing between nested argument maps: arguments are trees, and each occurrence is its own.
- Text of descriptions: prose and output schema are kept apart; `StripCommutesWithFlatten` shows that this loses nothing.
- `Lifecycle.Handler.SetRegistry`: in the step relation it happens once, before anything else, as main.go uses it.
- `Lifecycle.Step`: a background loop may also stop in the middle of a round; what a call returns is not part of a thread.
- `LifecycleTheorems.EveryThreadCanGoOn`: a next step exists; that the network ever lets a Build or a reconnect reach it is not promised, because the wait for an SSE endpoint has no time limit.
- `Retry.RetryLoop`: which servers are saved is part of it, the write itself and its failures are in `RegistryBuild`.
