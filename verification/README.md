# A verified model of the WHOIS/RDAP client

The client answers a domain or IP query from RDAP or WHOIS, through a cache that a fleet of
instances shares. Between the thin network edges sit several state machines; this project models
them in Dafny and proves what they keep over every input, every network behaviour and every run.

How the pieces are modelled:

- **Network.** `Network.World` answers each port-43 attempt as an arbitrary function of everything
  sent before it, so servers may be stateful and hostile. The history of attempts and connection
  probes is explicit, which is what query budgets are counted in.
- **Methods and functions.** Code that changes things step by step (`whois.rs`, `rdap.rs`, `cache.rs`,
  `buffer_pool.rs`, the parser loops) is a method or class; each is tied by its contract to a
  specification function, and the laws are lemmas about those functions.
- **Parsers.** The ordered, guarded match arms are `Parser.Step` and `IpParser.IpStep`. One reference
  reading makes an independent pass per arm; its laws are proved for any choice of arms and then used
  for the real ones. Another assigns every line of a reply to the field that owns it, with the keys
  spelled out (`ParserFields`, `IpFields`).
- **Text.** `TextLaws` says what each string operation returns in terms of characters and positions, so
  that laws stated with `Trim`, `Lower`, `Contains` or `Lines` can be read literally.
- **Fleet.** `Fleet` is a timed step machine: any number of instances, overlapping and coalesced
  calls, arbitrary evictions, a backend that may lose data, fail, answer late, or store what it
  reports as failed. A call of the cache service that overlaps no other is proved to be one of its runs.
- **Bootstrap.** The accesses that hold the bootstrap mutex are `BootstrapPacing.Turns`, whoever makes
  them. Both the runs of calls that follow one another and the interleavings of overlapping calls are
  proved to be such turns, and the former to be among the latter.
- **Clock.** Time is a parameter. The bootstrap access reads it four times, as the code does.

Findings, where the code does less than a reader may expect:

- The comment at `src/rdap.rs` lines 331-337 promises that migrated endpoints are picked up after a
  day. An indexed label never causes a fetch and keeps its answer however much time passes, until a
  call for another label refreshes the data (`IndexedLabelNeverRefreshes`, `CallFetchesExactly`).
- The index follows the current registry exactly until a call inserts, with no clearing pending, the
  answer of a superseded registry for a label that is not indexed and that the latest registry answers
  differently (`InStepExactly`). Overlapping calls can do that, and the entry stays
  (`StaleEntrySurvives`); calls that follow one another cannot (`RunAgrees`). Every entry and every answer
  still comes from some published registry, and the answer of a call that missed the index from one that
  was the latest while it ran (`InterleavingIsGrounded`, `InterleavingAnswers`).
- The exact-then-last-label probe answers as the label-wise longest match of section 4 of RFC 9224 exactly
  when a listed name without a server is not given another by its last label, and a listed suffix strictly
  between has the same server as the last label (`ProbesFindLongestExactly`). Both conditions can fail: a
  suffix in the middle is not probed (`MiddleIsMissed`), and a listed name whose service has no servers
  falls back to its last label (`EmptyListFallsBack`).
- A domain result can be classified NotFound although it carries a record: exactly when a referral led
  to an empty NotFound reply that was filled up from the registry (`LookupFoundExactly`). Two short
  replies that do it are given (`RecordNotFound`).
- Validating a validated domain again can change it: exactly when it ends in white space that a
  trailing dot protected from the first trim (`ValidationStableExactly`). This is conditional on the
  name parser, a parameter here, accepting such a name: with one that does, "a.b", a tab and a dot is
  an input (`TabSurvives`). The comment at `src/lib.rs` lines 97-99 says that the parser permits almost
  any byte in a label.
- Parsing a concatenation is not always merging the parses: the line "created expires:x" is an expiry
  date once and also a creation date twice (`ConcatFallsThrough`). A line merges with every text before
  it exactly when at most one field can still take it (`LineMergesExactly`, `TextMergesExactly`,
  `LinesMergeExactly`).
- `src/cache.rs` lines 15-16 promise that upstream volume stops scaling with the number of instances.
  With a working backend, any group of instances keeps the bound of one exactly as long as each of its
  misses is safe: when it happens, no other place of the group has missed without fetching yet, and none
  has begun a fetch within the TTL that is not yet written through (`FleetRateBound`, `SafeRunExactly`).
  Initialisations that do not overlap are always safe (`ApartRateBound`), and so is one instance alone,
  however calls overlap (`InstanceRateBound`). Two instances that miss together are not, and both fetch
  (`OverlapBreaksBound`); a fleet of n stays within n times the bound (`OverlapCostsOnePerInstance`).

## Model

| member | source | states |
|---|---|---|
| FleetLaws.StepKeepsInv | src/cache.rs:183-231 | Every move of every instance keeps genuineness of all tiers, the deadline bounds and the promises to callers. |
| FleetLaws.ServedIsGenuineAndFresh | src/cache.rs:150-156 | In any interleaving, each response served for a key is a fetch of that key; a Found one is served less than the write lag, the lag of a backend answer and two positive TTLs after it, a NotFound one two negative TTLs, a RateLimited one not beyond the write lag. |
| FleetLaws.NothingUnkeptIsKept | src/cache.rs:33-59 | No tier ever holds a live RateLimited response, or one whose TTL is configured as zero, and no caller receives one from a fetch that ended before its call began. |
| FleetSharing.CallerWaits | src/cache.rs:194-199 | A caller that opens a place or joins it waits there. |
| FleetSharing.WaiterStep | src/cache.rs:194-214 | A waiting call stays until its place keeps an entry, and is then served that entry, or until the place's fetch fails. |
| FleetSharing.WaitersShare | src/cache.rs:170-175 | Calls that wait at one place are served the same entry at the same moment, or all fail, whatever happens meanwhile. |
| FleetSharing.CallerProceeds | src/cache.rs:137-148 | A new call is served from the process, opens the place or joins the call that has it open: always exactly one of them. |
| FleetSharing.PlaceProceeds | src/cache.rs:199-213 | A place at work always has a next move, in whatever stage it is. |
| FleetSharing.ReadIsPromoted | src/cache.rs:150-156 | A plain read that hits the backend is served the record, marked, and the process keeps it as it was stored for a new lifetime. |
| FleetRate.FleetRateBound | src/cache.rs:10-16 | With a working backend, any set of instances whose misses of a key are safe begins its fetches a positive TTL apart, so a window of length T holds at most T/ttl + 1, beside any other instances and however calls overlap. |
| FleetRate.SafeMissExactly | src/cache.rs:199-211 | In any state such a run reaches, a miss keeps the fetches apart exactly when it is safe; after an unsafe one two places can begin too close at once. |
| FleetRate.SafeRunExactly | src/cache.rs:183-213 | A working run keeps a group's fetches apart at every moment, whichever missed places go on to fetch, exactly when all its misses are safe. |
| FleetShares.ApartRateBound | src/cache.rs:10-16 | Initialisations of a key that do not overlap are safe, so they keep the bound. |
| FleetShares.InstanceRateBound | src/cache.rs:170-196 | Coalescing: a single instance keeps that bound however calls overlap, in it and elsewhere. |
| FleetShares.OverlapCostsOnePerInstance | src/cache.rs:9-16 | However calls overlap, n instances begin at most n * (T/ttl + 1) fetches of a key in a window of length T. |
| FleetRate.FetchBeginsLate | src/cache.rs:199-213 | A fetch can begin only when a positive TTL has passed since the group's last one. |
| FleetShares.OverlapBreaksBound | src/cache.rs:183-213 | Two instances that miss together both fetch, although nothing fails: the fleet as a whole does not keep one instance's bound. |
| FleetShares.EvictionBreaksBound | src/cache.rs:10-16 | Without a backend an eviction is enough for a second fetch within the TTL. |
| FleetShares.LossBreaksBound | src/cache.rs:112-123 | A backend that loses the record, and an eviction, are enough as well. |
| FleetCalls.CallIsFleetRun | src/cache.rs:183-231 | A call that overlaps no other has, as a run of the fleet, the same result with its cached mark, the same tiers and the same fetch decision. |
| Cache.CacheService.GetOrFetchResponse | src/cache.rs:183-231 | The method's result, fetch decision and both tiers are those of the specification. |
| Cache.CacheService.Get | src/cache.rs:137-160 | A read never fetches or writes the backend; a backend hit is promoted with a new lifetime. |
| Cache.CacheService.BackendGet | src/cache.rs:114-123 | A failing backend read is a miss. |
| Cache.CacheService.BackendSet | src/cache.rs:126-132 | A write stores for the status's TTL, or nothing for a status without one. |
| Cache.OutageIsNoBackend | src/cache.rs:112-132 | For all call sequences, a backend whose reads fail gives the same results, fetches and in-process entries as none. |
| Cache.KeptForExactlyItsLifetime | src/cache.rs:44-59 | A fetched answer is repeated until exactly the positive TTL after it if Found, the negative TTL if NotFound, and not at all if RateLimited. |
| Cache.StoredForExactlyItsLifetime | src/cache.rs:101-110 | A fetch leaves its answer in the backend for that lifetime, and nothing for a status without one. |
| Cache.PromotedForExactlyItsLifetime | src/cache.rs:199-206 | A backend answer is marked, kept in the process for a new lifetime of its status and repeated for it. |
| Cache.TrailingDotSharesEntry | src/cache.rs:233-243 | A name with a trailing dot and the name without it share one entry. |
| Walk.ReferralWalkSafety | src/whois.rs:568-602 | For every world: a simple path, each hop its own server's reply, at most the cap of queries, all to clean hosts, and a reason for stopping. |
| Walk.SameServerSameData | src/whois.rs:110 | The walk ends at the initial server exactly when it adopted nothing, and then with the initial data. |
| Walk.FollowLoop | src/whois.rs:568-602 | The loop over current server, data, visited set and count computes the specified walk. |
| Network.RetriedTrace | src/whois.rs:489-507 | All attempts but the last failed transiently, the last gave the reply, and a transient failure used every retry. |
| Network.RawQueryAttempts | src/whois.rs:32-34 | One to four attempts: again after a timeout or an I/O error and nothing else, and the reply is the last one's. |
| Whois.WhoisService.RawWhoisQuery | src/whois.rs:489-507 | The retry loop sends and returns exactly the specified attempts. |
| Whois.WhoisService.DiscoverServer | src/whois.rs:254-279 | Discovery asks the root, then probes its referral and the patterns in order. |
| Whois.WhoisService.FindWhoisServer | src/whois.rs:203-227 | The new map, the answer and the traffic of finding a server. |
| Whois.WhoisService.RediscoverAndRetry | src/whois.rs:234-252 | The new map, the answer and the traffic of healing. |
| Whois.WhoisService.LookupDomain | src/whois.rs:84-141 | Result, map and traffic of a domain lookup are those of the specification. |
| Whois.WhoisService.LookupIpAddress | src/whois.rs:155-201 | Result and traffic of an IP lookup are those of the specification; the map is untouched. |
| Whois.ComposeAnswers | src/whois.rs:103-140 | The in-place tail of the domain lookup computes the specified composition. |
| Whois.ComposeIpAnswers | src/whois.rs:175-192 | The in-place tail of the IP lookup computes the specified composition. |
| WhoisLaws.ComposeKeepsRecord | src/whois.rs:106-132 | The registry's record survives field by field unless both replies were throttled; the result is throttled exactly when both were. |
| WhoisLaws.ComposeOwnFieldsWin | src/whois.rs:108-131 | The registry's answer is reported exactly when the registrar's is throttled and the registry's is not; otherwise the registrar's with its status, its own fields first and the registry's values in the gaps. |
| WhoisLaws.ComposeFoundExactly | src/whois.rs:108-131 | When a composed result carries record data without being Found. |
| WhoisLaws.LookupFoundExactly | src/whois.rs:84-141 | The same through the whole lookup: exactly when a referral was followed, its last reply reads NotFound and the registry's has record data. |
| WhoisExamples.RecordNotFound | src/whois.rs:104-140 | Two replies for which a lookup succeeds with the registry's record and status NotFound. |
| WhoisLaws.LookupKeepsRecord | src/whois.rs:84-141 | The same through the whole lookup, for any world, map and history. |
| WhoisLaws.LookupReportsOwnReply | src/whois.rs:84-140 | The data reported was sent by the reported server for this domain during this lookup. |
| LookupLaws.LookupSucceedsExactly | src/whois.rs:84-101 | A lookup succeeds exactly when the mapped or discovered server of the label answers, or fails and another one that discovery then finds answers. |
| LookupLaws.RegistryAnswers | src/whois.rs:91-96 | When the server in charge answers, it is the registry, the label is mapped to it and nobody else is asked. |
| LookupLaws.RegistryHeals | src/whois.rs:97-101 | When it fails: which server is asked next, and the answer, map and traffic in every case. |
| LookupLaws.LookupReportsWalkEnd | src/whois.rs:103-140 | The reply reported is the end of the referral walk from the registry's reply, backed field by field by the registry's record; only a throttled end gives way to a registry that is not. |
| LookupLaws.LookupFailsWithRegistry | src/whois.rs:84-101 | Without a label or a registry answer the lookup fails with that error and asks nobody else. |
| LookupLaws.DiscoverExactly | src/whois.rs:254-301 | The root is asked first; then exactly its server and the naming patterns are connected to, in order, up to the first that accepts. |
| LookupLaws.LabelExactly | src/tld.rs:22-50 | The public suffix, else the text after the last dot. |
| LookupLaws.StatusExactly | src/parser.rs:60-80 | When a reply is RateLimited and when NotFound, with the phrases spelled out. |
| WhoisLaws.IpStatusSpeaksForBoth | src/whois.rs:175-192 | An IP status other than Found means neither reply carried record data. |
| WhoisLaws.ComposeIpMerges | src/whois.rs:178-187 | Each field is the last reply's own, or where it has none the first reply's. |
| WhoisLaws.LookupIpStatus | src/whois.rs:155-201 | The same through the whole IP lookup. |
| LookupLaws.LookupIpReportsWalkEnd | src/whois.rs:155-201 | An IP lookup succeeds exactly when the address is routed and the first query succeeds, reports the end of the referral walk from that reply, backed by the first record, and reads the status off the result. |
| LookupLaws.LookupIpReportsOwnReply | src/whois.rs:155-201 | The data reported was sent by the reported server during this lookup. |
| WhoisLaws.FirstUpIsFirst | src/whois.rs:257-275 | The server chosen is the first candidate that accepts a connection; every earlier one was probed. |
| WhoisLaws.KnownServerIsAskedFirst | src/whois.rs:204-211 | A known server is asked before any discovery. |
| WhoisLaws.RediscoverHeals | src/whois.rs:234-252 | Healing answers exactly when discovery finds another server and it replies, passes on that server's error otherwise, and returns the original error when discovery finds nothing new; the label is mapped exactly to the new answering server. |
| WhoisLaws.LookupHealsMap | src/whois.rs:84-104 | After any lookup the label is mapped exactly when the lookup succeeded, to the server whose own reply it is based on; other labels are untouched. |
| WhoisLaws.MapIsLatestAnswer | src/whois.rs:203-252 | Over any run of lookups the map is exactly the latest answer per label. |
| WhoisLaws.LookupBudget | src/whois.rs:32-34 | A domain lookup sends at most 16 + max_referrals query attempts. |
| WhoisLaws.LookupIpBudget | src/whois.rs:155-173 | An IP lookup sends at most 4 + max_referrals query attempts. |
| Referral.SanitizeExactly | src/whois.rs:632-662 | A value normalises to a host exactly when it is one of that clean host's spellings. |
| Referral.SanitizeIdempotent | src/whois.rs:632-662 | Outputs are clean hosts and normalise to themselves. |
| Referral.FirstReferralIsFirst | src/whois.rs:604-624 | The referral taken is the first usable one; unusable ones do not hide it. |
| Referral.ReferralInLineExactly | src/whois.rs:606-621 | Which lines refer, by the key before the first colon and the value after it. |
| Referral.RootResponseIsFirst | src/whois.rs:335-353 | The first direct line of the root's reply decides, and without one the first usable referral. |
| Referral.ServerInLineExactly | src/whois.rs:355-390 | Which lines are direct and which server they name. |
| Parser.ScanIsByArms | src/parser.rs:101-165 | The line loop over guarded fall-through arms equals independent passes, one per arm, for any arms. |
| Parser.ExpiryIsFirstExpiryLine | src/parser.rs:102-106 | The expiry is the value of the first surviving line whose key contains "expir". |
| ParserFields.FieldsComeFromLines | src/parser.rs:86-167 | Every surviving line belongs to the first field, in order, whose keys suit it and which is free; all ten fields hold exactly what their lines say. |
| ParserFields.NameServersAreListed | src/parser.rs:126-133 | Every surviving "name server", "nserver" or "ns" line that no field ahead owns gives its first token, and nothing else is listed. |
| ParserFields.SurvivesExactly | src/parser.rs:86-98 | Which lines survive, and as what key and value. |
| ParserFields.AgesComeFromDates | src/lib.rs:369-378 | Each age is reckoned from its own date. |
| Parser.ScanExtends | src/parser.rs:86-167 | Further lines never change a set scalar and only append to the lists. |
| Parser.ScanNoDuplicates | src/parser.rs:126-141 | The name server and status lists never hold duplicates. |
| ParserConcat.ScanConcat | src/parser.rs:83-173 | If each later line is settled where it stands, parsing a concatenation is the first-wins merge with deduplicated lists. |
| ParserConcat.ParseConcat | src/parser.rs:83-173 | The same on texts, with the age fields computed from the merged dates. |
| ParserConcat.LineMergesExactly | src/parser.rs:101-165 | A single line merges with every text before it exactly when at most one field of an empty record can take it, for any arms. |
| ParserConcat.TextMergesExactly | src/parser.rs:101-165 | A text, cut off anywhere, merges with every text before it exactly when each of its lines is settled after the lines before it. |
| ParserConcat.LinesMergeExactly | src/parser.rs:101-165 | All texts made of given lines merge with every text before them exactly when each of the lines is settled on its own. |
| ParserConcat.UnsettledFallsThrough | src/parser.rs:101-165 | Reading a line twice is reading it once exactly when it is settled. |
| ParserConcat.ConcatFallsThrough | src/parser.rs:102-112 | A one-line text whose parse differs from the merge when it is repeated. |
| Parser.ParseWhoisData | src/parser.rs:83-173 | The loop computes the specified record. |
| Parser.Classify | src/parser.rs:60-80 | Record data is always Found. |
| Entries.NoiseIsIrrelevant | src/parser.rs:86-98 | Comment, blank, colon-less and empty-value lines can be inserted or removed anywhere. |
| Entries.DistinctIsSet | src/parser.rs:129-141 | A list pass holds exactly the accepted values, each once. |
| IpParser.IpScanIsByArms | src/parser.rs:228-307 | The line loop with its override flag equals the independent passes. |
| IpParser.IpRegistrar | src/parser.rs:244-259 | The registrar is the first organisation line if any, else the first netname line, whatever their order. |
| IpFields.IpFieldsComeFromLines | src/parser.rs:228-310 | The same ownership of lines for the fields of an IP reply, with its keys spelled out. |
| IpParser.ParseIpWhoisData | src/parser.rs:217-310 | The loop computes the specified record. |
| Records.ParsedWhoisData.FillMissingFrom | src/lib.rs:344-363 | The in-place merge computes the specified one. |
| Records.ParsedWhoisData.CalculateAgeFields | src/lib.rs:369-378 | The age fields are recomputed from the dates, the rest is kept. |
| Records.FilledAssociative | src/lib.rs:339-363 | A chain of merges can be grouped in any way. |
| Buffers.ReadWhoisResponse | src/whois.rs:529-566 | Over a dirty pooled buffer the result is the buffer-free transcript, refused if it is not UTF-8; the response never exceeds the limit plus one buffer; the buffer goes back and the pool stays well-formed. |
| Buffers.SplitIsInvisible | src/whois.rs:551-557 | Cutting a chunk into reads never changes the outcome. |
| Buffers.TranscriptEnds | src/whois.rs:540-562 | How a response ends: timeout, I/O error, success or refusal, decided by the first event that is no chunk or the first chunk that does not fit. |
| Buffers.TranscriptSuccess | src/whois.rs:540-565 | Success is the concatenation of chunks up to an end of file, within the limit. |
| Buffers.TranscriptComplete | src/whois.rs:540-565 | Chunks that fit, followed by an end of file, are returned. |
| Buffers.TranscriptTooLarge | src/whois.rs:554-556 | A response is refused for its size exactly when delivered chunks outgrow the limit. |
| Buffers.PooledBuffer.constructor | src/buffer_pool.rs:22-49 | The buffer has the asked length and the capacity for it, a reused one keeps its old bytes and only added ones are zero; the pool loses its oldest vector at most and stays well-formed. |
| Buffers.TakeAndGiveBackRotates | src/buffer_pool.rs:22-88 | Taking a buffer and dropping it unread moves the oldest pooled vector to the end, byte for byte. |
| Buffers.PooledBuffer.Drop | src/buffer_pool.rs:66-88 | A sized buffer is appended as it is unless the pool is full, what was pooled stays in place, and the pool stays well-formed. |
| Buffers.ReturnedExactly | src/buffer_pool.rs:66-88 | What the pool gains when a vector of any length and capacity is returned. |
| Buffers.PoolStepExactly | src/buffer_pool.rs:20-88 | Readers never touch one another's buffers, and giving back takes away exactly one's own. |
| Buffers.PoolRunOk | src/buffer_pool.rs:20-88 | Along every run of any number of readers all buffers keep the configured length and the pool its capacity. |
| Bootstrap.RdapService.GetOrFetchBootstrap | src/rdap.rs:338-380 | Result and new state are those of the specification; once data is there, no access fails. |
| Bootstrap.RdapService.FindRdapServer | src/rdap.rs:260-284 | Answer, bootstrap state and index are those of the specification. |
| BootstrapPacing.TurnsArePaced | src/rdap.rs:62-76 | For every order of accesses under the mutex and every fetch outcome, attempts are 300 s apart, and 24 h after a success; the stamps match the history. |
| BootstrapPacing.TurnsInWindow | src/rdap.rs:35-38 | A window of length T holds at most T/300 + 1 attempts. |
| BootstrapPacing.TurnFetchesExactly | src/rdap.rs:63-75 | An access fetches exactly when no fetch succeeded within 24 h and none was attempted within 300 s, by the whole history. |
| BootstrapPacing.TurnsKeepData | src/rdap.rs:345-377 | Data once fetched never disappears, and then no access fails. |
| BootstrapOverlap.InterleavingIsPaced | src/rdap.rs:338-380 | However calls overlap, provided the clock read under the mutex is monotonic, the accesses are paced, their stamps match the history and a window of length T holds at most T/300 + 1 attempts. |
| BootstrapOverlap.ConsultFetchesExactly | src/rdap.rs:338-349 | An access at any point of any interleaving fetches exactly when a fetch is due by the history of all calls. |
| BootstrapOverlap.InterleavingKeepsData | src/rdap.rs:345-377 | Under every interleaving published data stays, and no call that consults it comes back empty-handed. |
| BootstrapOverlap.InterleavingIsGrounded | src/rdap.rs:260-380 | Under every interleaving each index entry and each answer comes from some published registry. |
| BootstrapOverlap.InterleavingAnswers | src/rdap.rs:260-284 | An answer is that of a registry published before the call ended; if it does not come from the index, of one that was the latest while the call ran, or none because there was no registry. |
| BootstrapAgreement.MoveStaysInStepExactly | src/rdap.rs:260-380 | From any grounded state that is in step, a move keeps the index in step with the latest registry exactly unless it inserts a superseded answer after the clearing. |
| BootstrapAgreement.InStepExactly | src/rdap.rs:260-380 | An interleaving is in step all along exactly when none of its insertions is late. |
| BootstrapAgreement.TimelyAgrees | src/rdap.rs:360-367 | Without late insertions the index agrees with the current registry whenever no clearing is pending, and when all calls are over. |
| BootstrapAgreement.StaleEntrySurvives | src/rdap.rs:360-367 | An interleaving with one late insertion leaves a superseded entry after all calls end. |
| BootstrapCalls.RunIsInterleaving | src/rdap.rs:260-284 | Calls that follow one another are an interleaving with the same bootstrap state, index and answers. |
| BootstrapLaws.RunIsPaced | src/rdap.rs:62-76 | The pacing, for calls that follow one another. |
| BootstrapLaws.AttemptsInWindow | src/rdap.rs:35-38 | The window bound, for calls that follow one another. |
| BootstrapLaws.CallFetchesExactly | src/rdap.rs:63-75 | For calls that follow one another: a call fetches exactly when no call before it has answered for its label since the last refresh, and a fetch is due. |
| BootstrapLaws.IndexedExactly | src/rdap.rs:272-280 | A label is indexed exactly when some call has answered for it since the last refresh. |
| BootstrapCalls.RunAgrees | src/rdap.rs:260-329 | When calls follow one another no insertion is late: the index agrees with the data and each call answers as a lookup without an index would. |
| BootstrapLaws.DataPersists | src/rdap.rs:345-377 | Persistence of the data, for calls that follow one another. |
| BootstrapLaws.IndexedLabelNeverRefreshes | src/rdap.rs:261-268 | Calls for indexed labels change nothing, however much time passes. |
| BootstrapMatch.ProbesFindLongestExactly | src/rdap.rs:299-317 | For every registry and name, when the code's answer is that of the longest listed suffix. |
| BootstrapMatch.ProbesHitLongestKeyExactly | src/rdap.rs:299-317 | When the key the code answers from is the longest listed suffix itself. |
| BootstrapMatch.MatchIsLongest | src/rdap.rs:299-317 | For single-label registries with a server in every service the answer is always the longest match, at any depth. |
| BootstrapMatch.ServerForExactly | src/rdap.rs:299-305 | A key is answered by the first service that lists it, with its first server. |
| BootstrapMatch.MiddleIsMissed | src/rdap.rs:307-317 | A listed suffix between the whole name and its last label is passed over. |
| BootstrapMatch.EmptyListFallsBack | src/rdap.rs:299-317 | A listed name without servers is answered by its last label. |
| RoutingProofs.SpecialV4IsBlocks | src/ip.rs:500-521 | The IPv4 octet and mask tests are a union of address blocks, for every address. |
| RoutingProofs.SpecialV6IsBlocks | src/ip.rs:522-536 | The IPv6 tests likewise. |
| RoutingProofs.TablesCoherent | src/ip.rs:214-408 | Overlapping table ranges carry the same registry. |
| RoutingProofs.FirstMatchIgnoresOrder | src/ip.rs:417-442 | First-match search is invariant under reordering a coherent table. |
| RoutingProofs.DetectRirMeaning | src/ip.rs:471-495 | Special addresses and no others are refused; any covering range decides; uncovered addresses go to ARIN. |
| LookupLaws.RegistryServers | src/ip.rs:123-131 | The server asked first for each registry. |
| RoutingProofs.V4RoutingIsOwner | src/ip.rs:220-383 | Closed form of IPv4 routing for every public address. |
| RoutingProofs.V6RoutingIsOwner | src/ip.rs:385-408 | Closed form of IPv6 routing for every public address. |
| RoutingProofs.ScreeningComesFirst | src/ip.rs:476-481 | The table alone would route a documentation address. |
| Validation.DomainExactly | src/lib.rs:79-112 | Exactly when a text is a domain, and which. |
| Validation.QueryExactly | src/lib.rs:185-212 | Which texts are addresses, bad addresses and domains. |
| Validation.DomainShape | src/lib.rs:79-112 | What a validated domain looks like. |
| Validation.DomainIsNotNumeric | src/lib.rs:196-205 | A validated domain query never looks like an address. |
| Validation.KeysAreDisjoint | src/lib.rs:185-212 | Domain and address queries never share a cache key. |
| Validation.KeyIsNormal | src/cache.rs:235-243 | Key normalisation is the identity on validated queries. |
| Validation.ValidationStableExactly | src/lib.rs:83-112 | When validating a validated domain again returns it. |
| Validation.TabSurvives | src/lib.rs:85-109 | An input whose validated form does not, for a name parser that accepts it. |

## Left out

- Sockets, DNS, TLS, HTTP, Redis and JSON: replies, reachability, fetch results and backend outcomes are arbitrary parameters. Semaphores and the refusal of referral hosts that resolve to private addresses are part of what the world answers.
- Text is ASCII: case folding and white space beyond ASCII are not modelled. The public suffix list, the DNS name parser, UTF-8 validity, date parsing and the textual form of IP addresses are function parameters.
- `CacheService::set`: overwriting a live in-process entry leaves its deadline to the cache library, so only inserts into absent or expired keys are modelled. For the same reason a promotion by `get` is not modelled when another call has filled or is filling the key in the meantime.
- The cached mark seen by coalesced callers is the cache library's decision; `Cache.CachedMeansNotFetched` speaks of calls that do not overlap.
- Cancellation of a call in the middle is not modelled.
- ParsedWhoisData: the thirteen struct fields are one record value updated in place; field-level aliasing is not captured.
- The `lookup_with_fallback` and `lookup_internal` plumbing, RDAP response parsing, analysis strings, configuration, metrics and the HTTP server would add only easy members.
- Cache.OutageIsNoBackend: states the refinement for call sequences that do not overlap; the timing of overlapping calls differs by how long the backend takes to fail.
- Overlapping WHOIS lookups race on the discovered-server map (`src/whois.rs` lines 213-219 and 241-248): the map laws in `WhoisLaws` are for lookups that follow one another.
- FleetRate.FleetRateBound: the backend must keep what it stores, answer the group and take its writes, the group's fetches of the key must not fail, and whoever fetches the key must get a record, as nothing is kept for a full lifetime otherwise. The same holds for the bounds in `FleetShares`.
- FleetLaws.ServedIsGenuineAndFresh: the write lag and the lag of a backend answer are parameters, as the source puts no limit on either; a delivery later than its lag is not a move of the model.
