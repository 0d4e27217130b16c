# httptape: a verified model

httptape records HTTP exchanges as tapes, sanitizes them, stores them and plays
them back. This project models the parts of it whose correctness is not visible
from one function at a time, and proves what they are for: the concurrent
protocols in every interleaving, the JSON path engine on every tree and every
path, the file store as a refinement of a map, and the parsers against their
printers. Run `dafny verify dfyconfig.toml`.

## How it is laid out

- `Strings.dfy`, `KeyOrder.dfy`, `Json.dfy`, `Tapes.dfy`: shared data. JSON is a
  tree with objects as maps and arrays as sequences; a byte is a character.
- `Paths.dfy`, `Sanitizer.dfy`, `Extract.dfy`, `Diff.dfy`, `DiffTheorems.dfy`,
  `RedactDiffCoherence.dfy`: one path language and its four traversals (rewrite,
  extract, compare, ignore), with the laws that hold between them.
- `RedactionHides.dfy`, `DiffOrder.dfy`: what redaction hides, exactly, and the order of
  a diff's reports.
- `FakingOrder.dfy`, `WholeMapOrder.dfy`, `SharedFakes.dfy`: when the order of faked
  paths matters, for selections and for whole maps, and when the objects that fixed
  fakers share between trees are written into.
- `Faker.dfy`, `MediaTypes.dfy`, `AcceptRules.dfy`, `Matcher.dfy`, `Server.dfy`,
  `ServeLaws.dfy`: the arithmetic of the fakers, Accept negotiation, tape selection, the
  server's two phases, and what is served in terms of the criteria's scores.
- `CachingTransport.dfy`, `SingleFlight.dfy`: the caching transport as a machine of
  threads, and its single-flight safety. `CacheKeys.dfy`, `Provenance.dfy`,
  `CrossingRuns.dfy`, `NoCrossedAnswers.dfy`, `CacheHits.dfy`: what keys tell apart,
  where every answer comes from, runs that cross answers, when there are none, and
  which later requests a tape answers. `AnswersGiven.dfy`, `SavedTapes.dfy`: which answer
  each caller gets and which tapes are saved, told from the actions of a run alone.
  `Lookups.dfy` ties the machines' lookups to the matcher.
- `Sse.dfy`, `SseBlocks.dfy`, `SseRetry.dfy`, `SseRecording.dfy`, `RecordingLaws.dfy`:
  the event-stream format, what the parser makes of any text, its retry field against
  the standard, and the recording reader between a caller, a pipe and a parser.
- `Proxy.dfy`, `TwoTiers.dfy`, `ProxyAvailability.dfy`, `RouteOutage.dfy`: the two
  cache tiers, what they hold, and when the fallback between them can be relied on.
  `ProxyAnswers.dfy`, `ProxyTapes.dfy`, `ProxyRecords.dfy`: its answers, what its tiers
  hold and that nothing is left out of them, told from the actions.
- `Recorder.dfy`, `Health.dfy`, `HealthTransitions.dfy`: the asynchronous recorder and
  the health monitor.
- `StoreSpec.dfy`, `StoreRefinement.dfy`, `StoreLaws.dfy`, `Stores.dfy`: the file store
  against the memory store, and what both promise in the fields of tapes and filters.
- `TemplateScan.dfy`, `Templates.dfy`, `TemplateArgs.dfy`, `TemplateLaws.dfy`: scanning, parsing and
  resolving nested `{{...}}` expressions, and what printed templates mean.

Code that changes things in place is imperative here too: the loops of the
scanners, parsers, matchers, fakers and traversals are methods proved against a
function of their inputs, and the objects with mutable fields (the flight table,
the recorder, the health monitor, the two stores, the diff's output slice) are
classes. The lemmas are about those functions. Protocols with several goroutines
are state machines with one action for each lock, channel, store or network
operation; a run is any sequence of enabled actions.

## Where the code and its promise part

Each of these is a lemma, with the exact condition where one exists.

- Answers can be crossed in two ways, and under every configuration and sanitizer in no
  other (`NeverCrossesIffDistinguishes`). The single-flight key joins method, path and
  body hash with bars, so two requests may share a key without sharing those three; that
  takes a bar in the method and a path that does not start with a slash
  (`RootedKeysDistinguish`, `BarsClash`). And a sanitizer that redacts request bodies
  puts the hash of the redacted body on the tape, so a request whose body is that text is
  answered from it (`RedactionNeverCrossesIff`, `RedactedBodiesCross`). Where the
  sanitizer keeps method, path and body hash only the first way is left
  (`NeverCrossesIffKeysDistinguish`).
- For the same reason a request whose body is redacted is not answered from its own tape
  (`RedactedRequestHitsIff`), which it always is where the sanitizer keeps those three
  (`KeptKeysAlwaysHit`).
- The proxy's promise to answer from its tiers when upstream fails breaks for a route
  exactly when some request off the route shares a single-flight key with one on it
  (`StaysAvailableIffClear`); ordinary requests never do
  (`OrdinaryRequestsStayAvailable`).
- A Close can make the caching transport store a truncated tape: when it overtakes
  a Read with bytes in hand, and also when upstream's end is read only after the pipe
  was closed. `CloseIsSafeExactly` says when no continuation does
  (`OvertakingCloseStoresTruncatedTape` is one that does). The comment at
  sse.go:303-304 says upstream's end closes the pipe; only Close does.
- A Read of a recorded stream can block until somebody closes, since a parser that gives
  up on an over-long line leaves the pipe open. A stream can do that if and only if a
  line over the limit, finished or not, lies in it with a byte behind it
  (`CanBlockIffOverlong`, `OverlongLineBlocksRead`).
- A response classed as fallback reaches the second tier exactly when it is an
  event stream, because streams are handled before the cache filter
  (`FallbackReachesL2IffStream`). A body that breaks off is kept out of the first
  tier and stored, cut, in the second (`CutBodyReachesL2IffNotFallback`).
- The file store's Save removes the file under the tape's former name before it
  writes, so a failed write loses a tape that was stored under another name
  (`FailedWriteLosesRenamedTape`, `RenamedTapeIsLostIff`). Load fails on a corrupt `<id>.json` even when
  another file holds the tape, and Save, Load and Delete refuse IDs that the
  memory store takes (`StepRefines`).
- A range with q=0 excludes every type it matches, also when a more specific range
  accepts it; section 5.3.2 of RFC 7231 lets the most specific range win
  (`AcceptsIffRfcAndNoExclusion`, `WildcardExclusionWins`).
- Faking, unlike redaction, can depend on the order of the paths, as when a fixed
  faker plants an object (`FixedContainerBreaksOrder`). A map of leaf and fixed fakers
  gives every body one tree in whatever order it is walked if and only if no longer path
  changes the value of a fixed path that has no other fixed path above it
  (`OneTreeIffTopsUndisturbed`). For every selection from a map, with any fakers, the
  condition is that wherever one path ends on another their fakers agree at every value
  (`OrderFreeIffValuesAgree`); it is stronger, since a fixed faker may overwrite a
  disagreement below it (`OverwrittenQuarrel`).
- A fixed faker hands out one object, and longer paths write into it, so that one body's
  faking can change the next one's. The fixed fakers keep their values over any bodies
  if and only if no longer path changes the value of a fixed path
  (`ValuesStayIffUndisturbed`); then sharing cannot be seen (`SharingIsInvisible`).
  `EveryBodyFakesAgain` shows it otherwise.
- The retry field takes a plus sign, and a minus sign before zero, where section 9.2.6
  of the WHATWG HTML Standard wants digits only, and ignores digits that do not fit
  in 64 bits (`RetryIsSetIff`, `RetryFollowsStandardIff`, `RetryDepartures`).
- An argument value that starts with a stray close can swallow the arguments behind
  it or end inside a block; it ends where promised if and only if no blank up to there
  is misread (`ArgEndsAsPromisedIff`, `StrayCloseSwallowsAnArgument`,
  `StrayCloseSplitsABlock`).
- The exemplar phase differs from the composite matcher when every survivor totals
  zero or less, which needs a criterion with negative scores
  (`ExemplarMatchIsCompositeMatch`, `DisapprovedExemplar`).

## Model

| member | source | states |
|---|---|---|
| PathPatterns.ParsePathLoop | sanitizer.go:164-197 | the path parser's loop accepts and rejects exactly the strings of the path language, segment by segment |
| PathPatterns.PrintParsePath | sanitizer.go:164-197 | a path that parses prints back to itself, so two spellings never mean the same path |
| PathPatterns.ParsePrintPath | sanitizer.go:164-197 | a segment list survives printing and parsing if and only if every key is non-empty and free of dots and brackets |
| PathPatterns.MatchesIgnorePath | diff.go:546-588 | the lockstep loop over a concrete path and a pattern decides the match |
| PathPatterns.MatchesIffInstance | diff.go:546-588 | a pattern matches exactly the concrete paths got by choosing an index for each of its wildcards |
| JsonTree.ShapesDetermineTree | diff.go:708-753 | two JSON trees that look alike at every path are equal |
| Sanitizer.RewriteAtPath | sanitizer.go:277-319 | the traversal with its loop over array elements computes the path rewriting the laws below are about |
| Sanitizer.FakeBodyFields | faker.go:449-469 | every listed path is rewritten in turn on a body that parses, and any other body is left byte for byte |
| Sanitizer.WildcardLeafIsInert | sanitizer.go:277-319 | a path ending in a wildcard changes nothing |
| Sanitizer.RewriteOutside | sanitizer.go:277-319 | at every location a path does not cover the tree looks as before |
| Sanitizer.RewriteInside | sanitizer.go:277-336 | at every location a path matches the old value has been rewritten exactly once, and nothing appears where nothing was |
| Sanitizer.RewriteCommutes | sanitizer.go:253-336 | two paths with leaf rewriters that keep containers may be applied in either order, overlapping or not |
| Sanitizer.RewriteAllPermutes | faker.go:449-469 | a list of paths with such fakers gives one tree under every permutation |
| Sanitizer.RedactionIsOrderFree | sanitizer.go:253-270 | redaction depends only on the set of paths: order and repetition do not matter |
| Sanitizer.RedactionIsIdempotent | sanitizer.go:253-270 | redacting twice is redacting once |
| RedactionHides.RedactionHidesExactly | sanitizer.go:253-336 | redaction makes two bodies equal if and only if they differ only in the values of strings, numbers and booleans, kind for kind, at locations a listed path ends at, not in a wildcard |
| RedactionHides.ListedValuesAreRedacted | sanitizer.go:277-336 | at such a location a string has become "[REDACTED]", a number 0 and a boolean false, and anything else looks as before |
| RedactionHides.OtherValuesStay | sanitizer.go:277-336 | at every other location the tree looks as before |
| RedactionHides.FakedLeaves | faker.go:52-80 | a leaf faker puts strings, numbers and booleans through its functions, kind by kind, at the locations its path ends at |
| Sanitizer.FixedContainerBreaksOrder | faker.go:46-48 | a witness: a fixed faker that plants an object makes the result depend on the order of two paths |
| FakingOrder.RelatedPathsCommuteIff | faker.go:474-516 | where one path ends at a key another goes on from, their order matters on no tree if and only if at every value faking it and following the rest of the longer path may change places |
| FakingOrder.FixedFakerCommutesIff | faker.go:41-48 | with a fixed faker on the shorter path, if and only if the rest of the longer path leaves the fixed value alone |
| FakingOrder.UnrelatedPathsCommute | faker.go:474-516 | paths neither of which ends on the other commute on every tree, whatever their fakers do |
| FakingOrder.OrderFreeIffValuesAgree | faker.go:416-469 | every selection from a map of paths gives one tree in every walking order if and only if wherever one path ends on another their fakers agree at every value |
| WholeMapOrder.OneTreeIffTopsUndisturbed | faker.go:416-516 | a map of leaf and fixed fakers gives every body one tree in every order its paths may be walked, if and only if no longer path changes the value of a fixed path with no other fixed path above it |
| WholeMapOrder.UndisturbedWalksAgree | faker.go:449-516 | the direction for all walks: paths below a top fixed path may be left out, the rest commute |
| WholeMapOrder.DisturbedTopShows | faker.go:449-516 | the other direction: a body and two walks with different trees, also where other fixed paths lie between |
| WholeMapOrder.OverwrittenQuarrel | faker.go:416-516 | a map of three paths that always gives one tree although two of its fakers disagree |
| SharedFakes.ValuesStayIffUndisturbed | faker.go:46-48 | with the containers of fixed fakers shared and written into in place, no fixed faker ever holds another value than its own, at any moment of any walk over any bodies, if and only if no longer path changes the value of a fixed path |
| SharedFakes.SharingIsInvisible | faker.go:449-516 | then, whatever bodies came before, the traversal in place gives each body the tree of the rewriting on values, in every order of the paths |
| SharedFakes.WriteKeepsSound | faker.go:474-516 | one path written in place rewrites the value a tree stands for and keeps the shared containers as they were |
| SharedFakes.EveryBodyFakesAgain | faker.go:507-511 | otherwise: a configuration under which each further body fakes the fixed value once more |
| FakingOrder.CommutingPathsPermute | faker.go:449-469 | if any two paths of a list commute, every permutation of the list gives the same tree |
| Diff.JsonEqualIsEquality | diff.go:708-753 | the recursive comparison decides equality of trees |
| Diff.CompareJSON | diff.go:593-625 | the recursive comparison appends to the shared slice, after what is there, exactly the differences of the two values under the path |
| Diff.CompareObjects | diff.go:628-671 | the union of the keys is compared in sorted order |
| Diff.CompareArrays | diff.go:674-703 | elements are compared up to the longer length, the surplus being added or removed |
| DiffAgreement.CompareEmptyIffAgree | diff.go:593-703 | below any path, nothing is reported if and only if the two values agree everywhere not ignored |
| DiffAgreement.DiffIsSoundAndComplete | diff.go:593-703 | a diff is empty if and only if both bodies look alike at every location that is not at or below an ignored one |
| DiffAgreement.EmptyDiffMeansEqual | diff.go:593-703 | with nothing ignored a diff is empty if and only if the bodies are equal |
| DiffAgreement.ReportedDiffsAreExact | diff.go:593-703 | each reported difference names the two values really found at its path, with the kind they call for, and never an ignored location |
| DiffAgreement.DifferencesAreReported | diff.go:593-703 | whatever is ignored, every visible location at which the bodies differ is at or below a reported one |
| DiffAgreement.HiddenIffIgnoredLocation | diff.go:528-588 | the locations the comparison never reaches are those at or below a match of an ignore pattern |
| DiffReplay.ReplayYieldsLive | diff.go:593-703 | replaying the reported additions and changes, and then the removals from the end, on the fixture yields the live body |
| DiffOrder.ReportsAreInOrder | diff.go:628-703 | reports come by path, keys ascending and elements by index at every depth |
| DiffOrder.BeforeIsApart | diff.go:593-703 | so no path is reported twice, nor one inside another |
| DiffOrder.KeysAreOrderedByBytes | diff.go:628-671 | keys are ordered as byte strings, by the first byte in which they differ, a prefix coming first |
| RedactDiffCoherence.RewritingIsInvisibleToDiff | diff.go:546-625 | whatever redaction or any faker puts at a list of paths, the diff of the original and the rewritten body that ignores those paths is empty |
| Extract.ExtractAtPath | matcher.go:780-820 | the recursive extraction with its loop over array elements computes the values the laws below are about |
| Extract.ExtractedValuesAreInPlace | matcher.go:780-820 | for every choice of indices the extracted value holds what stands at the concrete path they spell |
| Extract.ExtractFailsIffMisfit | matcher.go:780-820 | extraction fails if and only if some place the path reaches cannot follow its next segment |
| Extract.ExtractAfterRewrite | matcher.go:780-820 | extraction after rewriting the same path succeeds exactly when it did before and gives the old value with its leaves rewritten, nested as deep as the path has wildcards |
| Faker.LuhnCheckDigit | faker.go:161-176 | the loop from the right with its alternating doubling computes the check digit |
| Faker.CheckDigitIsTheOne | faker.go:161-176 | of the ten digits, the computed one and no other completes a number that passes the Luhn test of Annex B of ISO/IEC 7812-1 |
| Faker.LuhnCatchesOneError | faker.go:161-176 | changing any one digit changes the Luhn sum modulo ten |
| Faker.CreditCardFake | faker.go:122-155 | every fake card is 16 digits in groups of four, Luhn-valid, with the six-digit issuer prefix of the original |
| Faker.PhoneFake | faker.go:89-115 | the fake is the phone pattern of the input filled from the chained hash |
| Faker.NumericFake | faker.go:187-206 | the fake is as many digits as asked for, filled from the chained hash |
| Faker.PatternFake | faker.go:243-273 | the fake is the pattern filled from the chained hash |
| Faker.FilledIsShaped | faker.go:89-273 | a filled pattern has exactly its length, and each position holds the literal or the digit or letter of the right byte of the right block of the hash chain |
| Faker.FilledKeepsClasses | faker.go:89-273 | literals stay, digit slots hold digits, letter slots hold lower-case letters |
| Faker.ChainDraw | faker.go:252-266 | the index into the hash never leaves its block, and a new block is drawn exactly when the old one is used up |
| Faker.LeafFakingIsOrderFree | faker.go:416-436 | with leaf fakers the order in which a map of paths is walked does not matter |
| MediaTypes.ParseMediaType | media_type.go:34-85 | a range is malformed if blank, refused by the library or without a slash; otherwise its quality is the q parameter clamped to 0..1, or 1 when that is missing or no number |
| MediaTypes.HeaderAcceptsIff | media_type.go:34-126 | for every Accept header all qualities lie between 0 and 1, and a type is accepted if and only if section 5.3.2 of RFC 7231 accepts it and no matching range has q=0 |
| MediaTypes.ParseAccept | media_type.go:91-126 | the header is split, its malformed ranges dropped and the rest sorted by descending quality, then specificity, keeping the order of equals |
| MediaTypes.ContentNegotiationScore | matcher.go:518-559 | the criterion scores a tape by its content type, a missing one counting as octets and a malformed one as no match |
| MediaTypes.ScoreMeetsRule | matcher.go:518-559 | sorting and taking the first match computes the declarative rule: 0 if a matching range has q=0 or none matches, else 2 plus the specificity of the matching range greatest in quality, then specificity |
| MediaTypes.RuleIsFunctional | matcher.go:518-559 | that rule leaves no choice of score |
| MediaTypes.ScoreIsOrderIndependent | media_type.go:91-126 | permuting or repeating the ranges never changes the score |
| MediaTypes.AcceptsIffRfcAndNoExclusion | matcher.go:534-550 | a type is accepted if and only if section 5.3.2 of RFC 7231 accepts it and no matching range at all has q=0 |
| MediaTypes.WildcardExclusionWins | matcher.go:534-550 | a header that the RFC reads as accepting HTML and the code as refusing it |
| AcceptRules.ScoreIsDecided | matcher.go:518-559 | a type is refused if it lies in no range or in one of quality 0; otherwise it scores 5, 4 or 3 as the range that decides, of highest quality and then precision, names a type in full, a whole type or everything |
| AcceptRules.RangeIsRead | media_type.go:34-85 | a range that prints as type, slash, subtype is read as these, with its q parameter brought into 0..1, or 1 without a number there |
| AcceptRules.RangeIsMalformedIff | media_type.go:34-85 | a range is malformed if and only if it is blank, refused by the library or without a slash |
| AcceptRules.HeaderIsItsParts | media_type.go:91-126 | the ranges of a header are its well-formed parts between commas, or everything where there is none |
| Matcher.CompositeMatch | matcher.go:734-762 | the nested loops compute the selection the next rows are about |
| Matcher.MatchIsFirstBest | matcher.go:734-762 | the pick is the first candidate of greatest total among those no criterion eliminates, if that total is positive, else nothing |
| Matcher.MatchAmongNonNegative | matcher.go:734-762 | with criteria that never score below zero something is picked if and only if some candidate survives them all |
| Matcher.NoCriteriaNoMatch | matcher.go:722-762 | a matcher without criteria matches nothing |
| Matcher.SurvivesIffNoZero | matcher.go:741-752 | a candidate is eliminated if and only if some criterion scores it zero |
| Matcher.DefaultMatchAgrees | caching_transport.go:256-259 | the caching transport's default matcher picks a tape with the request's method, path and body hash, and finds one whenever there is one |
| Matcher.ProxyMatchAgrees | matcher.go:769-774 | the same for method and path |
| ServeLaws.TotalIsSum | matcher.go:734-762 | a total is the sum of the scores, none of them 0 |
| ServeLaws.DefaultTotal | matcher.go:98-340 | under the default criteria a tape with the method, path and body hash totals 11, one with method and path 3 where only those count, and any other is eliminated |
| ServeLaws.ServedIsBestFit | server.go:423-443 | a recorded tape that fits is served whenever there is one, with the greatest total; otherwise, with synthesis on, an exemplar whose pattern accepts the path and that no other criterion rejects, with the greatest total; otherwise nothing |
| ServeLaws.DefaultOtherCriteria | server.go:604-617 | of the default criteria only the path's gives way to an exemplar's pattern |
| Server.MatchExemplar | server.go:592-670 | the exemplar loop with its tie rule computes the selection the next two rows are about, and returns what the picked exemplar's own pattern captures from the path |
| Server.ExemplarMatchIsCompositeMatch | server.go:592-670 | the exemplar phase picks what the composite matcher would with the exemplar's own pattern in place of the path criteria, if and only if some survivor totals above zero or none survives |
| Server.DisapprovedExemplar | server.go:592-670 | a negative criterion under which one exemplar is picked by the exemplar phase and not by the composite matcher |
| Server.NonNegativeExemplarMatch | server.go:592-670 | with criteria that never score below zero the two always agree |
| Server.ServeSelect | server.go:423-443 | the partition into exact and exemplar tapes and the two phases, as loops, for a composite matcher or any other; path parameters come with an exemplar and only then |
| Server.ExemplarsNeverOverride | server.go:423-443 | an exemplar is served only with synthesis on and no exact match, and only stored tapes are served |
| Server.ExemplarsAreInert | server.go:423-443 | with synthesis off the answer is as if the store held no exemplars |
| CachingTransport.FlightTable.JoinOrLead | caching_transport.go:352-385 | the critical section that joins a call in flight or registers a new one makes the machine's move and no other change |
| CachingTransport.FlightTable.SetResult | caching_transport.go:390-439 | a leader's result goes into its own call and nowhere else |
| CachingTransport.FlightTable.WaitGroupDone | caching_transport.go:390-439 | signalling lowers its own call's counter by one |
| CachingTransport.FlightTable.Forget | caching_transport.go:441-443 | the delete by key takes exactly that key out of the table |
| SingleFlight.AtMostOneLeader | caching_transport.go:352-446 | at every reachable state a key has at most one leader, the table leads to that leader's call, and no delete by key has ever removed another's entry |
| SingleFlight.CallsCompleteOnce | caching_transport.go:352-446 | every call goes upstream at most once and is completed exactly once, by its leader; whoever finds its counter at zero finds its result set |
| SingleFlight.TableIsLeaders | caching_transport.go:352-446 | the table holds exactly the keys of the current leaders, so entries neither leak nor vanish early |
| SingleFlight.WaitersCanBeReleased | caching_transport.go:352-446 | at every reachable state every waiter can be released by at most four moves of its leader and its own wake-up, even if upstream fails and the store neither saves nor lists |
| SingleFlight.StepKeepsInv | caching_transport.go:283-525 | every action of every thread keeps the ownership invariant |
| NoCrossedAnswers.NeverCrossesIffDistinguishes | caching_transport.go:283-525 | for every configuration, sanitizer and set of requests: in every interleaving every answer of a hit, miss, waiter, stale fallback or bypass was upstream's to a request with the same method, path and body hash, if and only if the single-flight key, where it is used, tells such requests apart and the tape saved of one matches no other that could be served it |
| NoCrossedAnswers.NeverCrossesIffKeysDistinguish | caching_transport.go:283-525 | where the sanitizer keeps method, path and body hash: if and only if there is no single-flight or its key tells requests apart |
| NoCrossedAnswers.RedactionNeverCrossesIff | sanitizer.go:225-247 | where it redacts request bodies and their hashes: if and only if the key does and no redacted body hashes like the body of another request with that method and path |
| NoCrossedAnswers.RedactedBodiesCross | faker.go:425-436 | two ordinary requests, one with the redacted text of the other's body: different keys, and a run that answers the second with the first's response |
| CrossingRuns.ClashingKeysCross | caching_transport.go:339-385 | two requests that share a key without sharing method, path and body hash: a run in which the second gets the first's answer |
| CrossingRuns.ConfusedTapesCross | caching_transport.go:310-327 | a tape saved of one request that another could be served: a run in which it is, as a hit, a stale answer or a waiter's own lookup |
| Provenance.RunKeepsProvenance | caching_transport.go:283-525 | stored tapes, published results and answers stay traceable to what upstream said, in every run |
| CacheKeys.BarFreeKeysDistinguish | caching_transport.go:339 | methods free of bars are enough for the key to tell requests apart |
| CacheKeys.RootedKeysDistinguish | caching_transport.go:339 | methods free of slashes with paths that are empty or start with a slash are enough too, bars or not |
| NoCrossedAnswers.BarsClash | caching_transport.go:339 | two requests with one key that cross |
| NoCrossedAnswers.AnswersAreUpstreams | caching_transport.go:283-525 | with the identity sanitizer and methods free of bars every answer is a response upstream gave to a request with the same method, path and body hash |
| AnswersGiven.AnswersAreDue | caching_transport.go:283-525 | in every run every answer is one that was due: a hit is the picked tape's response; a miss or a bypass is what upstream said to this call; a stale one what the query after the failure picked, or the failure; a shared one what a leader with the key, in the table when the waiter came, had got when it signalled, or behind a stream the tape picked then |
| AnswersGiven.UpstreamsAnswerIsGiven | caching_transport.go:449-525 | from any state: a caller whose call upstream was answered ends with that answer, as a miss, whatever happens to the recording |
| AnswersGiven.OutcomeCanArrive | caching_transport.go:390-446 | and it can always get there by its own moves, at most four |
| AnswersGiven.UpstreamsFailureIsGiven | caching_transport.go:449-475 | without the stale fallback a failed call upstream ends as the failure |
| AnswersGiven.PickedTapeIsGiven | caching_transport.go:310-327 | what a query picks is what its caller ends with: on arrival, after a failure, and behind a stream |
| AnswersGiven.FailureIsUpstreams | caching_transport.go:283-525 | a caller is told of a failure only if upstream failed, to it or to a request with its key, and with the stale fallback only if the query picked nothing |
| SavedTapes.StoreIsWhatWasSaved | caching_transport.go:499-591 | each successful save and nothing else puts one tape into the store, the sanitizer's output, field by field, on an answer of upstream's that was whole and let through by the filter, or a stream at its end |
| SavedTapes.RecordingIsSaved | caching_transport.go:499-525 | a successful save puts the thread's own exchange last |
| SavedTapes.NothingIsLeftOut | caching_transport.go:476-525 | whoever got a whole answer that the filter lets through has tried to save it before it is done, and a stream that is to be recorded waits for its end |
| SavedTapes.BypassedIffLarge | caching_transport.go:283-293 | a request bypasses the cache if and only if its body is over the limit |
| CacheHits.AlwaysHitsIffMatches | caching_transport.go:310-327 | once a tape is saved, by whichever thread or stream and in whatever run, every lookup a later request makes on arrival is a hit as long as the listing works, if and only if what the sanitizer made of the tape matches the request |
| CacheHits.KeptKeysAlwaysHit | caching_transport.go:310-327 | so a sanitizer that keeps method, path and body hash lets every later request with those three hit |
| CacheHits.RedactedRequestHitsIff | sanitizer.go:225-247 | and one that redacts bodies lets a request hit its own tape if and only if redaction leaves the hash of its body alone |
| Lookups.CachingLookup | caching_transport.go:310-327 | what the default matcher computes is a lookup the machine allows |
| Lookups.ProxyLookup | proxy.go:704-711 | the same for the proxy's fallback |
| Lookups.RequeryLookup | caching_transport.go:757-792 | and for the lookup behind a stream |
| Lookups.AllowedLookups | caching_transport.go:310-327 | a lookup may fail, pick any tape that agrees with the request in what is compared, or pick none if no tape does, and nothing else |
| Lookups.ProxyMatchIsFirst | matcher.go:734-774 | all tapes of a route score alike, so the first one is picked |
| Lookups.Fallback | proxy.go:671-711 | the answer is the first matching tape of the first tier, else the first of the second, else what the fallback was called for; a failed listing counts as empty |
| Sse.WriteSSEEvent | sse.go:232-262 | the writer emits the event's optional fields, one data line for each line of its data, and a blank line |
| Sse.ParseSSEStream | sse.go:137-227 | the loop over scanned lines with its per-event variables computes the parse the laws below are about |
| SseRoundTrip.RoundTripIffFaithful | sse.go:137-262 | for every list of events, writing and parsing gives the list back, with no error, if and only if no type or ID has a line feed, no ID a NUL, no retry is negative, no line ends in a carriage return and none reaches the scanner's limit |
| SseRoundTrip.ParseOfClean | sse.go:137-262 | what the parse makes of events whose lines do end in carriage returns, and when it fails |
| SseRoundTrip.ParsedEventsAreClean | sse.go:137-227 | no input makes the parser produce a type or ID with a line feed, an ID with a NUL or a negative retry |
| SseBlocks.ParseReadsBlocks | sse.go:140-227 | of every text: the events are those its blocks of lines stand for, with the last type, the last ID without NUL, the last valid retry time and all data, an unfinished block is dropped, and reading stops with an error at the first line of 1048576 bytes |
| SseBlocks.SpaceIsOptional | sse.go:187-194 | the lines name:value and name: value may stand for each other at any place of any text |
| SseBlocks.OneSpaceIsDropped | sse.go:187-194 | no more than one space is dropped |
| SseBlocks.BareNameIsEmptyValue | sse.go:195-199 | a bare name stands for the name with an empty value, at any place of any text |
| SseBlocks.NothingMayBeAdded | sse.go:179-220 | lines that mean nothing may be put in anywhere without changing the events |
| SseBlocks.CommentsMeanNothing | sse.go:179-182 | comments mean nothing |
| SseBlocks.UnknownFieldsMeanNothing | sse.go:217-219 | so do fields with other names than event, data, id and retry |
| SseBlocks.OneDataLine | sse.go:140-227 | the text of one data line and a blank one is one event, with the value as it stands but for one leading space |
| SseBlocks.WrittenIsBlock | sse.go:229-262 | the text written for an event is one block that names its data line by line and of the other fields those that are set, each once |
| SseRetry.RetryIsSetIff | sse.go:212-216 | for every value: the retry time is set if and only if the value is, after at most one sign, digits of at most the largest 64-bit integer, and zero if the sign is a minus; it is set to what the digits say |
| SseRetry.RetryFollowsStandardIff | sse.go:212-216 | for every value: the parser does what section 9.2.6 of the WHATWG HTML Standard says if and only if the value carries no accepted sign and, if it is digits only, fits |
| SseRetry.RetryOnTheWire | sse.go:137-227 | parsing a stream with two retry lines gives its event the second value's time, or the first's where the second is ignored |
| RetryWitnesses.RetryDepartures | sse.go:137-227 | three streams on which the parser departs from the standard: a plus sign, minus zero, digits that do not fit |
| SseRecording.CallerAndParserSeeOnePrefix | sse.go:322-376 | in every interleaving of reads, close and parser, what the caller got is a prefix of what the parser got, which is a prefix of what upstream sent; they are equal between reads; the done callback runs at most once and before any Close returns |
| SseRecording.StoredOnlyAfterEof | caching_transport.go:559-591 | a tape is stored only if upstream's end was read and the parse had no error, with the events of what the parser got |
| SseRecording.NothingStoredBeforeClose | sse.go:364-376 | as long as nobody closes, nothing is stored |
| SseRecording.CloseIsSafeExactly | caching_transport.go:559-623 | in every reachable state in which Close is about to close the pipe, all continuations store complete tapes or none if and only if a read error was recorded, the parser is gone or has met an over-long line, or the end of the stream was read and no Read in progress holds bytes for the parser |
| SseRecording.CalmCallersStoreWholeStreams | caching_transport.go:532-623 | for a caller that neither closes during a Read nor reads after closing, stored events are the parse of the whole stream and the caller got every byte |
| SseRecording.OvertakingCloseStoresTruncatedTape | caching_transport.go:559-623 | for every event the wire can carry, a run that stores an empty tape for the stream holding it |
| SseRecording.CloseCanReturn | sse.go:364-376 | once the pipe is closed at most three steps let Close return, with the callback run exactly once |
| SseRecording.OverlongLineBlocksRead | sse.go:140-227 | for every line over the limit with bytes behind it, a run from the start in which the Read that brings them blocks, and stays blocked in every continuation until somebody closes |
| SseRecording.CanBlockIffOverlong | sse.go:140-227 | a stream can block a Read until somebody closes if and only if a line over the scanner's limit, finished or not, lies in it with at least one byte behind |
| SseRecording.StuckIff | sse.go:322-376 | in every consistent state no continuation without a close ends the Read in progress if and only if the parser is gone, the pipe open and bytes are left |
| RecordingLaws.FinishedStreamIsStored | caching_transport.go:559-591 | a stream read to its end and passed on before the close, without a failed read or an over-long line, is stored whole when the callback runs and saving works, and otherwise nothing is |
| RecordingLaws.FailedReadStoresNothing | sse.go:322-376 | after a read that failed, its write over while the pipe was open, nothing is ever stored |
| RecordingLaws.ReadIsWhatCame | sse.go:322-362 | the machine keeps account of all bytes the reads brought and of whether one met the end |
| RecordingLaws.HowWritesEnd | sse.go:322-362 | a write whose bytes were taken succeeds, and one with bytes left is broken off once the pipe is closed and not before |
| TwoTiers.TiersStayInOrder | proxy.go:133-206 | in every run every second-tier tape is the sanitizer's output on its recording, no buffered fallback response is in either tier, and the first tier holds no fallback response and no cut body |
| TwoTiers.FallbackReachesL2IffStream | caching_transport.go:476-497 | a response classed as fallback can reach the second tier if and only if it is an event stream |
| TwoTiers.CutBodyReachesL2IffNotFallback | proxy.go:165-178 | a buffered response whose body broke off can reach the second tier if and only if it is not classed as fallback |
| TwoTiers.NewProxyIsWired | proxy.go:525-563 | every proxy the constructor makes has lookups off, recording of streams on and the fallback rule turned round as its filter, so what is said of the tiers holds of it |
| TwoTiers.StepKeepsTiers | proxy.go:133-206 | every action keeps both tiers in order |
| ProxyAnswers.AnswersAreDue | proxy.go:616-711 | in every run every answer is one that was due: a live one is what upstream said to this call, to the leader of the joined flight, or behind a stream the tape picked, and does not call for the fallback; a cached one is a tape found in the first tier, or after a miss there in the second, when the outcome called for it; the original outcome comes only without a fallback or after two misses |
| ProxyAnswers.UpstreamsReplyDecides | proxy.go:616-670 | from any state: a response that does not call for the fallback ends as the live answer, a failure that does not as the failure, anything else as a tape or as itself |
| ProxyAnswers.FlightsOutcomeDecides | proxy.go:616-670 | the same for those who joined a flight, streams excepted |
| ProxyAnswers.StreamWaiterGoesUpstream | caching_transport.go:785-792 | behind a stream a waiter that finds no tape goes upstream itself |
| ProxyTapes.TiersHoldWhatWasSaved | proxy.go:133-206 | each successful save and nothing else adds one tape to its tier: to the first the recording of an exchange, field by field, to the second the sanitizer's output on one, of a request that is not too large |
| ProxyRecords.NothingIsLeftOut | proxy.go:133-206 | whoever got a whole buffered answer that calls for no fallback has tried the first tier before it is done, and the second if the filter lets it through and the request is not too large; streams wait for their end in both |
| RouteOutage.StaysAvailableIffClear | proxy.go:616-711 | once a buffered request was answered live, every later request with its method and path ends with a live answer or a tape recorded for that route, whatever upstream and other threads do, if on this route first-tier saves and body reads had worked and its own lookups do: in every run with a set of requests, if and only if none of them off the route shares a single-flight key with one on it |
| RouteOutage.ClashMakesOutage | proxy.go:616-711 | two requests of such a kind: a run that answers the route live, from another route's flight, and then has nothing for it |
| RouteOutage.OrdinaryRequestsStayAvailable | proxy.go:616-711 | requests with rooted or empty paths and methods free of slashes keep every route available |
| ProxyAvailability.LaterRequestsAreAnswered | proxy.go:616-711 | the direction for every run |
| ProxyAvailability.RunKeepsInv | proxy.go:133-206 | every live buffered answer on a route, a waiter's too, has a tape of the route behind it, in every run that is smooth on that route |
| Recorder.RecorderConservesTapes | recorder.go:446-511 | in every run the accepted tapes are the saved ones, then the one in hand, then the queued ones, in order; the queue never exceeds its capacity; nothing is sent on or closes a closed channel |
| Recorder.OfferVerdict | recorder.go:446-470 | a tape is dropped if and only if the recorder is closed or the channel full at the test |
| Recorder.CloseFlushesEverything | recorder.go:477-511 | when Close returns every accepted tape has been handed to the store, and nothing is accepted or written afterwards |
| Recorder.DrainFinishes | recorder.go:503-511 | once the channel is closed a bounded number of drain steps lets Close return |
| Recorder.AlarmWorks | recorder.go:446-488 | a send on the closed channel or a second close of it would be noticed |
| Recorder.AsyncRecorder.PersistTape | recorder.go:446-470 | the critical section makes exactly the machine's two moves |
| Recorder.AsyncRecorder.CloseChannelOnce | recorder.go:481-488 | closing sets the flag and closes the channel under one lock |
| Recorder.AsyncRecorder.Drain | recorder.go:503-511 | the drain loop empties the queue into the store in order |
| Health.StreamsAreGapFree | health.go:225-341 | in every run what a subscriber received and has buffered is a contiguous piece of the transition history from its seed on, up to the present while subscribed; neighbours differ; at most eight are buffered; no send or close hits a closed channel |
| Health.QuietAfterClose | health.go:362-405 | once Close has returned there are no subscribers and no probe starts |
| Health.ClosedStreamsAreFinal | health.go:334-341 | a closed stream never changes again |
| HealthTransitions.ObservationIs | health.go:225-271 | an observation of another known state becomes the state, goes into the history and to every subscriber with fewer than eight waiting, and closes the others; one of the present state changes none of these, and an unknown source nothing at all |
| HealthTransitions.HistoryIsWhatWasObserved | health.go:225-251 | in every run the state is the last known source observed, and the history holds exactly the changes observed, each with its time |
| HealthTransitions.NoProbeWithoutInterval | health.go:347-359 | without a start with a positive interval nothing is probed |
| HealthTransitions.StartedMonitorProbes | health.go:347-405 | with one the monitor comes to probe |
| HealthTransitions.FreshMonitorProbes | health.go:347-405 | so does a fresh one |
| HealthTransitions.StartsOnce | health.go:347-359 | after any start no other has an effect |
| HealthTransitions.AlarmWorks | health.go:256-271 | a send on a closed channel or a second close of one would be noticed, so that none is noticed means that none happens |
| Health.HealthMonitor.BroadcastLocked | health.go:256-271 | every subscriber with room gets the state, exactly the overflowed ones are dropped |
| Health.HealthMonitor.ApplyObservation | health.go:225-251 | a transition updates state and time, is recorded and broadcast; anything else only notes the probe, and an unknown source nothing |
| Health.HealthMonitor.Subscribe | health.go:304-331 | a new subscriber starts with the current state, or with a closed channel after Close |
| Health.HealthMonitor.DropSubscriber | health.go:334-341 | a member is removed and its channel closed, a non-member left alone |
| Health.HealthMonitor.CloseSubscribers | health.go:582-602 | every member's channel is closed and the set emptied |
| StoreRefinement.FileStoreRefinesMemoryStore | store_file.go:233-574 | over any sequence of operations under any filename strategies the directory keeps one file per ID, and the file store answers as the memory store if and only if it never refuses; then the two also hold the same tapes |
| StoreRefinement.StepRefines | store_file.go:233-574 | for one operation the exact condition of refusal: an invalid ID, a failing file operation, 99 taken names, or a corrupt file at the fast path; a refusal changes nothing unless the write failed |
| StoreRefinement.OthersAreUntouched | store_file.go:233-574 | corrupt files, foreign files and the tapes of other IDs stay as they were |
| StoreRefinement.FailedWriteLosesRenamedTape | store_file.go:264-291 | a failed write loses the tape if and only if it was stored under another name than the one now chosen |
| StoreRefinement.RenamedTapeIsLostIff | store_file.go:264-291 | a tape saved under one strategy and then, failing on the write, under another is not found any more if and only if the two give it different stems, or the separator |
| StoreRefinement.CollisionNeedsNinetyNineFiles | store_file.go:299-321 | Save runs out of names only when 99 different files other than the tape's own bear the stem's names |
| StoreRefinement.DefaultStrategyNeverRefuses | store_file.go:43-47 | in a directory written by the default strategy no operation on a valid ID is refused, so the file store is the map |
| StoreRefinement.ListingIsExact | store_file.go:424-466 | a listing is exactly the accepted tapes of the map, each once |
| StoreLaws.FilesListed | store_file.go:424-466 | the file store lists exactly the tapes in its files that have the filter's route, where one is set, and its method, where one is set |
| StoreLaws.MapListed | store_memory.go:67-86 | the memory store lists exactly the tapes of its map that do |
| StoreLaws.AnswersAreLastWritten | store_memory.go:35-103 | after any operations the map answers from what was last saved under an ID and not deleted since |
| StoreLaws.RefusedIds | store_file.go:233-532 | an ID is refused if and only if it is empty, one or two dots, or has a separator in it |
| StoreLaws.SaveTakesFirstFreeName | store_file.go:299-321 | Save writes to the first of stem.json, stem_2.json, ..., stem_99.json that is free or the tape's own, and gives up if none is |
| StoreLaws.BaseIsLastElement | store_file.go:252-262 | a stem is the last element of the path the strategy gives |
| StoreRefinement.SaveRefines | store_file.go:233-293 | a Save that finds a name is an update of the map at its ID |
| StoreRefinement.LoadRefines | store_file.go:384-419 | fast path and scan together look the ID up |
| StoreRefinement.DeleteRefines | store_file.go:472-532 | fast path and scan together remove the ID |
| Stores.FileStore.ResolveFilename | store_file.go:299-321 | the counter loop finds the first available candidate |
| Stores.FileStore.RemoveOldFile | store_file.go:351-379 | the first other file holding the ID goes, nothing else |
| Stores.FileStore.Save | store_file.go:233-293 | directory and answer are the specified ones, on every outcome |
| Stores.FileStore.Load | store_file.go:384-419 | the same |
| Stores.FileStore.List | store_file.go:424-466 | the files are listed in name order, exactly those tapes that have the filter's route and method where they are set |
| Stores.FileStore.Delete | store_file.go:472-532 | directory and answer are the specified ones |
| Stores.MemoryStore.Save | store_memory.go:35-45 | the map is updated at the tape's ID |
| Stores.MemoryStore.Load | store_memory.go:49-63 | the map is read at the ID |
| Stores.MemoryStore.List | store_memory.go:67-86 | exactly the tapes that have the filter's route and method, where they are set, are listed |
| Stores.MemoryStore.Delete | store_memory.go:90-103 | the ID is removed, or reported missing |
| TemplateScan.FindMatchingClose | templating.go:222-242 | the depth-counting loop computes the close the next row is about |
| TemplateScan.CloseIsFirst | templating.go:222-242 | that close is the one token where the nesting depth first returns to zero, and there is none exactly when it never does |
| TemplateScan.ScanTemplateExprs | templating.go:248-270 | the scanning loop computes the spans the next row is about |
| TemplateScan.ScanIsTheTiling | templating.go:248-270 | the spans are the only ones that lie in bounds, in order and apart, each opening at its start and closing where depth returns to zero, with no opening between them and behind the last either none or one never closed |
| TemplateTrees.ScanOfPrint | templating.go:248-270 | printing any nested tree with brace-free text and scanning it recovers its top-level holes, with their text and offsets |
| Templates.ParseArgValue | templating.go:154-171 | the value ends at the first blank read at depth zero |
| Templates.ParseExpr | templating.go:112-147 | name and key=value pairs are split off, a later pair winning, every value shorter than the expression |
| Templates.ResolveExpr | templating.go:288-346 | the mutual recursion of expressions and arguments ends, by the length of the text, and computes the value |
| Templates.ResolveTemplateBytes | templating.go:690-717 | gaps are copied, values put in between, and in strict mode the first unresolvable expression is the error |
| TemplateMeaning.ParseOfCall | templating.go:112-171 | parsing the text of a call gives back its name and the texts of its arguments, nested calls included |
| TemplateMeaning.CallMeansItself | templating.go:177-346 | resolving the text of any nested call evaluates the call, arguments first |
| TemplateMeaning.TemplatesMeanThemselves | templating.go:690-717 | resolving a written template gives its literal text and the values of its calls side by side, values never being scanned again; in strict mode it fails if and only if a call has no value, naming the first |
| TemplateMeaning.StrayCloseSwallowsArguments | templating.go:154-171 | after a stray close and text without braces a value runs to the end, over blanks |
| TemplateArgs.ArgEndsAsPromisedIff | templating.go:154-171 | for every text: the value ends at the first blank outside every block if and only if no blank up to there, behind stray closes, stands outside every block or in exactly as many blocks as there are stray closes before it |
| TemplateLaws.NameEndsAtBlank | templating.go:112-147 | a tab or a space alike sets a name off from its arguments |
| TemplateLaws.PairEndsAtBlank | templating.go:112-171 | and one argument from the next |
| TemplateLaws.LeftoverIsIgnored | templating.go:126-146 | text without an equals sign behind the last argument is left out |
| TemplateLaws.CallIsReplaced | templating.go:690-717 | in lenient mode a call is replaced by its value, and by nothing where it has none |
| TemplateArgWitnesses.StrayCloseSwallowsAnArgument | templating.go:112-171 | an expression in which the value takes the next argument along |
| TemplateArgWitnesses.StrayCloseSplitsABlock | templating.go:112-171 | an expression in which the value ends inside a block and the rest of it is lost |
| TemplateArgWitnesses.TheScannerYieldsThem | templating.go:248-270 | two templates from which the scanner takes exactly those expressions |

## Left out

- HTTP plumbing, TLS, the command line, bundles, configuration, fixtures, the mock server, timing modes, delays, error-rate sampling and CORS: I/O and wrappers with little to prove.
- JSON, base64, regular expressions, URLs, media-type parameter syntax, UUIDs, SHA-256 and HMAC at byte level: abstract functions (HMAC returns 32 bytes); numbers in JSON are compared as values, so float64 rounding does not appear.
- Aliasing: the traversals write maps and slices in place where most of the model returns a new tree, and tapes are deep-copied at the stores where the model has values.
- Sanitizer.FakeBodyFields: works on values; what the shared container of a fixed faker changes is stated in `SharedFakes.dfy`, with one object for each fixed path.
- Case folding and Unicode: types and header names are compared as written, and white space is ASCII.
- Context cancellation, upstream timeouts and panics: only as the outcomes a property mentions; a panic between registering and removing a flight would strand its waiters.
- Health snapshots carry the state and the time the caller read; that `Since` is not monotone is modelled by taking the clock as an input, and nothing is claimed about it.
- A finished leader's response is an immutable value; the copying of its body for waiters is not modelled.
- The event streams of `Recorder` and of the proxy's first tier: they also store streams that were closed early, so the complete-only claim is for the caching transport.
- Event times (`OffsetMS`), replay pacing and data-path sanitizers of SSE events.
- MediaTypes.ParseMediaType: takes the library's parsers of parameters and of numbers as functions; a quality given as NaN is not modelled, nor are the other parameters.
- Path parameters of exact matches, and query, header and fuzzy body criteria, except as arbitrary scoring functions.
- Template helpers, JSON bodies and coercions: a name and its resolved arguments go to an arbitrary function, so counters and random helpers, whose values change from call to call, are not modelled.
- Files whose ID parses while the rest does not, directories named like tapes, and failing removals of old files: the directory model has only tapes and corrupt files.
- Templates.ResolveExpr: takes the environment as a function, so the order in which a map of arguments is resolved cannot show.
- Faker.NumericFake: takes a length that is not negative; the source panics on a negative one.
- SseRecording.CallerAndParserSeeOnePrefix: assumes one Read at a time, as an io.Reader may; Close may come from elsewhere.
- NoCrossedAnswers.AnswersAreUpstreams: starts from an empty store, as tapes recorded elsewhere have no exchange to point to.
