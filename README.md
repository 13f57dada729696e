# Command-aware route analysis, eastbound PACOTS splitting and track status log

This project models three parts of QSimPlanner in Dafny and proves properties of them.

- **The route analyzer with commands** (`AnalyzerWithCommands`). It takes a route string whose entries may include the commands `AUTO` (shortest route) and `RAND` (random route). It builds one route between two runways in four passes:
  1. It splits the entries into segments: each command stands alone, and every run of explicit entries forms one segment.
  2. It resolves each run into a route. Segment 0, when it is a run, gets the SID; the last segment, when it is a run, gets the STAR. A run elsewhere gets neither.
  3. It fills each command slot from its neighbours. The neighbours are the previous slot's last waypoint and the next slot's first waypoint, or a runway at either end.
  4. It merges every slot into the first one, in order.
- **The eastbound PACOTS track message splitter** (`Splitter`). It searches for `TRACK` headers from offset 5 on, so a header at the very start is never found. It collects each header followed by a digit and stops at the first header that is not, ignoring every header after it. It then cuts the message into one piece per collected header.
- **The track status recorder** (`StatusRecorder`). It keeps a list of problem entries, each with a severity, a message and a track type. Entries can be added one at a time or in bulk. The list can be cleared entirely or for one track type. Every update raises a change notification.

Files:

- `seq_util.dfy` (`SeqUtil`): `Flatten`, which concatenates a list of pieces.
- `routes.dfy` (`Routes`): waypoints, route nodes, routes, `Option` and `Result`.
- `split_entries.dfy` (`EntrySplitting`): the first pass.
  - `SplitEntries` is the imperative splitter.
  - `Segments` is an independent recursive definition.
  - `SegmentationUnique` shows that only one partition has the required shape, so the splitter's result is that partition.
- `analyzer.dfy` (`AnalyzerWithCommands`): passes two to four and the whole analysis.
  - The services the analyzer calls are functions in a `Collaborators` value: SID and STAR extraction, run analysis, the route finders, the random route generator, coordinate naming, runway lookup and `Route.Merge`.
  - The source throws when a command slot's neighbour holds no route, or when the route is empty. The model reports `Failure(MissingAnchor(i))` or `Failure(EmptyRoute)` instead.
  - `AnalyzeSpec` is the specification of the whole analysis.
  - `Analyze` runs the passes as the source does: a list of slots, then an array filled in place.
- `eastbound_splitter.dfy` (`EastboundSplitter`): the splitter.
  - The string parser's step from a header to the next digit is the `digitCursor` function.
- `status_recorder.dfy` (`TrackStatus`): the recorder as a class over a `seq` field.
  - A counter stands in for the change event.
  - The track type is a type parameter.

Two behaviours of the analyzer follow from the code and deserve a note:

- **Adjacent commands.** The class comment (`AnalyzerWithCommands.cs:17-19`) allows a command only as the first or last entry, or between two waypoints. The code does not reject other placements. When filling a command slot, `GetStartEndWpts` (`AnalyzerWithCommands.cs:284-286`) reads the right neighbour slot, which the left-to-right fill has not reached yet. When that neighbour is itself a command, its slot is still null, so two commands side by side always stop the analysis. For example, `W1 AUTO RAND W2` fails at slot 1 (`FailsIffEmptyOrAdjacentCommands`, `AdjacentCommandsFail`).
- **Merging.** The body of `Route.Merge` is not part of this model, so the model claims nothing about removing a waypoint shared by two merged routes. `Route.Merge` is a parameter, and the lemmas state what follows when it is plain concatenation or associative.

## Model

| member | source | states |
|---|---|---|
| EntrySplitting.AddIfNonEmpty | src/QSP/RouteFinding/RouteAnalyzers/AnalyzerWithCommands.cs:97-105 | the accumulator is appended as a new segment only when it is non-empty, and is empty afterwards; no token is lost or added |
| EntrySplitting.SplitEntries | src/QSP/RouteFinding/RouteAnalyzers/AnalyzerWithCommands.cs:75-95 | the segments concatenate back to the input; each is a lone command or a non-empty command-free run; no two runs are neighbours; the result equals the reference partition `Segments` |
| EntrySplitting.WellFormedAppend | src/QSP/RouteFinding/RouteAnalyzers/AnalyzerWithCommands.cs:80-92 | appending a lone command, or a run after a command, keeps the segment list well formed |
| EntrySplitting.SegmentsIsSegmentation | src/QSP/RouteFinding/RouteAnalyzers/AnalyzerWithCommands.cs:75-95 | the reference partition is lossless and well formed |
| EntrySplitting.LeadingSegment | src/QSP/RouteFinding/RouteAnalyzers/AnalyzerWithCommands.cs:80-89 | in any well-formed partition, the first segment is the leading command or the whole leading run of explicit entries |
| EntrySplitting.SegmentationUnique | src/QSP/RouteFinding/RouteAnalyzers/AnalyzerWithCommands.cs:75-95 | two well-formed partitions of the same route are equal, so the splitter's output is determined by its input |
| EntrySplitting.NoCommandsOneSegment | src/QSP/RouteFinding/RouteAnalyzers/AnalyzerWithCommands.cs:88-92 | a non-empty route without commands is one segment |
| EntrySplitting.FirstSegmentKind | src/QSP/RouteFinding/RouteAnalyzers/AnalyzerWithCommands.cs:80-89 | the first segment is a command exactly when the route starts with one |
| EntrySplitting.AdjacentCommandsKept | src/QSP/RouteFinding/RouteAnalyzers/AnalyzerWithCommands.cs:82-86 | two command segments are neighbours exactly when two commands are neighbours in the route |
| AnalyzerWithCommands.SetRwyWpts | src/QSP/RouteFinding/RouteAnalyzers/AnalyzerWithCommands.cs:107-116 | each runway waypoint lies at the runway coordinates the airport list reports, and its identifier is the airport code followed by the runway identifier |
| AnalyzerWithCommands.AppendRoute | src/QSP/RouteFinding/RouteAnalyzers/AnalyzerWithCommands.cs:162-176 | a missing route on either side is the identity; the result is missing only when both are; when both are present, the result is the appended route merged after the original |
| AnalyzerWithCommands.AppendRouteAssociative | src/QSP/RouteFinding/RouteAnalyzers/AnalyzerWithCommands.cs:162-176 | with an associative merge, the SID, main and STAR parts can be joined in either grouping |
| AnalyzerWithCommands.ResolveSegment | src/QSP/RouteFinding/RouteAnalyzers/AnalyzerWithCommands.cs:122-157 | a slot is empty exactly when its segment is a lone command; an interior run's slot is the run analysis of its entries alone; with several segments, segment 0, when it is a run, is its SID merged before the analysis of what the SID extractor left, and the last segment, when it is a run, is the analysis of what the STAR extractor left merged before the STAR |
| AnalyzerWithCommands.SidOnlyForFirstSegment | src/QSP/RouteFinding/RouteAnalyzers/AnalyzerWithCommands.cs:137-141 | changing the SID extractor changes no slot except the first |
| AnalyzerWithCommands.StarOnlyForLastSegment | src/QSP/RouteFinding/RouteAnalyzers/AnalyzerWithCommands.cs:143-147 | changing the STAR extractor changes no slot except the last |
| AnalyzerWithCommands.SingleSegmentGetsBothProcedures | src/QSP/RouteFinding/RouteAnalyzers/AnalyzerWithCommands.cs:135-156 | a lone run gets its SID in front and its STAR behind; the STAR extractor and the run analysis see only what the SID extractor left |
| AnalyzerWithCommands.ComputeRoutes | src/QSP/RouteFinding/RouteAnalyzers/AnalyzerWithCommands.cs:118-160 | the loop gives the reference list `Resolved` (slot i is `ResolveSegment` of segment i); slot i is empty exactly when segment i is a lone command |
| AnalyzerWithCommands.FirstUnfillable | src/QSP/RouteFinding/RouteAnalyzers/AnalyzerWithCommands.cs:180-186 | the first command slot whose neighbour has no route; every earlier slot holds a route or has both anchors |
| AnalyzerWithCommands.GetStartEndWpts | src/QSP/RouteFinding/RouteAnalyzers/AnalyzerWithCommands.cs:278-289 | start is the origin runway for slot 0, else the previous slot's last waypoint; end is the destination runway for the last slot, else the next slot's first waypoint |
| AnalyzerWithCommands.FindRoute | src/QSP/RouteFinding/RouteAnalyzers/AnalyzerWithCommands.cs:206-243 | the route finder's answer: runway to runway for a lone slot, runway to the next slot's first waypoint for the first slot, the previous slot's last waypoint to the runway for the last slot, and between those two waypoints otherwise |
| AnalyzerWithCommands.SelectQuery | src/QSP/RouteFinding/RouteAnalyzers/AnalyzerWithCommands.cs:206-243 | exactly one of the four route-finder variants, chosen by whether the slot is first, last, both or neither |
| AnalyzerWithCommands.SelectQueryJoinsAnchors | src/QSP/RouteFinding/RouteAnalyzers/AnalyzerWithCommands.cs:206-243 | the route finder is asked to join exactly the slot's start and end anchors |
| AnalyzerWithCommands.RandInterior | src/QSP/RouteFinding/RouteAnalyzers/AnalyzerWithCommands.cs:258-276 | polylines of two points or fewer give no waypoints; otherwise the interior points in order, each named from its coordinates and joined by a direct leg |
| AnalyzerWithCommands.RandRouteToRoute | src/QSP/RouteFinding/RouteAnalyzers/AnalyzerWithCommands.cs:258-276 | the loop builds exactly that route |
| AnalyzerWithCommands.RandRouteAddOrigDest | src/QSP/RouteFinding/RouteAnalyzers/AnalyzerWithCommands.cs:245-256 | the origin runway is put first, by a direct leg, only in slot 0; the destination runway is put last only in the last slot; the random route sits unchanged between them |
| AnalyzerWithCommands.FillSlot | src/QSP/RouteFinding/RouteAnalyzers/AnalyzerWithCommands.cs:186-201 | AUTO uses the route finder chosen by position; for RAND the generator is asked for a polyline between the slot's anchors, its interior (`RandInterior`) is placed unchanged in the slot's route, preceded by the origin runway in the first slot and followed by the destination runway in the last, and nothing else is added |
| AnalyzerWithCommands.FillSlotReadsNeighbours | src/QSP/RouteFinding/RouteAnalyzers/AnalyzerWithCommands.cs:278-289 | a slot's fill depends only on the slots next to it |
| AnalyzerWithCommands.FillCommands | src/QSP/RouteFinding/RouteAnalyzers/AnalyzerWithCommands.cs:178-204 | it stops at the first unfillable command slot and reports it; every empty slot before it holds its `FillSlot` route computed from the original neighbours; every other slot is unchanged (after a full pass, the array is the reference list `Filled`) |
| AnalyzerWithCommands.ConnectAll | src/QSP/RouteFinding/RouteAnalyzers/AnalyzerWithCommands.cs:291-300 | the loop merges every slot into the first, left to right |
| AnalyzerWithCommands.MergeAllConcatenates | src/QSP/RouteFinding/RouteAnalyzers/AnalyzerWithCommands.cs:291-300 | when merging is concatenation, the result is every slot's nodes in slot order |
| AnalyzerWithCommands.MergeAllSplits | src/QSP/RouteFinding/RouteAnalyzers/AnalyzerWithCommands.cs:291-300 | with an associative merge, merging a concatenation equals merging the merged halves |
| AnalyzerWithCommands.Analyze | src/QSP/RouteFinding/RouteAnalyzers/AnalyzerWithCommands.cs:66-73 | running the four passes gives the specified route or error |
| AnalyzerWithCommands.UnfillableIffAdjacentCommandSegments | src/QSP/RouteFinding/RouteAnalyzers/AnalyzerWithCommands.cs:178-204 | when every resolved slot holds a waypoint, some command slot cannot be filled exactly when two command segments are neighbours |
| AnalyzerWithCommands.EmptyRouteIffNoEntries | src/QSP/RouteFinding/RouteAnalyzers/AnalyzerWithCommands.cs:291-294 | the empty-route failure happens exactly for an empty entry list |
| AnalyzerWithCommands.FailsIffEmptyOrAdjacentCommands | src/QSP/RouteFinding/RouteAnalyzers/AnalyzerWithCommands.cs:66-73 | when the services never return an empty route, the analysis fails exactly when the route is empty or has two commands side by side |
| AnalyzerWithCommands.AutoAlone | src/QSP/RouteFinding/RouteAnalyzers/AnalyzerWithCommands.cs:210-216 | `AUTO` alone is the runway-to-runway route finder's result |
| AnalyzerWithCommands.RandAlone | src/QSP/RouteFinding/RouteAnalyzers/AnalyzerWithCommands.cs:186-201 | `RAND` alone is origin runway, random interior, destination runway, all by direct legs |
| AnalyzerWithCommands.CommandBetweenRunsSegments | src/QSP/RouteFinding/RouteAnalyzers/AnalyzerWithCommands.cs:75-95 | a command between two command-free runs splits the route into exactly three segments: the first run, the command and the second run |
| AnalyzerWithCommands.AutoBetweenRuns | src/QSP/RouteFinding/RouteAnalyzers/AnalyzerWithCommands.cs:236-241 | `AUTO` between two runs is the waypoint-to-waypoint route from the end of the first run to the start of the second, merged between them |
| AnalyzerWithCommands.AutoBeforeRun | src/QSP/RouteFinding/RouteAnalyzers/AnalyzerWithCommands.cs:218-224 | a leading `AUTO` is the route from the origin runway to the run's first waypoint, merged in front of the run |
| AnalyzerWithCommands.AdjacentCommandsFail | src/QSP/RouteFinding/RouteAnalyzers/AnalyzerWithCommands.cs:284-286 | `AUTO RAND` fails at slot 0, whose right neighbour has no route yet |
| EastboundSplitter.NextIndexOf | QSP/RouteFinding/Tracks/Pacots/Eastbound/Splitter.cs:91-92 | a found position is at or after the start and holds the header |
| EastboundSplitter.OccursAtIsSliceMatch | QSP/RouteFinding/Tracks/Pacots/Eastbound/Splitter.cs:91 | the character-by-character header test holds exactly when the five characters at the position are "TRACK" |
| EastboundSplitter.NextIndexOfIsFirst | QSP/RouteFinding/Tracks/Pacots/Eastbound/Splitter.cs:91-92 | the search returns the first occurrence: no header lies between the start and the result |
| EastboundSplitter.IndexNextTrack | QSP/RouteFinding/Tracks/Pacots/Eastbound/Splitter.cs:86-107 | -1 exactly when there is no further header, or when the first one is not followed by a digit; otherwise that header's start |
| EastboundSplitter.TrackIndices | QSP/RouteFinding/Tracks/Pacots/Eastbound/Splitter.cs:66-81 | every index is at or after the search start, holds a header and is followed by a digit |
| EastboundSplitter.TrackIndicesIncreasing | QSP/RouteFinding/Tracks/Pacots/Eastbound/Splitter.cs:71-80 | the indices increase, each at least one header length after the one before |
| EastboundSplitter.HeadersDoNotOverlap | QSP/RouteFinding/Tracks/Pacots/Eastbound/Splitter.cs:73 | two header occurrences are at least a header length apart, so skipping a header length misses none |
| EastboundSplitter.TrackIndicesComplete | QSP/RouteFinding/Tracks/Pacots/Eastbound/Splitter.cs:66-81 | every header between the first search position and the last index found is among the indices |
| EastboundSplitter.TrackIndicesStopAtHeaderWithoutDigit | QSP/RouteFinding/Tracks/Pacots/Eastbound/Splitter.cs:94-105 | the search after the last index found (or the first search, when none is found) gives -1: there is no further header, or the next one has no digit |
| EastboundSplitter.PiecesConcatenate | QSP/RouteFinding/Tracks/Pacots/Eastbound/Splitter.cs:57-62 | the pieces put back together are the text from the first index on |
| EastboundSplitter.TrackPiecesStartWithHeader | QSP/RouteFinding/Tracks/Pacots/Eastbound/Splitter.cs:57-62 | the indices are valid cut points and every piece starts with the header |
| EastboundSplitter.Splitter.constructor | QSP/RouteFinding/Tracks/Pacots/Eastbound/Splitter.cs:42-45 | the splitter holds the given text |
| EastboundSplitter.Splitter.GetIndices | QSP/RouteFinding/Tracks/Pacots/Eastbound/Splitter.cs:66-81 | the search loop ends and collects exactly the specified indices, all at offset 5 or later |
| EastboundSplitter.Splitter.Split | QSP/RouteFinding/Tracks/Pacots/Eastbound/Splitter.cs:47-64 | no pieces when there is no header; otherwise one piece per index, piece k running to the next index and the last to the end; together they are the text from the first header, and each starts with the header |
| TrackStatus.WithoutType | src/QSP/RouteFinding/Tracks/Interaction/StatusRecorder.cs:52-63 | clearing a type never makes the list longer |
| TrackStatus.WithoutTypeAppend | src/QSP/RouteFinding/Tracks/Interaction/StatusRecorder.cs:52-63 | clearing a type commutes with concatenation, so relative order is kept |
| TrackStatus.WithoutTypeMembers | src/QSP/RouteFinding/Tracks/Interaction/StatusRecorder.cs:52-63 | an entry remains exactly when it was there and has another type |
| TrackStatus.WithoutTypeKeepsOtherTypes | src/QSP/RouteFinding/Tracks/Interaction/StatusRecorder.cs:52-63 | the entries of every other type are kept, in the same order; none of the cleared type is left |
| TrackStatus.WithoutTypeCount | src/QSP/RouteFinding/Tracks/Interaction/StatusRecorder.cs:52-63 | exactly the entries of the cleared type are removed |
| TrackStatus.WithoutAbsentType | src/QSP/RouteFinding/Tracks/Interaction/StatusRecorder.cs:52-63 | clearing a type that has no entries changes nothing |
| TrackStatus.WithoutTypeIdempotent | src/QSP/RouteFinding/Tracks/Interaction/StatusRecorder.cs:52-63 | clearing a type twice is clearing it once |
| TrackStatus.ClearTypeStep | src/QSP/RouteFinding/Tracks/Interaction/StatusRecorder.cs:54-60 | one step of the backward loop: removing entry i when it has the type, and keeping it otherwise, leaves the suffix from i filtered and the prefix before i untouched |
| TrackStatus.AddThenClearType | src/QSP/RouteFinding/Tracks/Interaction/StatusRecorder.cs:34-38 | an entry added and then cleared by its type leaves the entries as clearing alone would |
| TrackStatus.StatusRecorder.constructor | src/QSP/RouteFinding/Tracks/Interaction/StatusRecorder.cs:29-32 | a new recorder has no entries and has raised no notification |
| TrackStatus.StatusRecorder.AddEntry | src/QSP/RouteFinding/Tracks/Interaction/StatusRecorder.cs:34-38 | exactly one entry with the given severity, message and type is appended, the rest is unchanged, and one notification is raised |
| TrackStatus.StatusRecorder.AddEntries | src/QSP/RouteFinding/Tracks/Interaction/StatusRecorder.cs:40-44 | the given entries are appended in order after the old ones, and one notification is raised |
| TrackStatus.StatusRecorder.Clear | src/QSP/RouteFinding/Tracks/Interaction/StatusRecorder.cs:46-50 | no entry is left, and one notification is raised |
| TrackStatus.StatusRecorder.ClearType | src/QSP/RouteFinding/Tracks/Interaction/StatusRecorder.cs:52-63 | the backward removal loop leaves exactly the entries of other types, in order; one notification is raised even when nothing was removed |

## Left out

- **Collaborators.** The internals of the services the analyzer calls are not modelled. These are `SidExtractor`, `StarExtractor`, `AutoSelectAnalyzer`, `RouteFinderFacade`, `RouteFinder`, the random route generator, `Format5Letter.To5LetterFormat` and `AirportManager.RwyLatLon`. Each is an arbitrary function in `Collaborators`.
  - The random route generator is a process-wide singleton with randomness. It appears as a function of the two anchors.
  - The SID and STAR lists the source passes to the route finders are not modelled.
  - Exceptions thrown inside any of these services are not modelled.
- **Waypoint lookup.** `WaypointList.FindByWaypoint` turns an anchor waypoint into a waypoint-list index. That lookup is not part of this model: the route finder receives the waypoint itself.
- **Coordinates.** Latitudes and longitudes are `real` values the model never computes with. Floating point and the coordinate formatter are not modelled.
- **Merging in place.** `Route.Merge`, `AddFirstWaypoint` and `AddLastWaypoint` change a route in place. `AppendRoute` and `ConnectAll` therefore alter the first route they are given. The model works on route values, so that aliasing is not captured. No route is shared between slots, so no other slot observes it.
  - Nothing is claimed about how `Route.Merge` treats a waypoint shared at the join.
- **Empty neighbour routes.** `Route.FirstWaypoint` and `Route.LastWaypoint` on an empty route are not part of this model. `AnchorsAvailable` treats an empty neighbour route like a missing one, so the model reports `MissingAnchor` where the source's behaviour is unknown.
- **Parser internals.** `StringParser.MoveToNextIndexOf`, `SkipAny(DelimiterWords)` and `MoveToNextDigit` are not part of this model.
  - The header search is modelled as a search for the first occurrence.
  - The skip and move steps are the `digitCursor` function.
- EastboundSplitter.IndexNextTrack: a cursor at or past the end of the text counts as "no digit". The source would then read past the end of the string; that exception is not modelled.
- EastboundSplitter.NextIndexOf: a search that starts past the end of the text, as the first search of a text shorter than five characters does, finds nothing. The parser's behaviour there is not part of this model.
- **Change notification.** Delivery of `StatusChanged` to subscribers is not modelled; the model only counts how often it is raised.
- **Track type and severity.** `TrackType` is not part of this model, so the recorder is generic in the track type. The numeric values of `Severity` (0, 1, 2) are not used by the recorder and are not modelled.
- **The `Records` property.** It is a read-only view of the list. The model reads the `records` field directly.
