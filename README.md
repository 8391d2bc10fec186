# linode-netint, modelled in Dafny

linode-netint is a Go client for Linode's network-internals ping samples. Each of
six data centers (Dallas, Fremont, Atlanta, Newark, London, Tokyo) serves a JSON
document with the latest round-trip time, loss and jitter from that data center to
every data center. The client:

- resolves a region name to its wire abbreviation and endpoint URL;
- fetches and decodes the document;
- normalises each destination's loosely typed measurement
  `[timestamp, "rtt", "loss", "jitter"]` into a typed `Sample`;
- assembles the six samples into an `Overview` named after the origin region;
- `AllOverviews` gathers the overviews of all six regions into a map.

The model has five modules:

- `Wrappers` (wrappers.dfy): `Option` and `Result`.
- `Strconv` (strconv.dfy): Go's `strconv.ParseUint(s, 10, 32)`. It is written as the
  library's left-to-right digit scan and proved equal to a closed-form reference
  definition.
- `Registry` (registry.dfy):
  - `Regions()`;
  - the name-to-abbreviation `switch` of `getOverview`, as `Abbreviation`;
  - `url`, as `Url`, with its inverse `AbbreviationOfUrl`.
- `Measurement` (measurement.dfy):
  - the decoded JSON values (`Value`), `Sample` and the client's errors;
  - `pullSample`, as `PullSample`.
- `Netint` (netint.dfy): the `samples` record, the `Overview` class, and three
  imperative methods:
  - `BuildOverview` allocates an `Overview` and fills its six fields one by one.
  - `GetOverview` resolves the name, fetches, decodes, builds, and sets `name`.
  - `AllOverviews` loops over `Regions()` and fills a map.

  Each method is proved against a specification function:
  - `Build`, defined as a recursive pull over the list of destinations;
  - `Attempt`;
  - `Overviews`, defined as a recursive visit over the region list.

  The all-or-nothing, first-failure and never-looks-further properties are proved
  about these functions.

How the parts outside the core are represented:

- **HTTP round trip and JSON decoder.** They are parameters:
  - `fetch: string -> Result<Body, Error>` maps a URL to the response body or an
    error;
  - `decode: Body -> Result<Samples, Error>` maps a body to the decoded record or an
    error.
- **Go runtime panics.** These are a failed type assertion on a JSON value, or an
  index past the end of an array. Each specification function returns `None`
  exactly where the Go code panics, and the methods require `Some`. For
  `pullSample` this condition is the predicate `WellFormed`. It asks for each
  element only if the code reaches it:
  - element 1 always;
  - element 2 once the RTT parsed;
  - element 3 once the loss parsed;
  - the timestamp once all three parsed.

  The `...SafeIff` lemmas state each of these conditions as a direct quantified
  definition.

## Model

| member | source | states |
|---|---|---|
| Strconv.ParseUint32 | linode-netint.go:258 | ParseUint(s, 10, 32) accepts only non-empty strings of decimal digits, and its error always names the refused text |
| Strconv.ParseUint32Contract | linode-netint.go:258 | ParseUint(s, 10, 32) succeeds exactly when s is a non-empty string of decimal digits whose value is at most 2^32-1; the result is that value; an error always names s |
| Strconv.ParseUint32MatchesSpec | linode-netint.go:258 | the byte-by-byte scan equals the closed-form reference definition (digit prefix, overflow check, trailing character check) on every string |
| Strconv.ScanMatchesSpec | linode-netint.go:258 | the scan from position k, given the value of the digits before k, gives the reference outcome: the running value stays the decimal value of the prefix read so far |
| Strconv.ParseUint32ErrorKind | linode-netint.go:258 | on a refused string, the error is a range error exactly when the leading run of digits already exceeds 2^32-1, and a syntax error exactly when the string is empty or that run fits |
| Strconv.ParseUint32Twelve | linode-netint.go:258 | "12" parses to 12 |
| Strconv.ParseUint32Zero | linode-netint.go:265 | "0" parses to 0 |
| Strconv.ParseUint32Three | linode-netint.go:272 | "3" parses to 3 |
| Strconv.ParseUint32RefusesLetters | linode-netint.go:258 | "abc" is refused with a syntax error naming "abc" |
| Strconv.ParseUint32RefusesOverflow | linode-netint.go:258 | "4294967296" (2^32) is refused with a range error and does not wrap around |
| Registry.Regions | linode-netint.go:71-73 | Regions() has six entries, no two alike |
| Registry.Abbreviation | linode-netint.go:131-146 | the switch yields an abbreviation exactly for the names in Regions(), and every abbreviation is three letters long |
| Registry.AbbreviationTable | linode-netint.go:131-143 | the k-th region name maps to the k-th abbreviation constant (dal, fmt, atl, nwk, lon, tok) |
| Registry.AbbreviationInjective | linode-netint.go:29-35 | two names with the same abbreviation are the same name |
| Registry.Url | linode-netint.go:173-175 | the abbreviation can be read back out of the URL built from it |
| Registry.UrlInjective | linode-netint.go:173-175 | different abbreviations give different URLs |
| Registry.RegionUrlsDistinct | linode-netint.go:27 | distinct known regions have distinct endpoint URLs |
| Registry.DallasUrl | linode-netint.go:131-132 | "dallas" resolves to http://netint-dal.linode.com/ping/samples |
| Measurement.WellFormed | linode-netint.go:258-281 | pullSample always reads i[0][1] as a string, so every input it accepts has one; a first row of four elements, a number then three strings, never panics |
| Measurement.PullSample | linode-netint.go:251-288 | every error pullSample returns is a parse error from ParseUint |
| Measurement.PullSampleContract | linode-netint.go:251-288 | pullSample succeeds exactly when the RTT, loss and jitter texts all parse as 32-bit decimals; the sample then carries the timestamp and the three parsed values |
| Measurement.PullSampleFirstFailure | linode-netint.go:258-276 | fields are checked in the order RTT, loss, jitter; the first that fails decides the error, which names that field's text |
| Measurement.PullSampleStopsAtRtt | linode-netint.go:258-262 | once the RTT text fails, no other field or row affects the result |
| Measurement.PullSampleFirstRowOnly | linode-netint.go:258 | only the first row i[0] is read; appending rows changes nothing |
| Measurement.PullSampleTypical | linode-netint.go:251-288 | [[1670000000, "12", "0", "3"]] becomes Sample(1670000000, 12, 0, 3) |
| Netint.Overview.constructor | linode-netint.go:210 | &Overview{}: an empty name and six nil samples |
| Netint.PullFrom | linode-netint.go:209-249 | a pull from position k that succeeds yields one sample per remaining destination; every error it returns is a parse error |
| Netint.PullFromSafeIff | linode-netint.go:209-249 | the pull panics exactly when a destination it reaches, one that follows a run of successes, is not well formed |
| Netint.PullFromAllOrNothing | linode-netint.go:209-249 | the pull succeeds exactly when every remaining destination yields a sample, and it returns those samples in order |
| Netint.PullFromFirstFailure | linode-netint.go:209-249 | a failed pull carries the error of the first destination whose sample fails, and every destination before it succeeded |
| Netint.PullFromPrefix | linode-netint.go:209-249 | after a run of successes, any outcome other than success from there on is the outcome of the whole pull |
| Netint.Build | linode-netint.go:209-249 | buildOverview leaves the name empty, and every error it returns is a parse error from a destination's sample |
| Netint.BuildIsSteps | linode-netint.go:209-249 | the pull over the list of destinations agrees with buildOverview's six written-out steps on every record |
| Netint.BuildOverview | linode-netint.go:209-249 | the method returns a fresh Overview holding exactly Build's six samples when Build succeeds, and Build's error otherwise |
| Netint.BuildSafeIff | linode-netint.go:209-249 | buildOverview panics exactly when a destination it reaches, in the order Dallas ... Tokyo, is not well formed |
| Netint.BuildAllOrNothing | linode-netint.go:209-249 | buildOverview succeeds exactly when all six destinations yield samples; it then holds those samples in destination order under an empty name |
| Netint.BuildFirstFailure | linode-netint.go:209-249 | a failed build carries the error of the first failing destination in the order Dallas, Fremont, Atlanta, Newark, London, Tokyo |
| Netint.BuildTypical | linode-netint.go:209-249 | six copies of [[1670000000, "12", "0", "3"]] build an overview with Sample(1670000000, 12, 0, 3) everywhere |
| Netint.BuildRefusesLetters | linode-netint.go:209-249 | an RTT text "abc" at a reached destination fails the build with the syntax error for "abc" |
| Netint.GetOverview | linode-netint.go:126-171 | the method returns a fresh Overview holding Attempt's overview, named after the region, when Attempt succeeds, and Attempt's error otherwise |
| Netint.Attempt | linode-netint.go:126-171 | an overview getOverview returns is named after the region and the region is one of Regions(); getOverview can panic only for a known region |
| Netint.AttemptSafeIff | linode-netint.go:126-171 | getOverview panics exactly when the name is known, fetch and decode succeed, and buildOverview panics on the decoded record |
| Netint.OverviewOutcomes | linode-netint.go:126-171 | unknown name gives the invalid-datacenter error for that name; fetch, decode and build errors come back unchanged; a success is named after the region and holds exactly what buildOverview built from the decoded body |
| Netint.UnknownRegionFetchesNothing | linode-netint.go:144-145 | for an unknown name the result does not depend on fetch or decode, so no fetch happens |
| Netint.Dallas | linode-netint.go:97-99 | Dallas() is getOverview("dallas") |
| Netint.Fremont | linode-netint.go:102-104 | Fremont() is getOverview("fremont") |
| Netint.Atlanta | linode-netint.go:107-109 | Atlanta() is getOverview("atlanta") |
| Netint.Newark | linode-netint.go:112-114 | Newark() is getOverview("newark") |
| Netint.London | linode-netint.go:117-119 | London() is getOverview("london") |
| Netint.Tokyo | linode-netint.go:122-124 | Tokyo() is getOverview("tokyo") |
| Netint.Visit | linode-netint.go:78-94 | when the loop from position i succeeds, its map's keys are exactly the earlier keys and the remaining names |
| Netint.VisitSafeIff | linode-netint.go:78-94 | the loop panics exactly when a name it reaches, one that follows a run of successes, makes getOverview panic |
| Netint.VisitAllOrNothing | linode-netint.go:78-94 | the loop succeeds exactly when every remaining name does; its map then binds each visited name to that name's overview and keeps the earlier entries |
| Netint.VisitFirstFailure | linode-netint.go:78-94 | a failed loop carries the error of the first failing name, and every name before it succeeded |
| Netint.VisitStopsAtFirstFailure | linode-netint.go:83-89 | names after the first failure are never consulted: changing their outcomes changes nothing |
| Netint.Overviews | linode-netint.go:78-94 | when AllOverviews succeeds, its map's keys are exactly the names in Regions() |
| Netint.OverviewsSafeIff | linode-netint.go:78-94 | AllOverviews panics exactly when getOverview panics on a region it reaches |
| Netint.OverviewsAllOrNothing | linode-netint.go:78-94 | AllOverviews succeeds exactly when every region's overview does; the map's keys are then exactly the six region names, each bound to its own overview |
| Netint.OverviewsFirstFailure | linode-netint.go:78-94 | a failed AllOverviews returns only the error of the first failing region in Regions() order |
| Netint.OverviewsStopAtFirstFailure | linode-netint.go:83-89 | regions after the first failing one are never attempted: a network that answers differently for them gives the same outcome |
| Netint.AllOverviews | linode-netint.go:78-94 | the method returns a map whose keys match Overviews and whose Overview objects are freshly allocated and hold Overviews' overviews exactly when Overviews succeeds, and Overviews' error otherwise |

## Left out

- responseBody (linode-netint.go:177-207) is not modelled:
  - it is HTTP I/O: the GET request, the User-Agent header built from VERSION and the Go runtime version, and reading and closing the body;
  - the `fetch` parameter stands in for it;
  - the model does not constrain fetch, and a fetch error comes back unchanged.
- json.Unmarshal (linode-netint.go:156) is a foreign library call:
  - the `decode` parameter stands in for it;
  - its successful output is the `Samples` record of tagged `Value`s.
- The float64-to-int64 conversion of the timestamp (linode-netint.go:281) is not modelled, because it is floating point. A JSON number is held as the integer the conversion yields, and the model states only that `epoch` equals it.
- Go runtime panics (linode-netint.go:258, 265, 272, 281):
  - they are modelled as `None` in the specification functions and as preconditions on the methods and on PullSample;
  - they are not turned into errors, because the code does not do that either.
- Error messages are not modelled as strings:
  - the invalid-datacenter error is modelled by the name it carries;
  - a `*strconv.NumError` is modelled by its `Num` text and its `Err` kind. The `Func` field is always "ParseUint", and it is left out.
- Go's ParseUint returns the maximum value together with a range error. pullSample discards it, so the model returns only the error.
- Pointer identity of the `*Sample` values is not modelled. A non-nil `*Sample` is `Some(sample)` in the `Overview` class fields. Nothing in the code shares or mutates a Sample after it is built.
- A measurement error is strconv's `*NumError` returned unchanged. It names the offending text, not the field or the destination.
- The timestamp is read only after RTT, loss and jitter have all parsed (linode-netint.go:281).
