/** The client: fetch one region's samples, assemble them into an Overview, and
    gather every region's Overview into a map. The HTTP round trip and the JSON
    decoder are parameters: fetch maps a URL to the response body or an error, and
    decode maps a body to the decoded samples record or an error. */
module Netint {
  import opened Wrappers
  import opened Strconv
  import opened Measurement
  import opened Registry

  newtype byte = x: int | 0 <= x < 256

  type Body = seq<byte>

  /** The samples record json.Unmarshal fills: for each destination (keys
      "linode-dallas" ... "linode-tokyo"), the array of raw measurement arrays. */
  datatype Samples = Samples(
    dallas: seq<seq<Value>>,
    fremont: seq<seq<Value>>,
    atlanta: seq<seq<Value>>,
    newark: seq<seq<Value>>,
    london: seq<seq<Value>>,
    tokyo: seq<seq<Value>>)

  /** The six destination entries in the order buildOverview reads them. */
  function Destinations(s: Samples): (d: seq<seq<seq<Value>>>)
    ensures |d| == 6
  {
    [s.dallas, s.fremont, s.atlanta, s.newark, s.london, s.tokyo]
  }

  /** The value of a complete Overview: the origin's name and one sample per destination. */
  datatype OverviewData = OverviewData(
    name: string,
    dallas: Sample,
    fremont: Sample,
    atlanta: Sample,
    newark: Sample,
    london: Sample,
    tokyo: Sample)
  {
    function Destinations(): (d: seq<Sample>)
      ensures |d| == 6
    {
      [dallas, fremont, atlanta, newark, london, tokyo]
    }
  }

  /** Overview: the view one region has of every region. A nil *Sample is None. */
  class Overview {
    var name: string
    var dallas: Option<Sample>
    var fremont: Option<Sample>
    var atlanta: Option<Sample>
    var newark: Option<Sample>
    var london: Option<Sample>
    var tokyo: Option<Sample>

    /** &Overview{}: an empty name and six nil samples. */
    constructor ()
      ensures name == ""
      ensures dallas == None && fremont == None && atlanta == None
      ensures newark == None && london == None && tokyo == None
    {
      name := "";
      dallas, fremont, atlanta := None, None, None;
      newark, london, tokyo := None, None, None;
    }

    /** This object holds exactly the overview d, with every sample set. */
    predicate Holds(d: OverviewData)
      reads this
    {
      name == d.name &&
      dallas == Some(d.dallas) && fremont == Some(d.fremont) && atlanta == Some(d.atlanta) &&
      newark == Some(d.newark) && london == Some(d.london) && tokyo == Some(d.tokyo)
    }
  }

  /** A destination entry that pullSample accepts without panicking and that yields
      a sample. */
  predicate Pulled(e: seq<seq<Value>>) {
    WellFormed(e) && PullSample(e).Ok?
  }

  /** Pull the samples of d[k..] in order, stopping at the first that fails. None
      where the Go code panics: an entry it reaches is not well formed. */
  function PullFrom(d: seq<seq<seq<Value>>>, k: nat): (r: Option<Result<seq<Sample>, Error>>)
    requires k <= |d|
    ensures r.Some? && r.value.Ok? ==> |r.value.value| == |d| - k
    ensures r.Some? && r.value.Err? ==> r.value.error.ParseError?
    decreases |d| - k
  {
    if k == |d| then Some(Ok([]))
    else if !WellFormed(d[k]) then None
    else
      match PullSample(d[k])
      case Err(e) => Some(Err(e))
      case Ok(x) =>
        match PullFrom(d, k + 1)
        case Some(Ok(xs)) => Some(Ok([x] + xs))
        case other => other
  }

  /** What buildOverview returns: the six samples, under an empty name, or the error
      of the first destination whose sample fails; None where it panics. */
  function Build(s: Samples): (r: Option<Result<OverviewData, Error>>)
    ensures r.Some? && r.value.Ok? ==> r.value.value.name == ""
    ensures r.Some? && r.value.Err? ==> r.value.error.ParseError?
  {
    match PullFrom(Destinations(s), 0)
    case None => None
    case Some(Err(e)) => Some(Err(e))
    case Some(Ok(xs)) =>
      if |xs| == 6 then Some(Ok(OverviewData("", xs[0], xs[1], xs[2], xs[3], xs[4], xs[5])))
      else assert false; None
  }

  /** Reference definition of the inputs on which pulling from k on does not panic:
      every entry it reaches, that is every entry after a run of successes, is well
      formed. */
  predicate ReachesWellFormed(d: seq<seq<seq<Value>>>, k: nat) {
    forall j :: k <= j < |d| && (forall i :: k <= i < j ==> Pulled(d[i])) ==> WellFormed(d[j])
  }

  /** Pulling from k on panics exactly when an entry it reaches is not well formed. */
  lemma {:induction false} PullFromSafeIff(d: seq<seq<seq<Value>>>, k: nat)
    requires k <= |d|
    ensures PullFrom(d, k).Some? <==> ReachesWellFormed(d, k)
    decreases |d| - k
  {
    if k < |d| && WellFormed(d[k]) && PullSample(d[k]).Ok? {
      PullFromSafeIff(d, k + 1);
      if ReachesWellFormed(d, k + 1) {
        forall j | k <= j < |d| && (forall i :: k <= i < j ==> Pulled(d[i]))
          ensures WellFormed(d[j])
        {
          if j > k {
            assert forall i :: k + 1 <= i < j ==> Pulled(d[i]);
          }
        }
      }
    }
  }

  /** Pulling from k on succeeds exactly when every entry from k on yields a sample,
      and then returns those samples in order. */
  lemma {:induction false} PullFromAllOrNothing(d: seq<seq<seq<Value>>>, k: nat)
    requires k <= |d|
    ensures PullFrom(d, k).Some? && PullFrom(d, k).value.Ok? <==> forall j :: k <= j < |d| ==> Pulled(d[j])
    ensures PullFrom(d, k).Some? && PullFrom(d, k).value.Ok? ==>
      |PullFrom(d, k).value.value| == |d| - k &&
      forall j :: k <= j < |d| ==> PullSample(d[j]) == Ok(PullFrom(d, k).value.value[j - k])
    decreases |d| - k
  {
    if k < |d| && WellFormed(d[k]) && PullSample(d[k]).Ok? {
      PullFromAllOrNothing(d, k + 1);
    }
  }

  /** When pulling from k on fails, its error is that of the first entry from k on
      whose sample fails, and every entry before that one yielded a sample. */
  lemma {:induction false} PullFromFirstFailure(d: seq<seq<seq<Value>>>, k: nat)
    requires k <= |d| && PullFrom(d, k).Some? && PullFrom(d, k).value.Err?
    ensures exists f :: k <= f < |d| &&
              (forall j :: k <= j < f ==> Pulled(d[j])) &&
              WellFormed(d[f]) && PullSample(d[f]) == Err(PullFrom(d, k).value.error)
    decreases |d| - k
  {
    if PullSample(d[k]).Ok? {
      PullFromFirstFailure(d, k + 1);
    } else {
      assert WellFormed(d[k]) && PullSample(d[k]) == Err(PullFrom(d, k).value.error);
    }
  }

  /** After a run of successes up to position k, a pull from k on that does not
      succeed is the outcome of the whole pull. */
  lemma {:induction false} PullFromPrefix(d: seq<seq<seq<Value>>>, k: nat)
    requires k <= |d|
    requires forall j :: 0 <= j < k ==> Pulled(d[j])
    ensures (PullFrom(d, k).Some? && PullFrom(d, k).value.Ok?) || PullFrom(d, 0) == PullFrom(d, k)
  {
    if k > 0 {
      PullFromPrefix(d, k - 1);
    }
  }

  /** The pull over the six destinations of s, written out step by step in the
      order buildOverview takes them. It is not a third definition of
      buildOverview: it exists only to connect the method BuildOverview, whose body
      has this shape, to Build (see BuildIsSteps). */
  function BuildSteps(s: Samples): Option<Result<OverviewData, Error>> {
    if !WellFormed(s.dallas) then None else
    match PullSample(s.dallas)
    case Err(e) => Some(Err(e))
    case Ok(dallas) =>
      if !WellFormed(s.fremont) then None else
      match PullSample(s.fremont)
      case Err(e) => Some(Err(e))
      case Ok(fremont) =>
        if !WellFormed(s.atlanta) then None else
        match PullSample(s.atlanta)
        case Err(e) => Some(Err(e))
        case Ok(atlanta) =>
          if !WellFormed(s.newark) then None else
          match PullSample(s.newark)
          case Err(e) => Some(Err(e))
          case Ok(newark) =>
            if !WellFormed(s.london) then None else
            match PullSample(s.london)
            case Err(e) => Some(Err(e))
            case Ok(london) =>
              if !WellFormed(s.tokyo) then None else
              match PullSample(s.tokyo)
              case Err(e) => Some(Err(e))
              case Ok(tokyo) => Some(Ok(OverviewData("", dallas, fremont, atlanta, newark, london, tokyo)))
  }

  /** The pull over the list of destinations is buildOverview's six steps: the
      recursive definition and the written-out one agree on every record. */
  lemma BuildIsSteps(s: Samples)
    ensures Build(s) == BuildSteps(s)
  {
    var d := Destinations(s);
    var f := 0;
    while f < 6 && Pulled(d[f])
      invariant f <= 6 && forall j :: 0 <= j < f ==> Pulled(d[j])
    {
      f := f + 1;
    }
    PullFromPrefix(d, f);
    if f == 6 {
      PullFromAllOrNothing(d, 0);
      assert s.dallas == d[0] && s.fremont == d[1] && s.atlanta == d[2];
      assert s.newark == d[3] && s.london == d[4] && s.tokyo == d[5];
    } else {
      assert PullFrom(d, 0) == if WellFormed(d[f]) then Some(Err(PullSample(d[f]).error)) else None;
      assert f > 0 ==> Pulled(d[0]);
      assert f > 1 ==> Pulled(d[1]);
      assert f > 2 ==> Pulled(d[2]);
      assert f > 3 ==> Pulled(d[3]);
      assert f > 4 ==> Pulled(d[4]);
    }
  }

  /** buildOverview: allocate an Overview and fill in the destinations one by one,
      returning no Overview as soon as one of them fails. */
  method BuildOverview(s: Samples) returns (res: Result<Overview, Error>)
    requires Build(s).Some?
    ensures res.Ok? <==> Build(s).value.Ok?
    ensures res.Ok? ==> fresh(res.value) && res.value.Holds(Build(s).value.value)
    ensures res.Err? ==> res.error == Build(s).value.error
  {
    BuildIsSteps(s);
    var o := new Overview();
    var r := PullSample(s.dallas);
    if r.Err? { return Err(r.error); }
    o.dallas := Some(r.value);
    r := PullSample(s.fremont);
    if r.Err? { return Err(r.error); }
    o.fremont := Some(r.value);
    r := PullSample(s.atlanta);
    if r.Err? { return Err(r.error); }
    o.atlanta := Some(r.value);
    r := PullSample(s.newark);
    if r.Err? { return Err(r.error); }
    o.newark := Some(r.value);
    r := PullSample(s.london);
    if r.Err? { return Err(r.error); }
    o.london := Some(r.value);
    r := PullSample(s.tokyo);
    if r.Err? { return Err(r.error); }
    o.tokyo := Some(r.value);
    return Ok(o);
  }

  /** buildOverview panics exactly when a destination it reaches, one after a run of
      successes in the order Dallas ... Tokyo, is not well formed. */
  lemma BuildSafeIff(s: Samples)
    ensures Build(s).Some? <==> ReachesWellFormed(Destinations(s), 0)
  {
    PullFromSafeIff(Destinations(s), 0);
  }

  /** buildOverview is all or nothing: it succeeds exactly when every destination
      yields a sample, and the overview then holds those samples, in destination
      order, under an empty name. */
  lemma BuildAllOrNothing(s: Samples)
    ensures Build(s).Some? && Build(s).value.Ok? <==> forall k :: 0 <= k < 6 ==> Pulled(Destinations(s)[k])
    ensures Build(s).Some? && Build(s).value.Ok? ==>
      Build(s).value.value.name == "" &&
      forall k :: 0 <= k < 6 ==> PullSample(Destinations(s)[k]) == Ok(Build(s).value.value.Destinations()[k])
  {
    PullFromAllOrNothing(Destinations(s), 0);
  }

  /** When buildOverview fails, its error is that of the first destination, in the
      order Dallas, Fremont, Atlanta, Newark, London, Tokyo, whose sample fails. */
  lemma BuildFirstFailure(s: Samples)
    requires Build(s).Some? && Build(s).value.Err?
    ensures exists k :: 0 <= k < 6 &&
              (forall j :: 0 <= j < k ==> Pulled(Destinations(s)[j])) &&
              WellFormed(Destinations(s)[k]) &&
              PullSample(Destinations(s)[k]) == Err(Build(s).value.error)
  {
    PullFromFirstFailure(Destinations(s), 0);
  }

  /** A record whose six destinations all hold the raw measurement
      [[1670000000, "12", "0", "3"]] builds an overview with that sample everywhere. */
  lemma BuildTypical(s: Samples)
    requires forall k :: 0 <= k < 6 ==> Destinations(s)[k] == [[Num(1670000000), Str("12"), Str("0"), Str("3")]]
    ensures Build(s) == Some(Ok(OverviewData("",
      Sample(1670000000, 12, 0, 3), Sample(1670000000, 12, 0, 3), Sample(1670000000, 12, 0, 3),
      Sample(1670000000, 12, 0, 3), Sample(1670000000, 12, 0, 3), Sample(1670000000, 12, 0, 3))))
  {
    var d := Destinations(s);
    assert s.dallas == d[0] && s.fremont == d[1] && s.atlanta == d[2];
    assert s.newark == d[3] && s.london == d[4] && s.tokyo == d[5];
    PullSampleTypical();
    BuildIsSteps(s);
  }

  /** A destination whose RTT text is "abc" makes buildOverview fail with the syntax
      error for that text, provided every destination before it yields a sample. */
  lemma BuildRefusesLetters(s: Samples, k: nat)
    requires k < 6 && forall j :: 0 <= j < k ==> Pulled(Destinations(s)[j])
    requires |Destinations(s)[k]| > 0 && |Destinations(s)[k][0]| >= 2 && Destinations(s)[k][0][1] == Str("abc")
    ensures Build(s) == Some(Err(ParseError(NumError("abc", ErrSyntax))))
  {
    var d := Destinations(s);
    ParseUint32RefusesLetters();
    PullFromPrefix(d, k);
  }

  /** What getOverview returns; None where it panics. */
  function Attempt(r: string, fetch: string -> Result<Body, Error>, decode: Body -> Result<Samples, Error>)
    : (res: Option<Result<OverviewData, Error>>)
    ensures res.Some? && res.value.Ok? ==> r in Regions() && res.value.value.name == r
    ensures res.None? ==> r in Regions()
  {
    match Abbreviation(r)
    case None => Some(Err(InvalidDatacenter(r)))
    case Some(a) =>
      match fetch(Url(a))
      case Err(e) => Some(Err(e))
      case Ok(body) =>
        match decode(body)
        case Err(e) => Some(Err(e))
        case Ok(s) =>
          match Build(s)
          case Some(Ok(o)) => Some(Ok(o.(name := r)))
          case other => other
  }

  /** getOverview: resolve the name to its endpoint, fetch and decode the body, build
      the overview and name it after the region. */
  method GetOverview(r: string, fetch: string -> Result<Body, Error>, decode: Body -> Result<Samples, Error>)
    returns (res: Result<Overview, Error>)
    requires Attempt(r, fetch, decode).Some?
    ensures res.Ok? <==> Attempt(r, fetch, decode).value.Ok?
    ensures res.Ok? ==> fresh(res.value) && res.value.Holds(Attempt(r, fetch, decode).value.value)
    ensures res.Err? ==> res.error == Attempt(r, fetch, decode).value.error
  {
    var u: string;
    match Abbreviation(r)
    case None =>
      return Err(InvalidDatacenter(r));
    case Some(a) =>
      u := Url(a);
    var body := fetch(u);
    if body.Err? { return Err(body.error); }
    var s := decode(body.value);
    if s.Err? { return Err(s.error); }
    var o := BuildOverview(s.value);
    if o.Err? { return Err(o.error); }
    o.value.name := r;
    return o;
  }

  /** getOverview panics exactly when the name is known, the fetch succeeds, the body
      decodes, and buildOverview panics on the decoded record. */
  lemma AttemptSafeIff(r: string, fetch: string -> Result<Body, Error>, decode: Body -> Result<Samples, Error>)
    ensures Attempt(r, fetch, decode).None? <==>
      r in Regions() &&
      var u := Url(Abbreviation(r).value);
      fetch(u).Ok? && decode(fetch(u).value).Ok? && Build(decode(fetch(u).value).value).None?
  {
  }

  /** The outcomes of getOverview: an unknown name fails with its own name whatever the
      network holds; otherwise a fetch or decode error comes back unchanged, as does
      the first failing destination's error; a success is named after the region and
      carries exactly the samples that buildOverview built from the decoded body. */
  lemma OverviewOutcomes(r: string, fetch: string -> Result<Body, Error>, decode: Body -> Result<Samples, Error>)
    ensures r !in Regions() ==> Attempt(r, fetch, decode) == Some(Err(InvalidDatacenter(r)))
    ensures r in Regions() ==>
      var u := Url(Abbreviation(r).value);
      (fetch(u).Err? ==> Attempt(r, fetch, decode) == Some(Err(fetch(u).error))) &&
      (fetch(u).Ok? && decode(fetch(u).value).Err? ==>
         Attempt(r, fetch, decode) == Some(Err(decode(fetch(u).value).error))) &&
      (fetch(u).Ok? && decode(fetch(u).value).Ok? && Build(decode(fetch(u).value).value).Some? &&
       Build(decode(fetch(u).value).value).value.Err? ==>
         Attempt(r, fetch, decode) == Build(decode(fetch(u).value).value))
    ensures Attempt(r, fetch, decode).Some? && Attempt(r, fetch, decode).value.Ok? ==>
      var o := Attempt(r, fetch, decode).value.value;
      var u := Url(Abbreviation(r).value);
      r in Regions() && o.name == r &&
      fetch(u).Ok? && decode(fetch(u).value).Ok? &&
      Build(decode(fetch(u).value).value) == Some(Ok(o.(name := "")))
  {
  }

  /** An unknown name never reaches the network: the result is the same whatever fetch
      and decode would do. */
  lemma UnknownRegionFetchesNothing(r: string,
                                    fetch1: string -> Result<Body, Error>, decode1: Body -> Result<Samples, Error>,
                                    fetch2: string -> Result<Body, Error>, decode2: Body -> Result<Samples, Error>)
    requires r !in Regions()
    ensures Attempt(r, fetch1, decode1) == Attempt(r, fetch2, decode2)
  {
  }

  /** Dallas() ... Tokyo(): getOverview of one fixed region name. */
  method Dallas(fetch: string -> Result<Body, Error>, decode: Body -> Result<Samples, Error>)
    returns (res: Result<Overview, Error>)
    requires Attempt("dallas", fetch, decode).Some?
    ensures res.Ok? <==> Attempt("dallas", fetch, decode).value.Ok?
    ensures res.Ok? ==> fresh(res.value) && res.value.Holds(Attempt("dallas", fetch, decode).value.value)
    ensures res.Err? ==> res.error == Attempt("dallas", fetch, decode).value.error
  {
    res := GetOverview("dallas", fetch, decode);
  }

  method Fremont(fetch: string -> Result<Body, Error>, decode: Body -> Result<Samples, Error>)
    returns (res: Result<Overview, Error>)
    requires Attempt("fremont", fetch, decode).Some?
    ensures res.Ok? <==> Attempt("fremont", fetch, decode).value.Ok?
    ensures res.Ok? ==> fresh(res.value) && res.value.Holds(Attempt("fremont", fetch, decode).value.value)
    ensures res.Err? ==> res.error == Attempt("fremont", fetch, decode).value.error
  {
    res := GetOverview("fremont", fetch, decode);
  }

  method Atlanta(fetch: string -> Result<Body, Error>, decode: Body -> Result<Samples, Error>)
    returns (res: Result<Overview, Error>)
    requires Attempt("atlanta", fetch, decode).Some?
    ensures res.Ok? <==> Attempt("atlanta", fetch, decode).value.Ok?
    ensures res.Ok? ==> fresh(res.value) && res.value.Holds(Attempt("atlanta", fetch, decode).value.value)
    ensures res.Err? ==> res.error == Attempt("atlanta", fetch, decode).value.error
  {
    res := GetOverview("atlanta", fetch, decode);
  }

  method Newark(fetch: string -> Result<Body, Error>, decode: Body -> Result<Samples, Error>)
    returns (res: Result<Overview, Error>)
    requires Attempt("newark", fetch, decode).Some?
    ensures res.Ok? <==> Attempt("newark", fetch, decode).value.Ok?
    ensures res.Ok? ==> fresh(res.value) && res.value.Holds(Attempt("newark", fetch, decode).value.value)
    ensures res.Err? ==> res.error == Attempt("newark", fetch, decode).value.error
  {
    res := GetOverview("newark", fetch, decode);
  }

  method London(fetch: string -> Result<Body, Error>, decode: Body -> Result<Samples, Error>)
    returns (res: Result<Overview, Error>)
    requires Attempt("london", fetch, decode).Some?
    ensures res.Ok? <==> Attempt("london", fetch, decode).value.Ok?
    ensures res.Ok? ==> fresh(res.value) && res.value.Holds(Attempt("london", fetch, decode).value.value)
    ensures res.Err? ==> res.error == Attempt("london", fetch, decode).value.error
  {
    res := GetOverview("london", fetch, decode);
  }

  method Tokyo(fetch: string -> Result<Body, Error>, decode: Body -> Result<Samples, Error>)
    returns (res: Result<Overview, Error>)
    requires Attempt("tokyo", fetch, decode).Some?
    ensures res.Ok? <==> Attempt("tokyo", fetch, decode).value.Ok?
    ensures res.Ok? ==> fresh(res.value) && res.value.Holds(Attempt("tokyo", fetch, decode).value.value)
    ensures res.Err? ==> res.error == Attempt("tokyo", fetch, decode).value.error
  {
    res := GetOverview("tokyo", fetch, decode);
  }

  /** What getOverview does for each name. */
  function Attempts(fetch: string -> Result<Body, Error>, decode: Body -> Result<Samples, Error>)
    : string -> Option<Result<OverviewData, Error>>
  {
    r => Attempt(r, fetch, decode)
  }

  /** get returns an overview for n. */
  predicate Succeeds(get: string -> Option<Result<OverviewData, Error>>, n: string) {
    get(n).Some? && get(n).value.Ok?
  }

  /** The loop of AllOverviews from position i of names on, with acc the map built so
      far: store each overview under its name, and stop at the first error. None where
      get panics. */
  function Visit(names: seq<string>, i: nat, acc: map<string, OverviewData>,
                 get: string -> Option<Result<OverviewData, Error>>)
    : (r: Option<Result<map<string, OverviewData>, Error>>)
    requires i <= |names|
    ensures r.Some? && r.value.Ok? ==> forall n :: n in r.value.value <==> n in acc || n in names[i..]
    decreases |names| - i
  {
    if i == |names| then Some(Ok(acc))
    else
      match get(names[i])
      case None => None
      case Some(Err(e)) => Some(Err(e))
      case Some(Ok(o)) =>
        assert names[i..] == [names[i]] + names[i + 1..];
        Visit(names, i + 1, acc[names[i] := o], get)
  }

  /** Reference definition of the inputs on which the loop from i does not panic:
      every name it reaches, one after a run of successes, is one get returns on. */
  predicate ReachesSafely(names: seq<string>, i: nat, get: string -> Option<Result<OverviewData, Error>>) {
    forall k :: i <= k < |names| && (forall j :: i <= j < k ==> Succeeds(get, names[j])) ==>
      get(names[k]).Some?
  }

  /** The loop from i panics exactly when a name it reaches makes get panic. */
  lemma {:induction false} VisitSafeIff(names: seq<string>, i: nat, acc: map<string, OverviewData>,
                                        get: string -> Option<Result<OverviewData, Error>>)
    requires i <= |names|
    ensures Visit(names, i, acc, get).Some? <==> ReachesSafely(names, i, get)
    decreases |names| - i
  {
    if i < |names| && Succeeds(get, names[i]) {
      VisitSafeIff(names, i + 1, acc[names[i] := get(names[i]).value.value], get);
      if ReachesSafely(names, i + 1, get) {
        forall k | i <= k < |names| && (forall j :: i <= j < k ==> Succeeds(get, names[j]))
          ensures get(names[k]).Some?
        {
          if k > i {
            assert forall j :: i + 1 <= j < k ==> Succeeds(get, names[j]);
          }
        }
      }
    }
  }

  /** The loop from position i succeeds exactly when every remaining name does; its map
      then binds each remaining name to that name's overview and keeps the rest of acc. */
  lemma {:induction false} VisitAllOrNothing(names: seq<string>, i: nat, acc: map<string, OverviewData>,
                                             get: string -> Option<Result<OverviewData, Error>>)
    requires i <= |names|
    ensures Visit(names, i, acc, get).Some? && Visit(names, i, acc, get).value.Ok? <==>
      forall k :: i <= k < |names| ==> Succeeds(get, names[k])
    ensures Visit(names, i, acc, get).Some? && Visit(names, i, acc, get).value.Ok? ==>
      var m := Visit(names, i, acc, get).value.value;
      (forall n :: n in m <==> n in acc || n in names[i..]) &&
      (forall n :: n in m ==> if n in names[i..] then get(n) == Some(Ok(m[n])) else m[n] == acc[n])
    decreases |names| - i
  {
    if i < |names| && Succeeds(get, names[i]) {
      VisitAllOrNothing(names, i + 1, acc[names[i] := get(names[i]).value.value], get);
      assert names[i..] == [names[i]] + names[i + 1..];
    }
  }

  /** When the loop from position i fails, its error is that of the first remaining
      name whose overview fails; every name before that one succeeded. */
  lemma {:induction false} VisitFirstFailure(names: seq<string>, i: nat, acc: map<string, OverviewData>,
                                             get: string -> Option<Result<OverviewData, Error>>)
    requires i <= |names| && Visit(names, i, acc, get).Some? && Visit(names, i, acc, get).value.Err?
    ensures exists k :: i <= k < |names| &&
              (forall j :: i <= j < k ==> Succeeds(get, names[j])) &&
              get(names[k]) == Some(Err(Visit(names, i, acc, get).value.error))
    decreases |names| - i
  {
    if Succeeds(get, names[i]) {
      VisitFirstFailure(names, i + 1, acc[names[i] := get(names[i]).value.value], get);
    } else {
      assert get(names[i]) == Some(Err(Visit(names, i, acc, get).value.error));
    }
  }

  /** The loop never looks past its first failure: if the name at position k fails,
      any get that answers alike for names[..k + 1] gives the same outcome, whatever
      it would answer for the names after k. */
  lemma {:induction false} VisitStopsAtFirstFailure(names: seq<string>, i: nat, acc: map<string, OverviewData>, k: nat,
                                                    get1: string -> Option<Result<OverviewData, Error>>,
                                                    get2: string -> Option<Result<OverviewData, Error>>)
    requires i <= k < |names|
    requires forall j :: i <= j < k ==> Succeeds(get1, names[j])
    requires get1(names[k]).Some? && get1(names[k]).value.Err?
    requires forall j :: i <= j <= k ==> get2(names[j]) == get1(names[j])
    ensures Visit(names, i, acc, get2) == Visit(names, i, acc, get1)
    decreases k - i
  {
    if i < k {
      VisitStopsAtFirstFailure(names, i + 1, acc[names[i] := get1(names[i]).value.value], k, get1, get2);
    }
  }

  /** What AllOverviews returns: the map from each region to its overview, or the
      error of the first region, in Regions() order, that fails; None where it
      panics. */
  function Overviews(fetch: string -> Result<Body, Error>, decode: Body -> Result<Samples, Error>)
    : (r: Option<Result<map<string, OverviewData>, Error>>)
    ensures r.Some? && r.value.Ok? ==> forall n :: n in r.value.value <==> n in Regions()
  {
    assert Regions()[0..] == Regions();
    Visit(Regions(), 0, map[], Attempts(fetch, decode))
  }

  /** AllOverviews panics exactly when getOverview panics on a region it reaches, one
      after a run of successes in Regions() order. */
  lemma OverviewsSafeIff(fetch: string -> Result<Body, Error>, decode: Body -> Result<Samples, Error>)
    ensures Overviews(fetch, decode).Some? <==>
      forall k :: 0 <= k < |Regions()| &&
                  (forall j :: 0 <= j < k ==> Succeeds(Attempts(fetch, decode), Regions()[j])) ==>
        Attempt(Regions()[k], fetch, decode).Some?
  {
    VisitSafeIff(Regions(), 0, map[], Attempts(fetch, decode));
  }

  /** AllOverviews is all or nothing: it succeeds exactly when every region's overview
      does, and its map then has exactly the six regions as keys, each bound to that
      region's own overview. */
  lemma OverviewsAllOrNothing(fetch: string -> Result<Body, Error>, decode: Body -> Result<Samples, Error>)
    ensures Overviews(fetch, decode).Some? && Overviews(fetch, decode).value.Ok? <==>
      forall k :: 0 <= k < |Regions()| ==> Succeeds(Attempts(fetch, decode), Regions()[k])
    ensures Overviews(fetch, decode).Some? && Overviews(fetch, decode).value.Ok? ==>
      var m := Overviews(fetch, decode).value.value;
      (forall n :: n in m <==> n in Regions()) &&
      (forall n :: n in m ==> Attempt(n, fetch, decode) == Some(Ok(m[n])))
  {
    VisitAllOrNothing(Regions(), 0, map[], Attempts(fetch, decode));
    assert Regions()[0..] == Regions();
  }

  /** When AllOverviews fails, its error is that of the first region, in Regions()
      order, whose overview fails, and every region before it succeeded. */
  lemma OverviewsFirstFailure(fetch: string -> Result<Body, Error>, decode: Body -> Result<Samples, Error>)
    requires Overviews(fetch, decode).Some? && Overviews(fetch, decode).value.Err?
    ensures exists k :: 0 <= k < |Regions()| &&
              (forall j :: 0 <= j < k ==> Succeeds(Attempts(fetch, decode), Regions()[j])) &&
              Attempt(Regions()[k], fetch, decode) == Some(Err(Overviews(fetch, decode).value.error))
  {
    VisitFirstFailure(Regions(), 0, map[], Attempts(fetch, decode));
  }

  /** Regions after the first failing one are never attempted: two networks that
      answer alike for the regions up to and including the first failure give the
      same outcome, whatever they would answer for the rest. */
  lemma OverviewsStopAtFirstFailure(fetch1: string -> Result<Body, Error>, decode1: Body -> Result<Samples, Error>,
                                    fetch2: string -> Result<Body, Error>, decode2: Body -> Result<Samples, Error>,
                                    k: nat)
    requires k < |Regions()|
    requires forall j :: 0 <= j < k ==> Succeeds(Attempts(fetch1, decode1), Regions()[j])
    requires Attempt(Regions()[k], fetch1, decode1).Some? && Attempt(Regions()[k], fetch1, decode1).value.Err?
    requires forall j :: 0 <= j <= k ==> Attempt(Regions()[j], fetch2, decode2) == Attempt(Regions()[j], fetch1, decode1)
    ensures Overviews(fetch2, decode2) == Overviews(fetch1, decode1)
  {
    VisitStopsAtFirstFailure(Regions(), 0, map[], k, Attempts(fetch1, decode1), Attempts(fetch2, decode2));
  }

  /** AllOverviews: visit Regions() in order, storing each overview under its region's
      name, and give up with the first error and no map at all. */
  method AllOverviews(fetch: string -> Result<Body, Error>, decode: Body -> Result<Samples, Error>)
    returns (res: Result<map<string, Overview>, Error>)
    requires Overviews(fetch, decode).Some?
    ensures res.Ok? <==> Overviews(fetch, decode).value.Ok?
    ensures res.Ok? ==>
      res.value.Keys == Overviews(fetch, decode).value.value.Keys &&
      (forall n :: n in res.value ==> res.value[n].Holds(Overviews(fetch, decode).value.value[n])) &&
      (forall n :: n in res.value ==> fresh(res.value[n]))
    ensures res.Err? ==> res.error == Overviews(fetch, decode).value.error
  {
    var regions := Regions();
    ghost var get := Attempts(fetch, decode);
    var m: map<string, Overview> := map[];
    ghost var acc: map<string, OverviewData> := map[];
    var i := 0;
    while i < |regions|
      invariant 0 <= i <= |regions|
      invariant Overviews(fetch, decode) == Visit(regions, i, acc, get)
      invariant m.Keys == acc.Keys
      invariant forall n :: n in m ==> m[n].Holds(acc[n])
      invariant forall n :: n in m ==> fresh(m[n])
    {
      var o := GetOverview(regions[i], fetch, decode);
      if o.Err? {
        return Err(o.error);
      }
      m := m[regions[i] := o.value];
      acc := acc[regions[i] := get(regions[i]).value.value];
      i := i + 1;
    }
    return Ok(m);
  }
}
