/** One destination's measurement: the loosely typed array the JSON decoder produces
    and pullSample, which turns it into a typed Sample. */
module Measurement {
  import opened Wrappers
  import opened Strconv

  newtype int64 = x: int | -0x8000_0000_0000_0000 <= x < 0x8000_0000_0000_0000

  /** What encoding/json stores in an interface{}. A JSON number is kept here as the
      whole number that int64(x.(float64)) yields. */
  datatype Value =
    | Num(n: int64)
    | Str(s: string)
    | Bool(b: bool)
    | Null
    | Array(elems: seq<Value>)
    | Object(fields: map<string, Value>)

  /** Sample: one point-to-point measurement. */
  datatype Sample = Sample(epoch: int64, rtt: uint32, loss: uint32, jitter: uint32)

  /** The errors the client returns, each passed up unchanged. */
  datatype Error =
    | InvalidDatacenter(name: string)  // "'<name>' is not a valid datacenter"
    | FetchError(reason: string)       // from the HTTP round trip
    | JsonError(reason: string)        // from json.Unmarshal
    | ParseError(cause: NumError)      // from strconv.ParseUint

  /** Exactly the inputs on which pullSample does not panic. It indexes i[0] and
      asserts the type of each element only when it gets that far: element 1 always,
      element 2 once the RTT parsed, element 3 once the loss parsed, and the
      timestamp, element 0, once all three parsed. */
  predicate WellFormed(i: seq<seq<Value>>)
    ensures WellFormed(i) ==> |i| > 0 && |i[0]| >= 2 && i[0][1].Str?
    ensures |i| > 0 && |i[0]| >= 4 && i[0][0].Num? && i[0][1].Str? && i[0][2].Str? && i[0][3].Str? ==> WellFormed(i)
  {
    |i| > 0 && |i[0]| >= 2 && i[0][1].Str? &&
    (ParseUint32(i[0][1].s).Ok? ==>
      |i[0]| >= 3 && i[0][2].Str? &&
      (ParseUint32(i[0][2].s).Ok? ==>
        |i[0]| >= 4 && i[0][3].Str? &&
        (ParseUint32(i[0][3].s).Ok? ==> i[0][0].Num?)))
  }

  /** pullSample: RTT, loss and jitter are parsed in that order from the strings in
      i[0][1], i[0][2] and i[0][3]; the first that fails ends the call with its error
      and no sample; the timestamp is i[0][0]. Later rows of i are never read. */
  function PullSample(i: seq<seq<Value>>): (r: Result<Sample, Error>)
    requires WellFormed(i)
    ensures r.Err? ==> r.error.ParseError?
  {
    match ParseUint32(i[0][1].s)
    case Err(e) => Err(ParseError(e))
    case Ok(rtt) =>
      match ParseUint32(i[0][2].s)
      case Err(e) => Err(ParseError(e))
      case Ok(loss) =>
        match ParseUint32(i[0][3].s)
        case Err(e) => Err(ParseError(e))
        case Ok(jitter) => Ok(Sample(i[0][0].n, rtt, loss, jitter))
  }

  /** pullSample succeeds exactly when the RTT, loss and jitter texts are all decimal
      numbers of at most 32 bits, and the sample then holds the timestamp and those
      three numbers. */
  lemma PullSampleContract(i: seq<seq<Value>>)
    requires WellFormed(i)
    ensures PullSample(i).Ok? <==>
      IsUint32Text(i[0][1].s) && |i[0]| >= 3 && i[0][2].Str? && IsUint32Text(i[0][2].s) &&
      |i[0]| >= 4 && i[0][3].Str? && IsUint32Text(i[0][3].s)
    ensures PullSample(i).Ok? ==>
      i[0][0].Num? && |i[0]| >= 4 && i[0][2].Str? && i[0][3].Str? &&
      PullSample(i).value.epoch == i[0][0].n &&
      PullSample(i).value.rtt as int == DecimalValue(i[0][1].s) &&
      PullSample(i).value.loss as int == DecimalValue(i[0][2].s) &&
      PullSample(i).value.jitter as int == DecimalValue(i[0][3].s)
  {
    ParseUint32Contract(i[0][1].s);
    if |i[0]| >= 3 && i[0][2].Str? {
      ParseUint32Contract(i[0][2].s);
    }
    if |i[0]| >= 4 && i[0][3].Str? {
      ParseUint32Contract(i[0][3].s);
    }
  }

  /** The first field that fails decides the error, and the fields after it are not
      looked at: the error names the text of that field. */
  lemma PullSampleFirstFailure(i: seq<seq<Value>>)
    requires WellFormed(i)
    ensures ParseUint32(i[0][1].s).Err? ==>
      PullSample(i) == Err(ParseError(ParseUint32(i[0][1].s).error)) &&
      PullSample(i).error.cause.num == i[0][1].s
    ensures ParseUint32(i[0][1].s).Ok? && ParseUint32(i[0][2].s).Err? ==>
      PullSample(i) == Err(ParseError(ParseUint32(i[0][2].s).error)) &&
      PullSample(i).error.cause.num == i[0][2].s
    ensures ParseUint32(i[0][1].s).Ok? && ParseUint32(i[0][2].s).Ok? && ParseUint32(i[0][3].s).Err? ==>
      PullSample(i) == Err(ParseError(ParseUint32(i[0][3].s).error)) &&
      PullSample(i).error.cause.num == i[0][3].s
  {
    ParseUint32Contract(i[0][1].s);
    if ParseUint32(i[0][1].s).Ok? {
      ParseUint32Contract(i[0][2].s);
      if ParseUint32(i[0][2].s).Ok? {
        ParseUint32Contract(i[0][3].s);
      }
    }
  }

  /** Once the RTT field fails, nothing after it matters: two inputs that agree on
      that field fail alike, whatever their other fields and rows hold. */
  lemma PullSampleStopsAtRtt(i: seq<seq<Value>>, j: seq<seq<Value>>)
    requires WellFormed(i) && WellFormed(j)
    requires i[0][1] == j[0][1] && !IsUint32Text(i[0][1].s)
    ensures PullSample(i) == PullSample(j)
  {
    ParseUint32Contract(i[0][1].s);
  }

  /** Only the first row is read: rows after i[0] have no effect on the result. */
  lemma PullSampleFirstRowOnly(i: seq<seq<Value>>, extra: seq<seq<Value>>)
    requires WellFormed(i)
    ensures WellFormed(i[..1] + extra)
    ensures PullSample(i[..1] + extra) == PullSample(i)
  {
  }

  /** A raw measurement in the shape the endpoints send, [[timestamp, "rtt", "loss",
      "jitter"]], becomes the sample with those numbers. */
  lemma PullSampleTypical()
    ensures WellFormed([[Num(1670000000), Str("12"), Str("0"), Str("3")]])
    ensures PullSample([[Num(1670000000), Str("12"), Str("0"), Str("3")]])
      == Ok(Sample(1670000000, 12, 0, 3))
  {
  }
}
