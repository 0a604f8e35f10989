/**
  The parsed telemetry handed to the KML preset, with every loosely typed
  record given an explicit schema. Object iteration order matters to the
  converter, so every object it walks is an ordered sequence of key/value
  pairs.
 */
module Telemetry {
  import opened Wrappers

  /** An ordered object of string keys to already rendered scalar values. */
  type Fields = seq<(string, string)>

  /**
    The `date` field of a sample, as it reaches the converter. The host
    conversion sees everything but `shown`, which is only the text the catch
    branch prints for an object that fails to convert.
   */
  datatype SampleDate =
    // already an object: `time` is its millisecond time value when it is a Date
    // with a valid time (None otherwise), `shown` its string form
    | DateObject(time: Option<int>, shown: string)
    // a number (`isNumber`) or a string, written as `raw`, which the converter
    // hands to the Date constructor; `0` and `"0"` are different dates
    | DateRaw(raw: string, isNumber: bool)

  /** One sample of a stream: `value` holds its values as rendered tokens. */
  datatype Sample = Sample(value: Option<seq<string>>, sticky: Option<Fields>, date: Option<SampleDate>)

  /** A stream of one device: display name, units and samples, each optional. */
  datatype Stream = Stream(name: Option<string>, units: Option<seq<string>>, samples: Option<seq<Sample>>)

  /** A device entry: its `device name` and its ordered `streams` object. */
  datatype Device = Device(deviceName: Option<string>, streams: Option<seq<(string, Stream)>>)

  /**
    The whole dataset: the top-level `frames/second` value (the rounded
    number, already rendered as text) and the device entries in insertion order.
   */
  datatype Dataset = Dataset(framesPerSecond: Option<string>, devices: seq<(string, Device)>)

  /** A sample is converted only when it has at least two values. */
  predicate IsValid(s: Sample)
  {
    s.value.Some? && |s.value.value| > 1
  }

  /** The host's `Array.prototype.join` on strings. */
  function Join(parts: seq<string>, sep: string): string
  {
    if |parts| == 0 then ""
    else if |parts| == 1 then parts[0]
    else parts[0] + sep + Join(parts[1..], sep)
  }

  /** Joining two parts puts the separator between them. */
  lemma JoinTwo(a: string, b: string, sep: string)
    ensures Join([a, b], sep) == a + sep + b
  {
    assert [a, b][1..] == [b];
  }

  /** Joining three parts puts the separator between each pair. */
  lemma JoinThree(a: string, b: string, c: string, sep: string)
    ensures Join([a, b, c], sep) == a + sep + b + sep + c
  {
    assert [a, b, c][1..] == [b, c];
    JoinTwo(b, c, sep);
    assert a + sep + (b + sep + c) == a + sep + b + sep + c;
  }

  /** Joining one more part appends the separator and that part. */
  lemma {:induction false} JoinSnoc(parts: seq<string>, x: string, sep: string)
    requires |parts| > 0
    ensures Join(parts + [x], sep) == Join(parts, sep) + sep + x
    decreases |parts|
  {
    if |parts| == 1 {
      assert parts + [x] == [parts[0], x];
      JoinTwo(parts[0], x, sep);
    } else {
      assert (parts + [x])[0] == parts[0] && (parts + [x])[1..] == parts[1..] + [x];
      JoinSnoc(parts[1..], x, sep);
      assert parts[0] + sep + (Join(parts[1..], sep) + sep + x)
          == (parts[0] + sep + Join(parts[1..], sep)) + sep + x;
    }
  }

  /** `filter(e => e != null)`: the present members, in order. */
  function Present(xs: seq<Option<string>>): (r: seq<string>)
    ensures |r| <= |xs|
  {
    if xs == [] then []
    else (if xs[0].Some? then [xs[0].value] else []) + Present(xs[1..])
  }

  /** Filtering distributes over concatenation, so the kept members stay in order. */
  lemma {:induction false} PresentAppend(a: seq<Option<string>>, b: seq<Option<string>>)
    ensures Present(a + b) == Present(a) + Present(b)
  {
    if a != [] {
      assert (a + b)[0] == a[0] && (a + b)[1..] == a[1..] + b;
      PresentAppend(a[1..], b);
    } else {
      assert a + b == b;
    }
  }
}
