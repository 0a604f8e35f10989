/**
  The conversion of one GPS5 stream's samples into KML placemarks: the
  validity test, the sticky merge, the description lines, the swapped
  coordinates, the optional altitude mode and the optional time stamp.
 */
module Samples {
  import opened Wrappers
  import opened Telemetry
  import opened Sticky

  /** What the host prints for a Date object whose time value is not valid. */
  const INVALID_DATE := "Invalid Date"

  /**
    The text of a `<when>` element. `Fallback` is the catch branch, the one
    that also schedules an error message on the console.
   */
  datatype Stamp = Converted(text: string) | Fallback(text: string)

  /** One placemark, element by element; an empty description means no `<description>`. */
  datatype Placemark = Placemark(
    description: seq<string>,
    absolute: bool,
    coordinates: seq<string>,
    stamp: Option<Stamp>)

  /**
    The time stamp of a sample date. `toIso` is the host conversion (Date
    construction from a non-object date, then `toISOString`); `None` means it
    threw. The catch branch prints the date after its conversion to a Date:
    an object shows its own text, and a raw value has already been replaced
    by an invalid Date, which prints as "Invalid Date".
   */
  function StampOf(d: SampleDate, toIso: SampleDate -> Option<string>): (r: Stamp)
    ensures r.Converted? <==> toIso(d).Some?
    ensures r.Converted? ==> r.text == toIso(d).value
    ensures r.Fallback? && d.DateObject? ==> r.text == d.shown
    ensures r.Fallback? && d.DateRaw? ==> r.text == INVALID_DATE
  {
    match toIso(d)
    case Some(iso) => Converted(iso)
    case None => Fallback(if d.DateObject? then d.shown else INVALID_DATE)
  }

  /**
    The description lines of a sample: one per sticky key in map order, then
    the 2D speed when there is a fourth value and the 3D speed when there is a fifth.
   */
  function DescriptionParts(sticky: Fields, v: seq<string>): (r: seq<string>)
    ensures |r| == |sticky| + (if |v| > 3 then 1 else 0) + (if |v| > 4 then 1 else 0)
    ensures forall i :: 0 <= i < |sticky| ==> r[i] == LabelLine(sticky[i])
    ensures |v| > 3 ==> r[|sticky|] == "2D Speed: " + v[3]
    ensures |v| > 4 ==> r[|sticky| + 1] == "3D Speed: " + v[4]
  {
    Labels(sticky)
    + (if |v| > 3 then ["2D Speed: " + v[3]] else [])
    + (if |v| > 4 then ["3D Speed: " + v[4]] else [])
  }

  /**
    The coordinates of a sample: longitude (the second value) first, then
    latitude (the first), then the altitude when there is a third value.
   */
  function Coordinates(v: seq<string>): (r: seq<string>)
    requires |v| > 1
    ensures |r| == (if |v| > 2 then 3 else 2)
    ensures r[0] == v[1] && r[1] == v[0]
    ensures |v| > 2 ==> r[2] == v[2]
  {
    [v[1], v[0]] + (if |v| > 2 then [v[2]] else [])
  }

  /** The placemark of a valid sample's values, given the sticky map after its merge. */
  function MakePlacemark(v: seq<string>, sticky: Fields, date: Option<SampleDate>,
                         toIso: SampleDate -> Option<string>): (p: Placemark)
    requires |v| > 1
    ensures p.absolute <==> |p.coordinates| == 3
    ensures p.description == [] <==> sticky == [] && |v| <= 3
    ensures p.stamp.Some? <==> date.Some?
  {
    Placemark(
      DescriptionParts(sticky, v),
      |v| > 2,
      Coordinates(v),
      if date.Some? then Some(StampOf(date.value, toIso)) else None)
  }

  /** The `<description>` element: the parts joined with `; `, omitted when there are none. */
  function DescriptionElement(parts: seq<string>): string
  {
    if |parts| > 0 then "<description>" + Join(parts, "; ") + "</description>" else ""
  }

  /** The `<altitudeMode>` element, present only for a point with an altitude. */
  function AltitudeElement(absolute: bool): string
  {
    if absolute then "<altitudeMode>absolute</altitudeMode>" else ""
  }

  /** The `<TimeStamp>` element with the stamp's text, omitted for a sample without a date. */
  function TimeElement(stamp: Option<Stamp>): string
  {
    match stamp
    case None => ""
    case Some(st) => "<TimeStamp><when>" + st.text + "</when></TimeStamp>"
  }

  /** The markup of one placemark, indentation left out. */
  function Render(p: Placemark): string
  {
    "<Placemark>"
    + DescriptionElement(p.description)
    + AltitudeElement(p.absolute)
    + "<Point><coordinates>" + Join(p.coordinates, ",") + "</coordinates></Point>"
    + TimeElement(p.stamp)
    + "</Placemark>"
  }

  /** The markup of a sequence of placemarks, in order. */
  function RenderAll(ps: seq<Placemark>): string
  {
    if ps == [] then "" else Render(ps[0]) + RenderAll(ps[1..])
  }

  /** The markup of a concatenation is the markup of its halves. */
  lemma {:induction false} RenderAllAppend(a: seq<Placemark>, b: seq<Placemark>)
    ensures RenderAll(a + b) == RenderAll(a) + RenderAll(b)
  {
    if a == [] {
      assert a + b == b;
    } else {
      SplitHead(a, b);
      RenderAllAppend(a[1..], b);
    }
  }

  /** The sticky map after one sample: only a valid sample with a `sticky` object changes it. */
  function Step(m: Fields, s: Sample): Fields
  {
    if IsValid(s) && s.sticky.Some? then Overlay(m, s.sticky.value) else m
  }

  /** The placemark of a valid sample, rendered after the sample's own sticky merge. */
  function PlacemarkOf(s: Sample, m: Fields, toIso: SampleDate -> Option<string>): Placemark
    requires IsValid(s)
  {
    MakePlacemark(s.value.value, Step(m, s), s.date, toIso)
  }

  /** The placemarks one sample yields: its own for a valid sample, none otherwise. */
  function Emitted(s: Sample, m: Fields, toIso: SampleDate -> Option<string>): seq<Placemark>
  {
    if IsValid(s) then [PlacemarkOf(s, m, toIso)] else []
  }

  /** The placemarks of a sample sequence, starting from the sticky map `m`. */
  function Placemarks(ss: seq<Sample>, m: Fields, toIso: SampleDate -> Option<string>): seq<Placemark>
  {
    if ss == [] then []
    else Emitted(ss[0], m, toIso) + Placemarks(ss[1..], Step(m, ss[0]), toIso)
  }

  /** The sticky map after a sample sequence, starting from `m`. */
  function StickyAfter(ss: seq<Sample>, m: Fields): Fields
  {
    if ss == [] then m else StickyAfter(ss[1..], Step(m, ss[0]))
  }

  /** The number of valid samples. */
  function CountValid(ss: seq<Sample>): nat
  {
    if ss == [] then 0 else (if IsValid(ss[0]) then 1 else 0) + CountValid(ss[1..])
  }

  /** The head and tail of a concatenation with a non-empty first half. */
  lemma SplitHead<T>(a: seq<T>, b: seq<T>)
    requires a != []
    ensures (a + b)[0] == a[0] && (a + b)[1..] == a[1..] + b
  {
  }

  /** The sticky map after a concatenation is the second half's, from the map the first half leaves. */
  lemma {:induction false} StickyAfterAppend(a: seq<Sample>, b: seq<Sample>, m: Fields)
    ensures StickyAfter(a + b, m) == StickyAfter(b, StickyAfter(a, m))
    decreases |a|
  {
    if a == [] {
      assert a + b == b;
    } else {
      SplitHead(a, b);
      StickyAfterAppend(a[1..], b, Step(m, a[0]));
    }
  }

  /** The valid samples of a concatenation are those of its halves. */
  lemma {:induction false} CountValidAppend(a: seq<Sample>, b: seq<Sample>)
    ensures CountValid(a + b) == CountValid(a) + CountValid(b)
    decreases |a|
  {
    if a == [] {
      assert a + b == b;
    } else {
      SplitHead(a, b);
      CountValidAppend(a[1..], b);
    }
  }

  /** Converting a concatenation is converting its halves, the second with the sticky map the first leaves. */
  lemma {:induction false} PlacemarksAppend(a: seq<Sample>, b: seq<Sample>, m: Fields,
                                            toIso: SampleDate -> Option<string>)
    ensures Placemarks(a + b, m, toIso) == Placemarks(a, m, toIso) + Placemarks(b, StickyAfter(a, m), toIso)
    ensures StickyAfter(a + b, m) == StickyAfter(b, StickyAfter(a, m))
    ensures CountValid(a + b) == CountValid(a) + CountValid(b)
    decreases |a|
  {
    StickyAfterAppend(a, b, m);
    CountValidAppend(a, b);
    if a == [] {
      assert a + b == b;
    } else {
      SplitHead(a, b);
      PlacemarksAppend(a[1..], b, Step(m, a[0]), toIso);
    }
  }

  /** One placemark per valid sample. */
  lemma {:induction false} PlacemarkCount(ss: seq<Sample>, m: Fields, toIso: SampleDate -> Option<string>)
    ensures |Placemarks(ss, m, toIso)| == CountValid(ss)
    decreases |ss|
  {
    if ss != [] {
      PlacemarkCount(ss[1..], Step(m, ss[0]), toIso);
    }
  }

  /**
    Placemarks follow sample order: the valid sample at index `i` gives the
    placemark whose index is the number of valid samples before it, built
    with the sticky map as it stands after that sample's own merge.
   */
  lemma PlacemarkAt(ss: seq<Sample>, m: Fields, toIso: SampleDate -> Option<string>, i: nat)
    requires i < |ss| && IsValid(ss[i])
    ensures CountValid(ss[..i]) < |Placemarks(ss, m, toIso)|
    ensures Placemarks(ss, m, toIso)[CountValid(ss[..i])] == PlacemarkOf(ss[i], StickyAfter(ss[..i], m), toIso)
  {
    var before, rest := ss[..i], ss[i + 1..];
    assert ss == before + ([ss[i]] + rest);
    PlacemarksAppend(before, [ss[i]] + rest, m, toIso);
    PlacemarkCount(before, m, toIso);
  }

  /** A sample without two values leaves no trace: no placemark and no sticky update. */
  lemma InvalidSampleIgnored(a: seq<Sample>, s: Sample, b: seq<Sample>, m: Fields,
                             toIso: SampleDate -> Option<string>)
    requires !IsValid(s)
    ensures Placemarks(a + [s] + b, m, toIso) == Placemarks(a + b, m, toIso)
    ensures StickyAfter(a + [s] + b, m) == StickyAfter(a + b, m)
  {
    assert a + [s] + b == a + ([s] + b);
    PlacemarksAppend(a, [s] + b, m, toIso);
    PlacemarksAppend(a, b, m, toIso);
    assert ([s] + b)[1..] == b;
  }

  /** Sticky keys never expire within a stream, and the map keeps unique keys. */
  lemma {:induction false} StickyAfterKeepsKeys(ss: seq<Sample>, m: Fields, k: string)
    ensures k in Keys(m) ==> k in Keys(StickyAfter(ss, m))
    ensures UniqueKeys(m) ==> UniqueKeys(StickyAfter(ss, m))
    decreases |ss|
  {
    if ss != [] {
      var s := ss[0];
      if IsValid(s) && s.sticky.Some? {
        OverlayKeepsKeys(m, s.sticky.value);
        if UniqueKeys(m) {
          OverlayUniqueKeys(m, s.sticky.value);
        }
      }
      StickyAfterKeepsKeys(ss[1..], Step(m, s), k);
    }
  }

  /** No valid sample of `ss` carries `k` in its sticky object. */
  predicate NeverSets(ss: seq<Sample>, k: string)
  {
    forall i :: 0 <= i < |ss| && IsValid(ss[i]) && ss[i].sticky.Some? ==> k !in Keys(ss[i].sticky.value)
  }

  /** Objects in the samples have unique keys, as host objects do. */
  predicate StickyObjectsWellFormed(ss: seq<Sample>)
  {
    forall i :: 0 <= i < |ss| && ss[i].sticky.Some? ==> UniqueKeys(ss[i].sticky.value)
  }

  /** A sticky value persists until a later valid sample overwrites its key. */
  lemma {:induction false} StickyPersists(ss: seq<Sample>, m: Fields, k: string)
    requires StickyObjectsWellFormed(ss)
    requires NeverSets(ss, k)
    ensures Lookup(StickyAfter(ss, m), k) == Lookup(m, k)
    decreases |ss|
  {
    if ss != [] {
      var s := ss[0];
      if IsValid(s) && s.sticky.Some? {
        assert k !in Keys(s.sticky.value);
        assert UniqueKeys(s.sticky.value);
        OverlayLookup(m, s.sticky.value, k);
      }
      assert NeverSets(ss[1..], k) by {
        forall i | 0 <= i < |ss[1..]| && IsValid(ss[1..][i]) && ss[1..][i].sticky.Some?
          ensures k !in Keys(ss[1..][i].sticky.value)
        {
          assert ss[1..][i] == ss[i + 1];
        }
      }
      assert StickyObjectsWellFormed(ss[1..]) by {
        forall i | 0 <= i < |ss[1..]| && ss[1..][i].sticky.Some?
          ensures UniqueKeys(ss[1..][i].sticky.value)
        {
          assert ss[1..][i] == ss[i + 1];
        }
      }
      StickyPersists(ss[1..], Step(m, s), k);
    }
  }

  /** A valid sample's sticky object takes effect for that very sample's placemark. */
  lemma StickyTakesEffect(s: Sample, m: Fields, k: string, toIso: SampleDate -> Option<string>)
    requires IsValid(s) && s.sticky.Some? && UniqueKeys(s.sticky.value)
    requires k in Keys(s.sticky.value)
    ensures Lookup(Step(m, s), k) == Lookup(s.sticky.value, k)
    ensures LabelLine((k, Lookup(s.sticky.value, k).value)) in PlacemarkOf(s, m, toIso).description
  {
    var m1 := Step(m, s);
    OverlayLookup(m, s.sticky.value, k);
    LookupStored(m1, k);
    var i :| 0 <= i < |m1| && m1[i] == (k, Lookup(m1, k).value);
    var parts := PlacemarkOf(s, m, toIso).description;
    assert parts == DescriptionParts(m1, s.value.value);
    assert parts[i] == LabelLine(m1[i]);
  }

  /** Converting one more sample appends its markup, if any, and takes one sticky step. */
  lemma RenderSnoc(ss: seq<Sample>, s: Sample, m: Fields, toIso: SampleDate -> Option<string>)
    ensures RenderAll(Placemarks(ss + [s], m, toIso))
         == RenderAll(Placemarks(ss, m, toIso))
            + (if IsValid(s) then Render(PlacemarkOf(s, StickyAfter(ss, m), toIso)) else "")
    ensures StickyAfter(ss + [s], m) == Step(StickyAfter(ss, m), s)
  {
    PlacemarksAppend(ss, [s], m, toIso);
    var step := Placemarks([s], StickyAfter(ss, m), toIso);
    RenderAllAppend(Placemarks(ss, m, toIso), step);
    if IsValid(s) {
      assert RenderAll(step) == Render(PlacemarkOf(s, StickyAfter(ss, m), toIso)) + RenderAll([]);
    }
  }

  /** `partialSticky`: the description lines, pushed one by one. */
  method CollectParts(sticky: Fields, v: seq<string>) returns (partialSticky: seq<string>)
    ensures partialSticky == DescriptionParts(sticky, v)
  {
    partialSticky := [];
    for i := 0 to |sticky|
      invariant |partialSticky| == i
      invariant forall j :: 0 <= j < i ==> partialSticky[j] == LabelLine(sticky[j])
    {
      partialSticky := partialSticky + [Label(sticky[i].0) + ": " + sticky[i].1];
    }
    assert partialSticky == Labels(sticky);
    if |v| > 3 {
      partialSticky := partialSticky + ["2D Speed: " + v[3]];
    }
    if |v| > 4 {
      partialSticky := partialSticky + ["3D Speed: " + v[4]];
    }
  }

  /**
    The work done for one sample: the sticky merge and, for a valid sample,
    the placemark markup (empty for an invalid one).
   */
  method ProcessSample(s: Sample, sticky: Fields, toIso: SampleDate -> Option<string>)
    returns (sticky': Fields, partial: string)
    ensures sticky' == Step(sticky, s)
    ensures IsValid(s) ==> partial == Render(PlacemarkOf(s, sticky, toIso))
    ensures !IsValid(s) ==> partial == ""
  {
    sticky', partial := sticky, "";
    if s.value.Some? && |s.value.value| > 1 {
      var v := s.value.value;
      if s.sticky.Some? {
        sticky' := Overlay(sticky', s.sticky.value);
      }
      var partialSticky := CollectParts(sticky', v);
      var cmt, time, altitudeMode := "", "", "";
      if |partialSticky| > 0 {
        cmt := "<description>" + Join(partialSticky, "; ") + "</description>";
      }
      if s.date.Some? {
        var d := s.date.value;
        match toIso(d) {
          case Some(iso) =>
            time := "<TimeStamp><when>" + iso + "</when></TimeStamp>";
          case None =>
            var shown := if d.DateObject? then d.shown else INVALID_DATE;
            time := "<TimeStamp><when>" + shown + "</when></TimeStamp>";
        }
      }
      var coords := [v[1], v[0]];
      if |v| > 2 {
        coords := coords + [v[2]];
        altitudeMode := "<altitudeMode>absolute</altitudeMode>";
      }
      assert cmt == DescriptionElement(DescriptionParts(sticky', v));
      assert altitudeMode == AltitudeElement(|v| > 2);
      assert coords == Coordinates(v);
      assert time == TimeElement(if s.date.Some? then Some(StampOf(s.date.value, toIso)) else None);
      partial := "<Placemark>" + cmt + altitudeMode
        + "<Point><coordinates>" + Join(coords, ",") + "</coordinates></Point>"
        + time + "</Placemark>";
    }
  }

  /** The loop over a stream's samples, accumulating the markup in `inner`. */
  method ConvertSamples(samples: seq<Sample>, toIso: SampleDate -> Option<string>) returns (inner: string)
    ensures inner == RenderAll(Placemarks(samples, [], toIso))
  {
    inner := "";
    var sticky: Fields := [];
    for k := 0 to |samples|
      invariant inner == RenderAll(Placemarks(samples[..k], [], toIso))
      invariant sticky == StickyAfter(samples[..k], [])
    {
      var partial;
      sticky, partial := ProcessSample(samples[k], sticky, toIso);
      assert inner + partial == RenderAll(Placemarks(samples[..k + 1], [], toIso))
          && sticky == StickyAfter(samples[..k + 1], []) by {
        assert samples[..k + 1] == samples[..k] + [samples[k]];
        RenderSnoc(samples[..k], samples[k], [], toIso);
      }
      inner := inner + partial;
    }
    assert samples[..|samples|] == samples;
  }
}
