/** Concrete conversions worked through the model. */
module Scenarios {
  import opened Wrappers
  import opened Telemetry
  import opened Sticky
  import opened Samples
  import opened Kml

  /** Two values: swapped coordinates and no altitude mode. */
  lemma TwoValues(toIso: SampleDate -> Option<string>)
    ensures var p := MakePlacemark(["10", "20"], [], None, toIso);
            Join(p.coordinates, ",") == "20,10" && !p.absolute && p.description == [] && p.stamp == None
  {
  }

  /** Three values: the altitude is appended and the altitude mode is absolute. */
  lemma ThreeValues(toIso: SampleDate -> Option<string>)
    ensures var p := MakePlacemark(["10", "20", "5"], [], None, toIso);
            Join(p.coordinates, ",") == "20,10,5" && p.absolute
  {
  }

  /** Five values: both speeds follow the sticky lines in the description. */
  lemma FiveValues(toIso: SampleDate -> Option<string>)
    ensures var p := MakePlacemark(["1", "2", "3", "4", "5"], [("fix", "3")], None, toIso);
            Join(p.description, "; ") == "GPS Fix: 3; 2D Speed: 4; 3D Speed: 5"
  {
  }

  /** The sticky map left by a first sample that sets a precision of 5. */
  lemma PrecisionStep()
    ensures StickyAfter([Sample(Some(["1", "2"]), Some([("precision", "5")]), None)], [])
         == [("precision", "5")]
  {
    assert Overlay([], [("precision", "5")]) == Overlay([("precision", "5")], []);
  }

  /** A sample without sticky values, after that map, is described by the precision alone. */
  lemma PrecisionDescribed(toIso: SampleDate -> Option<string>)
    ensures PlacemarkOf(Sample(Some(["3", "4"]), None, None), [("precision", "5")], toIso).description
         == ["GPS Accuracy: 5"]
  {
    var m1 := [("precision", "5")];
    assert LabelLine(m1[0]) == "GPS Accuracy: 5";
    assert Labels(m1) == ["GPS Accuracy: 5"];
  }

  /** A precision set by the first sample is still described on the second. */
  lemma StickyPropagation(toIso: SampleDate -> Option<string>)
    ensures var s1 := Sample(Some(["1", "2"]), Some([("precision", "5")]), None);
            var s2 := Sample(Some(["3", "4"]), None, None);
            var ps := Placemarks([s1, s2], [], toIso);
            |ps| == 2 && ps[1].description == ["GPS Accuracy: 5"]
  {
    var s1 := Sample(Some(["1", "2"]), Some([("precision", "5")]), None);
    var s2 := Sample(Some(["3", "4"]), None, None);
    var m1 := [("precision", "5")];
    PrecisionStep();
    assert [s1, s2] == [s1] + [s2];
    PlacemarksAppend([s1], [s2], [], toIso);
    assert Placemarks([s2], m1, toIso) == [PlacemarkOf(s2, m1, toIso)];
    PrecisionDescribed(toIso);
  }

  /** A date the host cannot convert still yields a time stamp, from the catch branch. */
  lemma TimestampFallback()
    ensures var none := (d: SampleDate) => None;
            && StampOf(DateRaw("not a date", false), none) == Fallback("Invalid Date")
            && StampOf(DateObject(None, "shown"), none) == Fallback("shown")
  {
  }

  /** A host conversion that reads the millisecond time of Date objects. */
  function MillisIso(d: SampleDate): Option<string>
  {
    if d.DateObject? && d.time == Some(0) then Some("1970-01-01T00:00:00.000Z")
    else if d.DateObject? && d.time == Some(55) then Some("1970-01-01T00:00:00.055Z")
    else None
  }

  /**
    Two Date objects in the same second share their string form but not their
    time value, and their time stamps differ in the milliseconds.
   */
  lemma SameSecondStamps()
    ensures var shown := "Thu Jan 01 1970 00:00:00 GMT+0000";
            && StampOf(DateObject(Some(0), shown), MillisIso) == Converted("1970-01-01T00:00:00.000Z")
            && StampOf(DateObject(Some(55), shown), MillisIso) == Converted("1970-01-01T00:00:00.055Z")
  {
  }

  /** The joins the end-to-end example and the speed descriptions need. */
  lemma JoinedTexts()
    ensures Join(["Cam1", "GPS", "deg,deg,m,m/s,m/s"], ". ") == "Cam1. GPS. deg,deg,m,m/s,m/s"
    ensures Join(["2", "1", "3"], ",") == "2,1,3"
    ensures Join(["30 fps", "A"], ". ") == "30 fps. A"
  {
    JoinThree("Cam1", "GPS", "deg,deg,m,m/s,m/s", ". ");
    JoinThree("2", "1", "3", ",");
    JoinTwo("30 fps", "A", ". ");
  }

  /** Dropping the absent parts of the end-to-end example's descriptions keeps the rest in order. */
  lemma PresentTexts()
    ensures Present([Some("Cam1"), None, Some("GPS"), Some("deg,deg,m,m/s,m/s")])
         == ["Cam1", "GPS", "deg,deg,m,m/s,m/s"]
    ensures Present([None, Some("30 fps"), Some("A"), None]) == ["30 fps", "A"]
  {
    var parts1 := [Some("Cam1"), None, Some("GPS"), Some("deg,deg,m,m/s,m/s")];
    assert parts1 == [Some("Cam1")] + [None] + [Some("GPS")] + [Some("deg,deg,m,m/s,m/s")];
    PresentAppend([Some("Cam1")] + [None] + [Some("GPS")], [Some("deg,deg,m,m/s,m/s")]);
    PresentAppend([Some("Cam1")] + [None], [Some("GPS")]);
    PresentAppend([Some("Cam1")], [None]);
    var parts := [None, Some("30 fps"), Some("A"), None];
    assert parts == [None] + [Some("30 fps")] + [Some("A")] + [None];
    PresentAppend([None] + [Some("30 fps")] + [Some("A")], [None]);
    PresentAppend([None] + [Some("30 fps")], [Some("A")]);
    PresentAppend([None], [Some("30 fps")]);
  }

  /** The GPS5 stream of the end-to-end example: one sample of three values. */
  function CamStream(): Stream
  {
    Stream(Some("GPS"), Some(["deg", "deg", "m", "m/s", "m/s"]), Some([Sample(Some(["1", "2", "3"]), None, None)]))
  }

  /** The dataset of the end-to-end example: one device named Cam1. */
  function CamDataset(): Dataset
  {
    Dataset(None, [("devA", Device(Some("Cam1"), Some([("GPS5", CamStream())])))])
  }

  /** The end-to-end example yields the caller's name, the device and stream description, and one placemark. */
  lemma CamDocument(toIso: SampleDate -> Option<string>)
    ensures DocumentOf(CamDataset(), "Track", toIso)
         == Document("Track", "Cam1. GPS. deg,deg,m,m/s,m/s",
                     [PlacemarkOf(Sample(Some(["1", "2", "3"]), None, None), [], toIso)])
  {
    var sample := Sample(Some(["1", "2", "3"]), None, None);
    assert FirstGps5([("GPS5", CamStream())]) == Some(CamStream());
    assert ScanFrom(CamDataset().devices, None) == ScanResult(Some("Cam1"), Some(CamStream()));
    assert Join(["deg", "deg", "m", "m/s", "m/s"], ",") == "deg,deg,m,m/s,m/s";
    assert Placemarks([sample], [], toIso) == [PlacemarkOf(sample, [], toIso)];
    PresentTexts();
    JoinedTexts();
  }

  /** The end-to-end conversion of a one-sample dataset. */
  lemma EndToEnd(toIso: SampleDate -> Option<string>)
    ensures var doc := DocumentOf(CamDataset(), "Track", toIso);
            && doc.name == "Track"
            && doc.description == "Cam1. GPS. deg,deg,m,m/s,m/s"
            && |doc.placemarks| == 1
            && Join(doc.placemarks[0].coordinates, ",") == "2,1,3"
            && doc.placemarks[0].absolute
  {
    CamDocument(toIso);
    var p := PlacemarkOf(Sample(Some(["1", "2", "3"]), None, None), [], toIso);
    assert p.coordinates == ["2", "1", "3"];
    JoinedTexts();
  }

  /** An empty GPS5 sample list still ends the scan: a later, richer device is ignored. */
  lemma EmptySamplesStillMatch(toIso: SampleDate -> Option<string>)
    ensures var empty := Stream(Some("A"), None, Some([]));
            var rich := Stream(Some("B"), None, Some([Sample(Some(["1", "2"]), None, None)]));
            var data := Dataset(Some("30"), [("d1", Device(None, Some([("GPS5", empty)]))),
                                             ("d2", Device(Some("Cam2"), Some([("GPS5", rich)])))]);
            var doc := DocumentOf(data, "T", toIso);
            doc.placemarks == [] && doc.description == "30 fps. A"
  {
    var empty := Stream(Some("A"), None, Some([]));
    var rich := Stream(Some("B"), None, Some([Sample(Some(["1", "2"]), None, None)]));
    var devs := [("d1", Device(None, Some([("GPS5", empty)]))),
                 ("d2", Device(Some("Cam2"), Some([("GPS5", rich)])))];
    assert FirstGps5([("GPS5", empty)]) == Some(empty);
    assert ScanFrom(devs, None) == ScanResult(None, Some(empty));
    PresentTexts();
    JoinedTexts();
  }
}
