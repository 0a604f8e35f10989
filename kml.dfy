/**
  The KML preset: the scan for the first GPS5 stream, the description of
  the file and stream, and the KML 2.0 envelope around the placemarks.
 */
module Kml {
  import opened Wrappers
  import opened Telemetry
  import opened Samples

  /** A streams entry that ends the scan: keyed `GPS5`, with `samples` present (even empty). */
  predicate IsGps5Entry(e: (string, Stream))
  {
    e.0 == "GPS5" && e.1.samples.Some?
  }

  /** The first entry of a streams object that ends the scan, if any. */
  function FirstGps5(streams: seq<(string, Stream)>): (r: Option<Stream>)
    ensures r.Some? ==> r.value.samples.Some?
    ensures r.Some? <==> exists j :: 0 <= j < |streams| && IsGps5Entry(streams[j])
    ensures r.Some? ==> exists j :: 0 <= j < |streams| && IsGps5Entry(streams[j]) && r.value == streams[j].1
                                    && forall k :: 0 <= k < j ==> !IsGps5Entry(streams[k])
  {
    if streams == [] then None
    else if IsGps5Entry(streams[0]) then Some(streams[0].1)
    else
      var r := FirstGps5(streams[1..]);
      assert forall j :: 0 < j < |streams| ==> streams[j] == streams[1..][j - 1];
      r
  }

  /** The GPS5 stream of a device, when it has a streams object holding one. */
  function Gps5Of(d: Device): Option<Stream>
  {
    if d.streams.Some? then FirstGps5(d.streams.value) else None
  }

  /** The remembered device name after visiting `d`. */
  function NameAfter(device: Option<string>, d: Device): Option<string>
  {
    if d.deviceName.Some? then d.deviceName else device
  }

  /** The remembered device name after visiting every device of `devs`. */
  function LastName(devs: seq<(string, Device)>, device: Option<string>): Option<string>
    decreases |devs|
  {
    if devs == [] then device else LastName(devs[1..], NameAfter(device, devs[0].1))
  }

  /** What the scan has when it stops: the remembered device name and the stream it matched. */
  datatype ScanResult = ScanResult(device: Option<string>, found: Option<Stream>)

  /** The scan over the remaining devices, with `device` remembered so far. */
  function ScanFrom(devs: seq<(string, Device)>, device: Option<string>): (r: ScanResult)
    ensures r.found.Some? ==> r.found.value.samples.Some?
    decreases |devs|
  {
    if devs == [] then ScanResult(device, None)
    else
      var dev := NameAfter(device, devs[0].1);
      if Gps5Of(devs[0].1).Some? then ScanResult(dev, Gps5Of(devs[0].1))
      else ScanFrom(devs[1..], dev)
  }

  /** The `frames/second` text, read from the top level of the dataset only. */
  function FrameRate(data: Dataset): (r: Option<string>)
    ensures r.Some? <==> data.framesPerSecond.Some?
  {
    if data.framesPerSecond.Some? then Some(data.framesPerSecond.value + " fps") else None
  }

  /** `units.toString()` on a list of units. */
  function UnitsText(st: Stream): (r: Option<string>)
    ensures r.Some? <==> st.units.Some?
  {
    if st.units.Some? then Some(Join(st.units.value, ",")) else None
  }

  /** What the GPS extraction returns: the placemarks and the description of the file and stream. */
  datatype GpsData = GpsData(placemarks: seq<Placemark>, description: string)

  /** The GPS extraction, as a function of the dataset. */
  function Gps5Data(data: Dataset, toIso: SampleDate -> Option<string>): GpsData
  {
    var scan := ScanFrom(data.devices, None);
    match scan.found
    case None => GpsData([], Join(Present([scan.device, FrameRate(data)]), ". "))
    case Some(st) =>
      GpsData(Placemarks(st.samples.value, [], toIso),
              Join(Present([scan.device, FrameRate(data), st.name, UnitsText(st)]), ". "))
  }

  /**
    The extraction as the source runs it: nested loops over devices and
    streams, and an early return at the first GPS5 stream with samples.
   */
  method GetGps5Data(data: Dataset, toIso: SampleDate -> Option<string>)
    returns (inner: string, description: string)
    ensures inner == RenderAll(Gps5Data(data, toIso).placemarks)
    ensures description == Gps5Data(data, toIso).description
  {
    var frameRate: Option<string> := None;
    var device: Option<string> := None;
    inner := "";
    if data.framesPerSecond.Some? {
      frameRate := Some(data.framesPerSecond.value + " fps");
    }
    var devs := data.devices;
    for i := 0 to |devs|
      invariant ScanFrom(devs[i..], device) == ScanFrom(devs, None)
    {
      ghost var before := device;
      var d := devs[i].1;
      assert devs[i..][0] == devs[i] && devs[i..][1..] == devs[i + 1..];
      if d.deviceName.Some? {
        device := d.deviceName;
      }
      if d.streams.Some? {
        var streams := d.streams.value;
        for j := 0 to |streams|
          invariant FirstGps5(streams[j..]) == FirstGps5(streams)
        {
          assert streams[j..][0] == streams[j] && streams[j..][1..] == streams[j + 1..];
          if streams[j].0 == "GPS5" && streams[j].1.samples.Some? {
            var st := streams[j].1;
            var name: Option<string> := None;
            if st.name.Some? {
              name := st.name;
            }
            var units: Option<string> := None;
            if st.units.Some? {
              units := Some(Join(st.units.value, ","));
            }
            assert ScanFrom(devs, None) == ScanResult(device, Some(st));
            inner := ConvertSamples(st.samples.value, toIso);
            description := Join(Present([device, frameRate, name, units]), ". ");
            return;
          }
        }
        assert FirstGps5(streams) == None;
      }
    }
    description := Join(Present([device, frameRate]), ". ");
  }

  /** The converted document: the caller's name, the description and the placemarks. */
  datatype Document = Document(name: string, description: string, placemarks: seq<Placemark>)

  /** The document for a dataset and a caller-supplied name. */
  function DocumentOf(data: Dataset, name: string, toIso: SampleDate -> Option<string>): Document
  {
    var g := Gps5Data(data, toIso);
    Document(name, g.description, g.placemarks)
  }

  const XML_DECLARATION := "<?xml version=\"1.0\" encoding=\"UTF-8\"?>"
  const KML_OPEN := "<kml xmlns=\"http://earth.google.com/kml/2.0\">"

  /** The KML text of a document, indentation left out. */
  function RenderDocument(doc: Document): string
  {
    XML_DECLARATION + KML_OPEN + "<Document>"
    + "<name>" + doc.name + "</name>"
    + "<description>" + doc.description + "</description>"
    + RenderAll(doc.placemarks)
    + "</Document>" + "</kml>"
  }

  /** The exported conversion: run the extraction, then wrap its result in the envelope. */
  method ToKml(data: Dataset, name: string, toIso: SampleDate -> Option<string>) returns (kml: string)
    ensures kml == RenderDocument(DocumentOf(data, name, toIso))
  {
    var inner, description := GetGps5Data(data, toIso);
    kml := XML_DECLARATION + KML_OPEN + "<Document>"
      + "<name>" + name + "</name>"
      + "<description>" + description + "</description>"
      + inner
      + "</Document>" + "</kml>";
  }

  /** No device before `i` holds a GPS5 stream with samples. */
  predicate NoMatchBefore(devs: seq<(string, Device)>, i: int)
  {
    forall j :: 0 <= j < i && j < |devs| ==> Gps5Of(devs[j].1).None?
  }

  /**
    First match: when device `i` is the first with a GPS5 stream with samples,
    the scan returns that stream and the last device name seen up to and
    including device `i`.
   */
  lemma {:induction false} ScanFirstMatch(devs: seq<(string, Device)>, device: Option<string>, i: nat)
    requires i < |devs| && Gps5Of(devs[i].1).Some? && NoMatchBefore(devs, i)
    ensures ScanFrom(devs, device) == ScanResult(LastName(devs[..i + 1], device), Gps5Of(devs[i].1))
    decreases i
  {
    var d := devs[0].1;
    assert devs[..i + 1][0] == devs[0];
    if i == 0 {
      assert devs[..1][1..] == [];
    } else {
      assert Gps5Of(d).None?;
      assert devs[1..][..i] == devs[..i + 1][1..];
      assert devs[1..][i - 1] == devs[i];
      assert NoMatchBefore(devs[1..], i - 1) by {
        forall j | 0 <= j < i - 1 ensures Gps5Of(devs[1..][j].1).None? {
          assert devs[1..][j] == devs[j + 1];
        }
      }
      ScanFirstMatch(devs[1..], NameAfter(device, d), i - 1);
    }
  }

  /** No match: the scan visits every device and returns only the last device name. */
  lemma {:induction false} ScanNoMatch(devs: seq<(string, Device)>, device: Option<string>)
    requires NoMatchBefore(devs, |devs|)
    ensures ScanFrom(devs, device) == ScanResult(LastName(devs, device), None)
    decreases |devs|
  {
    if devs != [] {
      assert Gps5Of(devs[0].1).None?;
      assert NoMatchBefore(devs[1..], |devs| - 1) by {
        forall j | 0 <= j < |devs| - 1 ensures Gps5Of(devs[1..][j].1).None? {
          assert devs[1..][j] == devs[j + 1];
        }
      }
      ScanNoMatch(devs[1..], NameAfter(device, devs[0].1));
    }
  }

  /** Once the scan has matched, devices appended after the dataset change nothing. */
  lemma {:induction false} LaterDevicesIgnored(devs: seq<(string, Device)>, rest: seq<(string, Device)>,
                                               device: Option<string>)
    requires ScanFrom(devs, device).found.Some?
    ensures ScanFrom(devs + rest, device) == ScanFrom(devs, device)
    decreases |devs|
  {
    assert devs != [];
    assert (devs + rest)[0] == devs[0] && (devs + rest)[1..] == devs[1..] + rest;
    if Gps5Of(devs[0].1).None? {
      LaterDevicesIgnored(devs[1..], rest, NameAfter(device, devs[0].1));
    }
  }

  /** The remembered name is that of the last device carrying a `device name`. */
  lemma {:induction false} LastNameIsLast(devs: seq<(string, Device)>, device: Option<string>, j: nat)
    requires j < |devs| && devs[j].1.deviceName.Some?
    requires forall k :: j < k < |devs| ==> devs[k].1.deviceName.None?
    ensures LastName(devs, device) == devs[j].1.deviceName
    decreases j
  {
    if j == 0 {
      LastNameUnnamed(devs[1..], NameAfter(device, devs[0].1));
    } else {
      assert devs[1..][j - 1] == devs[j];
      forall k | j - 1 < k < |devs| - 1 ensures devs[1..][k].1.deviceName.None? {
        assert devs[1..][k] == devs[k + 1];
      }
      LastNameIsLast(devs[1..], NameAfter(device, devs[0].1), j - 1);
    }
  }

  /** Devices without a `device name` leave the remembered name as it was. */
  lemma {:induction false} LastNameUnnamed(devs: seq<(string, Device)>, device: Option<string>)
    requires forall k :: 0 <= k < |devs| ==> devs[k].1.deviceName.None?
    ensures LastName(devs, device) == device
    decreases |devs|
  {
    if devs != [] {
      assert devs[0].1.deviceName.None?;
      forall k | 0 <= k < |devs| - 1 ensures devs[1..][k].1.deviceName.None? {
        assert devs[1..][k] == devs[k + 1];
      }
      LastNameUnnamed(devs[1..], device);
    }
  }

  /**
    The document when device `i` holds the first GPS5 stream with samples:
    the caller's name, the description from the device name, frame rate,
    stream name and units that are present, and the stream's placemarks.
   */
  lemma DocumentOnMatch(data: Dataset, name: string, toIso: SampleDate -> Option<string>, i: nat)
    requires i < |data.devices| && Gps5Of(data.devices[i].1).Some? && NoMatchBefore(data.devices, i)
    ensures var st := Gps5Of(data.devices[i].1).value;
            var doc := DocumentOf(data, name, toIso);
            && doc.name == name
            && doc.description
               == Join(Present([LastName(data.devices[..i + 1], None), FrameRate(data), st.name, UnitsText(st)]), ". ")
            && doc.placemarks == Placemarks(st.samples.value, [], toIso)
  {
    ScanFirstMatch(data.devices, None, i);
  }

  /** The document when no device holds a GPS5 stream with samples: no placemarks. */
  lemma DocumentNoMatch(data: Dataset, name: string, toIso: SampleDate -> Option<string>)
    requires NoMatchBefore(data.devices, |data.devices|)
    ensures var doc := DocumentOf(data, name, toIso);
            && doc.name == name
            && doc.description == Join(Present([LastName(data.devices, None), FrameRate(data)]), ". ")
            && doc.placemarks == []
  {
    ScanNoMatch(data.devices, None);
  }

  /** The number of placemarks in the document is the number of valid samples of the matched stream. */
  lemma DocumentPlacemarkCount(data: Dataset, name: string, toIso: SampleDate -> Option<string>)
    ensures var scan := ScanFrom(data.devices, None);
            |DocumentOf(data, name, toIso).placemarks|
            == if scan.found.Some? then CountValid(scan.found.value.samples.value) else 0
  {
    var scan := ScanFrom(data.devices, None);
    if scan.found.Some? {
      PlacemarkCount(scan.found.value.samples.value, [], toIso);
    }
  }
}
