/** The dashboard's device doughnut (app/Filament/Widgets/VisitorDeviceStats.php):
    the device breakdown, or a single placeholder slice when there is none,
    with one colour per slice. */
module DeviceStats {
  import opened Common
  import opened Collections
  import opened Visitors

  const NoData := "No data yet"
  const FallbackColor := "#999"

  /** The colour table, with `#999` for any label it does not list. */
  function ColorFor(name: string): (c: string)
    ensures name !in {"Desktop", "Mobile", "Tablet", NoData} <==> c == FallbackColor
  {
    if name == "Desktop" then "#C4927A"
    else if name == "Mobile" then "#E8B4B8"
    else if name == "Tablet" then "#D4C4B0"
    else if name == NoData then "#ccc"
    else FallbackColor
  }

  /** The slices actually drawn: the breakdown, or the placeholder. */
  function Slices(devices: seq<(string, nat)>): (s: seq<(string, nat)>)
    ensures |s| > 0
  {
    if devices == [] then [(NoData, 1)] else devices
  }

  function Counts<K>(g: seq<(K, nat)>): (vs: seq<nat>)
    ensures |vs| == |g| && forall i :: 0 <= i < |g| ==> vs[i] == g[i].1
  {
    seq(|g|, i requires 0 <= i < |g| => g[i].1)
  }

  /** `getData()`: labels, values and background colours, one per slice and
      in the same order. */
  method DeviceChart(devices: seq<(string, nat)>) returns (labels: seq<string>, values: seq<nat>, colors: seq<string>)
    ensures labels == Keys(Slices(devices)) && values == Counts(Slices(devices))
    ensures |colors| == |labels| && forall i :: 0 <= i < |labels| ==> colors[i] == ColorFor(labels[i])
  {
    var ds := devices;
    if ds == [] {
      ds := [(NoData, 1)];
    }
    colors := [];
    var keys := Keys(ds);
    var i := 0;
    while i < |keys|
      invariant 0 <= i <= |keys|
      invariant |colors| == i && forall j :: 0 <= j < i ==> colors[j] == ColorFor(keys[j])
    {
      colors := colors + [ColorFor(keys[i])];
      i := i + 1;
    }
    labels := keys;
    values := Counts(ds);
  }

  /** The placeholder is drawn exactly when no visit has a device type;
      otherwise the slices add up to the visits that have one. */
  lemma PlaceholderIffNoDevices(rows: seq<VisitRecord>)
    ensures DeviceBreakdown(rows) == [] <==> forall i :: 0 <= i < |rows| ==> rows[i].deviceType.None?
    ensures DeviceBreakdown(rows) != [] ==>
      SumCounts(Slices(DeviceBreakdown(rows))) == |Filter(Devices(rows), (o: Option<string>) => o.Some?)|
  {
    var s := DeviceBreakdown(rows);
    if s != [] {
      var x := s[0].0;
      assert Some(x) in Devices(rows);
      var k :| 0 <= k < |Devices(rows)| && Devices(rows)[k] == Some(x);
      assert rows[k].deviceType == Some(x);
    }
  }
}
