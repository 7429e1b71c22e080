/**
  Device discovery on the account response: keep the bulbs, in order,
  and mirror each one as a light record.
*/
module Discovery {
  import opened Wrappers
  import opened VendorApi
  import opened Capabilities

  predicate IsBulb(d: Device) {
    d.deviceType == Bulb
  }

  /** The bulb devices of a device list, in their relative order. */
  function Bulbs(ds: seq<Device>): seq<Device> {
    if ds == [] then []
    else Bulbs(ds[..|ds| - 1]) + (if IsBulb(ds[|ds| - 1]) then [ds[|ds| - 1]] else [])
  }

  /** The positions of the bulb devices in a device list. */
  function BulbIndices(ds: seq<Device>): seq<nat> {
    if ds == [] then []
    else BulbIndices(ds[..|ds| - 1]) + (if IsBulb(ds[|ds| - 1]) then [|ds| - 1] else [])
  }

  /** Discovery faults: some bulb device reports a brightness range. */
  predicate DiscoveryFaults(ds: seq<Device>) {
    exists i :: 0 <= i < |ds| && IsBulb(ds[i]) && ReportsBrightness(ds[i].capabilities)
  }

  /** What a light mirrors of its device: id, name, on/off state, brightness, token. */
  datatype LightRecord = LightRecord(deviceId: string, name: string, state: Value, brightness: Option<int>, token: string)

  /** The record discovery builds for a bulb device under a hub's token. */
  function Discovered(d: Device, token: string): LightRecord {
    LightRecord(d.id, d.name, Enabled(d.capabilities), None, token)
  }

  /**
    Bulbs keeps exactly the bulb devices, each once, in their order: its
    k-th element is the device at the k-th bulb position, the positions
    increase strictly, and a position is listed iff a bulb is there.
  */
  lemma {:induction false} BulbsInOrder(ds: seq<Device>)
    ensures |BulbIndices(ds)| == |Bulbs(ds)|
    ensures forall k :: 0 <= k < |BulbIndices(ds)| ==>
                          BulbIndices(ds)[k] < |ds| && Bulbs(ds)[k] == ds[BulbIndices(ds)[k]]
    ensures forall k, l :: 0 <= k < l < |BulbIndices(ds)| ==> BulbIndices(ds)[k] < BulbIndices(ds)[l]
    ensures forall i :: 0 <= i < |ds| ==> (IsBulb(ds[i]) <==> i in BulbIndices(ds))
  {
    if ds != [] {
      var n := |ds| - 1;
      var init := ds[..n];
      BulbsInOrder(init);
      assert forall i :: 0 <= i < n ==> init[i] == ds[i];
      assert forall k :: 0 <= k < |BulbIndices(init)| ==> BulbIndices(init)[k] < n;
    }
  }

  /** Only bulbs can make discovery fault; devices of other types are never read. */
  lemma FaultsAreFromBulbs(ds: seq<Device>)
    ensures DiscoveryFaults(ds) <==>
            exists k :: 0 <= k < |Bulbs(ds)| && ReportsBrightness(Bulbs(ds)[k].capabilities)
  {
    BulbsInOrder(ds);
    var idx := BulbIndices(ds);
    if DiscoveryFaults(ds) {
      var i :| 0 <= i < |ds| && IsBulb(ds[i]) && ReportsBrightness(ds[i].capabilities);
      var k :| 0 <= k < |idx| && idx[k] == i;
      assert Bulbs(ds)[k] == ds[i];
    }
    if exists k :: 0 <= k < |Bulbs(ds)| && ReportsBrightness(Bulbs(ds)[k].capabilities) {
      var k :| 0 <= k < |Bulbs(ds)| && ReportsBrightness(Bulbs(ds)[k].capabilities);
      assert IsBulb(ds[idx[k]]);
    }
  }

  /** Appending a device extends the bulb list by that device exactly when it is a bulb. */
  lemma BulbsSnoc(ds: seq<Device>, d: Device)
    ensures Bulbs(ds + [d]) == Bulbs(ds) + (if IsBulb(d) then [d] else [])
  {
    assert (ds + [d])[..|ds|] == ds;
  }

  /** One more device of the list extends the bulbs of the prefix by that device exactly when it is a bulb. */
  lemma BulbsPrefix(ds: seq<Device>, i: nat)
    requires i < |ds|
    ensures Bulbs(ds[..i + 1]) == Bulbs(ds[..i]) + (if IsBulb(ds[i]) then [ds[i]] else [])
  {
    assert ds[..i + 1] == ds[..i] + [ds[i]];
    BulbsSnoc(ds[..i], ds[i]);
  }
}
