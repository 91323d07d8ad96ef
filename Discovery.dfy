/**
 * The bonded-device loop shared by the Kotlin bridge's `searchBluetoothPrinters`
 * and `discoverPrinters`: every paired device whose name marks it as a Brother
 * printer becomes one printer entry, in the order the adapter lists them.
 */
module Discovery {
  import opened Wrappers
  import opened PrinterSettings

  /** A paired device as `bondedDevices` reports it; its name may be null. */
  datatype BondedDevice = BondedDevice(name: Option<string>, address: string)

  /** What reading `bondedDevices` gives: the paired devices, or an exception (its message may be null). */
  datatype BondedList = Bonded(devices: seq<BondedDevice>) | BondedThrows(message: Option<string>)

  /** The map pushed for each printer found. */
  datatype PrinterEntry = PrinterEntry(name: string, macAddress: string, connectionType: string, status: string)

  /** The entry for one device, with `fallbackName` standing in for a null name. */
  function EntryFor(device: BondedDevice, fallbackName: string): (entry: PrinterEntry)
    ensures entry.macAddress == device.address
    ensures entry.connectionType == "bluetooth" && entry.status == "paired"
  {
    PrinterEntry(if device.name.Some? then device.name.value else fallbackName, device.address, "bluetooth", "paired")
  }

  /** The entries of the Brother printers among `devices`, in order. */
  function BrotherEntries(devices: seq<BondedDevice>, fallbackName: string): (entries: seq<PrinterEntry>)
    ensures |entries| <= |devices|
  {
    if devices == [] then []
    else
      var last := devices[|devices| - 1];
      BrotherEntries(devices[..|devices| - 1], fallbackName)
      + (if IsBrotherPrinter(last.name) then [EntryFor(last, fallbackName)] else [])
  }

  /** The loop over the bonded devices (BrotherPrinterModule.kt, both discovery methods). */
  method CollectBrotherPrinters(devices: seq<BondedDevice>, fallbackName: string) returns (found: seq<PrinterEntry>)
    ensures found == BrotherEntries(devices, fallbackName)
  {
    found := [];
    var i := 0;
    while i < |devices|
      invariant 0 <= i <= |devices|
      invariant found == BrotherEntries(devices[..i], fallbackName)
    {
      var device := devices[i];
      if IsBrotherPrinter(device.name) {
        found := found + [EntryFor(device, fallbackName)];
      }
      assert devices[..i + 1][..i] == devices[..i];
      i := i + 1;
    }
    assert devices[..i] == devices;
  }

  /**
   * An entry is in the result exactly when some listed device is a Brother
   * printer and the entry is that device's.
   */
  lemma {:induction false} BrotherEntriesMembership(devices: seq<BondedDevice>, fallbackName: string, entry: PrinterEntry)
    ensures entry in BrotherEntries(devices, fallbackName)
            <==> exists d :: d in devices && IsBrotherPrinter(d.name) && entry == EntryFor(d, fallbackName)
    decreases |devices|
  {
    if devices != [] {
      var front := devices[..|devices| - 1];
      var last := devices[|devices| - 1];
      var brother := IsBrotherPrinter(last.name);
      var tail := if brother then [EntryFor(last, fallbackName)] else [];
      assert BrotherEntries(devices, fallbackName) == BrotherEntries(front, fallbackName) + tail;
      BrotherEntriesMembership(front, fallbackName, entry);
      assert devices == front + [last];
      if exists d :: d in devices && IsBrotherPrinter(d.name) && entry == EntryFor(d, fallbackName) {
        var d :| d in devices && IsBrotherPrinter(d.name) && entry == EntryFor(d, fallbackName);
        if d != last {
          assert d in front;
        }
      }
      if entry in tail {
        assert last in devices;
      }
    }
  }

  /**
   * A device with a null name is never a Brother printer, so the fallback
   * name is never used: each entry carries the name and address of a listed device.
   */
  lemma {:induction false} BrotherEntriesUseDeviceNames(devices: seq<BondedDevice>, fallbackName: string)
    ensures forall e :: e in BrotherEntries(devices, fallbackName) ==>
              exists d :: d in devices && d.name == Some(e.name) && d.address == e.macAddress
    decreases |devices|
  {
    if devices != [] {
      var front := devices[..|devices| - 1];
      var last := devices[|devices| - 1];
      BrotherEntriesUseDeviceNames(front, fallbackName);
      forall e | e in BrotherEntries(devices, fallbackName)
        ensures exists d :: d in devices && d.name == Some(e.name) && d.address == e.macAddress
      {
        if e in BrotherEntries(front, fallbackName) {
          var d :| d in front && d.name == Some(e.name) && d.address == e.macAddress;
          assert d in devices;
        } else {
          assert e == EntryFor(last, fallbackName) && IsBrotherPrinter(last.name);
          assert last in devices;
        }
      }
    }
  }
}
