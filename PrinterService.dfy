/**
 * `BrotherQL820Service` (brotherPrinter.js): the JavaScript printer service
 * that remembers whether it is connected and to which printer, gates its
 * print calls on that, merges print options with defaults, and filters scan
 * results down to QL-820 printers.
 *
 * The `react-native-brother-printing` library is a recording stub
 * (`PrintingLibrary`) whose answers are fixed when it is made.
 */
module PrinterService {
  import opened Wrappers
  import opened Text

  /** The JavaScript values an options object can hold (numbers are integers here). */
  datatype JsValue = JsString(str: string) | JsNumber(num: int) | JsBool(flag: bool) | JsNull | JsUndefined

  /** JavaScript truthiness: "", 0, false, null and undefined are falsy. */
  predicate Truthy(v: JsValue)
  {
    match v
    case JsString(s) => s != ""
    case JsNumber(n) => n != 0
    case JsBool(b) => b
    case JsNull => false
    case JsUndefined => false
  }

  /** A plain object, as its own enumerable string keys and their values. */
  type JsObject = map<string, JsValue>

  /** `obj.key`, which is undefined for a missing key. */
  function Get(obj: JsObject, key: string): JsValue
  {
    if key in obj then obj[key] else JsUndefined
  }

  /** `obj.key || fallback`. */
  function OrDefault(obj: JsObject, key: string, fallback: JsValue): (v: JsValue)
    ensures Truthy(Get(obj, key)) ==> v == obj[key]
    ensures !Truthy(Get(obj, key)) ==> v == fallback
  {
    if Truthy(Get(obj, key)) then obj[key] else fallback
  }

  /** `{...base, ...over}`: every key of `over` replaces the same key of `base`. */
  function Spread(base: JsObject, over: JsObject): (merged: JsObject)
    ensures merged.Keys == base.Keys + over.Keys
    ensures forall k :: k in over ==> merged[k] == over[k]
    ensures forall k :: k in base && k !in over ==> merged[k] == base[k]
  {
    base + over
  }

  /** The defaults `printZPL` writes before spreading the caller's options over them. */
  function ZplDefaults(options: JsObject): JsObject
  {
    map["printerModel" := JsString("QL-820NWB"),
        "paperSize" := OrDefault(options, "paperSize", JsString("W62")),
        "numberOfCopies" := OrDefault(options, "copies", JsNumber(1))]
  }

  /** `printImage` adds a halftone default. */
  function ImageDefaults(options: JsObject): JsObject
  {
    ZplDefaults(options)["halftone" := OrDefault(options, "halftone", JsString("THRESHOLD"))]
  }

  /** The options `printZPL` hands to the library. */
  function ZplPrintOptions(options: JsObject): JsObject
  {
    Spread(ZplDefaults(options), options)
  }

  /** The options `printImage` hands to the library. */
  function ImagePrintOptions(options: JsObject): JsObject
  {
    Spread(ImageDefaults(options), options)
  }

  /**
   * A key given by the caller always wins, whatever its value, so the
   * `|| 'W62'` fallback of paperSize only takes effect when the key is absent;
   * numberOfCopies comes from `copies`, a falsy one (0 included) giving 1,
   * unless the caller set numberOfCopies itself; and the caller can replace
   * even printerModel.
   */
  lemma ZplPrintOptionsMerge(options: JsObject)
    ensures var merged := ZplPrintOptions(options);
            && merged.Keys == options.Keys + {"printerModel", "paperSize", "numberOfCopies"}
            && (forall k :: k in options ==> merged[k] == options[k])
            && merged["printerModel"] == (if "printerModel" in options then options["printerModel"] else JsString("QL-820NWB"))
            && merged["paperSize"] == (if "paperSize" in options then options["paperSize"] else JsString("W62"))
            && merged["numberOfCopies"]
               == (if "numberOfCopies" in options then options["numberOfCopies"]
                   else if Truthy(Get(options, "copies")) then options["copies"] else JsNumber(1))
  {
  }

  /** The image options are the ZPL options plus a halftone, THRESHOLD unless the caller gave one. */
  lemma ImagePrintOptionsMerge(options: JsObject)
    ensures var merged := ImagePrintOptions(options);
            && merged.Keys == ZplPrintOptions(options).Keys + {"halftone"}
            && (forall k :: k in ZplPrintOptions(options) && k != "halftone" ==> merged[k] == ZplPrintOptions(options)[k])
            && merged["halftone"] == (if "halftone" in options then options["halftone"] else JsString("THRESHOLD"))
  {
  }

  /** `copies: 0` still prints one copy, while `paperSize: ''` is passed through as it is. */
  lemma FalsyOptionExamples()
    ensures ZplPrintOptions(map["copies" := JsNumber(0)])["numberOfCopies"] == JsNumber(1)
    ensures ZplPrintOptions(map["paperSize" := JsString("")])["paperSize"] == JsString("")
  {
    ZplPrintOptionsMerge(map["copies" := JsNumber(0)]);
    ZplPrintOptionsMerge(map["paperSize" := JsString("")]);
  }

  /** A printer object as the screens pass it around; `modelName` may be missing. */
  datatype Printer = Printer(modelName: Option<string>, macAddress: string, ipAddress: string)

  /** Calls into `react-native-brother-printing`. */
  datatype LibraryCall =
    | ConnectBluetooth(macAddress: string)
    | ConnectWiFi(ipAddress: string)
    | Disconnect
    | PrintZpl(zplCode: string, options: JsObject)
    | PrintImageViaBluetooth(imageUri: string, options: JsObject)

  /** How a library call settles: a result with `success` truthy, any other result, or a rejection. */
  datatype LibraryAnswer = Succeeds | Fails | Rejects

  /** The library as a stub with scripted answers that records every call made to it. */
  class PrintingLibrary {
    const onConnect: LibraryAnswer
    const onDisconnect: LibraryAnswer
    const onPrint: LibraryAnswer
    var calls: seq<LibraryCall>

    constructor (onConnect: LibraryAnswer, onDisconnect: LibraryAnswer, onPrint: LibraryAnswer)
      ensures this.onConnect == onConnect && this.onDisconnect == onDisconnect && this.onPrint == onPrint
      ensures calls == []
    {
      this.onConnect := onConnect;
      this.onDisconnect := onDisconnect;
      this.onPrint := onPrint;
      calls := [];
    }

    method Connect(call: LibraryCall) returns (answer: LibraryAnswer)
      requires call.ConnectBluetooth? || call.ConnectWiFi?
      modifies this
      ensures calls == old(calls) + [call] && answer == onConnect
    {
      calls := calls + [call];
      answer := onConnect;
    }

    method DisconnectPrinter() returns (answer: LibraryAnswer)
      modifies this
      ensures calls == old(calls) + [Disconnect] && answer == onDisconnect
    {
      calls := calls + [Disconnect];
      answer := onDisconnect;
    }

    method Print(call: LibraryCall) returns (answer: LibraryAnswer)
      requires call.PrintZpl? || call.PrintImageViaBluetooth?
      modifies this
      ensures calls == old(calls) + [call] && answer == onPrint
    {
      calls := calls + [call];
      answer := onPrint;
    }
  }

  /**
   * The library call `connectToPrinter` makes: Bluetooth to the MAC address
   * for the type 'bluetooth' (also the default), WiFi to the IP address for any
   * other string.
   */
  function ConnectCall(printer: Printer, connectionType: Option<string>): (call: LibraryCall)
    ensures call.ConnectBluetooth? || call.ConnectWiFi?
  {
    var kind := if connectionType.Some? then connectionType.value else "bluetooth";
    if kind == "bluetooth" then ConnectBluetooth(printer.macAddress) else ConnectWiFi(printer.ipAddress)
  }

  /**
   * Bluetooth, to the printer's MAC address, exactly when the type is missing
   * or is exactly 'bluetooth'; WiFi, to its IP address, for every other type.
   */
  lemma ConnectCallChoice(printer: Printer, connectionType: Option<string>)
    ensures ConnectCall(printer, connectionType).ConnectBluetooth?
            <==> connectionType.None? || connectionType.value == "bluetooth"
    ensures ConnectCall(printer, connectionType).ConnectBluetooth? ==>
              ConnectCall(printer, connectionType) == ConnectBluetooth(printer.macAddress)
    ensures ConnectCall(printer, connectionType).ConnectWiFi? ==>
              ConnectCall(printer, connectionType) == ConnectWiFi(printer.ipAddress)
  {
  }

  /** Unlike the Kotlin bridge, the comparison is exact: 'Bluetooth' selects WiFi. */
  lemma ConnectCallExamples(printer: Printer)
    ensures ConnectCall(printer, None) == ConnectBluetooth(printer.macAddress)
    ensures ConnectCall(printer, Some("bluetooth")) == ConnectBluetooth(printer.macAddress)
    ensures ConnectCall(printer, Some("Bluetooth")) == ConnectWiFi(printer.ipAddress)
    ensures ConnectCall(printer, Some("wifi")) == ConnectWiFi(printer.ipAddress)
  {
  }

  /** What `getConnectionInfo` returns. */
  datatype ConnectionInfo = ConnectionInfo(isConnected: bool, connectedPrinter: Option<Printer>)

  class BrotherQL820Service {
    var isConnected: bool
    var connectedPrinter: Option<Printer>

    /** The service is connected exactly when it remembers a printer. */
    predicate Valid()
      reads this
    {
      isConnected <==> connectedPrinter.Some?
    }

    constructor ()
      ensures !isConnected && connectedPrinter == None
      ensures Valid()
    {
      isConnected := false;
      connectedPrinter := None;
    }

    /** Connects and remembers the printer only when the library reports success. */
    method ConnectToPrinter(printer: Printer, connectionType: Option<string>, library: PrintingLibrary)
      returns (connected: bool)
      modifies this, library
      ensures library.calls == old(library.calls) + [ConnectCall(printer, connectionType)]
      ensures connected <==> library.onConnect == Succeeds
      ensures connected ==> isConnected && connectedPrinter == Some(printer)
      ensures !connected ==> isConnected == old(isConnected) && connectedPrinter == old(connectedPrinter)
      ensures old(Valid()) ==> Valid()
    {
      var result := library.Connect(ConnectCall(printer, connectionType));
      if result == Succeeds {
        isConnected := true;
        connectedPrinter := Some(printer);
        return true;
      }
      return false;
    }

    /** Forgets the printer once the library's disconnect resolves; a rejection changes nothing. */
    method Disconnect(library: PrintingLibrary)
      modifies this, library
      ensures library.calls == old(library.calls) + [LibraryCall.Disconnect]
      ensures library.onDisconnect != Rejects ==> !isConnected && connectedPrinter == None
      ensures library.onDisconnect == Rejects ==> isConnected == old(isConnected) && connectedPrinter == old(connectedPrinter)
      ensures old(Valid()) ==> Valid()
    {
      var result := library.DisconnectPrinter();
      if result != Rejects {
        isConnected := false;
        connectedPrinter := None;
      }
    }

    /**
     * `printZPL`: false without any library call when not connected; otherwise
     * the library's verdict. A print only ever goes out with a printer remembered.
     */
    method PrintZPL(zplCode: string, options: JsObject, library: PrintingLibrary) returns (printed: bool)
      requires Valid()
      modifies library
      ensures library.calls != old(library.calls) ==> connectedPrinter.Some?
      ensures !isConnected ==> !printed && library.calls == old(library.calls)
      ensures isConnected ==> library.calls == old(library.calls) + [PrintZpl(zplCode, ZplPrintOptions(options))]
                              && (printed <==> library.onPrint == Succeeds)
    {
      if !isConnected {
        return false;
      }
      var result := library.Print(PrintZpl(zplCode, ZplPrintOptions(options)));
      printed := result == Succeeds;
    }

    /** `printImage`: the same gate, with the image options and the Bluetooth image call. */
    method PrintImage(imageUri: string, options: JsObject, library: PrintingLibrary) returns (printed: bool)
      requires Valid()
      modifies library
      ensures library.calls != old(library.calls) ==> connectedPrinter.Some?
      ensures !isConnected ==> !printed && library.calls == old(library.calls)
      ensures isConnected ==> library.calls == old(library.calls) + [PrintImageViaBluetooth(imageUri, ImagePrintOptions(options))]
                              && (printed <==> library.onPrint == Succeeds)
    {
      if !isConnected {
        return false;
      }
      var result := library.Print(PrintImageViaBluetooth(imageUri, ImagePrintOptions(options)));
      printed := result == Succeeds;
    }

    /** `getConnectionInfo`: a snapshot of the two fields. */
    function GetConnectionInfo(): (info: ConnectionInfo)
      reads this
      requires Valid()
      ensures info.isConnected == isConnected && info.connectedPrinter == connectedPrinter
      ensures info.isConnected <==> info.connectedPrinter.Some?
    {
      ConnectionInfo(isConnected, connectedPrinter)
    }
  }

  /**
   * A fresh service refuses to print, connects only on success, prints once
   * connected, and after a disconnect refuses again.
   */
  method ServiceSession(printer: Printer, zplCode: string) returns (before: bool, during: bool, after: bool)
    ensures !before && during && !after
  {
    var library := new PrintingLibrary(Succeeds, Succeeds, Succeeds);
    var service := new BrotherQL820Service();
    before := service.PrintZPL(zplCode, map[], library);
    var connected := service.ConnectToPrinter(printer, None, library);
    during := service.PrintZPL(zplCode, map[], library);
    service.Disconnect(library);
    after := service.PrintZPL(zplCode, map[], library);
  }

  /** `printer.modelName && printer.modelName.includes('QL-820')`. */
  predicate IsQL820(printer: Printer)
  {
    printer.modelName.Some? && printer.modelName.value != "" && Contains(printer.modelName.value, "QL-820")
  }

  /** The printers that pass the filter, in order. */
  function QL820Only(printers: seq<Printer>): (kept: seq<Printer>)
    ensures |kept| <= |printers|
    ensures forall p :: p in kept ==> p in printers && IsQL820(p)
  {
    if printers == [] then []
    else (if IsQL820(printers[0]) then [printers[0]] else []) + QL820Only(printers[1..])
  }

  /**
   * How `scanForPrinterDevices` settles: a rejection, `null` (on timeout), a
   * list, or never. Its list branch is commented out, and its first step
   * awaits `requestPrinterPermissions`, which no file defines: the resulting
   * ReferenceError is thrown inside the promise's async executor, where it is
   * lost, so the promise as written never settles.
   */
  datatype ScanResult = ScanRejected | ScanNull | ScanList(printers: seq<Printer>) | ScanNeverSettles

  /** The scan as the code stands. */
  const ScanAsWritten: ScanResult := ScanNeverSettles

  /**
   * `searchBluetoothPrinters` (and the identical `searchWiFiPrinters`): the
   * filtered list, or [] when the scan rejects or resolves null (filtering
   * null throws, and the catch returns []); None when the awaited scan never
   * settles, so the search never returns.
   */
  function SearchPrinters(scan: ScanResult): (found: Option<seq<Printer>>)
    ensures found.None? <==> scan.ScanNeverSettles?
    ensures scan.ScanRejected? || scan.ScanNull? ==> found == Some([])
    ensures scan.ScanList? ==> found.Some? && forall p :: p in found.value <==> p in scan.printers && IsQL820(p)
  {
    match scan
    case ScanList(printers) =>
      forall p | p in printers && IsQL820(p) ensures p in QL820Only(printers) {
        QL820OnlyKeepsEvery(printers, p);
      }
      Some(QL820Only(printers))
    case ScanNeverSettles => None
    case _ => Some([])
  }

  /** As written, a search never returns. */
  lemma SearchAsWrittenHangs()
    ensures SearchPrinters(ScanAsWritten) == None
  {
  }

  /** Every QL-820 printer of the scan is kept; with the contract of QL820Only, exactly those are. */
  lemma {:induction false} QL820OnlyKeepsEvery(printers: seq<Printer>, p: Printer)
    requires p in printers && IsQL820(p)
    ensures p in QL820Only(printers)
    decreases |printers|
  {
    if printers[0] != p {
      assert p in printers[1..];
      QL820OnlyKeepsEvery(printers[1..], p);
    }
  }

  /** Filtering distributes over concatenation, so the kept printers stay in scan order. */
  lemma {:induction false} QL820OnlyAppend(a: seq<Printer>, b: seq<Printer>)
    ensures QL820Only(a + b) == QL820Only(a) + QL820Only(b)
    decreases |a|
  {
    if a == [] {
      assert a + b == b;
    } else {
      assert (a + b)[0] == a[0] && (a + b)[1..] == a[1..] + b;
      QL820OnlyAppend(a[1..], b);
    }
  }
}
