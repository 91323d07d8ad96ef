/**
 * The print and connect sequences of the Kotlin bridge (BrotherPrinterModule.kt):
 * check the adapter, open a channel, locate the file, print, close the channel,
 * and settle the JavaScript promise.
 *
 * The vendor SDK is a recording stub (`Sdk`) whose answers are fixed when it is
 * made; the promise (`Promise`) records every resolve and reject it receives.
 * Each bridge method is proved to leave exactly the calls and settlements that a
 * specification function (`BluetoothJob`, `ConnectJob`, `StatusJob`) describes,
 * and the lemmas state what those traces guarantee.
 */
module PrintBridge {
  import opened Wrappers
  import opened PrinterSettings
  import opened FilePaths
  import opened Discovery

  /** The Bluetooth adapter as the platform reports it (`bluetoothManager.adapter`, `isEnabled`). */
  datatype Adapter = NoAdapter | AdapterOff | AdapterOn

  /** What the platform answers during one bridge call. */
  datatype Platform = Platform(adapter: Adapter, storage: Storage, clockMillis: nat, workPath: Option<string>)

  datatype Transport = Bluetooth(macAddress: string) | Wifi(ipAddress: string)

  datatype ScaleMode = FitPaperAspect
  datatype Orientation = Landscape
  datatype Halftone = Threshold

  /** The QLPrintSettings fields the bridge sets; `halftone` None leaves the driver's default. */
  datatype PrintSettings = PrintSettings(
    model: PrinterModel, labelSize: LabelSize, autoCut: bool, scaleMode: ScaleMode,
    orientation: Orientation, halftone: Option<Halftone>, workPath: Option<string>)

  /** Calls into the vendor SDK. */
  datatype SdkCall =
    | OpenChannel(transport: Transport)
    | PrintImage(imagePath: string, settings: PrintSettings)
    | PrintPdf(pdfPath: string, settings: PrintSettings)
    | CloseChannel

  /** How an SDK call ends: without error, with an error code, or by throwing (the message may be null). */
  datatype SdkAnswer = NoError | ErrorCode(code: string) | Throws(message: Option<string>)

  /** The answers the SDK gives to opening, printing and closing during one bridge call. */
  datatype SdkScript = SdkScript(onOpen: SdkAnswer, onPrint: SdkAnswer, onClose: SdkAnswer)

  /** What the bridge hands to a resolved promise. */
  datatype Reply =
    | Message(text: string)
    | ConnectionInfo(status: string, connectionType: string, address: string, message: string)
    | PrinterStatus(status: string, connection: string)
    | Printers(entries: seq<PrinterEntry>)

  /** The error codes the bridge rejects with. */
  datatype RejectCode =
    | BluetoothError | ChannelError | FileError | PrintError | Exception
    | InvalidType | ConnectionError | ConnectionException | StatusError
    | PermissionError | SearchError

  /** The code string JavaScript sees. */
  function CodeName(code: RejectCode): string
  {
    match code
    case BluetoothError => "BLUETOOTH_ERROR"
    case ChannelError => "CHANNEL_ERROR"
    case FileError => "FILE_ERROR"
    case PrintError => "PRINT_ERROR"
    case Exception => "EXCEPTION"
    case InvalidType => "INVALID_TYPE"
    case ConnectionError => "CONNECTION_ERROR"
    case ConnectionException => "CONNECTION_EXCEPTION"
    case StatusError => "STATUS_ERROR"
    case PermissionError => "PERMISSION_ERROR"
    case SearchError => "SEARCH_ERROR"
  }

  datatype Settlement = Resolved(reply: Reply) | Rejected(code: RejectCode, message: string)

  /** The SDK calls and promise settlements of one bridge call, in order. */
  datatype Trace = Trace(calls: seq<SdkCall>, settlements: seq<Settlement>)

  /** The vendor SDK as a stub with scripted answers that records every call made to it. */
  class Sdk {
    const script: SdkScript
    var calls: seq<SdkCall>

    constructor (script: SdkScript)
      ensures this.script == script && calls == []
    {
      this.script := script;
      calls := [];
    }

    /** `PrinterDriverGenerator.openChannel`. */
    method Open(transport: Transport) returns (answer: SdkAnswer)
      modifies this
      ensures calls == old(calls) + [OpenChannel(transport)] && answer == script.onOpen
    {
      calls := calls + [OpenChannel(transport)];
      answer := script.onOpen;
    }

    /** `printerDriver.printImage` or `printerDriver.printPDF`. */
    method Print(call: SdkCall) returns (answer: SdkAnswer)
      requires call.PrintImage? || call.PrintPdf?
      modifies this
      ensures calls == old(calls) + [call] && answer == script.onPrint
    {
      calls := calls + [call];
      answer := script.onPrint;
    }

    /** `printerDriver.closeChannel`; the bridge ignores its result unless it throws. */
    method Close() returns (answer: SdkAnswer)
      modifies this
      ensures calls == old(calls) + [CloseChannel] && answer == script.onClose
    {
      calls := calls + [CloseChannel];
      answer := script.onClose;
    }
  }

  /** A React Native promise; it keeps every settlement it is sent. */
  class Promise {
    var settlements: seq<Settlement>

    constructor ()
      ensures settlements == []
    {
      settlements := [];
    }

    method Resolve(reply: Reply)
      modifies this
      ensures settlements == old(settlements) + [Resolved(reply)]
    {
      settlements := settlements + [Resolved(reply)];
    }

    method Reject(code: RejectCode, message: string)
      modifies this
      ensures settlements == old(settlements) + [Rejected(code, message)]
    {
      settlements := settlements + [Rejected(code, message)];
    }

    /** Only the first settlement reaches JavaScript; later ones are ignored. */
    function Outcome(): (o: Option<Settlement>)
      reads this
      ensures o.Some? <==> settlements != []
      ensures o.Some? ==> o.value == settlements[0]
    {
      if settlements == [] then None else Some(settlements[0])
    }
  }

  /** `e.message ?: default`. */
  function ExceptionMessage(message: Option<string>, default: string): string
  {
    if message.Some? then message.value else default
  }

  const UnknownError: string := "Unknown error occurred"

  /** The two kinds of Bluetooth print job, which differ only in their SDK call and messages. */
  datatype Artifact = ImageArtifact | PdfArtifact

  function PrintCall(artifact: Artifact, path: string, settings: PrintSettings): SdkCall
  {
    match artifact
    case ImageArtifact => PrintImage(path, settings)
    case PdfArtifact => PrintPdf(path, settings)
  }

  function NotFoundMessage(artifact: Artifact, path: string): string
  {
    match artifact
    case ImageArtifact => "Image file not found at path: " + path
    case PdfArtifact => "PDF file not found at path: " + path
  }

  function PrintFailedMessage(artifact: Artifact, code: string): string
  {
    match artifact
    case ImageArtifact => "Failed to print image via Bluetooth: " + code
    case PdfArtifact => "Failed to print PDF via Bluetooth: " + code
  }

  function PrintedMessage(artifact: Artifact): string
  {
    match artifact
    case ImageArtifact => "Image printed successfully via Bluetooth"
    case PdfArtifact => "PDF printed successfully via Bluetooth"
  }

  /** The settings `printImageBluetooth` hard-codes, whatever model and label size it is given. */
  function ImageSettings(workPath: Option<string>): PrintSettings
  {
    PrintSettings(QL_820NWB, DieCutW29H90, true, FitPaperAspect, Landscape, Some(Threshold), workPath)
  }

  /** The settings of `printPdfBluetoothV2`, resolved from the caller's model and label-size strings. */
  function PdfSettings(printerModel: string, labelSize: string, workPath: Option<string>): PrintSettings
  {
    PrintSettings(GetPrinterModel(printerModel), GetLabelSize(labelSize), true,
                  FitPaperAspect, Landscape, None, workPath)
  }

  /** The settings `printPdfBluetoothV2` evidently intends: the label size by the corrected lookup. */
  function IntendedPdfSettings(printerModel: string, labelSize: string, workPath: Option<string>): PrintSettings
  {
    PrintSettings(GetPrinterModel(printerModel), GetLabelSizeIgnoringCase(labelSize), true,
                  FitPaperAspect, Landscape, None, workPath)
  }

  /**
   * As written, the PDF job honours the caller's model but always prints on
   * DieCutW29H90, whatever label size it is asked for; it differs from the
   * intended settings in the label size alone.
   */
  lemma PdfSettingsIgnoreLabelSize(printerModel: string, labelSize: string, workPath: Option<string>)
    ensures PdfSettings(printerModel, labelSize, workPath).labelSize == DieCutW29H90
    ensures PdfSettings(printerModel, labelSize, workPath).model == GetPrinterModel(printerModel)
    ensures PdfSettings(printerModel, labelSize, workPath)
            == IntendedPdfSettings(printerModel, labelSize, workPath).(labelSize := DieCutW29H90)
  {
    GetLabelSizeIsConstant(labelSize);
  }

  /** The intended settings print on the label the caller names, in any letter case. */
  lemma IntendedPdfSettingsSelectLabel(printerModel: string, size: LabelSize, spelling: string, workPath: Option<string>)
    requires Text.Upper(spelling) == Text.Upper(LabelSizeName(size))
    ensures IntendedPdfSettings(printerModel, spelling, workPath).labelSize == size
  {
    GetLabelSizeIgnoringCaseRoundTrip(size, spelling);
  }

  function ChannelFailedMessage(code: string): string
  {
    "Failed to open Bluetooth channel: " + code
  }

  /**
   * The trace of a Bluetooth print job: adapter check, open, file lookup
   * (`found`), print, close. A throw anywhere after the adapter check is
   * caught and rejects with EXCEPTION, without closing the channel.
   */
  function BluetoothJob(adapter: Adapter, script: SdkScript, artifact: Artifact, macAddress: string,
                        path: string, found: Option<string>, settings: PrintSettings): Trace
  {
    if adapter == NoAdapter then
      Trace([], [Rejected(BluetoothError, "Bluetooth not supported on this device")])
    else if adapter == AdapterOff then
      Trace([], [Rejected(BluetoothError, "Bluetooth is not enabled")])
    else
      var open := OpenChannel(Bluetooth(macAddress));
      match script.onOpen
      case Throws(m) => Trace([open], [Rejected(Exception, ExceptionMessage(m, UnknownError))])
      case ErrorCode(c) => Trace([open], [Rejected(ChannelError, ChannelFailedMessage(c))])
      case NoError =>
        match found
        case None =>
          Trace([open, CloseChannel],
                if script.onClose.Throws? then [Rejected(Exception, ExceptionMessage(script.onClose.message, UnknownError))]
                else [Rejected(FileError, NotFoundMessage(artifact, path))])
        case Some(actualPath) =>
          var printing := PrintCall(artifact, actualPath, settings);
          match script.onPrint
          case Throws(m) => Trace([open, printing], [Rejected(Exception, ExceptionMessage(m, UnknownError))])
          case ErrorCode(c) =>
            Trace([open, printing, CloseChannel], [Rejected(PrintError, PrintFailedMessage(artifact, c))] + AfterClose(script.onClose))
          case NoError =>
            Trace([open, printing, CloseChannel], [Resolved(Message(PrintedMessage(artifact)))] + AfterClose(script.onClose))
  }

  /** A close that throws after the promise settled sends a second, ignored, rejection. */
  function AfterClose(close: SdkAnswer): seq<Settlement>
  {
    if close.Throws? then [Rejected(Exception, ExceptionMessage(close.message, UnknownError))] else []
  }

  /** The shared body of the two Bluetooth print methods. */
  method RunBluetoothJob(platform: Platform, sdk: Sdk, promise: Promise, artifact: Artifact,
                         macAddress: string, path: string, settings: PrintSettings)
    modifies sdk, promise
    ensures var t := BluetoothJob(platform.adapter, sdk.script, artifact, macAddress, path,
                                  GetValidFilePath(path, platform.storage, platform.clockMillis), settings);
            sdk.calls == old(sdk.calls) + t.calls && promise.settlements == old(promise.settlements) + t.settlements
  {
    if platform.adapter == NoAdapter {
      promise.Reject(BluetoothError, "Bluetooth not supported on this device");
      return;
    }
    if platform.adapter == AdapterOff {
      promise.Reject(BluetoothError, "Bluetooth is not enabled");
      return;
    }
    var open := OpenChannel(Bluetooth(macAddress));
    var openAnswer := sdk.Open(open.transport);
    if openAnswer.Throws? {
      promise.Reject(Exception, ExceptionMessage(openAnswer.message, UnknownError));
      return;
    }
    if openAnswer.ErrorCode? {
      promise.Reject(ChannelError, ChannelFailedMessage(openAnswer.code));
      return;
    }
    var actualPath := GetValidFilePath(path, platform.storage, platform.clockMillis);
    if actualPath.None? {
      var closeAnswer := sdk.Close();
      assert sdk.calls == old(sdk.calls) + [open, CloseChannel];
      if closeAnswer.Throws? {
        promise.Reject(Exception, ExceptionMessage(closeAnswer.message, UnknownError));
        return;
      }
      promise.Reject(FileError, NotFoundMessage(artifact, path));
      return;
    }
    var printing := PrintCall(artifact, actualPath.value, settings);
    var printAnswer := sdk.Print(printing);
    assert sdk.calls == old(sdk.calls) + [open, printing];
    if printAnswer.Throws? {
      promise.Reject(Exception, ExceptionMessage(printAnswer.message, UnknownError));
      return;
    }
    if printAnswer.ErrorCode? {
      promise.Reject(PrintError, PrintFailedMessage(artifact, printAnswer.code));
    } else {
      promise.Resolve(Message(PrintedMessage(artifact)));
    }
    var closeAnswer := sdk.Close();
    assert sdk.calls == old(sdk.calls) + [open, printing, CloseChannel];
    if closeAnswer.Throws? {
      promise.Reject(Exception, ExceptionMessage(closeAnswer.message, UnknownError));
    }
  }

  /**
   * `printImageBluetooth`: prints with the hard-coded QL_820NWB / DieCutW29H90
   * settings; the caller's model and label-size arguments play no part.
   */
  method PrintImageBluetooth(platform: Platform, sdk: Sdk, promise: Promise,
                             macAddress: string, imagePath: string, printerModel: string, labelSize: string)
    modifies sdk, promise
    ensures var t := BluetoothJob(platform.adapter, sdk.script, ImageArtifact, macAddress, imagePath,
                                  GetValidFilePath(imagePath, platform.storage, platform.clockMillis),
                                  ImageSettings(platform.workPath));
            sdk.calls == old(sdk.calls) + t.calls && promise.settlements == old(promise.settlements) + t.settlements
  {
    RunBluetoothJob(platform, sdk, promise, ImageArtifact, macAddress, imagePath, ImageSettings(platform.workPath));
  }

  /** `printPdfBluetoothV2`: prints a PDF with settings resolved from the caller's strings. */
  method PrintPdfBluetoothV2(platform: Platform, sdk: Sdk, promise: Promise,
                             macAddress: string, printerModel: string, labelSize: string, filePath: string)
    modifies sdk, promise
    ensures var t := BluetoothJob(platform.adapter, sdk.script, PdfArtifact, macAddress, filePath,
                                  GetValidFilePath(filePath, platform.storage, platform.clockMillis),
                                  PdfSettings(printerModel, labelSize, platform.workPath));
            sdk.calls == old(sdk.calls) + t.calls && promise.settlements == old(promise.settlements) + t.settlements
  {
    RunBluetoothJob(platform, sdk, promise, PdfArtifact, macAddress, filePath,
                    PdfSettings(printerModel, labelSize, platform.workPath));
  }

  /** `printPdfBluetoothV2` with the corrected label-size lookup it evidently intends. */
  method PrintPdfBluetoothIntended(platform: Platform, sdk: Sdk, promise: Promise,
                                   macAddress: string, printerModel: string, labelSize: string, filePath: string)
    modifies sdk, promise
    ensures var t := BluetoothJob(platform.adapter, sdk.script, PdfArtifact, macAddress, filePath,
                                  GetValidFilePath(filePath, platform.storage, platform.clockMillis),
                                  IntendedPdfSettings(printerModel, labelSize, platform.workPath));
            sdk.calls == old(sdk.calls) + t.calls && promise.settlements == old(promise.settlements) + t.settlements
  {
    RunBluetoothJob(platform, sdk, promise, PdfArtifact, macAddress, filePath,
                    IntendedPdfSettings(printerModel, labelSize, platform.workPath));
  }

  /** How many times a trace closes the channel. */
  function Closes(calls: seq<SdkCall>): nat
  {
    multiset(calls)[CloseChannel]
  }

  /** A missing or disabled adapter rejects with BLUETOOTH_ERROR before any SDK call. */
  lemma BluetoothJobAdapterGate(adapter: Adapter, script: SdkScript, artifact: Artifact, macAddress: string,
                                path: string, found: Option<string>, settings: PrintSettings)
    requires adapter != AdapterOn
    ensures var t := BluetoothJob(adapter, script, artifact, macAddress, path, found, settings);
            t.calls == [] && |t.settlements| == 1 && t.settlements[0].Rejected?
            && t.settlements[0].code == BluetoothError
  {
  }

  /** A failed open rejects (CHANNEL_ERROR, or EXCEPTION when it throws) and closes nothing. */
  lemma BluetoothJobOpenFails(adapter: Adapter, script: SdkScript, artifact: Artifact, macAddress: string,
                              path: string, found: Option<string>, settings: PrintSettings)
    requires adapter == AdapterOn && !script.onOpen.NoError?
    ensures var t := BluetoothJob(adapter, script, artifact, macAddress, path, found, settings);
            && t.calls == [OpenChannel(Bluetooth(macAddress))] && Closes(t.calls) == 0
            && |t.settlements| == 1 && t.settlements[0].Rejected?
            && (script.onOpen.ErrorCode? ==>
                  t.settlements[0] == Rejected(ChannelError, ChannelFailedMessage(script.onOpen.code)))
            && (script.onOpen.Throws? ==> t.settlements[0].code == Exception)
  {
    assert multiset([OpenChannel(Bluetooth(macAddress))])[CloseChannel] == 0;
  }

  /** A file the lookup cannot find closes the channel once, then rejects with FILE_ERROR. */
  lemma BluetoothJobFileMissing(adapter: Adapter, script: SdkScript, artifact: Artifact, macAddress: string,
                                path: string, settings: PrintSettings)
    requires adapter == AdapterOn && script.onOpen.NoError?
    ensures var t := BluetoothJob(adapter, script, artifact, macAddress, path, None, settings);
            && t.calls == [OpenChannel(Bluetooth(macAddress)), CloseChannel] && Closes(t.calls) == 1
            && |t.settlements| == 1
            && (!script.onClose.Throws? ==> t.settlements[0] == Rejected(FileError, NotFoundMessage(artifact, path)))
            && (script.onClose.Throws? ==> t.settlements[0].Rejected? && t.settlements[0].code == Exception)
  {
    assert multiset([OpenChannel(Bluetooth(macAddress)), CloseChannel])[CloseChannel] == 1;
  }

  /**
   * Once the file is found and the print call returns, the job prints the
   * found path, closes exactly once, and its outcome is a resolution exactly
   * when the print reported no error (PRINT_ERROR otherwise).
   */
  lemma BluetoothJobPrints(adapter: Adapter, script: SdkScript, artifact: Artifact, macAddress: string,
                           path: string, actualPath: string, settings: PrintSettings)
    requires adapter == AdapterOn && script.onOpen.NoError? && !script.onPrint.Throws?
    ensures var t := BluetoothJob(adapter, script, artifact, macAddress, path, Some(actualPath), settings);
            && t.calls == [OpenChannel(Bluetooth(macAddress)), PrintCall(artifact, actualPath, settings), CloseChannel]
            && Closes(t.calls) == 1
            && (|t.settlements| == 2 <==> script.onClose.Throws?) && 1 <= |t.settlements|
            && (t.settlements[0].Resolved? <==> script.onPrint.NoError?)
            && (script.onPrint.NoError? ==> t.settlements[0] == Resolved(Message(PrintedMessage(artifact))))
            && (script.onPrint.ErrorCode? ==>
                  t.settlements[0] == Rejected(PrintError, PrintFailedMessage(artifact, script.onPrint.code)))
  {
    var printing := PrintCall(artifact, actualPath, settings);
    assert multiset([OpenChannel(Bluetooth(macAddress)), printing, CloseChannel])[CloseChannel] == 1 by {
      assert printing != CloseChannel;
    }
  }

  /** A print call that throws after the channel opened rejects with EXCEPTION and never closes the channel. */
  lemma BluetoothJobLeaksOnException(adapter: Adapter, script: SdkScript, artifact: Artifact, macAddress: string,
                                     path: string, actualPath: string, settings: PrintSettings)
    requires adapter == AdapterOn && script.onOpen.NoError? && script.onPrint.Throws?
    ensures var t := BluetoothJob(adapter, script, artifact, macAddress, path, Some(actualPath), settings);
            && t.calls == [OpenChannel(Bluetooth(macAddress)), PrintCall(artifact, actualPath, settings)]
            && Closes(t.calls) == 0
            && t.settlements == [Rejected(Exception, ExceptionMessage(script.onPrint.message, UnknownError))]
  {
    var printing := PrintCall(artifact, actualPath, settings);
    assert multiset([OpenChannel(Bluetooth(macAddress)), printing])[CloseChannel] == 0 by {
      assert printing != CloseChannel;
    }
  }

  /**
   * Session discipline as written: every job settles once or twice (the
   * second settlement is ignored), opens first if it calls the SDK at all,
   * closes at most once, and closes exactly when the open succeeded and no
   * print call threw.
   */
  lemma BluetoothJobSession(adapter: Adapter, script: SdkScript, artifact: Artifact, macAddress: string,
                            path: string, found: Option<string>, settings: PrintSettings)
    ensures var t := BluetoothJob(adapter, script, artifact, macAddress, path, found, settings);
            && 1 <= |t.settlements| <= 2
            && (|t.settlements| == 2 ==> t.settlements[1] == Rejected(Exception, ExceptionMessage(script.onClose.message, UnknownError)))
            && (t.calls != [] <==> adapter == AdapterOn)
            && (t.calls != [] ==> t.calls[0] == OpenChannel(Bluetooth(macAddress)))
            && Closes(t.calls) <= 1
            && (Closes(t.calls) == 1 <==> adapter == AdapterOn && script.onOpen.NoError? && !(found.Some? && script.onPrint.Throws?))
  {
    if adapter != AdapterOn {
      BluetoothJobAdapterGate(adapter, script, artifact, macAddress, path, found, settings);
    } else if !script.onOpen.NoError? {
      BluetoothJobOpenFails(adapter, script, artifact, macAddress, path, found, settings);
    } else if found.None? {
      BluetoothJobFileMissing(adapter, script, artifact, macAddress, path, settings);
    } else if script.onPrint.Throws? {
      BluetoothJobLeaksOnException(adapter, script, artifact, macAddress, path, found.value, settings);
    } else {
      BluetoothJobPrints(adapter, script, artifact, macAddress, path, found.value, settings);
    }
  }

  /** The channel `connectToPrinter` selects from the lower-cased connection type, if any. */
  function ConnectTransport(connectionType: string, address: string): Option<Transport>
  {
    var kind := Text.Lower(connectionType);
    if kind == "bluetooth" then Some(Bluetooth(address))
    else if kind == "wifi" || kind == "network" then Some(Wifi(address))
    else None
  }

  /** Bluetooth for "bluetooth", WiFi for "wifi" or "network", in any case, and nothing else. */
  lemma ConnectTransportSelects(connectionType: string, address: string)
    ensures var kind := Text.Lower(connectionType);
            && (ConnectTransport(connectionType, address) == Some(Bluetooth(address)) <==> kind == "bluetooth")
            && (ConnectTransport(connectionType, address) == Some(Wifi(address)) <==> kind == "wifi" || kind == "network")
            && (ConnectTransport(connectionType, address).None?
                <==> kind != "bluetooth" && kind != "wifi" && kind != "network")
  {
  }

  const ConnectUnknownError: string := "Unknown error occurred while connecting"

  function ConnectFailedMessage(code: string): string
  {
    "Failed to connect to printer: " + code
  }

  /** The reply of a successful test connection; it echoes the caller's type string unchanged. */
  function Connected(connectionType: string, address: string): Reply
  {
    ConnectionInfo("connected", connectionType, address, "Successfully connected to printer")
  }

  /** The trace of `connectToPrinter`: select a channel, open it as a test, close it, report. */
  function ConnectJob(adapter: Adapter, script: SdkScript, connectionType: string, address: string): Trace
  {
    match ConnectTransport(connectionType, address)
    case None => Trace([], [Rejected(InvalidType, "Invalid connection type: " + connectionType)])
    case Some(transport) =>
      if transport.Bluetooth? && adapter != AdapterOn then
        Trace([], [Rejected(BluetoothError, "Bluetooth not available or not enabled")])
      else
        match script.onOpen
        case Throws(m) =>
          Trace([OpenChannel(transport)], [Rejected(ConnectionException, ExceptionMessage(m, ConnectUnknownError))])
        case ErrorCode(c) =>
          Trace([OpenChannel(transport)], [Rejected(ConnectionError, ConnectFailedMessage(c))])
        case NoError =>
          Trace([OpenChannel(transport), CloseChannel],
                if script.onClose.Throws? then
                  [Rejected(ConnectionException, ExceptionMessage(script.onClose.message, ConnectUnknownError))]
                else
                  [Resolved(Connected(connectionType, address))])
  }

  /** `connectToPrinter`, run to completion (the executor thread is not modelled). */
  method ConnectToPrinter(adapter: Adapter, sdk: Sdk, promise: Promise, connectionType: string, address: string)
    modifies sdk, promise
    ensures var t := ConnectJob(adapter, sdk.script, connectionType, address);
            sdk.calls == old(sdk.calls) + t.calls && promise.settlements == old(promise.settlements) + t.settlements
  {
    var kind := Text.Lower(connectionType);
    var transport: Transport;
    if kind == "bluetooth" {
      if adapter != AdapterOn {
        promise.Reject(BluetoothError, "Bluetooth not available or not enabled");
        return;
      }
      transport := Bluetooth(address);
    } else if kind == "wifi" || kind == "network" {
      transport := Wifi(address);
    } else {
      promise.Reject(InvalidType, "Invalid connection type: " + connectionType);
      return;
    }
    var openAnswer := sdk.Open(transport);
    if openAnswer.Throws? {
      promise.Reject(ConnectionException, ExceptionMessage(openAnswer.message, ConnectUnknownError));
      return;
    }
    if openAnswer.ErrorCode? {
      promise.Reject(ConnectionError, ConnectFailedMessage(openAnswer.code));
      return;
    }
    var closeAnswer := sdk.Close();
    assert sdk.calls == old(sdk.calls) + [OpenChannel(transport), CloseChannel];
    if closeAnswer.Throws? {
      promise.Reject(ConnectionException, ExceptionMessage(closeAnswer.message, ConnectUnknownError));
      return;
    }
    promise.Resolve(Connected(connectionType, address));
  }

  /** An unknown type is rejected with INVALID_TYPE, and Bluetooth without an enabled adapter with BLUETOOTH_ERROR, before any SDK call. */
  lemma ConnectJobGates(adapter: Adapter, script: SdkScript, connectionType: string, address: string)
    ensures var t := ConnectJob(adapter, script, connectionType, address);
            var kind := Text.Lower(connectionType);
            && ((kind != "bluetooth" && kind != "wifi" && kind != "network")
                  ==> t == Trace([], [Rejected(InvalidType, "Invalid connection type: " + connectionType)]))
            && ((kind == "bluetooth" && adapter != AdapterOn)
                  ==> t == Trace([], [Rejected(BluetoothError, "Bluetooth not available or not enabled")]))
  {
    ConnectTransportSelects(connectionType, address);
  }

  /**
   * Once a channel is selected the job opens it, settles exactly once, and
   * resolves exactly when the open and the close both went through, after
   * closing the channel it opened.
   */
  lemma ConnectJobTestsChannel(adapter: Adapter, script: SdkScript, connectionType: string, address: string, transport: Transport)
    requires ConnectTransport(connectionType, address) == Some(transport)
    requires transport.Bluetooth? ==> adapter == AdapterOn
    ensures var t := ConnectJob(adapter, script, connectionType, address);
            && |t.settlements| == 1 && t.calls != [] && t.calls[0] == OpenChannel(transport)
            && (t.calls == [OpenChannel(transport), CloseChannel] <==> script.onOpen.NoError?)
            && (t.settlements[0].Resolved? <==> script.onOpen.NoError? && !script.onClose.Throws?)
            && (t.settlements[0].Resolved? ==> t.settlements[0].reply == Connected(connectionType, address))
  {
  }

  /** The trace of `checkPrinterStatus`: open a WiFi channel, close it, report the printer online. */
  function StatusJob(script: SdkScript, ipAddress: string): Trace
  {
    var open := OpenChannel(Wifi(ipAddress));
    match script.onOpen
    case Throws(m) => Trace([open], [Rejected(StatusError, ExceptionMessage(m, "Failed to check printer status"))])
    case ErrorCode(c) => Trace([open], [Rejected(ConnectionError, "Cannot connect to printer: " + c)])
    case NoError =>
      Trace([open, CloseChannel],
            if script.onClose.Throws? then [Rejected(StatusError, ExceptionMessage(script.onClose.message, "Failed to check printer status"))]
            else [Resolved(PrinterStatus("online", "connected"))])
  }

  /** `checkPrinterStatus`. */
  method CheckPrinterStatus(sdk: Sdk, promise: Promise, ipAddress: string)
    modifies sdk, promise
    ensures var t := StatusJob(sdk.script, ipAddress);
            sdk.calls == old(sdk.calls) + t.calls && promise.settlements == old(promise.settlements) + t.settlements
  {
    var open := OpenChannel(Wifi(ipAddress));
    var openAnswer := sdk.Open(open.transport);
    if openAnswer.Throws? {
      promise.Reject(StatusError, ExceptionMessage(openAnswer.message, "Failed to check printer status"));
      return;
    }
    if openAnswer.ErrorCode? {
      promise.Reject(ConnectionError, "Cannot connect to printer: " + openAnswer.code);
      return;
    }
    var closeAnswer := sdk.Close();
    assert sdk.calls == old(sdk.calls) + [open, CloseChannel];
    if closeAnswer.Throws? {
      promise.Reject(StatusError, ExceptionMessage(closeAnswer.message, "Failed to check printer status"));
      return;
    }
    promise.Resolve(PrinterStatus("online", "connected"));
  }

  /** A status check reports "online" exactly when the open and the close both went through; it never probes the printer further. */
  lemma StatusJobOnline(script: SdkScript, ipAddress: string)
    ensures var t := StatusJob(script, ipAddress);
            && |t.settlements| == 1
            && (t.settlements[0].Resolved? <==> script.onOpen.NoError? && !script.onClose.Throws?)
            && (t.settlements[0].Resolved? ==> t.settlements[0].reply == PrinterStatus("online", "connected"))
            && (Closes(t.calls) == 1 <==> script.onOpen.NoError?)
            && Closes(t.calls) <= 1
  {
    var open := OpenChannel(Wifi(ipAddress));
    assert multiset([open])[CloseChannel] == 0;
    assert multiset([open, CloseChannel])[CloseChannel] == 1;
  }

  /** The settlements of `searchBluetoothPrinters`: permission, then adapter, then the bonded-device loop. */
  function SearchJob(permitted: bool, adapter: Adapter, bonded: BondedList): seq<Settlement>
  {
    if !permitted then [Rejected(PermissionError, "Bluetooth permissions not granted")]
    else if adapter == NoAdapter then [Rejected(BluetoothError, "Bluetooth not supported on this device")]
    else if adapter == AdapterOff then [Rejected(BluetoothError, "Bluetooth is not enabled")]
    else match bonded
      case BondedThrows(m) => [Rejected(SearchError, ExceptionMessage(m, "Failed to search Bluetooth printers"))]
      case Bonded(devices) => [Resolved(Printers(BrotherEntries(devices, "Unknown Brother Printer")))]
  }

  /** `searchBluetoothPrinters`. */
  method SearchBluetoothPrinters(permitted: bool, adapter: Adapter, bonded: BondedList, promise: Promise)
    modifies promise
    ensures promise.settlements == old(promise.settlements) + SearchJob(permitted, adapter, bonded)
  {
    if !permitted {
      promise.Reject(PermissionError, "Bluetooth permissions not granted");
      return;
    }
    if adapter == NoAdapter {
      promise.Reject(BluetoothError, "Bluetooth not supported on this device");
      return;
    }
    if adapter == AdapterOff {
      promise.Reject(BluetoothError, "Bluetooth is not enabled");
      return;
    }
    if bonded.BondedThrows? {
      promise.Reject(SearchError, ExceptionMessage(bonded.message, "Failed to search Bluetooth printers"));
      return;
    }
    var discoveredPrinters := CollectBrotherPrinters(bonded.devices, "Unknown Brother Printer");
    promise.Resolve(Printers(discoveredPrinters));
  }

  /**
   * A search settles once; it resolves exactly when permission is granted,
   * the adapter is on and the paired devices can be read, and then with the
   * entries of exactly the Brother printers among them.
   */
  lemma SearchJobOutcome(permitted: bool, adapter: Adapter, bonded: BondedList, entry: PrinterEntry)
    ensures var s := SearchJob(permitted, adapter, bonded);
            && |s| == 1
            && (s[0].Resolved? <==> permitted && adapter == AdapterOn && bonded.Bonded?)
            && (!permitted ==> s[0].code == PermissionError)
            && (s[0].Resolved? ==>
                  (entry in s[0].reply.entries
                   <==> exists d :: d in bonded.devices && IsBrotherPrinter(d.name)
                                    && entry == EntryFor(d, "Unknown Brother Printer")))
  {
    if bonded.Bonded? {
      BrotherEntriesMembership(bonded.devices, "Unknown Brother Printer", entry);
    }
  }

  /**
   * The settlement of `discoverPrinters`: a missing permission, an adapter
   * that is not on, or an exception while reading the paired devices all
   * give an empty list instead of an error.
   */
  function DiscoverJob(permitted: bool, adapter: Adapter, bonded: BondedList): seq<Settlement>
  {
    var allPrinters :=
      if permitted && adapter == AdapterOn && bonded.Bonded? then BrotherEntries(bonded.devices, "Brother Printer")
      else [];
    [Resolved(Printers(allPrinters))]
  }

  /** `discoverPrinters`, run to completion (the executor thread is not modelled). */
  method DiscoverPrinters(permitted: bool, adapter: Adapter, bonded: BondedList, promise: Promise)
    modifies promise
    ensures promise.settlements == old(promise.settlements) + DiscoverJob(permitted, adapter, bonded)
  {
    var allPrinters := [];
    if permitted && adapter == AdapterOn && bonded.Bonded? {
      allPrinters := CollectBrotherPrinters(bonded.devices, "Brother Printer");
    }
    promise.Resolve(Printers(allPrinters));
  }

  /** Discovery never rejects, and every printer it lists is a paired device under its own name. */
  lemma DiscoverJobResolves(permitted: bool, adapter: Adapter, bonded: BondedList)
    ensures var s := DiscoverJob(permitted, adapter, bonded);
            && |s| == 1 && s[0].Resolved? && s[0].reply.Printers?
            && (!(permitted && adapter == AdapterOn && bonded.Bonded?) ==> s[0].reply.entries == [])
            && (forall e :: e in s[0].reply.entries ==>
                  exists d :: d in bonded.devices && d.name == Some(e.name) && d.address == e.macAddress)
  {
    if bonded.Bonded? {
      BrotherEntriesUseDeviceNames(bonded.devices, "Brother Printer");
    }
  }

  /**
   * A caller that prints an image with a fresh SDK and promise sees the
   * job's first settlement: the file is printed when its cleaned path exists,
   * it is reported missing otherwise.
   */
  method ClientPrintsImage(platform: Platform, script: SdkScript, macAddress: string, imagePath: string)
    returns (outcome: Option<Settlement>)
    requires platform.adapter == AdapterOn && script.onOpen.NoError? && script.onPrint.NoError? && script.onClose.NoError?
    ensures outcome.Some?
    ensures outcome.value.Resolved? <==> CleanPath(imagePath) in platform.storage.files
    ensures outcome.value.Rejected? ==> outcome.value == Rejected(FileError, "Image file not found at path: " + imagePath)
  {
    var sdk := new Sdk(script);
    var promise := new Promise();
    PrintImageBluetooth(platform, sdk, promise, macAddress, imagePath, "QL_820NWB", "ROLLW29");
    var found := GetValidFilePath(imagePath, platform.storage, platform.clockMillis);
    GetValidFilePathIsExistenceTest(imagePath, platform.storage, platform.clockMillis);
    if found.Some? {
      BluetoothJobPrints(AdapterOn, script, ImageArtifact, macAddress, imagePath, found.value, ImageSettings(platform.workPath));
    } else {
      BluetoothJobFileMissing(AdapterOn, script, ImageArtifact, macAddress, imagePath, ImageSettings(platform.workPath));
    }
    outcome := promise.Outcome();
  }
}
