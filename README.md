# Brother QL label printing: a Dafny model

This project models the decision logic of a React Native app that prints labels on Brother QL printers over a vendor SDK, and proves properties of it. The model covers four parts:

- **The Kotlin bridge module** (`BrotherPrinterModule.kt`):
  - the string-to-enum resolvers for printer model and label size, and the Brother device-name test;
  - path cleaning, the extension chosen for a staged copy, and the file-type check;
  - the check → open → locate → print → close sequence of the two Bluetooth print methods;
  - the connection test, the status check, and the two bonded-device discovery loops.

  The vendor SDK and the React Native promise are classes that record their calls. Each bridge method is a `method` that drives them. It is proved to produce exactly the calls and settlements of a specification function, and the lemmas reason about that function.
- **The label screen** (`ModifyPrinter.js`): the MAC-address formatter, the required-field validation, the checks before a Bluetooth print, and the QR-object builder with its in-place deletion loop.
- **The JavaScript printer service** (`brotherPrinter.js`): the `BrotherQL820Service` class, its connection state, its print guards and option merge, and its search filter. The printing library is a recording stub class.
- **The PDF helpers** (`pdfHelper.js`): falsy-field defaults, the QR payload, the fixed page options, the save path, and the batch loop.

Environment facts are parameters of the model:

- whether the Bluetooth adapter is present and enabled;
- the answers the SDK or library gives to open, print and close;
- which files exist, and whether a copy succeeds;
- whether permissions are granted;
- the clock reading.

Files:

- `Text.dfy`: Option, ASCII case mapping, substring search, ECMAScript `trim`, and decimal rendering.
- `PrinterSettings.dfy`: the printer-model and label-size resolvers, and the Brother name test.
- `FilePaths.dfy`: path cleaning, `java.io.File` names and extensions, and the file lookup.
- `PrintBridge.dfy`: the SDK and promise classes and the bridge's methods.
- `Discovery.dfy`: the bonded-device loop.
- `MacAddress.dfy` and `LabelForm.dfy`: the label screen.
- `PrinterService.dfy`: the JavaScript service.
- `LabelPdf.dfy`: the PDF helpers.

Where the design and the code disagree, the model follows the code, and it shows the divergence:

- **Channel release.** The bridge's print methods do not close the channel on every path. A print call that throws is caught, and the catch rejects without closing. `BluetoothJobLeaksOnException` and `BluetoothJobSession` state this as written.
- **Label size in the PDF path.** The label-size resolver can only return its default (see Findings). `PrintPdfBluetoothV2` uses it as written, so it always prints on DieCutW29H90 (`PdfSettingsIgnoreLabelSize`). The evidently intended job, with the corrected resolver `GetLabelSizeIgnoringCase`, is the separate `PrintPdfBluetoothIntended`.

## Model

| member | source | states |
|---|---|---|
| PrinterSettings.GetPrinterModelSelects | android/app/src/main/java/com/awesomrbrother/BrotherPrinterModule.kt:664-671 | QL_810W or QL_800 is chosen exactly when the upper-cased name equals that model's name; every other name gives QL_820NWB |
| PrinterSettings.GetPrinterModelIgnoresCase | android/app/src/main/java/com/awesomrbrother/BrotherPrinterModule.kt:664-671 | every model's own name maps back to it; "ql_810w" gives QL_810W; "QL_700" falls back to QL_820NWB |
| PrinterSettings.UpperModelNames | android/app/src/main/java/com/awesomrbrother/BrotherPrinterModule.kt:665-668 | upper-casing leaves the three model literals unchanged, so each branch is reachable |
| PrinterSettings.GetLabelSizeIsConstant | android/app/src/main/java/com/awesomrbrother/BrotherPrinterModule.kt:673-694 | as written, the resolver returns DieCutW29H90 for every input string |
| PrinterSettings.UpperLabelName | android/app/src/main/java/com/awesomrbrother/BrotherPrinterModule.kt:674-691 | upper-casing any label literal turns its "DieCut" prefix into "DIECUT", so no upper-cased input can equal a literal |
| PrinterSettings.GetLabelSizeIgnoringCaseRoundTrip | android/app/src/main/java/com/awesomrbrother/BrotherPrinterModule.kt:673-694 | the corrected resolver maps every spelling of a label's name, in any letter case, to that label |
| PrinterSettings.SizeOfDimensionsInverts | android/app/src/main/java/com/awesomrbrother/BrotherPrinterModule.kt:675-691 | each of the 17 sizes is recovered from its width/height suffix |
| PrinterSettings.IsBrotherPrinter | android/app/src/main/java/com/awesomrbrother/BrotherPrinterModule.kt:843-851 | a device without a name is never a Brother printer |
| PrinterSettings.IsBrotherPrinterIff | android/app/src/main/java/com/awesomrbrother/BrotherPrinterModule.kt:843-851 | true exactly when the upper-cased name contains BROTHER, QL-, PT-, TD-, MW- or RJ- |
| PrinterSettings.BrotherNameRecognised | android/app/src/main/java/com/awesomrbrother/BrotherPrinterModule.kt:843-851 | a name holding a marker in any letter case is recognised |
| FilePaths.CleanPath | android/app/src/main/java/com/awesomrbrother/BrotherPrinterModule.kt:181-185 | removes one leading "file://" and keeps every other path unchanged |
| FilePaths.CleanPathRemovesOnePrefix | android/app/src/main/java/com/awesomrbrother/BrotherPrinterModule.kt:181-185 | "file://" + rest always cleans to rest, even when rest itself starts with "file://" |
| FilePaths.SuffixAfterLast | android/app/src/main/java/com/awesomrbrother/BrotherPrinterModule.kt:208 | None exactly when the separator is absent; otherwise a proper suffix that directly follows the separator |
| FilePaths.SuffixAfterLastOf | android/app/src/main/java/com/awesomrbrother/BrotherPrinterModule.kt:208 | the suffix found is the text after the last separator |
| FilePaths.StripTrailingSlashes | android/app/src/main/java/com/awesomrbrother/BrotherPrinterModule.kt:204 | gives a prefix of the path that is empty or does not end in '/' |
| FilePaths.StripTrailingSlashesDropsSeparators | android/app/src/main/java/com/awesomrbrother/BrotherPrinterModule.kt:204 | the path is the stripped path followed by a run of '/' only |
| FilePaths.FileNameIsLastComponent | android/app/src/main/java/com/awesomrbrother/BrotherPrinterModule.kt:204-208 | the name is the whole stripped path when it holds no '/', and otherwise exactly the text behind its last '/' |
| FilePaths.FileNameOf | android/app/src/main/java/com/awesomrbrother/BrotherPrinterModule.kt:204-208 | the name of dir + "/" + name, followed by any number of '/', is name |
| FilePaths.FileName | android/app/src/main/java/com/awesomrbrother/BrotherPrinterModule.kt:204 | the file name holds no separator |
| FilePaths.Extension | android/app/src/main/java/com/awesomrbrother/BrotherPrinterModule.kt:208 | the extension holds no '.' and no '/' |
| FilePaths.ExtensionIsAfterLastDot | android/app/src/main/java/com/awesomrbrother/BrotherPrinterModule.kt:208 | "" when the name holds no '.'; otherwise the name is some text, a '.', then the extension, which holds no '.' |
| FilePaths.ExtensionOfTrailingDot | android/app/src/main/java/com/awesomrbrother/BrotherPrinterModule.kt:208 | a name ending in '.' has the empty extension |
| FilePaths.ExtensionOf | android/app/src/main/java/com/awesomrbrother/BrotherPrinterModule.kt:208 | the extension of "dir/base.ext" is ext |
| FilePaths.CopyKeepsOwnExtension | android/app/src/main/java/com/awesomrbrother/BrotherPrinterModule.kt:208-211 | a non-empty source extension gives "." plus its lower-cased form |
| FilePaths.CopyFallbackChoice | android/app/src/main/java/com/awesomrbrother/BrotherPrinterModule.kt:212-219 | with no extension: the first of .pdf, .jpg, .jpeg, .png that the path contains (ignoring case), else .tmp |
| FilePaths.FallbackOrder | android/app/src/main/java/com/awesomrbrother/BrotherPrinterModule.kt:213-219 | the fallback is the first of .pdf, .jpg, .jpeg, .png the path contains, ignoring case; .tmp exactly when it contains none |
| FilePaths.CopyFileToAccessibleLocation | android/app/src/main/java/com/awesomrbrother/BrotherPrinterModule.kt:196-233 | a copy exists exactly when the cleaned source exists and the copy succeeds; it lies in the external files directory, as temp_print_<millis><extension> |
| FilePaths.GetValidFilePathIsExistenceTest | android/app/src/main/java/com/awesomrbrother/BrotherPrinterModule.kt:179-194 | the lookup gives the cleaned path exactly when it exists, and None otherwise; the copy fallback cannot produce a path |
| FilePaths.GetValidFilePathWithTypeAccepts | android/app/src/main/java/com/awesomrbrother/BrotherPrinterModule.kt:236-258 | a path is accepted exactly when it exists and its lower-cased extension fits: pdf for "pdf", jpg/jpeg/png/bmp/gif for "image", anything for other types |
| PrintBridge.Sdk.constructor | android/app/src/main/java/com/awesomrbrother/BrotherPrinterModule.kt:125-126 | a fresh SDK stub has the given answers and no calls |
| PrintBridge.Sdk.Open | android/app/src/main/java/com/awesomrbrother/BrotherPrinterModule.kt:126 | records the open and returns the scripted answer |
| PrintBridge.Sdk.Print | android/app/src/main/java/com/awesomrbrother/BrotherPrinterModule.kt:161 | records the print call and returns the scripted answer |
| PrintBridge.Sdk.Close | android/app/src/main/java/com/awesomrbrother/BrotherPrinterModule.kt:171 | records the close and returns the scripted answer |
| PrintBridge.Promise.constructor | android/app/src/main/java/com/awesomrbrother/BrotherPrinterModule.kt:104-111 | a fresh promise has no settlements |
| PrintBridge.Promise.Resolve | android/app/src/main/java/com/awesomrbrother/BrotherPrinterModule.kt:168 | appends one resolution |
| PrintBridge.Promise.Reject | android/app/src/main/java/com/awesomrbrother/BrotherPrinterModule.kt:116 | appends one rejection with its code and message |
| PrintBridge.Promise.Outcome | android/app/src/main/java/com/awesomrbrother/BrotherPrinterModule.kt:104-177 | what JavaScript sees is the first settlement, if there is one |
| PrintBridge.RunBluetoothJob | android/app/src/main/java/com/awesomrbrother/BrotherPrinterModule.kt:112-176 | the SDK calls and settlements of one Bluetooth print are exactly those of the BluetoothJob trace, with the file found by the cleaned-path lookup |
| PrintBridge.PrintImageBluetooth | android/app/src/main/java/com/awesomrbrother/BrotherPrinterModule.kt:104-177 | runs the job with the hard-coded QL_820NWB/DieCutW29H90 settings; the caller's model and label size play no part |
| PrintBridge.PrintPdfBluetoothV2 | android/app/src/main/java/com/awesomrbrother/BrotherPrinterModule.kt:349-435 | runs the PDF job with the caller's model resolved by `getPrinterModel` and the label size by `getLabelSize` as written, which is always DieCutW29H90 |
| PrintBridge.PdfSettingsIgnoreLabelSize | android/app/src/main/java/com/awesomrbrother/BrotherPrinterModule.kt:390-396 | as written, the PDF settings carry the caller's resolved model but DieCutW29H90 for every label-size string; they differ from the intended settings in the label size alone |
| PrintBridge.IntendedPdfSettingsSelectLabel | android/app/src/main/java/com/awesomrbrother/BrotherPrinterModule.kt:396 | with the corrected lookup, the PDF settings carry the label the caller names, in any letter case |
| PrintBridge.PrintPdfBluetoothIntended | android/app/src/main/java/com/awesomrbrother/BrotherPrinterModule.kt:349-435 | the PDF job with the corrected label lookup: the same trace as the as-written job apart from the label size |
| PrintBridge.BluetoothJobAdapterGate | android/app/src/main/java/com/awesomrbrother/BrotherPrinterModule.kt:113-123 | a missing or disabled adapter rejects once with BLUETOOTH_ERROR and calls nothing |
| PrintBridge.BluetoothJobOpenFails | android/app/src/main/java/com/awesomrbrother/BrotherPrinterModule.kt:125-132 | a failed open rejects once (CHANNEL_ERROR, or EXCEPTION if it throws) after the open alone, and never closes |
| PrintBridge.BluetoothJobFileMissing | android/app/src/main/java/com/awesomrbrother/BrotherPrinterModule.kt:138-143 | a missing file gives open then one close, then FILE_ERROR naming the path |
| PrintBridge.BluetoothJobPrints | android/app/src/main/java/com/awesomrbrother/BrotherPrinterModule.kt:145-171 | the job prints the found path, then closes once; it resolves exactly when the print reports no error, and rejects PRINT_ERROR with the code otherwise |
| PrintBridge.BluetoothJobLeaksOnException | android/app/src/main/java/com/awesomrbrother/BrotherPrinterModule.kt:161-176 | a print that throws rejects with EXCEPTION and never closes the open channel |
| PrintBridge.BluetoothJobSession | android/app/src/main/java/com/awesomrbrother/BrotherPrinterModule.kt:112-176 | every job settles once or twice, with only a throwing close adding a second rejection; calls the SDK only with the adapter on, and opens first; closes at most once, and exactly when the open succeeded and no print threw |
| PrintBridge.ConnectTransportSelects | android/app/src/main/java/com/awesomrbrother/BrotherPrinterModule.kt:751-768 | "bluetooth" selects Bluetooth, "wifi" or "network" WiFi, in any letter case; nothing else selects a channel |
| PrintBridge.ConnectToPrinter | android/app/src/main/java/com/awesomrbrother/BrotherPrinterModule.kt:743-798 | the SDK calls and settlements are exactly those of the ConnectJob trace |
| PrintBridge.ConnectJobGates | android/app/src/main/java/com/awesomrbrother/BrotherPrinterModule.kt:752-767 | an unknown type rejects INVALID_TYPE, and Bluetooth without an enabled adapter rejects BLUETOOTH_ERROR; both settle once and call nothing |
| PrintBridge.ConnectJobTestsChannel | android/app/src/main/java/com/awesomrbrother/BrotherPrinterModule.kt:770-791 | a selected channel is opened and settles once; it resolves with the connection info exactly when the open succeeded and the close returned, after closing |
| PrintBridge.CheckPrinterStatus | android/app/src/main/java/com/awesomrbrother/BrotherPrinterModule.kt:637-661 | the SDK calls and settlements are exactly those of the StatusJob trace |
| PrintBridge.StatusJobOnline | android/app/src/main/java/com/awesomrbrother/BrotherPrinterModule.kt:640-660 | settles once; resolves "online"/"connected" exactly when the WiFi open and the close both went through; closes at most once, exactly when the open succeeded |
| PrintBridge.SearchBluetoothPrinters | android/app/src/main/java/com/awesomrbrother/BrotherPrinterModule.kt:697-741 | appends exactly the settlements of SearchJob |
| PrintBridge.SearchJobOutcome | android/app/src/main/java/com/awesomrbrother/BrotherPrinterModule.kt:700-739 | settles once; resolves exactly when permitted, the adapter is on and the bonded list is readable, with exactly the Brother devices' entries |
| PrintBridge.DiscoverPrinters | android/app/src/main/java/com/awesomrbrother/BrotherPrinterModule.kt:801-841 | appends exactly the settlements of DiscoverJob |
| PrintBridge.DiscoverJobResolves | android/app/src/main/java/com/awesomrbrother/BrotherPrinterModule.kt:808-834 | never rejects; every entry listed is a paired device under its own name and address |
| PrintBridge.ClientPrintsImage | android/app/src/main/java/com/awesomrbrother/BrotherPrinterModule.kt:104-177 | with the adapter on and the SDK answering without error, the caller's outcome is a resolution exactly when the cleaned image path exists, and FILE_ERROR otherwise |
| Discovery.EntryFor | android/app/src/main/java/com/awesomrbrother/BrotherPrinterModule.kt:725-730 | an entry carries the device's address, type "bluetooth" and status "paired" |
| Discovery.BrotherEntries | android/app/src/main/java/com/awesomrbrother/BrotherPrinterModule.kt:723-732 | no more entries than devices |
| Discovery.CollectBrotherPrinters | android/app/src/main/java/com/awesomrbrother/BrotherPrinterModule.kt:723-732 | the loop collects exactly BrotherEntries of the bonded list |
| Discovery.BrotherEntriesMembership | android/app/src/main/java/com/awesomrbrother/BrotherPrinterModule.kt:723-732 | an entry is listed exactly when it is the entry of a listed Brother device |
| Discovery.BrotherEntriesUseDeviceNames | android/app/src/main/java/com/awesomrbrother/BrotherPrinterModule.kt:726 | every entry has the name and address of a listed device, so the null-name fallback is never used |
| MacAddress.KeepHexAndColons | src/printerSdk/ModifyPrinter.js:41 | keeps only hex digits and colons, and never lengthens |
| MacAddress.RemoveColons | src/printerSdk/ModifyPrinter.js:44 | the result holds no colon |
| MacAddress.GroupPairs | src/printerSdk/ModifyPrinter.js:52 | a grouping of n digits has n + (n-1)/2 characters |
| MacAddress.HexDigits | src/printerSdk/ModifyPrinter.js:41-44 | the reference digit string: upper-case hex digits only |
| MacAddress.KeptDigits | src/printerSdk/ModifyPrinter.js:47 | at most twelve digits are kept |
| MacAddress.CleanedDigits | src/printerSdk/ModifyPrinter.js:41-44 | cleaning, upper-casing and dropping colons leaves exactly the input's upper-cased hex digits, in order |
| MacAddress.FormatMacAddressGroupsKeptDigits | src/printerSdk/ModifyPrinter.js:39-55 | the result is "" without digits, and otherwise the grouping of the first min(12, n) hex digits |
| MacAddress.GroupPairsLayout | src/printerSdk/ModifyPrinter.js:52 | colons sit exactly at positions 2, 5, 8, ...; the other positions hold the digits in order |
| MacAddress.RemoveColonsGroupPairs | src/printerSdk/ModifyPrinter.js:44-52 | removing the colons of a grouping gives back the digits |
| MacAddress.FormatMacAddressShape | src/printerSdk/ModifyPrinter.js:39-55 | only 0-9, A-F and ':'; colons exactly at positions i with i % 3 == 2; the kept digits without the colons; at most 17 characters |
| MacAddress.FormatMacAddressEmptyIff | src/printerSdk/ModifyPrinter.js:50 | the result is "" exactly when the input holds no hex digit |
| MacAddress.FormatMacAddressFullLength | src/printerSdk/ModifyPrinter.js:47-52 | the result has 17 characters exactly when the input has at least twelve hex digits |
| MacAddress.FormatMacAddressIdempotent | src/printerSdk/ModifyPrinter.js:39-55 | formatting a formatted address gives the same address |
| LabelForm.ValidateInputsIff | src/printerSdk/ModifyPrinter.js:91-101 | valid exactly when neither required field is blank; the site name is reported first |
| LabelForm.PrintBluetoothGate | src/printerSdk/ModifyPrinter.js:139-152 | a print request goes out exactly when the address has 17 characters, an image exists and permission is granted |
| LabelForm.PrintBluetoothGateOnFormattedAddress | src/printerSdk/ModifyPrinter.js:139-142 | a formatted address passes the length check exactly when the typed text had twelve hex digits, and is then a colon-separated upper-case address |
| LabelForm.NonEmptyFields | src/printerSdk/ModifyPrinter.js:202-206 | pruning never adds fields |
| LabelForm.GetQrData | src/printerSdk/ModifyPrinter.js:184-214 | '' when either required field trims to empty, and exactly when one of them is blank; otherwise the object left after deleting the empty fields |
| LabelForm.DeleteEmptyFields | src/printerSdk/ModifyPrinter.js:202-206 | the in-place delete loop leaves exactly the non-empty fields, in order |
| LabelForm.NonEmptyFieldsMembership | src/printerSdk/ModifyPrinter.js:202-206 | a field survives exactly when it was present with a non-empty value |
| LabelForm.NonEmptyFieldsPrefix | src/printerSdk/ModifyPrinter.js:202-206 | pruning a prefix gives a prefix of the pruned object, so the key order is kept |
| LabelForm.QrObjectFields | src/printerSdk/ModifyPrinter.js:184-206 | with both required fields filled, the object starts with the trimmed site and organization names and holds exactly the non-empty fields |
| LabelForm.NoQrDataIff | src/printerSdk/ModifyPrinter.js:186-188 | the guard `!x.trim()` holds exactly when x is blank |
| PrinterService.OrDefault | brotherPrinter.js:143-144 | a truthy value is kept; a falsy or missing one gives the fallback |
| PrinterService.Spread | brotherPrinter.js:141-146 | the merged keys are the union; each caller key overrides the default |
| PrinterService.ZplPrintOptionsMerge | brotherPrinter.js:141-146 | every caller key wins, including printerModel; paperSize is W62 only when absent; numberOfCopies is copies or 1 unless numberOfCopies is given |
| PrinterService.ImagePrintOptionsMerge | brotherPrinter.js:170-176 | the image options are the ZPL options plus halftone, THRESHOLD unless the caller gave one |
| PrinterService.FalsyOptionExamples | brotherPrinter.js:141-146 | copies: 0 prints one copy, while paperSize: '' is passed through |
| PrinterService.PrintingLibrary.constructor | brotherPrinter.js:20 | a fresh library stub has the given answers and no calls |
| PrinterService.PrintingLibrary.Connect | brotherPrinter.js:101-105 | records the connect call and returns the scripted answer |
| PrinterService.PrintingLibrary.DisconnectPrinter | brotherPrinter.js:125 | records the disconnect and returns the scripted answer |
| PrinterService.PrintingLibrary.Print | brotherPrinter.js:148 | records the print call and returns the scripted answer |
| PrinterService.ConnectCall | brotherPrinter.js:97-106 | always a Bluetooth or a WiFi connect |
| PrinterService.ConnectCallChoice | brotherPrinter.js:97-106 | Bluetooth to the MAC address exactly when the type is missing or exactly 'bluetooth'; WiFi to the IP address otherwise |
| PrinterService.ConnectCallExamples | brotherPrinter.js:97-106 | a missing type or 'bluetooth' connects over Bluetooth to the MAC; 'Bluetooth' and 'wifi' connect over WiFi to the IP |
| PrinterService.BrotherQL820Service.constructor | brotherPrinter.js:25-28 | starts disconnected with no printer |
| PrinterService.BrotherQL820Service.ConnectToPrinter | brotherPrinter.js:97-120 | one library call; returns true exactly on success, and only then records the printer; otherwise the state is unchanged |
| PrinterService.BrotherQL820Service.Disconnect | brotherPrinter.js:123-132 | one library call; clears both fields unless the call rejects, in which case nothing changes |
| PrinterService.BrotherQL820Service.PrintZPL | brotherPrinter.js:135-161 | returns false with no library call when disconnected; otherwise one call with the merged options, true exactly on success; a call goes out only with a printer remembered |
| PrinterService.BrotherQL820Service.PrintImage | brotherPrinter.js:164-191 | the same gate, with the image options; a call goes out only with a printer remembered |
| PrinterService.BrotherQL820Service.GetConnectionInfo | brotherPrinter.js:286-291 | returns exactly the two current fields, which agree: connected exactly when a printer is remembered |
| PrinterService.ServiceSession | brotherPrinter.js:25-161 | a new service is disconnected, stays connected after a successful connect, and is disconnected again after disconnect |
| PrinterService.QL820Only | brotherPrinter.js:73-75 | keeps only scanned printers whose modelName contains QL-820 |
| PrinterService.SearchPrinters | brotherPrinter.js:69-94 | never returns when the scan never settles; [] when it rejects or resolves null; a listed scan gives exactly its QL-820 printers |
| PrinterService.SearchAsWrittenHangs | utils.js:9-20 | as written the scan never settles, so the search never returns |
| PrinterService.QL820OnlyKeepsEvery | brotherPrinter.js:73-75 | keeps every QL-820 printer |
| PrinterService.QL820OnlyAppend | brotherPrinter.js:73-75 | the filter distributes over concatenation, so scan order is kept |
| LabelPdf.OrText | pdfHelper.js:64-66 | a non-empty string is kept; undefined and '' give the fallback |
| LabelPdf.OrNumber | pdfHelper.js:67-68 | a non-zero number is kept; undefined and 0 give the fallback |
| LabelPdf.Template | pdfHelper.js:63-70 | no template value is falsy |
| LabelPdf.TemplateDefaults | pdfHelper.js:64-68 | each template value equals its default ('1234567890', '192.168.1.100', 'ABC-123', 250, 300) exactly when the field is falsy or already equals it |
| LabelPdf.QrPayloadSplits | pdfHelper.js:57-59 | splitting the QR payload at '\|' gives the defaulted serial, IP and batch code, if none holds a '\|' |
| LabelPdf.PdfPageIsFixed | pdfHelper.js:73-87 | the page is 300 by 250 whatever the data; the data's width and height reach only the template |
| LabelPdf.SavePdfToDevice | pdfHelper.js:103-132 | StoragePermissionDenied exactly on Android without permission; a saved file lies under the platform's directory with its file name |
| LabelPdf.GenerateBatchPdfs | pdfHelper.js:182-208 | the loop returns exactly BatchUpTo of all labels |
| LabelPdf.BatchFailureIsFinal | pdfHelper.js:186-207 | a failure stops the batch for good |
| LabelPdf.BatchEntriesInOrder | pdfHelper.js:186-197 | a successful batch has one entry per label, in order, with that label and the file name of its position |
| LabelPdf.BatchFailsIff | pdfHelper.js:186-207 | the batch is undefined exactly when some label fails; no partial list is returned |
| LabelPdf.BatchFileNameChoice | pdfHelper.js:190 | label_<serial>.pdf, or label_<i+1>.pdf when the serial is falsy |
| LabelPdf.CreateLabelPdf | pdfHelper.js:150-179 | a saved path exactly when generation, permission (Android only) and copy all succeed |
| Text.Upper | android/app/src/main/java/com/awesomrbrother/BrotherPrinterModule.kt:665 | same length; each character is upper-cased |
| Text.Lower | android/app/src/main/java/com/awesomrbrother/BrotherPrinterModule.kt:751 | same length; each character is lower-cased |
| Text.ContainsUpper | android/app/src/main/java/com/awesomrbrother/BrotherPrinterModule.kt:845-850 | a substring survives upper-casing |
| Text.TrimEmptyIff | src/printerSdk/ModifyPrinter.js:92 | `trim` gives '' exactly for strings of white space |

## Left out

- Case mapping beyond ASCII is not modelled. Kotlin's `uppercase`/`lowercase` and JavaScript's `toUpperCase` use full Unicode mappings: for example Kotlin lower-cases "NETWOR\u212A" (with the Kelvin sign) to "network", which `Text.Lower` does not.
- SDK internals are not modelled: channels, the print protocol, and the shape of printer status. Each SDK call is a recorded call with a scripted answer.
- The file system is not modelled. File existence is a set of paths, and copy success, the external-files directory and the clock reading are inputs. `java.io.File` normalisation is modelled only as far as dropping trailing slashes.
- Threads and timing are not modelled. `connectToPrinter` and `discoverPrinters` run on an executor here, but the model runs them to completion.
- Permission checks are boolean inputs.
- The QR, Handlebars, HTML-to-PDF and ZPL libraries are not modelled. Template values and options are modelled; the rendered HTML and PDF are not. `JSON.stringify` is kept as the ordered field list.
- UI, `Alert`, logging and React state are not modelled.
- `getPrinterStatus`, `printShippingLabel`, `printProductLabel`, `initialize` and `requestPermissions` of the JavaScript service are not modelled. They call libraries and build ZPL.
- The commented-out Kotlin methods are not modelled, because they are not live code.
- The outer DISCOVERY_ERROR rejection of `discoverPrinters` is not modelled. It fires only if building the array or resolving throws, which is not modelled.
- The JavaScript scan `scanForPrinterDevices` never settles as written. It first awaits `requestPrinterPermissions`, which no file defines, and the error is lost inside the promise's async executor. So `searchBluetoothPrinters` and `searchWiFiPrinters` hang (`SearchAsWrittenHangs`). Its list branch is commented out, so `ScanList`, and with it the QL-820 filter, describes a scan this code cannot produce. It stays in the model for the filter's sake. The BLE callback/timeout race is not modelled.
- JavaScript numbers are integers here. Label fields and options carry no floating-point or string-number mixing, and a numeric serial is not modelled.
- `savePDFToDevice` is not modelled with its default file name, because both callers pass a name.

## Findings

| source | as written | input that shows it | evidently intended | confidence | as-written member | corrected member |
|---|---|---|---|---|---|---|
| android/app/src/main/java/com/awesomrbrother/BrotherPrinterModule.kt:673-694 | `getLabelSize` upper-cases its argument and compares it with the mixed-case literals "DieCutW17H54" ... "DieCutW103H164" | "DieCutW62H29" resolves to DieCutW29H90, because its upper-cased form "DIECUTW62H29" matches no literal | each label name resolves to its own size in any letter case | high (not executed) | PrinterSettings.GetLabelSizeIsConstant | PrinterSettings.GetLabelSizeIgnoringCaseRoundTrip |
