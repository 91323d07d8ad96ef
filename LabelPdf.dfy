/**
 * The label PDF helpers (pdfHelper.js): the defaults filled in for missing
 * label fields, the text encoded in the QR code, the fixed page options, and
 * the batch loop that saves one PDF per label and lists them in order.
 *
 * Rendering (QR image, template, HTML to PDF) and the file system are not
 * modelled; what each label's generation and save do is an input.
 */
module LabelPdf {
  import opened Wrappers
  import opened Text

  /** The label fields the helpers read; None is undefined. */
  datatype LabelData = LabelData(
    serial: Option<string>, ip: Option<string>, batchCode: Option<string>,
    height: Option<int>, width: Option<int>)

  /** `value || fallback` on a string field: undefined and "" are falsy. */
  function OrText(value: Option<string>, fallback: string): (r: string)
    ensures value.Some? && value.value != "" ==> r == value.value
    ensures value.None? || value.value == "" ==> r == fallback
  {
    if value.Some? && value.value != "" then value.value else fallback
  }

  /** `value || fallback` on a number field: undefined and 0 are falsy. */
  function OrNumber(value: Option<int>, fallback: int): (r: int)
    ensures value.Some? && value.value != 0 ==> r == value.value
    ensures value.None? || value.value == 0 ==> r == fallback
  {
    if value.Some? && value.value != 0 then value.value else fallback
  }

  function Serial(data: LabelData): string { OrText(data.serial, "1234567890") }

  function Ip(data: LabelData): string { OrText(data.ip, "192.168.1.100") }

  function BatchCode(data: LabelData): string { OrText(data.batchCode, "ABC-123") }

  /** The values handed to the template; `qrCode` is the data URL the QR library produced. */
  datatype TemplateValues = TemplateValues(
    serial: string, ip: string, batchCode: string, height: int, width: int, qrCode: string)

  function Template(data: LabelData, qrCode: string): (t: TemplateValues)
    ensures t.serial != "" && t.ip != "" && t.batchCode != "" && t.height != 0 && t.width != 0
  {
    TemplateValues(Serial(data), Ip(data), BatchCode(data), OrNumber(data.height, 250), OrNumber(data.width, 300), qrCode)
  }

  /**
   * Every falsy field, the empty string and 0 included, takes its default;
   * every other value is used as given.
   */
  lemma TemplateDefaults(data: LabelData, qrCode: string)
    ensures var t := Template(data, qrCode);
            && (t.serial == "1234567890" <==> data.serial.None? || data.serial.value in {"", "1234567890"})
            && (t.ip == "192.168.1.100" <==> data.ip.None? || data.ip.value in {"", "192.168.1.100"})
            && (t.batchCode == "ABC-123" <==> data.batchCode.None? || data.batchCode.value in {"", "ABC-123"})
            && (t.height == 250 <==> data.height.None? || data.height.value in {0, 250})
            && (t.width == 300 <==> data.width.None? || data.width.value in {0, 300})
  {
  }

  /** The text the QR code encodes: the defaulted serial, IP and batch code joined by '|'. */
  function QrPayload(data: LabelData): string
  {
    Serial(data) + "|" + Ip(data) + "|" + BatchCode(data)
  }

  /** `s.split(c)`. */
  function Split(s: string, c: char): (parts: seq<string>)
    ensures |parts| >= 1
    decreases |s|
  {
    if s == [] then [""]
    else
      var rest := Split(s[1..], c);
      if s[0] == c then [""] + rest else [[s[0]] + rest[0]] + rest[1..]
  }

  lemma {:induction false} SplitWithoutSeparator(s: string, c: char)
    requires c !in s
    ensures Split(s, c) == [s]
    decreases |s|
  {
    if s != [] {
      SplitWithoutSeparator(s[1..], c);
      assert [s[0]] + s[1..] == s;
    }
  }

  lemma {:induction false} SplitAtFirstSeparator(x: string, c: char, t: string)
    requires c !in x
    ensures Split(x + [c] + t, c) == [x] + Split(t, c)
    decreases |x|
  {
    var s := x + [c] + t;
    if x == [] {
      assert s[0] == c && s[1..] == t;
    } else {
      assert s[0] == x[0] && s[1..] == x[1..] + [c] + t;
      SplitAtFirstSeparator(x[1..], c, t);
      assert [x[0]] + x[1..] == x;
    }
  }

  /** Splitting the payload at '|' gives back the three values, as long as none of them holds a '|'. */
  lemma QrPayloadSplits(data: LabelData)
    requires '|' !in Serial(data) && '|' !in Ip(data) && '|' !in BatchCode(data)
    ensures Split(QrPayload(data), '|') == [Serial(data), Ip(data), BatchCode(data)]
  {
    var s, i, b := Serial(data), Ip(data), BatchCode(data);
    assert QrPayload(data) == s + ['|'] + (i + ['|'] + b);
    SplitAtFirstSeparator(s, '|', i + ['|'] + b);
    SplitAtFirstSeparator(i, '|', b);
    SplitWithoutSeparator(b, '|');
  }

  /** The options passed to the HTML-to-PDF converter; `html` is the rendered template. */
  datatype PdfOptions = PdfOptions(
    html: TemplateValues, fileName: string, width: int, height: int,
    paddingLeft: int, paddingRight: int, paddingTop: int, paddingBottom: int,
    quality: string, bgColor: string)

  /** The options of `generatePDFFromHTML`; the file name is stamped with the clock in milliseconds. */
  function GeneratePdfOptions(data: LabelData, qrCode: string, millis: nat): PdfOptions
  {
    PdfOptions(Template(data, qrCode), "label_" + Decimal(millis), 300, 250, 10, 10, 10, 10, "high", "#FFFFFF")
  }

  /** The page is 300 by 250 whatever width and height the label data asks the template for. */
  lemma PdfPageIsFixed(data: LabelData, qrCode: string, millis: nat)
    ensures GeneratePdfOptions(data, qrCode, millis).width == 300
    ensures GeneratePdfOptions(data, qrCode, millis).height == 250
    ensures GeneratePdfOptions(data, qrCode, millis).html.width == OrNumber(data.width, 300)
    ensures GeneratePdfOptions(data, qrCode, millis).html.height == OrNumber(data.height, 250)
  {
  }

  /** Where `savePDFToDevice` saves: Android's download directory, or the iOS documents directory. */
  datatype DevicePlatform = Android(downloadDirectoryPath: string) | Ios(documentDirectoryPath: string)

  datatype SaveResult = Saved(path: string) | StoragePermissionDenied | CopyFailed

  /** `savePDFToDevice`: Android needs the storage permission; then the PDF is copied under its file name. */
  function SavePdfToDevice(platform: DevicePlatform, fileName: string, granted: bool, copied: bool): (r: SaveResult)
    ensures r == StoragePermissionDenied <==> platform.Android? && !granted
    ensures r.Saved? ==> r.path == (if platform.Android? then platform.downloadDirectoryPath
                                    else platform.documentDirectoryPath) + "/" + fileName
  {
    var destinationPath :=
      if platform.Android? then
        if granted then Some(platform.downloadDirectoryPath + "/" + fileName) else None
      else Some(platform.documentDirectoryPath + "/" + fileName);
    if destinationPath.None? then StoragePermissionDenied
    else if !copied then CopyFailed
    else Saved(destinationPath.value)
  }

  /** What happens to one label: whether the PDF is generated, the permission granted and the copy made. */
  datatype ItemIo = ItemIo(generated: bool, granted: bool, copied: bool)

  /** One entry of the batch result. */
  datatype BatchEntry = BatchEntry(data: LabelData, path: string, fileName: string)

  /** The file name of label `index` (counting from 0): its serial, or else its position from 1. */
  function BatchFileName(data: LabelData, index: nat): string
  {
    "label_" + OrText(data.serial, Decimal(index + 1)) + ".pdf"
  }

  /** The entry for label `index`, or None when generating or saving it fails. */
  function ItemEntry(data: LabelData, index: nat, io: ItemIo, platform: DevicePlatform): Option<BatchEntry>
  {
    if !io.generated then None
    else
      var fileName := BatchFileName(data, index);
      match SavePdfToDevice(platform, fileName, io.granted, io.copied)
      case Saved(path) => Some(BatchEntry(data, path, fileName))
      case _ => None
  }

  /** The entries of the first n labels, or None as soon as one of them fails. */
  function BatchUpTo(labels: seq<LabelData>, io: seq<ItemIo>, platform: DevicePlatform, n: nat): Option<seq<BatchEntry>>
    requires n <= |labels| && |io| == |labels|
  {
    if n == 0 then Some([])
    else match BatchUpTo(labels, io, platform, n - 1)
      case None => None
      case Some(entries) =>
        match ItemEntry(labels[n - 1], n - 1, io[n - 1], platform)
        case None => None
        case Some(entry) => Some(entries + [entry])
  }

  /**
   * `generateBatchPDFs`: generate and save each label in turn, pushing one
   * entry each; any failure abandons the batch and returns undefined.
   */
  method GenerateBatchPdfs(labelDataArray: seq<LabelData>, io: seq<ItemIo>, platform: DevicePlatform)
    returns (generatedPdfs: Option<seq<BatchEntry>>)
    requires |io| == |labelDataArray|
    ensures generatedPdfs == BatchUpTo(labelDataArray, io, platform, |labelDataArray|)
  {
    var entries: seq<BatchEntry> := [];
    var i := 0;
    while i < |labelDataArray|
      invariant 0 <= i <= |labelDataArray|
      invariant BatchUpTo(labelDataArray, io, platform, i) == Some(entries)
    {
      var labelData := labelDataArray[i];
      if !io[i].generated {
        BatchFailureIsFinal(labelDataArray, io, platform, i + 1, |labelDataArray|);
        return None;
      }
      var fileName := BatchFileName(labelData, i);
      var saved := SavePdfToDevice(platform, fileName, io[i].granted, io[i].copied);
      if !saved.Saved? {
        BatchFailureIsFinal(labelDataArray, io, platform, i + 1, |labelDataArray|);
        return None;
      }
      entries := entries + [BatchEntry(labelData, saved.path, fileName)];
      i := i + 1;
    }
    generatedPdfs := Some(entries);
  }

  /** Once a prefix of the batch fails, every longer prefix fails too. */
  lemma {:induction false} BatchFailureIsFinal(labels: seq<LabelData>, io: seq<ItemIo>, platform: DevicePlatform, i: nat, n: nat)
    requires i <= n <= |labels| && |io| == |labels|
    requires BatchUpTo(labels, io, platform, i) == None
    ensures BatchUpTo(labels, io, platform, n) == None
    decreases n - i
  {
    if i < n {
      BatchFailureIsFinal(labels, io, platform, i, n - 1);
    }
  }

  /**
   * A batch that succeeds has one entry per label, in label order, each
   * holding its label and the file name of its position.
   */
  lemma {:induction false} BatchEntriesInOrder(labels: seq<LabelData>, io: seq<ItemIo>, platform: DevicePlatform, n: nat)
    requires n <= |labels| && |io| == |labels|
    requires BatchUpTo(labels, io, platform, n).Some?
    ensures var entries := BatchUpTo(labels, io, platform, n).value;
            && |entries| == n
            && forall k :: 0 <= k < n ==>
                 && entries[k].data == labels[k]
                 && entries[k].fileName == BatchFileName(labels[k], k)
                 && Some(entries[k]) == ItemEntry(labels[k], k, io[k], platform)
  {
    if n > 0 {
      BatchEntriesInOrder(labels, io, platform, n - 1);
      var before := BatchUpTo(labels, io, platform, n - 1).value;
      var last := ItemEntry(labels[n - 1], n - 1, io[n - 1], platform);
      var entries := before + [last.value];
      assert BatchUpTo(labels, io, platform, n).value == entries;
      ItemEntryFields(labels[n - 1], n - 1, io[n - 1], platform);
      forall k | 0 <= k < n
        ensures && entries[k].data == labels[k]
                && entries[k].fileName == BatchFileName(labels[k], k)
                && Some(entries[k]) == ItemEntry(labels[k], k, io[k], platform)
      {
        if k < n - 1 {
          assert entries[k] == before[k];
        }
      }
    }
  }

  lemma ItemEntryFields(data: LabelData, index: nat, io: ItemIo, platform: DevicePlatform)
    requires ItemEntry(data, index, io, platform).Some?
    ensures ItemEntry(data, index, io, platform).value.data == data
    ensures ItemEntry(data, index, io, platform).value.fileName == BatchFileName(data, index)
  {
  }

  /** The batch is abandoned exactly when some label fails to generate or save; no partial list is returned. */
  lemma {:induction false} BatchFailsIff(labels: seq<LabelData>, io: seq<ItemIo>, platform: DevicePlatform, n: nat)
    requires n <= |labels| && |io| == |labels|
    ensures BatchUpTo(labels, io, platform, n).None?
            <==> exists k :: 0 <= k < n && ItemEntry(labels[k], k, io[k], platform).None?
  {
    if n > 0 {
      BatchFailsIff(labels, io, platform, n - 1);
      if ItemEntry(labels[n - 1], n - 1, io[n - 1], platform).None? {
        assert 0 <= n - 1 < n;
      }
    }
  }

  /** A label with a serial is saved under that serial; one without it under its position from 1. */
  lemma BatchFileNameChoice(data: LabelData, index: nat)
    ensures data.serial.Some? && data.serial.value != "" ==> BatchFileName(data, index) == "label_" + data.serial.value + ".pdf"
    ensures data.serial.None? || data.serial.value == "" ==> BatchFileName(data, index) == "label_" + Decimal(index + 1) + ".pdf"
  {
  }

  /**
   * `createLabelPDF`: generate, then save as `label_<serial or clock>.pdf`;
   * the saved path, or undefined after any failure.
   */
  function CreateLabelPdf(labelData: LabelData, io: ItemIo, platform: DevicePlatform, millis: nat): (saved: Option<string>)
    ensures saved.Some? <==> io.generated && (platform.Ios? || io.granted) && io.copied
  {
    if !io.generated then None
    else match SavePdfToDevice(platform, "label_" + OrText(labelData.serial, Decimal(millis)) + ".pdf", io.granted, io.copied)
      case Saved(path) => Some(path)
      case _ => None
  }
}
