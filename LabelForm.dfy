/**
 * The label screen's form logic (ModifyPrinter.js): required-field validation,
 * the checks before a Bluetooth print, and the fields that go into the QR
 * code. The form is a value holding the screen's text fields.
 */
module LabelForm {
  import opened Text
  import opened MacAddress

  /** The text fields of the label form, as the screen holds them. */
  datatype Form = Form(
    siteName: string, organizationName: string, address: string, phone: string,
    email: string, website: string, macAddress: string)

  /** The outcome of `validateInputs`; the errors carry the alert's text. */
  datatype Validation = Valid | SiteNameRequired | OrganizationNameRequired

  function ValidationMessage(v: Validation): string
  {
    match v
    case Valid => ""
    case SiteNameRequired => "Site Name is required"
    case OrganizationNameRequired => "Organization Name is required"
  }

  /** `validateInputs`: the site name is checked before the organization name. */
  function ValidateInputs(form: Form): Validation
  {
    if Trim(form.siteName) == "" then SiteNameRequired
    else if Trim(form.organizationName) == "" then OrganizationNameRequired
    else Valid
  }

  /**
   * Validation fails exactly when the site name or the organization name is
   * blank, and it names the site name whenever that one is blank.
   */
  lemma ValidateInputsIff(form: Form)
    ensures ValidateInputs(form) == Valid <==> !IsBlank(form.siteName) && !IsBlank(form.organizationName)
    ensures ValidateInputs(form) == SiteNameRequired <==> IsBlank(form.siteName)
    ensures ValidateInputs(form) == OrganizationNameRequired
            <==> !IsBlank(form.siteName) && IsBlank(form.organizationName)
  {
    TrimEmptyIff(form.siteName);
    TrimEmptyIff(form.organizationName);
  }

  /** What `handlePrintBluetooth` does before it prints. */
  datatype PrintGate =
    | InvalidMacAddress
    | NoImage
    | PermissionDenied
    | PrintRequest(macAddress: string, imagePath: string, printerModel: string, labelSize: string)

  /** The print request goes out with the constants `PrinterModels.QL_820NWB` and `LabelSizes.ROLLW29`. */
  const RequestModel: string := "QL_820NWB"
  const RequestLabelSize: string := "ROLLW29"

  /** `handlePrintBluetooth` up to the bridge call: MAC length, then image, then permissions. */
  function PrintBluetoothGate(macAddress: string, generatedImagePath: string, permitted: bool): (gate: PrintGate)
    ensures gate.PrintRequest? <==> |macAddress| == 17 && generatedImagePath != "" && permitted
  {
    if macAddress == "" || |macAddress| != 17 then InvalidMacAddress
    else if generatedImagePath == "" then NoImage
    else if !permitted then PermissionDenied
    else PrintRequest(macAddress, generatedImagePath, RequestModel, RequestLabelSize)
  }

  /**
   * The MAC field always holds a formatted address (every edit goes through
   * `formatMacAddress`). Such a field passes the length check exactly when
   * the text typed holds at least twelve hex digits, and a request then
   * carries an address with only 0-9, A-F and colons at positions 2, 5, ...
   */
  lemma PrintBluetoothGateOnFormattedAddress(typed: string, generatedImagePath: string, permitted: bool)
    ensures var gate := PrintBluetoothGate(FormatMacAddress(typed), generatedImagePath, permitted);
            && (gate != InvalidMacAddress <==> |HexDigits(typed)| >= 12)
            && (gate.PrintRequest? ==>
                  && |gate.macAddress| == 17
                  && (forall i :: 0 <= i < 17 ==> IsMacChar(gate.macAddress[i]))
                  && (forall i :: 0 <= i < 17 ==> (gate.macAddress[i] == ':' <==> i % 3 == 2)))
  {
    FormatMacAddressFullLength(typed);
    FormatMacAddressShape(typed);
  }

  /** One key of the QR object and its value. */
  datatype QrField = QrField(key: string, value: string)

  /** What `getQRData` returns: '' or the JSON text of an object, kept here as its fields in key order. */
  datatype QrData = NoQrData | QrObject(fields: seq<QrField>)

  /** The object `getQRData` builds before pruning, in key order; the timestamp comes from the clock. */
  function AllQrFields(form: Form, timestamp: string): seq<QrField>
  {
    [ QrField("siteName", Trim(form.siteName)),
      QrField("organizationName", Trim(form.organizationName)),
      QrField("address", Trim(form.address)),
      QrField("phone", Trim(form.phone)),
      QrField("email", Trim(form.email)),
      QrField("website", Trim(form.website)),
      QrField("macAddress", Trim(form.macAddress)),
      QrField("timestamp", timestamp) ]
  }

  /** The fields with a non-empty value, in order. */
  function NonEmptyFields(fields: seq<QrField>): (kept: seq<QrField>)
    ensures |kept| <= |fields|
  {
    if fields == [] then []
    else NonEmptyFields(fields[..|fields| - 1])
         + (if fields[|fields| - 1].value != "" then [fields[|fields| - 1]] else [])
  }

  /**
   * `getQRData`: '' unless both required fields are filled; otherwise the
   * object with every empty field deleted.
   */
  method GetQrData(form: Form, timestamp: string) returns (qr: QrData)
    ensures Trim(form.siteName) == "" || Trim(form.organizationName) == "" ==> qr == NoQrData
    ensures Trim(form.siteName) != "" && Trim(form.organizationName) != ""
            ==> qr == QrObject(NonEmptyFields(AllQrFields(form, timestamp)))
    ensures qr == NoQrData <==> IsBlank(form.siteName) || IsBlank(form.organizationName)
  {
    NoQrDataIff(form);
    if Trim(form.siteName) == "" || Trim(form.organizationName) == "" {
      return NoQrData;
    }
    var qrData := DeleteEmptyFields(AllQrFields(form, timestamp));
    qr := QrObject(qrData);
  }

  /** The `forEach` over the object's keys that deletes, in place, each key whose value is empty. */
  method DeleteEmptyFields(fields: seq<QrField>) returns (qrData: seq<QrField>)
    ensures qrData == NonEmptyFields(fields)
  {
    qrData := fields;
    var i := 0;
    while i < |fields|
      invariant 0 <= i <= |fields|
      invariant qrData == NonEmptyFields(fields[..i]) + fields[i..]
    {
      var kept := NonEmptyFields(fields[..i]);
      var at := |kept|;
      NonEmptyFieldsStep(fields, i);
      DeleteAt(kept, fields, i);
      if qrData[at].value == "" {
        qrData := qrData[..at] + qrData[at + 1..];
      }
      i := i + 1;
    }
    assert fields[..i] == fields;
  }

  /** Where field i sits in the partly pruned object, and what deleting it there leaves. */
  lemma DeleteAt(kept: seq<QrField>, fields: seq<QrField>, i: nat)
    requires i < |fields|
    ensures var q := kept + fields[i..];
            && q[|kept|] == fields[i]
            && q[..|kept|] + q[|kept| + 1..] == kept + fields[i + 1..]
            && q == (kept + [fields[i]]) + fields[i + 1..]
  {
    var q := kept + fields[i..];
    assert q[..|kept|] == kept;
    assert q[|kept| + 1..] == fields[i + 1..];
    assert fields[i..] == [fields[i]] + fields[i + 1..];
  }

  /** Pruning one more field of the object. */
  lemma NonEmptyFieldsStep(fields: seq<QrField>, i: nat)
    requires i < |fields|
    ensures NonEmptyFields(fields[..i + 1])
            == NonEmptyFields(fields[..i]) + (if fields[i].value != "" then [fields[i]] else [])
  {
    var p := fields[..i + 1];
    assert p[..|p| - 1] == fields[..i] && p[|p| - 1] == fields[i];
  }

  /** A field survives pruning exactly when it was in the object with a non-empty value. */
  lemma {:induction false} NonEmptyFieldsMembership(fields: seq<QrField>, f: QrField)
    ensures f in NonEmptyFields(fields) <==> f in fields && f.value != ""
    decreases |fields|
  {
    if fields != [] {
      var front := fields[..|fields| - 1];
      var last := fields[|fields| - 1];
      NonEmptyFieldsMembership(front, f);
      assert fields == front + [last];
    }
  }

  /** Pruning a prefix of the object gives a prefix of the pruned object, so survivors keep their order. */
  lemma {:induction false} NonEmptyFieldsPrefix(fields: seq<QrField>, n: nat)
    requires n <= |fields|
    ensures NonEmptyFields(fields[..n]) <= NonEmptyFields(fields)
    decreases |fields| - n
  {
    if n < |fields| {
      NonEmptyFieldsPrefix(fields, n + 1);
      var p := fields[..n + 1];
      assert p[..|p| - 1] == fields[..n];
    } else {
      assert fields[..n] == fields;
    }
  }

  /**
   * With both required fields filled, the QR object starts with the trimmed
   * site name and organization name, and holds any other field exactly when
   * its value is non-empty.
   */
  lemma QrObjectFields(form: Form, timestamp: string, f: QrField)
    requires Trim(form.siteName) != "" && Trim(form.organizationName) != ""
    ensures var kept := NonEmptyFields(AllQrFields(form, timestamp));
            && |kept| >= 2
            && kept[0] == QrField("siteName", Trim(form.siteName))
            && kept[1] == QrField("organizationName", Trim(form.organizationName))
            && (f in kept <==> f in AllQrFields(form, timestamp) && f.value != "")
  {
    var all := AllQrFields(form, timestamp);
    NonEmptyFieldsFilledHead(all, f);
  }

  /** Two filled leading fields lead the pruned object, which holds exactly the filled fields. */
  lemma NonEmptyFieldsFilledHead(fields: seq<QrField>, f: QrField)
    requires |fields| >= 2 && fields[0].value != "" && fields[1].value != ""
    ensures var kept := NonEmptyFields(fields);
            && |kept| >= 2 && kept[0] == fields[0] && kept[1] == fields[1]
            && (f in kept <==> f in fields && f.value != "")
  {
    NonEmptyFieldsKeepsFilledPrefix(fields, 2);
    NonEmptyFieldsMembership(fields, f);
  }

  /** A prefix whose values are all non-empty survives pruning unchanged. */
  lemma NonEmptyFieldsKeepsFilledPrefix(fields: seq<QrField>, n: nat)
    requires n <= |fields|
    requires forall k :: 0 <= k < n ==> fields[k].value != ""
    ensures fields[..n] <= NonEmptyFields(fields)
  {
    NonEmptyFieldsPrefix(fields, n);
    NonEmptyFieldsOfFilled(fields[..n]);
  }

  lemma {:induction false} NonEmptyFieldsOfFilled(fields: seq<QrField>)
    requires forall k :: 0 <= k < |fields| ==> fields[k].value != ""
    ensures NonEmptyFields(fields) == fields
    decreases |fields|
  {
    if fields != [] {
      var front := fields[..|fields| - 1];
      NonEmptyFieldsOfFilled(front);
      assert front + [fields[|fields| - 1]] == fields;
    }
  }

  /** The guard of `getQRData`: a required field trims to '' exactly when it is blank. */
  lemma NoQrDataIff(form: Form)
    ensures Trim(form.siteName) == "" || Trim(form.organizationName) == ""
            <==> IsBlank(form.siteName) || IsBlank(form.organizationName)
  {
    TrimEmptyIff(form.siteName);
    TrimEmptyIff(form.organizationName);
  }
}
