/**
 * The string-to-enum resolvers and the device-name classifier of the Kotlin
 * bridge module (BrotherPrinterModule.kt): configuration strings coming from
 * JavaScript are mapped to vendor enumerations with a default fallback.
 */
module PrinterSettings {
  import opened Wrappers
  import opened Text

  /** The printer models the bridge can name (a subset of the vendor's PrinterModel). */
  datatype PrinterModel = QL_820NWB | QL_810W | QL_800

  /** The die-cut label sizes the bridge can name (a subset of the vendor's QLPrintSettings.LabelSize). */
  datatype LabelSize =
    | DieCutW17H54 | DieCutW17H87 | DieCutW23H23 | DieCutW29H42 | DieCutW29H90
    | DieCutW38H90 | DieCutW39H48 | DieCutW52H29 | DieCutW62H29 | DieCutW62H60
    | DieCutW62H75 | DieCutW62H100 | DieCutW60H86 | DieCutW54H29 | DieCutW102H51
    | DieCutW102H152 | DieCutW103H164

  /** The enum constant's own name, as the `when` branches spell it. */
  function ModelName(m: PrinterModel): string
  {
    match m
    case QL_820NWB => "QL_820NWB"
    case QL_810W => "QL_810W"
    case QL_800 => "QL_800"
  }

  /** `getPrinterModel`: the upper-cased name selects a model; anything else falls back to QL_820NWB. */
  function GetPrinterModel(modelName: string): PrinterModel
  {
    var key := Upper(modelName);
    if key == "QL_820NWB" then QL_820NWB
    else if key == "QL_810W" then QL_810W
    else if key == "QL_800" then QL_800
    else QL_820NWB
  }

  /**
   * Each model is selected exactly by the strings that upper-case to its own
   * name; every other string selects the default QL_820NWB.
   */
  lemma GetPrinterModelSelects(modelName: string, m: PrinterModel)
    ensures m != QL_820NWB ==> (GetPrinterModel(modelName) == m <==> Upper(modelName) == ModelName(m))
    ensures GetPrinterModel(modelName) == QL_820NWB
            <==> Upper(modelName) != ModelName(QL_810W) && Upper(modelName) != ModelName(QL_800)
  {
  }

  lemma UpperModelNames()
    ensures Upper("QL_820NWB") == "QL_820NWB"
    ensures Upper("QL_810W") == "QL_810W"
    ensures Upper("QL_800") == "QL_800"
    ensures Upper("ql_810w") == "QL_810W"
    ensures Upper("QL_700") == "QL_700"
  {
    assert Upper("QL_820NWB") == "QL_820NWB";
    assert Upper("QL_810W") == "QL_810W";
    assert Upper("QL_800") == "QL_800";
    assert Upper("ql_810w") == "QL_810W";
    assert Upper("QL_700") == "QL_700";
  }

  /** Matching ignores case and round-trips every model's name; "QL_700" gets the default. */
  lemma GetPrinterModelIgnoresCase(m: PrinterModel)
    ensures GetPrinterModel(ModelName(m)) == m
    ensures GetPrinterModel("ql_810w") == QL_810W
    ensures GetPrinterModel("QL_700") == QL_820NWB
  {
    UpperModelNames();
  }

  /** `getLabelSize` as written: the argument is upper-cased, then compared with mixed-case literals. */
  function GetLabelSize(sizeString: string): LabelSize
  {
    var key := Upper(sizeString);
    if key == "DieCutW17H54" then DieCutW17H54
    else if key == "DieCutW17H87" then DieCutW17H87
    else if key == "DieCutW23H23" then DieCutW23H23
    else if key == "DieCutW29H42" then DieCutW29H42
    else if key == "DieCutW29H90" then DieCutW29H90
    else if key == "DieCutW38H90" then DieCutW38H90
    else if key == "DieCutW39H48" then DieCutW39H48
    else if key == "DieCutW52H29" then DieCutW52H29
    else if key == "DieCutW62H29" then DieCutW62H29
    else if key == "DieCutW62H60" then DieCutW62H60
    else if key == "DieCutW62H75" then DieCutW62H75
    else if key == "DieCutW62H100" then DieCutW62H100
    else if key == "DieCutW60H86" then DieCutW60H86
    else if key == "DieCutW54H29" then DieCutW54H29
    else if key == "DieCutW102H51" then DieCutW102H51
    else if key == "DieCutW102H152" then DieCutW102H152
    else if key == "DieCutW103H164" then DieCutW103H164
    else DieCutW29H90
  }

  /**
   * Only the default branch of `getLabelSize` is reachable: an upper-cased
   * string has no lower-case letter, while every literal has 'i' at index 1.
   */
  lemma {:induction false} GetLabelSizeIsConstant(sizeString: string)
    ensures GetLabelSize(sizeString) == DieCutW29H90
  {
    var key := Upper(sizeString);
    if |key| >= 2 {
      UpperHasNoLower(sizeString, 1);
      assert key[1] != 'i';
    }
    assert key != "DieCutW17H54" && key != "DieCutW17H87" && key != "DieCutW23H23";
    assert key != "DieCutW29H42" && key != "DieCutW38H90" && key != "DieCutW39H48";
    assert key != "DieCutW52H29" && key != "DieCutW62H29" && key != "DieCutW62H60";
    assert key != "DieCutW62H75" && key != "DieCutW62H100" && key != "DieCutW60H86";
    assert key != "DieCutW54H29" && key != "DieCutW102H51" && key != "DieCutW102H152";
    assert key != "DieCutW103H164";
  }

  /** The width/height part of a label size's name, such as "W29H90". */
  function Dimensions(l: LabelSize): string
  {
    match l
    case DieCutW17H54 => "W17H54"
    case DieCutW17H87 => "W17H87"
    case DieCutW23H23 => "W23H23"
    case DieCutW29H42 => "W29H42"
    case DieCutW29H90 => "W29H90"
    case DieCutW38H90 => "W38H90"
    case DieCutW39H48 => "W39H48"
    case DieCutW52H29 => "W52H29"
    case DieCutW62H29 => "W62H29"
    case DieCutW62H60 => "W62H60"
    case DieCutW62H75 => "W62H75"
    case DieCutW62H100 => "W62H100"
    case DieCutW60H86 => "W60H86"
    case DieCutW54H29 => "W54H29"
    case DieCutW102H51 => "W102H51"
    case DieCutW102H152 => "W102H152"
    case DieCutW103H164 => "W103H164"
  }

  /** The enum constant's own name, as the `when` branches of `getLabelSize` spell it. */
  function LabelSizeName(l: LabelSize): string
  {
    "DieCut" + Dimensions(l)
  }

  /** The label size whose name ends in the given dimensions; the default for unknown ones. */
  function SizeOfDimensions(d: string): LabelSize
  {
    if d == "W17H54" then DieCutW17H54
    else if d == "W17H87" then DieCutW17H87
    else if d == "W23H23" then DieCutW23H23
    else if d == "W29H42" then DieCutW29H42
    else if d == "W29H90" then DieCutW29H90
    else if d == "W38H90" then DieCutW38H90
    else if d == "W39H48" then DieCutW39H48
    else if d == "W52H29" then DieCutW52H29
    else if d == "W62H29" then DieCutW62H29
    else if d == "W62H60" then DieCutW62H60
    else if d == "W62H75" then DieCutW62H75
    else if d == "W62H100" then DieCutW62H100
    else if d == "W60H86" then DieCutW60H86
    else if d == "W54H29" then DieCutW54H29
    else if d == "W102H51" then DieCutW102H51
    else if d == "W102H152" then DieCutW102H152
    else if d == "W103H164" then DieCutW103H164
    else DieCutW29H90
  }

  /**
   * The evidently intended `getLabelSize`: the upper-cased argument is compared
   * with the upper-cased names, so that every spelling of a name selects it.
   */
  function GetLabelSizeIgnoringCase(sizeString: string): LabelSize
  {
    var key := Upper(sizeString);
    if |key| >= 6 && key[..6] == "DIECUT" then SizeOfDimensions(key[6..]) else DieCutW29H90
  }

  /** Upper-casing a label name changes only the lower-case letters of its "DieCut" prefix. */
  lemma UpperLabelName(l: LabelSize)
    ensures Upper(LabelSizeName(l)) == "DIECUT" + Dimensions(l)
  {
    var d := Dimensions(l);
    var n := LabelSizeName(l);
    assert forall i :: 0 <= i < |d| ==> !IsLowerAscii(d[i]);
    assert Upper(n)[..6] == "DIECUT";
    assert Upper(n)[6..] == d;
    assert Upper(n) == Upper(n)[..6] + Upper(n)[6..];
  }

  /** The corrected resolver round-trips every label name, in any letter case. */
  lemma GetLabelSizeIgnoringCaseRoundTrip(l: LabelSize, spelling: string)
    requires Upper(spelling) == Upper(LabelSizeName(l))
    ensures GetLabelSizeIgnoringCase(spelling) == l
  {
    UpperLabelName(l);
    SizeOfDimensionsInverts(l);
    var key := Upper(spelling);
    assert key[..6] == "DIECUT" && key[6..] == Dimensions(l);
  }

  lemma SizeOfDimensionsInverts(l: LabelSize)
    ensures SizeOfDimensions(Dimensions(l)) == l
  {
    match l
    case DieCutW17H54 => assert Dimensions(l) == "W17H54";
    case DieCutW17H87 => assert Dimensions(l) == "W17H87";
    case DieCutW23H23 => assert Dimensions(l) == "W23H23";
    case DieCutW29H42 => assert Dimensions(l) == "W29H42";
    case DieCutW29H90 => assert Dimensions(l) == "W29H90";
    case DieCutW38H90 => assert Dimensions(l) == "W38H90";
    case DieCutW39H48 => assert Dimensions(l) == "W39H48";
    case DieCutW52H29 => assert Dimensions(l) == "W52H29";
    case DieCutW62H29 => assert Dimensions(l) == "W62H29";
    case DieCutW62H60 => assert Dimensions(l) == "W62H60";
    case DieCutW62H75 => assert Dimensions(l) == "W62H75";
    case DieCutW62H100 => assert Dimensions(l) == "W62H100";
    case DieCutW60H86 => assert Dimensions(l) == "W60H86";
    case DieCutW54H29 => assert Dimensions(l) == "W54H29";
    case DieCutW102H51 => assert Dimensions(l) == "W102H51";
    case DieCutW102H152 => assert Dimensions(l) == "W102H152";
    case DieCutW103H164 => assert Dimensions(l) == "W103H164";
  }

  /** The name-based markers `isBrotherPrinter` looks for. */
  const BrotherMarkers: seq<string> := ["BROTHER", "QL-", "PT-", "TD-", "MW-", "RJ-"]

  /** `isBrotherPrinter`: the upper-cased device name (empty when null) contains a marker. */
  function IsBrotherPrinter(deviceName: Option<string>): (brother: bool)
    ensures deviceName.None? ==> !brother
  {
    var name := if deviceName.Some? then Upper(deviceName.value) else "";
    Contains(name, "BROTHER") || Contains(name, "QL-") || Contains(name, "PT-")
    || Contains(name, "TD-") || Contains(name, "MW-") || Contains(name, "RJ-")
  }

  /** A device is a Brother printer exactly when its upper-cased name contains one of the markers. */
  lemma IsBrotherPrinterIff(deviceName: Option<string>)
    ensures IsBrotherPrinter(deviceName)
            <==> (deviceName.Some? && exists m :: m in BrotherMarkers && Contains(Upper(deviceName.value), m))
  {
    if IsBrotherPrinter(deviceName) {
      var u := Upper(deviceName.value);
      var m :| m in BrotherMarkers && Contains(u, m) by {
        if Contains(u, "BROTHER") { assert "BROTHER" in BrotherMarkers; }
        else if Contains(u, "QL-") { assert "QL-" in BrotherMarkers; }
        else if Contains(u, "PT-") { assert "PT-" in BrotherMarkers; }
        else if Contains(u, "TD-") { assert "TD-" in BrotherMarkers; }
        else if Contains(u, "MW-") { assert "MW-" in BrotherMarkers; }
        else { assert "RJ-" in BrotherMarkers; }
      }
    }
  }

  /**
   * A device is recognised whenever some part of its name upper-cases to a
   * marker: "Brother QL-820NWB", "brother" and "ql-800" all qualify.
   */
  lemma {:induction false} BrotherNameRecognised(name: string, part: string)
    requires Contains(name, part)
    requires Upper(part) in BrotherMarkers
    ensures IsBrotherPrinter(Some(name))
  {
    ContainsUpper(name, part);
  }
}
