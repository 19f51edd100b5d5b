/** The pure parts of spreadsheet creation: the configured sheets and grid
    size, spreadsheet column lettering (bijective base 26: 1 is A, 26 is Z,
    27 is AA), each sheet's header range, and the requests sent to create
    the spreadsheet, write the headers and format the header rows. */
module Sheets {
  import opened Results

  datatype SheetConfig = SheetConfig(title: string, headers: seq<string>)

  datatype GridProperties = GridProperties(rowCount: nat, columnCount: nat)

  const DefaultGridProperties: GridProperties := GridProperties(3000, 100)

  const ContactHeaders: seq<string> := [
    "ID", "LAST_NAME", "SECOND_NAME", "NAME", "ADDRESS", "ADDRESS_2",
    "ADDRESS_CITY", "ADDRESS_PROVINCE", "ADDRESS_POSTAL_CODE", "ADDRESS_REGION",
    "ADDRESS_COUNTRY", "POST", "COMMENTS", "HONORIFIC", "PHOTO", "LEAD_ID", "TYPE_ID",
    "SOURCE_ID", "SOURCE_DESCRIPTION", "COMPANY_ID", "BIRTHDATE", "EXPORT", "HAS_PHONE",
    "HAS_EMAIL", "HAS_IMOL", "DATE_CREATE", "DATE_MODIFY", "ASSIGNED_BY_ID", "CREATED_BY_ID",
    "MODIFY_BY_ID", "OPENED", "ORIGINATOR_ID", "ORIGIN_ID", "ORIGIN_VERSION", "FACE_ID",
    "UTM_SOURCE", "UTM_MEDIUM", "UTM_CAMPAIGN", "UTM_CONTENT", "LAST_ACTIVITY_TIME",
    "LAST_ACTIVITY_BY", "PHONE", "EMAIL", "WEB", "IM", "UTM_TERM", "ADDRESS_LOC_ADDR_ID"]

  const RequisiteHeaders: seq<string> := [
    "ID", "ENTITY_TYPE_ID", "ENTITY_ID", "PRESET_ID", "DATE_CREATE", "DATE_MODIFY",
    "CREATED_BY_ID", "MODIFY_BY_ID", "NAME", "CODE", "XML_ID", "ORIGINATOR_ID",
    "ACTIVE", "ADDRESS_ONLY", "SORT", "RQ_NAME", "RQ_FIRST_NAME", "RQ_LAST_NAME",
    "RQ_SECOND_NAME", "RQ_COMPANY_ID", "RQ_COMPANY_NAME", "RQ_COMPANY_FULL_NAME",
    "RQ_COMPANY_REG_DATE", "RQ_DIRECTOR", "RQ_ACCOUNTANT", "RQ_CEO_NAME",
    "RQ_CEO_WORK_POS", "RQ_CONTACT", "RQ_EMAIL", "RQ_PHONE", "RQ_FAX",
    "RQ_IDENT_TYPE", "RQ_IDENT_DOC", "RQ_IDENT_DOC_SER", "RQ_IDENT_DOC_NUM",
    "RQ_IDENT_DOC_PERS_NUM", "RQ_IDENT_DOC_DATE", "RQ_IDENT_DOC_ISSUED_BY",
    "RQ_IDENT_DOC_DEP_CODE", "RQ_INN", "RQ_KPP", "RQ_USRLE", "RQ_IFNS",
    "RQ_OGRN", "RQ_OGRNIP", "RQ_OKPO", "RQ_OKTMO", "RQ_OKVED", "RQ_EDRPOU",
    "RQ_DRFO", "RQ_KBE", "RQ_IIN", "RQ_BIN", "RQ_ST_CERT_SER", "RQ_ST_CERT_NUM",
    "RQ_ST_CERT_DATE", "RQ_VAT_PAYER", "RQ_VAT_ID", "RQ_VAT_CERT_SER",
    "RQ_VAT_CERT_NUM", "RQ_VAT_CERT_DATE", "RQ_RESIDENCE_COUNTRY", "RQ_BASE_DOC",
    "RQ_REGON", "RQ_KRS", "RQ_PESEL", "RQ_LEGAL_FORM", "RQ_SIRET", "RQ_SIREN",
    "RQ_CAPITAL", "RQ_RCS", "RQ_CNPJ", "RQ_STATE_REG", "RQ_MNPL_REG", "RQ_CPF"]

  const LogHeaders: seq<string> := ["Time", "Action"]

  /** The sheets every new spreadsheet starts with, in order. */
  const SheetConfigs: seq<SheetConfig> := [
    SheetConfig("CONTACT", ContactHeaders),
    SheetConfig("REQUISITE", RequisiteHeaders),
    SheetConfig("LOG", LogHeaders)]

  // Column lettering

  predicate IsLetter(c: char) {
    'A' <= c <= 'Z'
  }

  predicate AllLetters(s: string) {
    forall i :: 0 <= i < |s| ==> IsLetter(s[i])
  }

  /** `String.fromCharCode(digit + 65)`. */
  function Letter(digit: int): (c: char)
    requires 0 <= digit < 26
    ensures IsLetter(c) && c as int - 65 == digit
  {
    (65 + digit) as char
  }

  /** The reading of a column name: bijective base 26 with A = 1 .. Z = 26,
      most significant letter first. */
  function ColumnNumber(s: string): nat
    requires AllLetters(s)
  {
    if s == [] then 0 else ColumnNumber(s[..|s| - 1]) * 26 + (s[|s| - 1] as int - 64)
  }

  /** Appending a letter reads as one more base-26 digit. */
  lemma ColumnNumberAppend(s: string, c: char)
    requires AllLetters(s) && IsLetter(c)
    ensures AllLetters(s + [c])
    ensures ColumnNumber(s + [c]) == ColumnNumber(s) * 26 + (c as int - 64)
  {
    var t := s + [c];
    assert t[..|t| - 1] == s;
  }

  /** The split one step of the lettering performs; the subtraction leaves a
      multiple of 26, so the step's division is exact. */
  lemma SplitColumn(column: int)
    requires column >= 1
    ensures 0 <= (column - 1) % 26 < 26
    ensures (column - 1) / 26 >= 0
    ensures column == (column - 1) / 26 * 26 + (column - 1) % 26 + 1
    ensures (column - (column - 1) % 26 - 1) % 26 == 0
    ensures (column - (column - 1) % 26 - 1) / 26 == (column - 1) / 26
  {
  }

  /** The column name of a 1-based column; the empty string for 0 and below. */
  function ColumnLetter(column: int): (letter: string)
    ensures column <= 0 ==> letter == ""
    ensures column >= 1 ==> |letter| >= 1
    ensures AllLetters(letter)
    ensures column >= 0 ==> ColumnNumber(letter) == column
    decreases column
  {
    if column <= 0 then ""
    else
      SplitColumn(column);
      var prefix := ColumnLetter((column - 1) / 26);
      var last := Letter((column - 1) % 26);
      ColumnNumberAppend(prefix, last);
      prefix + [last]
  }

  /** One loop step: the column without its last letter, then that letter. */
  lemma PeelStep(column: int, temp: int, next: int)
    requires column > 0 && temp == (column - 1) % 26 && next == (column - temp - 1) / 26
    ensures 0 <= temp < 26 && 0 <= next < column
    ensures ColumnLetter(next) + [Letter(temp)] == ColumnLetter(column)
  {
    SplitColumn(column);
  }

  /** Moving one letter from the end of the prefix to the front of the suffix. */
  lemma Regroup(prefix: string, last: char, suffix: string, whole: string)
    requires (prefix + [last]) + suffix == whole
    ensures prefix + ([last] + suffix) == whole
  {
  }

  /** `getColumnLetter` as written: peel off the last letter while the
      column is positive. */
  method GetColumnLetter(column: int) returns (letter: string)
    ensures letter == ColumnLetter(column)
    ensures column <= 0 ==> letter == ""
    ensures column >= 1 ==> |letter| >= 1 && AllLetters(letter) && ColumnNumber(letter) == column
  {
    letter := "";
    var rest := column;
    while rest > 0
      invariant ColumnLetter(rest) + letter == ColumnLetter(column)
      decreases rest
    {
      var temp := (rest - 1) % 26;
      var next := (rest - temp - 1) / 26;
      PeelStep(rest, temp, next);
      var last := Letter(temp);
      Regroup(ColumnLetter(next), last, letter, ColumnLetter(column));
      letter := [last] + letter;
      rest := next;
    }
    assert ColumnLetter(rest) == "";
    assert ColumnLetter(rest) + letter == letter;
  }

  /** Every name made of letters is the name of the column it reads as. */
  lemma {:induction false} LettersRoundTrip(s: string)
    requires AllLetters(s)
    ensures ColumnLetter(ColumnNumber(s)) == s
    decreases |s|
  {
    if s != [] {
      var prefix := s[..|s| - 1];
      var last := s[|s| - 1];
      assert AllLetters(prefix);
      LettersRoundTrip(prefix);
      var n := ColumnNumber(s);
      assert n - 1 == ColumnNumber(prefix) * 26 + (last as int - 65);
      assert (n - 1) / 26 == ColumnNumber(prefix) && (n - 1) % 26 == last as int - 65;
      assert s == prefix + [last];
    }
  }

  /** Distinct columns get distinct names, and distinct names distinct columns. */
  lemma ColumnLettersDistinct(a: nat, b: nat)
    ensures a != b <==> ColumnLetter(a) != ColumnLetter(b)
  {
  }

  // Requests

  /** The range the header row is written to: from A1 to the last header's column. */
  function HeaderRange(config: SheetConfig): (range: string)
    ensures |range| > |config.title| + 4
    ensures range[..|config.title| + 4] == config.title + "!A1:"
    ensures range[|range| - 1] == '1'
    ensures AllLetters(range[|config.title| + 4 .. |range| - 1])
    ensures ColumnNumber(range[|config.title| + 4 .. |range| - 1]) == |config.headers|
  {
    var letter := ColumnLetter(|config.headers|);
    var range := config.title + "!A1:" + letter + "1";
    assert range[|config.title| + 4 .. |range| - 1] == letter;
    range
  }

  datatype SheetProperties = SheetProperties(title: string, grid: GridProperties)

  datatype SpreadsheetRequest = SpreadsheetRequest(title: string, sheets: seq<SheetProperties>)

  /** A raw write of rows of values into a range. */
  datatype ValueUpdate = ValueUpdate(range: string, valueInputOption: string, values: seq<seq<string>>)

  datatype GridRange = GridRange(
    sheetId: Option<int>,
    startRowIndex: nat,
    endRowIndex: nat,
    startColumnIndex: nat,
    endColumnIndex: nat)

  /** One entry of the formatting batch. The background colour of the header
      cells is left out of the model. */
  datatype FormatRequest =
    | RepeatCell(range: GridRange, bold: bool, fields: string)
    | UpdateSheetProperties(sheetId: Option<int>, frozenRowCount: nat, fields: string)

  /** `sheetIds[index]`, which is `undefined` past the end of the response. */
  function SheetIdAt(sheetIds: seq<int>, index: nat): Option<int> {
    if index < |sheetIds| then Some(sheetIds[index]) else None
  }

  /** Bold header cells across the first row, as wide as the header list. */
  function BoldHeader(sheetId: Option<int>, width: nat): FormatRequest {
    RepeatCell(GridRange(sheetId, 0, 1, 0, width), true, "userEnteredFormat(backgroundColor,textFormat)")
  }

  function FreezeHeader(sheetId: Option<int>): FormatRequest {
    UpdateSheetProperties(sheetId, 1, "gridProperties.frozenRowCount")
  }

  /** The flattened pairs of formatting requests for the sheets from `from` on. */
  function FormatRequests(configs: seq<SheetConfig>, sheetIds: seq<int>, from: nat): (requests: seq<FormatRequest>)
    requires from <= |configs|
    ensures |requests| == 2 * (|configs| - from)
    ensures forall i :: from <= i < |configs| ==>
      && requests[2 * (i - from)] == BoldHeader(SheetIdAt(sheetIds, i), |configs[i].headers|)
      && requests[2 * (i - from) + 1] == FreezeHeader(SheetIdAt(sheetIds, i))
    decreases |configs| - from
  {
    if from == |configs| then []
    else
      var id := SheetIdAt(sheetIds, from);
      [BoldHeader(id, |configs[from].headers|), FreezeHeader(id)] + FormatRequests(configs, sheetIds, from + 1)
  }

  function HeaderUpdates(configs: seq<SheetConfig>): (updates: seq<ValueUpdate>)
    ensures |updates| == |configs|
    ensures forall i :: 0 <= i < |configs| ==>
      updates[i] == ValueUpdate(HeaderRange(configs[i]), "RAW", [configs[i].headers])
  {
    seq(|configs|, i requires 0 <= i < |configs| => ValueUpdate(HeaderRange(configs[i]), "RAW", [configs[i].headers]))
  }

  /** Everything `createSpreadsheet` sends, given the sheet ids the creation
      answered with. */
  datatype Plan = Plan(create: SpreadsheetRequest, headerUpdates: seq<ValueUpdate>, formatting: seq<FormatRequest>)

  function CreateSpreadsheetPlan(title: string, sheetIds: seq<int>): (plan: Plan)
    ensures plan.create.title == title
    ensures |plan.create.sheets| == |SheetConfigs| == |plan.headerUpdates|
    ensures forall i :: 0 <= i < |SheetConfigs| ==>
      plan.create.sheets[i] == SheetProperties(SheetConfigs[i].title, DefaultGridProperties)
    ensures forall i :: 0 <= i < |SheetConfigs| ==>
      && plan.headerUpdates[i].range == HeaderRange(SheetConfigs[i])
      && plan.headerUpdates[i].valueInputOption == "RAW"
      && plan.headerUpdates[i].values == [SheetConfigs[i].headers]
    ensures |plan.formatting| == 2 * |SheetConfigs|
    ensures forall i :: 0 <= i < |SheetConfigs| ==>
      && plan.formatting[2 * i] == BoldHeader(SheetIdAt(sheetIds, i), |SheetConfigs[i].headers|)
      && plan.formatting[2 * i + 1] == FreezeHeader(SheetIdAt(sheetIds, i))
  {
    var sheets := seq(|SheetConfigs|, i requires 0 <= i < |SheetConfigs| =>
      SheetProperties(SheetConfigs[i].title, DefaultGridProperties));
    Plan(SpreadsheetRequest(title, sheets), HeaderUpdates(SheetConfigs), FormatRequests(SheetConfigs, sheetIds, 0))
  }

  /** Columns 1 to 26 are single letters. */
  lemma SingleLetter(column: int)
    requires 1 <= column <= 26
    ensures ColumnLetter(column) == [Letter(column - 1)]
  {
    assert (column - 1) / 26 == 0 && (column - 1) % 26 == column - 1;
    assert ColumnLetter(0) == "";
  }

  /** A column past 26 is the name of its leading part followed by one letter. */
  lemma NextLetter(column: int, lead: int, digit: int)
    requires lead >= 1 && 0 <= digit < 26 && column == lead * 26 + digit + 1
    ensures ColumnLetter(column) == ColumnLetter(lead) + [Letter(digit)]
  {
    assert (column - 1) / 26 == lead && (column - 1) % 26 == digit;
  }

  /** 1 -> A and 2 -> B, the last single letter, and the wrap from Z to AA. */
  lemma ColumnLetterExamples()
    ensures ColumnLetter(1) == "A" && ColumnLetter(2) == "B"
    ensures ColumnLetter(26) == "Z" && ColumnLetter(27) == "AA"
  {
    SingleLetter(1);
    SingleLetter(2);
    SingleLetter(26);
    NextLetter(27, 1, 0);
  }

  lemma ContactWidthLetters()
    ensures ColumnLetter(47) == "AU"
  {
    SingleLetter(1);
    NextLetter(47, 1, 20);
  }

  lemma RequisiteWidthLetters()
    ensures ColumnLetter(75) == "BW"
  {
    SingleLetter(2);
    NextLetter(75, 2, 22);
  }

  /** The configured sheets: their header counts, and that each fits within
      the default grid. */
  lemma ConfiguredSheets()
    ensures |SheetConfigs| == 3
    ensures |SheetConfigs[0].headers| == 47 && |SheetConfigs[1].headers| == 75 && |SheetConfigs[2].headers| == 2
    ensures forall i :: 0 <= i < |SheetConfigs| ==> |SheetConfigs[i].headers| <= DefaultGridProperties.columnCount
  {
  }

  /** The header ranges written for the configured sheets. */
  lemma ConfiguredHeaderRanges()
    ensures HeaderRange(SheetConfigs[0]) == "CONTACT!A1:AU1"
    ensures HeaderRange(SheetConfigs[1]) == "REQUISITE!A1:BW1"
    ensures HeaderRange(SheetConfigs[2]) == "LOG!A1:B1"
  {
    ConfiguredSheets();
    ContactWidthLetters();
    RequisiteWidthLetters();
    SingleLetter(2);
  }
}
