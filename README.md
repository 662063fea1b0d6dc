# Invoice template automation: a Dafny model

This project models the core of InvoiceTemplatation, a Streamlit application that fills a company's Excel invoice template. The application works as follows:

- It reads a Business Order (BO) uploaded as a PDF or as a CSV/Excel sheet.
- It pre-fills an invoice form from that order.
- It computes the due date, the VAT cell and the total in words.
- It writes the form into the template's cells and saves the workbook under a name derived from the invoice number.
- A small registry of client names, predefined and custom, is kept in `clients.json`.

The model has one module per source file, plus three shared modules:

- `Wrappers`: `Option` and `Result`.
- `Text`: the Python string operations the code relies on. These are `strip`, `split`, `join`, `splitlines`, `replace`, `upper` and integer rendering, with `str.isspace`'s whitespace set.
- `Seqs`: the "append if not already present" idiom, and prefixes.

The Python modules map to Dafny modules as follows:

- `Config` (`config.py`) holds the field table `INVOICE_FIELDS` and the validation rules. It proves that they are what the rest of the code assumes: which fields exist, which cells each one writes, that no cell is shared, and that only `total_amount` is read-only.
- `BoPdfParser` (`bo_pdf_parser.py`) extracts the order number, the client name, the TRN, the descriptions, the quantities, the rates and the line items from the PDF text. Every regular-expression search is an input: the first capture of its first match, or the list of captures of `findall`. These inputs are gathered in a `Scan`. The one pattern whose whole match is kept, the compact order number `(?:PD|PO|BO|Schedule)\d{2}\|?\d+\|?\d+`, is matched against the text by a scanner. The scanner is proved sound and complete for that pattern. Everything the parser does with the captures is modelled: trimming, collapsing whitespace, the length limits, deduplication, the caps of 5 and 10, and the pairing into line items. `ExtractDescriptions` and `CollectAmounts` run the source's loops as methods, and each is proved equal to a specification function.
- `Clients` (`client_manager.py`) is a `ClientManager` class. Its fields are the two name lists and the stored file. Adding a client trims the name and refuses empty names and duplicates. Removing a client drops its first occurrence. The registry is saved after every change. The lemmas show that an add or a remove keeps the combined list free of repeats, and that removing a just-added name undoes the add.
- `Excel` (`excel_handler.py`) is an `ExcelHandler` class over a worksheet, which is a map from cell coordinates to values. The operations are:
  - loading picks the `Invoice` sheet, or else the first sheet;
  - reading a multi-cell field joins the cells with newlines and strips the result;
  - writing splits a multi-line string across the cells and blanks the cells that are left over;
  - updating skips unknown and read-only fields and stops at the first failed write;
  - saving derives the default file name.

  Every assignment to a cell goes through openpyxl's check on strings: a string is cut to 32,767 characters, and one holding a control character other than tab, newline or carriage return is refused. A refused value makes the write fail; in a multi-cell field the cells before it are already written.
  Round trips are proved: a value written to a single cell reads back unchanged when it is not a string or is a string that passes the check unchanged. A trimmed multi-line string that passes the check, written to a field with enough cells, reads back unchanged.
- The form logic of `ui.py` is split into three modules:
  - `InvoiceForm`: the CSV column mapping, the PDF pre-fill, the invoice-number prefix, the VAT choice and its cell text, and the file name.
  - `DueDates`: `strptime("%d/%m/%Y")`, then 30 days added, then `strftime`. This is modelled with a proleptic Gregorian day number, and the result is proved to be the unique date 30 days later.
  - `NumberWords`: the total in words. The speller is proved to round-trip through an evaluator of the word list, for every amount below one trillion.

## Model

| member | source | states |
|---|---|---|
| Config.FieldKeysExact | invoice_automation/config.py:6-93 | the field table has exactly the fourteen listed keys, each once |
| Config.FieldCells | invoice_automation/config.py:19-24 | every field names at least one cell; only `client_address` (C13, C14, C15) and `budget` (F21, F25) name several, in that order |
| Config.OnlyTotalReadOnly | invoice_automation/config.py:86-92 | a field is read-only exactly when it is `total_amount` |
| Config.OwnerInverts | invoice_automation/config.py:6-93 | each configured cell belongs to exactly the field and position that list it |
| Config.CellsAreDisjoint | invoice_automation/config.py:6-93 | no cell is named by two fields, nor twice by one field |
| Config.NoTotalInWordsField | invoice_automation/config.py:6-93 | the computed `total_in_words` has no field, so it is never written |
| Config.ValidationRuleShapes | invoice_automation/config.py:100-105 | VAT must be 0 or 5; quantity, rate and budget must be non-negative, with no upper bound |
| BoPdfParser.Lines | invoice_automation/bo_pdf_parser.py:20-21 | the lines the parser keeps join back with newlines to the text |
| BoPdfParser.DigitGroupsSound | invoice_automation/bo_pdf_parser.py:41 | what the scanner accepts for the digit groups (digits, an optional pipe, digits) is in that language |
| BoPdfParser.DigitGroupsComplete | invoice_automation/bo_pdf_parser.py:41 | whenever the text holds digit groups at a position, the scanner finds a match there |
| BoPdfParser.TailSound | invoice_automation/bo_pdf_parser.py:41 | the scanner's match after the keyword is two digits, an optional pipe, then digit groups |
| BoPdfParser.TailComplete | invoice_automation/bo_pdf_parser.py:41 | any such tail at a position is found by the scanner |
| BoPdfParser.CompactSound | invoice_automation/bo_pdf_parser.py:41 | the compact match found at a position is a compact order token (keyword matched ignoring case) |
| BoPdfParser.CompactComplete | invoice_automation/bo_pdf_parser.py:41 | a compact order token starting at a position is always found there |
| BoPdfParser.CompactTrimmed | invoice_automation/bo_pdf_parser.py:43 | a compact token has no surrounding whitespace, so the `strip()` of the match changes nothing |
| BoPdfParser.CompactExample | invoice_automation/bo_pdf_parser.py:40-41 | the sample order number of the booking order (PD25, 2041 and 4 joined by pipes) is a compact order token, in upper and in lower case |
| BoPdfParser.ShortYearRejected | invoice_automation/bo_pdf_parser.py:41 | with only one digit after the keyword (PD2, 2041 and 4 joined by pipes) the text is not a compact token |
| BoPdfParser.LongSExample | invoice_automation/bo_pdf_parser.py:41 | the case-insensitive keyword match accepts the long s for the `S` of `Schedule`, so a token written with it is a compact order token |
| BoPdfParser.FirstCapture | invoice_automation/bo_pdf_parser.py:46-57 | some capture is present exactly when a result is; the result is the stripped capture of the first pattern that matched |
| BoPdfParser.ExtractBoNumber | invoice_automation/bo_pdf_parser.py:35-57 | if the compact pattern matches anywhere, the result is a compact token contained in the text; otherwise it is the first key-value capture, stripped |
| BoPdfParser.BoNumberLeftmost | invoice_automation/bo_pdf_parser.py:41-43 | when the compact pattern matches, the result is the leftmost match, exactly as it occurs in the text |
| BoPdfParser.Collapse | invoice_automation/bo_pdf_parser.py:74 | collapsing leaves no two adjacent whitespace characters, is never longer, is empty only for an empty input, and keeps whether the first character is whitespace and a non-space last character |
| BoPdfParser.CleanName | invoice_automation/bo_pdf_parser.py:72-74 | a cleaned name is trimmed and single-spaced, and it is empty exactly when the capture is all whitespace |
| BoPdfParser.ExtractClientName | invoice_automation/bo_pdf_parser.py:59-78 | the result is the cleaned capture of the first pattern whose cleaned capture is non-empty and under 150 characters, and none exists exactly when the result is `None` |
| BoPdfParser.DigitsOf | invoice_automation/bo_pdf_parser.py:96 | removing non-digits yields only digits, and leaves an all-digit string unchanged |
| BoPdfParser.DigitsOfStrip | invoice_automation/bo_pdf_parser.py:94-96 | stripping before removing non-digits changes nothing |
| BoPdfParser.ExtractTrn | invoice_automation/bo_pdf_parser.py:80-100 | the result is the digits of the first capture with at least eight digits; it is all digits and at least eight long, and `None` exactly when no capture qualifies |
| BoPdfParser.KeywordCandidates | invoice_automation/bo_pdf_parser.py:116-122 | keyword matches yield trimmed, non-empty descriptions under 200 characters |
| BoPdfParser.DetailCandidates | invoice_automation/bo_pdf_parser.py:125-132 | the "Details" block yields at most five trimmed lines, each longer than five characters |
| BoPdfParser.NumberedLines | invoice_automation/bo_pdf_parser.py:135-138 | the kept lines each contain a digit and are longer than 20 characters |
| BoPdfParser.StripRowMarker | invoice_automation/bo_pdf_parser.py:143 | removing the leading run of digits, dashes and pipes and the whitespace after it leaves a suffix of the line; when a marker was present, the result is shorter and does not start with whitespace |
| BoPdfParser.RowCandidates | invoice_automation/bo_pdf_parser.py:141-147 | table rows yield trimmed, non-empty descriptions under 200 characters |
| BoPdfParser.KeywordLayer | invoice_automation/bo_pdf_parser.py:116-122 | the loop builds the deduplicated keyword candidates |
| BoPdfParser.DetailLayer | invoice_automation/bo_pdf_parser.py:125-132 | the loop appends the new detail lines to the descriptions found so far |
| BoPdfParser.NumberedRows | invoice_automation/bo_pdf_parser.py:135-138 | the loop collects exactly the lines with a digit and more than 20 characters |
| BoPdfParser.RowLayer | invoice_automation/bo_pdf_parser.py:140-147 | the loop appends the new table-row descriptions to those found so far |
| BoPdfParser.ExtractDescriptions | invoice_automation/bo_pdf_parser.py:102-149 | the three layers in order, then capped at five, equal the specification `Descriptions` |
| BoPdfParser.DescriptionsByLayer | invoice_automation/bo_pdf_parser.py:102-149 | the descriptions are the first five distinct candidates, taken layer after layer |
| BoPdfParser.DescriptionsShape | invoice_automation/bo_pdf_parser.py:102-149 | at most five distinct, trimmed, non-empty candidates, in order of first appearance; when fewer than five, every candidate is among them |
| BoPdfParser.RemoveCommas | invoice_automation/bo_pdf_parser.py:168 | the result has no comma, and a string without commas is unchanged |
| BoPdfParser.ParseDecimal | invoice_automation/bo_pdf_parser.py:168 | a parsed number is non-negative, and a digit string parses to its value |
| BoPdfParser.Positives | invoice_automation/bo_pdf_parser.py:163-172 | only positive values are kept from the labelled captures |
| BoPdfParser.InRange | invoice_automation/bo_pdf_parser.py:175-185 | only values within 1 and the upper limit are kept from the fallback captures |
| BoPdfParser.AmountsShape | invoice_automation/bo_pdf_parser.py:151-227 | at most ten positive values: the labelled ones first, in order, then new in-range fallback values not already present |
| BoPdfParser.CollectAmounts | invoice_automation/bo_pdf_parser.py:163-187 | the two loops and the cap of ten compute the specification `Amounts` |
| BoPdfParser.CollectPositives | invoice_automation/bo_pdf_parser.py:163-172 | the labelled loop keeps exactly the captures that convert to a positive number, in order (the specification `Positives`) |
| BoPdfParser.AddFallback | invoice_automation/bo_pdf_parser.py:175-185 | the fallback loop appends each in-range value not already present, in order (the fold `AppendAll` over `InRange`) |
| BoPdfParser.Max3 | invoice_automation/bo_pdf_parser.py:239 | the maximum of three lengths is one of them and bounds all three |
| BoPdfParser.PairLineItems | invoice_automation/bo_pdf_parser.py:239-246 | one item per index up to the longest list, with `""` for a missing description and no quantity or rate where there is none |
| BoPdfParser.ExtractLineItems | invoice_automation/bo_pdf_parser.py:229-248 | at most ten items, one per index up to the longest of the extracted descriptions, quantities and rates; item i holds the i-th description (or `""`), the i-th quantity and the i-th rate (or none) |
| BoPdfParser.ExtractAllData | invoice_automation/bo_pdf_parser.py:23-33 | every field of the result is its extractor's result, and the text is kept as it was |
| Clients.DefaultsDistinct | invoice_automation/client_manager.py:20-31 | the defaults are seven distinct names |
| Clients.CheckNewClient | invoice_automation/client_manager.py:56-67 | a blank name is refused as empty; a trimmed name already listed is refused as a duplicate; otherwise the trimmed, non-empty, new name is accepted |
| Clients.RemoveFirstMeaning | invoice_automation/client_manager.py:76 | `list.remove` drops only the first occurrence and leaves a list without the name unchanged |
| Clients.RemoveFirstCounts | invoice_automation/client_manager.py:76 | removal lowers the name's count by one and leaves every other count unchanged |
| Clients.RemoveAppended | invoice_automation/client_manager.py:69-76 | removing a name just appended to a list without it restores the list |
| Clients.AddKeepsDistinct | invoice_automation/client_manager.py:56-71 | a successful add keeps the combined list free of repeats and grows it by one |
| Clients.RemoveKeepsDistinct | invoice_automation/client_manager.py:73-79 | a removal keeps the combined list free of repeats |
| Clients.AddThenRemove | invoice_automation/client_manager.py:56-79 | removing the name an add returned restores the custom list |
| Clients.ClientManager.constructor | invoice_automation/client_manager.py:14-42 | a readable file is taken as it is; an unreadable one yields the defaults; a missing one yields the defaults and is created |
| Clients.ClientManager.Save | invoice_automation/client_manager.py:44-50 | the file then holds the two lists |
| Clients.ClientManager.GetAllClients | invoice_automation/client_manager.py:52-54 | the predefined names followed by the custom names |
| Clients.ClientManager.GetPredefinedClients | invoice_automation/client_manager.py:81-83 | the predefined part of the combined list |
| Clients.ClientManager.GetCustomClients | invoice_automation/client_manager.py:85-87 | the custom part of the combined list |
| Clients.ClientManager.AddCustomClient | invoice_automation/client_manager.py:56-71 | the decision of `CheckNewClient`; on success the name is appended and saved, on failure nothing changes |
| Clients.ClientManager.RemoveCustomClient | invoice_automation/client_manager.py:73-79 | reports whether the name was a custom client, removes its first occurrence and saves only then |
| Excel.CellTexts | invoice_automation/excel_handler.py:41-42 | one text per listed cell, with an empty cell read as `""` |
| Excel.WriteParts | invoice_automation/excel_handler.py:53-62 | a string with a newline is split into its lines; a list gives the text of each item; anything else is written whole |
| Excel.CellString | invoice_automation/excel_handler.py:67-69 | a string assigned to a cell is accepted exactly when its first 32,767 characters hold no illegal control character, and is then kept as those characters |
| Excel.StoredUnchanged | invoice_automation/excel_handler.py:67-69 | an assigned value is stored exactly as given if and only if it is not a string or is a string of at most 32,767 characters with no illegal control character |
| Excel.ControlCharRefused | invoice_automation/excel_handler.py:69 | the string `a`, U+0001, `b` is refused, so writing it to a single-cell field fails |
| Excel.PlaceOk | invoice_automation/excel_handler.py:64-67 | a multi-cell write succeeds exactly when every value it assigns is accepted |
| Excel.PlaceCells | invoice_automation/excel_handler.py:64-67 | the loop over the cells computes the placement, stopping at the first refused value |
| Excel.PlaceAt | invoice_automation/excel_handler.py:64-67 | after a successful write, the k-th cell holds the k-th part, or `""` when the parts run out, as stored |
| Excel.PlaceFailed | invoice_automation/excel_handler.py:64-71 | after a failed write there is a first refused part; the cells before it hold their parts and that cell and the later ones are unchanged |
| Excel.PlaceFrame | invoice_automation/excel_handler.py:64-67 | cells outside the field are untouched, whether or not the write succeeds |
| Excel.MultiWriteCells | invoice_automation/excel_handler.py:53-67 | the write succeeds exactly when every part is accepted; each cell of a multi-cell field then holds its line, its item's text or the scalar, padded with `""`; other cells are untouched |
| Excel.SingleRoundTrip | invoice_automation/excel_handler.py:45-69 | a list, or a string that is refused, fails the write and changes nothing; otherwise the cell reads back the stored value, which is the value itself when it is not a string or fits |
| Excel.MultiLineCells | invoice_automation/excel_handler.py:53-67 | after writing a multi-line string that fits, the write succeeds and the cells hold the lines followed by blanks |
| Excel.MultiRoundTrip | invoice_automation/excel_handler.py:39-67 | a trimmed multi-line string that fits, written to a field with enough cells, is accepted and reads back unchanged |
| Excel.UpdateFrame | invoice_automation/excel_handler.py:87-96 | an update leaves every cell outside the writable fields it names unchanged |
| Excel.UpdateSkips | invoice_automation/excel_handler.py:90-93 | unknown and read-only keys change nothing |
| Excel.TotalNeverWritten | invoice_automation/excel_handler.py:91-93 | the read-only total cell F27 is never written |
| Excel.UpdateStopped | invoice_automation/excel_handler.py:87-98 | once a write fails, the later entries change nothing; the sheet is left as that write left it |
| Excel.ChooseSheet | invoice_automation/excel_handler.py:29 | the first sheet named `Invoice` when there is one, otherwise the first sheet; none only for an empty workbook |
| Excel.Titles | invoice_automation/excel_handler.py:29 | the sheet names, in order |
| Excel.DefaultFilenameShape | invoice_automation/excel_handler.py:107-123 | the default name ends in `.xlsx`; with an invoice number it is that number trimmed, with no `/`; otherwise it is `Invoice_<timestamp>.xlsx` |
| Excel.SlashSwapKeepsAbsent | invoice_automation/excel_handler.py:116 | replacing `/` by `-` creates no backslash-newline pair |
| Excel.OutputPath | invoice_automation/excel_handler.py:125 | an absolute name is kept; any other is placed under the output folder |
| Excel.ExcelHandler.constructor | invoice_automation/excel_handler.py:15-19 | remembers the template path, with no sheet loaded |
| Excel.ExcelHandler.LoadTemplate | invoice_automation/excel_handler.py:21-33 | a missing file or an empty workbook is an error that leaves the state alone; otherwise the chosen sheet is loaded |
| Excel.ExcelHandler.GetCellValue | invoice_automation/excel_handler.py:35-47 | the field's value read from the loaded sheet, or an error when none is loaded |
| Excel.ExcelHandler.SetCellValue | invoice_automation/excel_handler.py:49-71 | the sheet after the write, with an error exactly when the write fails (a list in a single cell, or a refused string) |
| Excel.ExcelHandler.UpdateInvoice | invoice_automation/excel_handler.py:87-98 | the sheet after the run of writes, with failure reported exactly when a write failed |
| Excel.ExcelHandler.GetAllTemplateValues | invoice_automation/excel_handler.py:73-85 | one entry per configured field, holding that field's read value, or `""` when nothing can be read |
| Excel.ExcelHandler.SaveInvoice | invoice_automation/excel_handler.py:100-129 | the output path for the given name, or for the default name derived from F11 |
| NumberWords.SpelledConcat | invoice_automation/ui.py:602-611 | spelling two word lists joins them with a space |
| NumberWords.WordsSpelled | invoice_automation/ui.py:597-613 | the speller's string is the spelling of its word list |
| NumberWords.TokensVocabulary | invoice_automation/ui.py:599-611 | a positive number's words are number words only, never "Zero" nor an amount word |
| NumberWords.RunConcat | invoice_automation/ui.py:597-613 | reading two word lists in a row is reading their concatenation |
| NumberWords.ReadBack | invoice_automation/ui.py:597-613 | reading a number's words adds that number, below one trillion |
| NumberWords.SpellingRoundTrip | invoice_automation/ui.py:597-613 | evaluating the words of any number below one trillion gives the number back |
| NumberWords.AmountSpelled | invoice_automation/ui.py:615-626 | the total in words is the upper-cased spelling of the dollars, `Dollars`, and `and … Cents` when there are cents |
| NumberWords.ReadAmountSplit | invoice_automation/ui.py:617-624 | the amount reader splits at `Dollars` and reads the cents between `and` and `Cents` |
| NumberWords.AmountRoundTrip | invoice_automation/ui.py:615-626 | dollars and cents are recovered from the amount's words; "Zero" appears exactly for zero dollars and "Cents" exactly when there are cents |
| NumberWords.ZeroAmountExample | invoice_automation/ui.py:618-619 | zero reads `ZERO DOLLARS` |
| NumberWords.AmountExample | invoice_automation/ui.py:615-626 | 73 dollars 50 cents read `SEVENTY THREE DOLLARS AND FIFTY CENTS` |
| DueDates.DaysInMonth | invoice_automation/ui.py:577-579 | every month has 28 to 31 days |
| DueDates.DaysBeforeNextYear | invoice_automation/ui.py:578 | consecutive years are one year length apart in day numbers |
| DueDates.NextDayNumber | invoice_automation/ui.py:578 | the next day is one day number later |
| DueDates.AddDaysNumber | invoice_automation/ui.py:578 | adding n days adds n to the day number |
| DueDates.NumberDetermines | invoice_automation/ui.py:578 | a valid date is determined by its day number |
| DueDates.ParseDate | invoice_automation/ui.py:577 | a parsed date is a valid date of years 1 to 9999 |
| DueDates.FormatParse | invoice_automation/ui.py:577-579 | formatting a date and parsing it back gives the date |
| DueDates.ParseNormalises | invoice_automation/ui.py:577-579 | re-parsing a formatted parse gives the same date |
| DueDates.DueDateMeaning | invoice_automation/ui.py:573-582 | a due date is produced exactly when the date parses and 30 days later is before year 10000; it is the unique date 30 days later |
| DueDates.LeapExample | invoice_automation/ui.py:573-582 | 15/02/2024 is due on 16/03/2024 |
| DueDates.LimitExample | invoice_automation/ui.py:578-582 | 01/12/9999 is due on 31/12/9999, while 30 days after 02/12/9999 is past year 9999 |
| InvoiceForm.MappingFieldsDistinct | invoice_automation/ui.py:69-78 | the column mapping has eight distinct fields |
| InvoiceForm.FirstPresent | invoice_automation/ui.py:83-88 | the first candidate column that the sheet has; none exactly when it has none |
| InvoiceForm.FindColumn | invoice_automation/ui.py:83-88 | the inner loop finds the first present column |
| InvoiceForm.MappedMeaning | invoice_automation/ui.py:81-88 | a field is filled exactly when one of its columns exists, from the first such column's first-row value; no other keys are filled |
| InvoiceForm.MapColumns | invoice_automation/ui.py:81-88 | the loops compute the mapping, and the filled fields are its keys |
| InvoiceForm.HeaderPrefill | invoice_automation/ui.py:136-144 | exactly the BO number, client name and TRN that were found non-empty are filled, each with the extracted text |
| InvoiceForm.PdfPrefill | invoice_automation/ui.py:135-174 | BO number, client name and TRN are filled when present and non-empty; with descriptions, line items are paired and the first one fills description, quantity and rate |
| InvoiceForm.InvoiceNumber | invoice_automation/ui.py:262 | a blank number gives `""`; any other gets the `INV-FY2526-` prefix |
| InvoiceForm.InvoiceNumberPlaceholder | invoice_automation/ui.py:253 | for a non-blank entry that does not itself contain the prefix, removing the prefix from the stored number gives back what was typed |
| InvoiceForm.VatPercent | invoice_automation/ui.py:491-496 | 0 exactly for an option containing `non-GCC`, otherwise 5 |
| InvoiceForm.VatChoices | invoice_automation/ui.py:484-498 | the two options give 0 and 5, and every choice satisfies the VAT rule |
| InvoiceForm.VatCellChoice | invoice_automation/ui.py:636-639 | the VAT cell reads `VAT(0%)` or `VAT(5%)` according to the option |
| InvoiceForm.VatCellReadsBack | invoice_automation/ui.py:639 | different percentages give different cell texts |
| InvoiceForm.SaveFilenameShape | invoice_automation/ui.py:629-631 | the name is the trimmed number character by character, with `/` and newline made safe, then `.xlsx`; it has no `/` and no newline |
| InvoiceForm.BlankInvoiceFilename | invoice_automation/ui.py:629-631 | a blank number saves as `Invoice.xlsx` |
| InvoiceForm.PrefixedInvoiceFilename | invoice_automation/ui.py:629-631 | a typed number saves under a name starting with `INV-FY2526-` |
| Text.Strip | invoice_automation/client_manager.py:61 | the result has no surrounding whitespace and is empty exactly when the input is all whitespace |
| Text.JoinSplit | invoice_automation/bo_pdf_parser.py:21 | splitting and re-joining on the same separator gives the text back |
| Text.SplitLinesAsSplit | invoice_automation/excel_handler.py:56 | for text with only `\n` breaks and no trailing break, `splitlines` equals `split('\n')` |
| Seqs.AppendAllFacts | invoice_automation/bo_pdf_parser.py:121-122 | appending only new items keeps exactly the union of elements and adds no repeats |
| Seqs.DedupPrefix | invoice_automation/bo_pdf_parser.py:149 | the first n distinct items, in order of first appearance, with all of them when fewer than n |

## Left out

- Regular expressions are not executed. Each `re.search` is an input holding the first capture of its first match, and each `re.findall` an input holding its list of captures. Only the compact order-number pattern is matched inside the model.
- `\d`, `\b` and `str.isalpha` are taken over ASCII only; Python also accepts other Unicode digits and letters. Whitespace follows `str.isspace` in full. Case-insensitive matching folds ASCII letters and the long s; no other Unicode case equivalence involves the letters of the order keywords.
- `float()` is modelled as decimal reading into a `real`. Binary rounding and exponent forms are not modelled.
- NumberWords.AmountInWords: takes the dollars and cents as natural numbers. The `floor` and `round` of the floating-point total that produce them are not modelled.
- Cell values: a float cell carries its value together with the text Python's `str` prints for it. That text is taken as given, not computed. A date, time or datetime cell is kept only as that text (it is always truthy); its calendar value is not modelled. Booleans are modelled, with `str` giving `True` or `False`.
- File I/O is abstracted away: openpyxl's reading and writing of files, `json`, `os.path.exists` and `os.makedirs`. Loading takes the workbook as a parameter, and `clients.json` is modelled by what it holds. Saving never fails in the model, so a failed save in Clients.ClientManager.AddCustomClient or Clients.ClientManager.RemoveCustomClient, which in the program raises after the in-memory list has already changed, is not modelled. openpyxl's checks on a value assigned to a cell (a list refused, a string cut to 32,767 characters and refused when it holds a control character) are modelled.
- `ExcelHandler.close` is not modelled, because it only releases the file.
- `client_manager.py` imports `BASE_DIR`, which `config.py` does not define. The location of `clients.json` is not modelled.
- Clients.ClientManager.constructor: assumes a readable `clients.json` holds both lists. The `.get(…, [])` defaults for a file missing a key are not modelled.
- The current time in the default Excel file name is a parameter (`timestamp`).
- pandas: reading CSV or Excel files is not modelled. The sheet is given as its column names and its first row. Duplicate column names are not modelled.
- PDF text extraction (PyPDF2/pypdf, first five pages) is not modelled. The parser starts from the extracted text.
- Streamlit widgets and session state are out of scope. This includes the client-name dropdown, the calculator fields and the messages. Only the values they compute are modelled.
- The validator module is not part of this model. Only the rule table in `config.py` is modelled.
- DueDates.FormatDate: always writes a four-digit, zero-padded year. The platform `strftime` of years below 1000 may write fewer digits.
- The sample booking order's VAT line `VAT REGISTRATION No. 100041432Z0003`: the TRN patterns stop at the `Z`, so the code extracts `100041432`. The model follows the code.
- Excel.DefaultFilename: replaces the two-character pair backslash-newline with `_`, as the code does. A lone newline is kept.
