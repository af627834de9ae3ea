# ALTO tools in Dafny

The ALTO tools read OCR results stored as ALTO XML. ALTO is the Library of Congress
"Analyzed Layout and Text Object" schema, versions 1 to 4, plus a dialect from the BnF.
This project models the part of the tools that works on an already-parsed document tree:

- which ALTO namespace a document uses (`alto_parse`);
- the plain text of the document, with and without hyphenation handling (`alto_text`);
- mean word confidence per file and per folder (`alto_confidence`, `main`);
- bounding-box records of Illustration and GraphicalElement regions, and element statistics;
- the OCR metadata report (`alto_ocr_metadata.py`);
- the one-shot text and confidence scripts.

It covers three generations of the code:

- the packaged module `src/alto_tools/alto_tools.py`;
- the older top-level `alto_tools.py`;
- the stand-alone scripts.

Each generation gets its own members wherever its rules differ.

Modules:

- `PyStr` (`py_str.dfy`): the Python string operations the tools rely on.
  - `in`, `split(c)[0]`, `split(c)[1]`, `strip(c)`, `split`/`join`.
- `AltoTree` (`alto_tree.dfy`): the element tree and ElementTree's lookups.
  - `iterfind(".//T")` is every descendant in document order, root excluded.
  - `findall("T")` is the direct children; `find` is the first of either.
  - A plain tree-walk count serves as a reference.
- `Namespace` (`namespace.dfy`): the candidate namespace and the three allow-lists.
  - Ten URIs in the packaged module, five in the older tool, three in the scripts.
- `Text` (`text.dfy`): text extraction.
  - A specification fold with an error state, and loop methods proved against it.
  - An independent reference definition of the expected text.
  - Lemmas about hyphenation.
- `Confidence` (`confidence.dfy`): the WC tally.
  - A fold with the two ways of treating a missing WC, and loop methods for the three versions.
  - The folder mean; the tally as a plain sum.
- `Layout` (`layout.dfy`): the bounding-box writers as loops against a specification fold, and the statistics counters.
- `Metadata` (`metadata.dfy`): the metadata report as a pure function.
  - Path lookups, a sentinel, labels padded to 27 columns, and the fixed section order.

Python exceptions are modelled as error values. Output written before the exception is kept,
so every writer returns "what was written so far" together with the error that stopped it.
The following are parameters:

- `float()` is the parameter `toFloat`: `None` stands for ValueError.
- `str(root.attrib)` is the string parameter `attrRepr`.
- `sys.stdout.encoding` is the string parameter `stdoutEncoding`.
- A file's name is the string parameter `name` (or `fileName`).

## Model

| member | source | states |
|---|---|---|
| PyStr.Contains | src/alto_tools/alto_tools.py:39 | Python's `sub in s`: true exactly when `sub` occurs at some index of `s` |
| PyStr.BeforeFirst | src/alto_tools/alto_tools.py:39-40 | `s.split(c)[0]`: a prefix of `s` free of `c`, followed in `s` by `c` unless it is all of `s` |
| PyStr.BeforeFirstAt | src/alto_tools/alto_tools.py:39-40 | the first field of `a + c + b` is `a` when `a` has no `c` |
| PyStr.Split | alto_tools.py:36 | `s.split(c)`: at least one field; the first is `BeforeFirst`; no field contains `c` |
| PyStr.SplitJoin | alto_tools.py:36 | splitting the join of fields free of `c` gives those fields back |
| PyStr.JoinSplit | alto_tools.py:36 | joining the split of any string gives the string back |
| PyStr.SecondField | src/alto_tools/alto_tools.py:44-45 | `split(c)[1]` fails with IndexError exactly when `c` does not occur |
| PyStr.StripLeft | src/alto_tools/alto_tools.py:40 | removes a run made only of `c` from the front and stops at a character other than `c` |
| PyStr.StripRight | src/alto_tools/alto_tools.py:40 | removes a run made only of `c` from the back and stops at a character other than `c` |
| PyStr.StripUntouched | src/alto_tools/alto_tools.py:44 | `strip(c)` leaves a string alone when it neither starts nor ends with `c` |
| PyStr.StripOneLeading | src/alto_tools/alto_tools.py:44 | `strip` removes a single leading `c` |
| PyStr.StripOneTrailing | src/alto_tools/alto_tools.py:44 | `strip` removes a single trailing `c` |
| PyStr.StripOneEach | src/alto_tools/alto_tools.py:44 | `strip` removes a single `c` on each side (the quotes around a URI) |
| AltoTree.Tagged | src/alto_tools/alto_tools.py:65 | the tag filter keeps only elements with that tag and never lengthens the sequence |
| AltoTree.TaggedConcat | src/alto_tools/alto_tools.py:65 | filtering distributes over concatenation, so document order is kept |
| AltoTree.TaggedFrom | src/alto_tools/alto_tools.py:65 | every element the filter returns comes from its input |
| AltoTree.FirstTaggedIsEarliest | alto_ocr_metadata.py:19 | `find(".//T")` returns the earliest element tagged T; every element before it has another tag |
| AltoTree.IterFindCount | src/alto_tools/alto_tools.py:159-168 | `iterfind` yields exactly as many elements as a plain tree-walk count finds |
| AltoTree.ForestCount | src/alto_tools/alto_tools.py:159-168 | the same count equality for a forest, roots included |
| AltoTree.InForest | alto_ocr_metadata.py:19 | a tree of a forest and all its descendants are among the forest's descendants |
| AltoTree.BelowChild | alto_ocr_metadata.py:19 | a direct child and everything under it are descendants of the parent |
| AltoTree.WithinForest | alto_ocr_metadata.py:19 | everything under a descendant of a forest is a descendant of the forest |
| AltoTree.BelowDescendant | alto_ocr_metadata.py:19 | the descendant relation is transitive |
| Namespace.Candidate | src/alto_tools/alto_tools.py:39-49 | an http tag prefix is itself the candidate; with no space in the attribute repr the candidate is "no_namespace_found"; otherwise it is a space-free token with no quote at either end |
| Namespace.AltoParse | src/alto_tools/alto_tools.py:39-55 | the namespace is returned exactly when the candidate is in the ten-URI allow-list, and it is the candidate, with nothing written; a rejection writes the not-registered line naming the file and the candidate; the no-declaration message goes to stderr exactly when the tag prefix lacks "http://" and the attribute repr has no space |
| Namespace.LegacyAltoParse | alto_tools.py:31-43 | the namespace is returned exactly when the candidate is in the five-URI list, and it is the candidate; a rejection writes the not-registered WARNING, preceded by the no-declaration WARNING when there was no declaration; nothing goes to stderr |
| Namespace.ScriptGate | alto_ocr_metadata.py:10-15 | the scripts accept exactly when the tag prefix is in the three-URI list (alto-1, alto-2, alto-3), and the accepted namespace is that prefix; there is no attribute fallback |
| Namespace.TagNamespaceOfQName | src/alto_tools/alto_tools.py:40 | cutting `{uri}local` at `}` and stripping `{` gives back `uri` |
| Namespace.CandidateFromTag | src/alto_tools/alto_tools.py:39-40 | a tag whose URI contains "http://" supplies the candidate itself |
| Namespace.SecondFieldAfter | src/alto_tools/alto_tools.py:44 | the second space field of `key + " " + rest` is the first word of `rest` |
| Namespace.CandidateFromSingleAttribute | src/alto_tools/alto_tools.py:41-44 | without an http tag prefix, the repr `{'key': 'uri'}` yields `uri` (quotes and braces stripped) |
| Namespace.CandidateFromFirstWord | src/alto_tools/alto_tools.py:41-44 | the attribute fallback takes only the first word after the first space |
| Namespace.NoDeclarationRejected | src/alto_tools/alto_tools.py:45-55 | with neither source of a namespace the candidate is "no_namespace_found" and both tool versions reject the document |
| Namespace.NoNamespaceUnlisted | alto_tools.py:37-43 | "no_namespace_found" is in neither allow-list |
| Namespace.NoDeclarationReported | src/alto_tools/alto_tools.py:46-48 | the stderr message names the file and says no namespace declaration was found |
| Namespace.LegacyAcceptanceKept | alto_tools.py:25-29 | every document the older tool accepts, the packaged one accepts with the same namespace |
| Namespace.AcceptedFromTag | src/alto_tools/alto_tools.py:39-51 | a tag prefix that contains "http://" and is registered is returned as the namespace |
| Namespace.ScriptListInRegistered | scripts/alto_ocr_text.py:12-14 | each script URI contains "http://" and is in the packaged allow-list |
| Namespace.ScriptAcceptanceKept | scripts/alto_ocr_text.py:12-17 | every document the scripts accept, the packaged tool accepts with the same namespace |
| Namespace.SampleResolvesToV3 | tests/test_alto_tools.py:19-22 | a root tagged `{http://www.loc.gov/standards/alto/ns-v3#}alto` resolves to the v3 namespace |
| Namespace.RejectedCandidate | src/alto_tools/alto_tools.py:50-55 | a candidate outside the allow-list is rejected |
| Namespace.NoPrefixMatching | src/alto_tools/alto_tools.py:50 | the v3 URI without its trailing `#` is rejected: membership is exact, not by prefix |
| Namespace.V4NotInScriptList | scripts/alto_ocr_text.py:12-14 | the ALTO 4 URI is not in the scripts' list |
| Namespace.ScriptsRefuseV4 | scripts/alto_ocr_text.py:16-17 | the scripts reject an ALTO 4 document |
| Namespace.PackagedAcceptsV4 | src/alto_tools/alto_tools.py:33 | the packaged tool accepts the same ALTO 4 document |
| Text.StringsFoldStuck | src/alto_tools/alto_tools.py:69-85 | once an exception is raised inside a TextLine, later Strings change nothing |
| Text.LinesFoldStuck | src/alto_tools/alto_tools.py:65-85 | once an exception is raised, later TextLines change nothing |
| Text.StringsFoldNext | src/alto_tools/alto_tools.py:69 | one more String is one more application of the fragment rule |
| Text.LinesFoldNext | src/alto_tools/alto_tools.py:65-67 | one more TextLine is a line break followed by its Strings |
| Text.PlainRule | alto_tools.py:58-59 | a String with CONTENT appends CONTENT and a space, which becomes `text`; without CONTENT it raises and writes nothing |
| Text.HyphenRule | src/alto_tools/alto_tools.py:71-85 | a String that raises writes nothing; otherwise exactly the new `text` is appended, and it is CONTENT, CONTENT and a space, or the previous fragment |
| Text.CorrectedHyphenRule | src/alto_tools/alto_tools.py:71-85 | the corrected rule keeps the same shape: nothing written on an exception, otherwise exactly the new `text`, drawn from the same three fragments |
| Text.WritePlainText | alto_tools.py:52-59 | the older nested loop writes exactly the plain fold's output and stops with its error |
| Text.HyphenFragment | src/alto_tools/alto_tools.py:71-85 | one String's fragment under the hyphenation rules: the error the rule raises, or the fragment that is appended and becomes the new `text` |
| Text.AltoText | src/alto_tools/alto_tools.py:58-85 | the packaged nested loop, carrying `text`, writes exactly the hyphenation fold's output and stops with its error |
| Text.OcrTextScript | scripts/alto_ocr_text.py:10-24 | nothing happens under a UTF-8 stdout; otherwise a refused namespace prints only the error line, and an accepted one gives the plain text |
| Text.WordsSnoc | alto_tools.py:58-59 | the reference text of a line grows by one word per String |
| Text.DocumentTextSnoc | alto_tools.py:52-54 | the reference document text grows by a line break and the line's words per TextLine |
| Text.PlainStringsText | alto_tools.py:56-59 | when every String has CONTENT, the plain rule appends CONTENT plus a space for each, raising nothing |
| Text.PlainLinesText | alto_tools.py:52-59 | when every String has CONTENT, the output is the reference text: "\n" per TextLine, then its words |
| Text.PlainStringsFail | alto_tools.py:58 | a String without CONTENT raises (`None + " "`) |
| Text.PlainStringsErrorKind | alto_tools.py:58 | the plain rule can raise only the missing-CONTENT error |
| Text.PlainLinesFail | scripts/alto_ocr_text.py:21 | a CONTENT-less String anywhere under some TextLine makes the run fail |
| Text.PlainLinesErrorKind | scripts/alto_ocr_text.py:18-22 | the plain extraction can raise only the missing-CONTENT error |
| Text.PlainTextMeaning | alto_tools.py:52-59 | both directions: all CONTENT present gives exactly the reference text, and any missing CONTENT gives the error |
| Text.HyphenStringsAsPlain | src/alto_tools/alto_tools.py:71-73 | Strings without SUBS_* markup are treated exactly as the plain rule treats them |
| Text.HyphenLinesAsPlain | src/alto_tools/alto_tools.py:65-73 | on TextLines without SUBS_* markup, the two folds agree |
| Text.HyphenatedAgreesWithPlain | src/alto_tools/alto_tools.py:58-85 | on a document without SUBS_* markup, the packaged and older extractions write the same text and fail alike |
| Text.FirstHalfFragment | src/alto_tools/alto_tools.py:77-85 | a HypPart1 String succeeds exactly when it has CONTENT; it writes CONTENT without a space, or with one when SUBS_TYPE also contains HypPart2; without CONTENT it raises on `write(None)`, or on `None + " "` when HypPart2 is named too |
| Text.OtherMarkupRewrites | src/alto_tools/alto_tools.py:71-85 | markup without SUBS_TYPE raises; markup whose SUBS_TYPE lacks HypPart1 writes the previous fragment again, or raises when there is none yet |
| Text.SplitWordPageShape | src/alto_tools/alto_tools.py:65-69 | the two-line page of the finding has two TextLines, holding the first and the second half of the word |
| Text.OneStringLine | src/alto_tools/alto_tools.py:65-85 | a TextLine with one String writes "\n" and then that String's fragment |
| Text.SecondHalfRepeatsFirst | src/alto_tools/alto_tools.py:77-85 | as written, a word split over two lines comes out as "\na\na": the second half repeats the first |
| Text.SecondHalfWrittenWhenCorrected | src/alto_tools/alto_tools.py:77-85 | with the HypPart2 test taken out of the HypPart1 branch, the same page gives "\na\nb " |
| Text.SecondHalfFragment | src/alto_tools/alto_tools.py:83-84 | under the corrected rule a HypPart2 String writes its own CONTENT and a space, and that becomes `text` |
| Text.CorrectionOnlyTouchesSecondHalves | src/alto_tools/alto_tools.py:77-84 | the corrected rule differs from the written one only on Strings marked HypPart2 |
| Confidence.TallyStuck | alto_tools.py:83-89 | once `float(None)` or `float` raises, later Strings change nothing |
| Confidence.TallyStep | src/alto_tools/alto_tools.py:135-140 | after a failure nothing changes; otherwise the step fails exactly when WC is missing or unparsable (a missing WC is skipped in the packaged tool), a parsed WC adds its value and one to the count, and a skipped String changes nothing |
| Confidence.TallyNext | src/alto_tools/alto_tools.py:133-140 | one more String is one more tally step |
| Confidence.TallySnoc | src/alto_tools/alto_tools.py:133-140 | the tally of `strs + [s]` is one step after the tally of `strs` |
| Confidence.AddWc | src/alto_tools/alto_tools.py:135-140 | one loop iteration: the score and count update, or the exception, of one tally step |
| Confidence.SumWc | src/alto_tools/alto_tools.py:133-140 | the accumulation loop computes the tally fold |
| Confidence.FileConfidence | src/alto_tools/alto_tools.py:128-149 | a file's confidence fails exactly when some String carries a WC that `float()` rejects |
| Confidence.SkipFailsIffUnparsable | src/alto_tools/alto_tools.py:133-140 | both directions: the skipping tally fails exactly when some String has a WC that does not parse |
| Confidence.AltoConfidence | src/alto_tools/alto_tools.py:128-149 | returns 100 * score / count when count > 0, and 0 otherwise (Strings without WC skipped), or the error |
| Confidence.LegacyConfidence | alto_tools.py:78-96 | every String counts, a missing WC raises, no String gives the `00.00` case, otherwise 100 * mean |
| Confidence.ScriptConfidence | alto_ocr_confidence.py:12-18 | tallies only `alto-2` Strings, a missing WC raises, and no such String raises ZeroDivisionError |
| Confidence.FolderSumStuck | src/alto_tools/alto_tools.py:346-349 | a failing file ends the folder accumulation |
| Confidence.AddFile | src/alto_tools/alto_tools.py:348-349 | one file adds its returned confidence (0 for a file without scored Strings) to the sum, or stops the run with its error |
| Confidence.FolderConfidence | src/alto_tools/alto_tools.py:344-361 | the loop sums the per-file results over all files yielded and reports their mean only for two or more files with the confidence flag set |
| Confidence.SumAppend | src/alto_tools/alto_tools.py:138 | the reference sum grows by the appended value |
| Confidence.ValuesSnoc | src/alto_tools/alto_tools.py:135-138 | the list of WC values grows by the last String's value |
| Confidence.WithWcSnoc | src/alto_tools/alto_tools.py:137 | the Strings carrying WC grow by the last String exactly when it carries WC |
| Confidence.ParsedStep | src/alto_tools/alto_tools.py:137-140 | a String whose WC parses adds its value to the score and one to the count |
| Confidence.TallyIsSum | src/alto_tools/alto_tools.py:133-140 | when every WC parses, the tally is the plain sum of the WC values and the number of Strings |
| Confidence.StrictFailsIffUnparsable | alto_tools.py:83-89 | both directions: the older tally fails exactly when some String's WC is missing or unparsable |
| Confidence.SkipIsFilter | src/alto_tools/alto_tools.py:137-140 | skipping Strings without WC is the strict tally on the Strings that have WC |
| Confidence.TallyStepAgrees | src/alto_tools/alto_tools.py:137 | on a String with WC both step rules agree |
| Confidence.LegacyAgreesWhenAllHaveWc | alto_tools.py:83-89 | when every String has WC, the older and packaged tallies agree |
| Confidence.WithWcKeepsAll | src/alto_tools/alto_tools.py:137 | the WC filter keeps everything when every String has WC |
| Confidence.SumBounds | src/alto_tools/alto_tools.py:138 | values in [0, 1] sum to between 0 and their number |
| Confidence.MeanBound | src/alto_tools/alto_tools.py:143-144 | 100 times a mean of such values lies in [0, 100] |
| Confidence.PercentBounds | src/alto_tools/alto_tools.py:142-144 | with WC values in [0, 1], the confidence is a percentage between 0 and 100 |
| Confidence.ValuesAt | src/alto_tools/alto_tools.py:135-138 | the k-th value is the k-th String's WC |
| Confidence.ThreeWordExample | src/alto_tools/alto_tools.py:142-144 | WC values 0.9, 0.8 and 0.7 give confidence 80 |
| Confidence.UnscoredFileCounts | src/alto_tools/alto_tools.py:147-149 | a file without scored Strings adds 0 to the folder sum |
| Confidence.FolderExample | src/alto_tools/alto_tools.py:358-361 | two files scoring 78.29 and 81.71 give a folder confidence of 80 |
| Confidence.ScriptNeedsAlto2Strings | alto_ocr_confidence.py:12-17 | a document with no `alto-2` String tallies zero Strings, whatever its own namespace |
| Layout.Coords | src/alto_tools/alto_tools.py:95-103 | the coordinates are built exactly when HEIGHT, WIDTH, VPOS and HPOS are all present; a failure names an absent attribute |
| Layout.BoxRecord | src/alto_tools/alto_tools.py:93-104 | the record is built exactly when all five attributes are present; a failure names an absent attribute |
| Layout.LegacyStep | alto_tools.py:65-75 | after a failure nothing changes; otherwise the step succeeds exactly when all five attributes are present and then appends "\n" and the record; a failure names an absent attribute |
| Layout.BoxesStuck | src/alto_tools/alto_tools.py:91-105 | once a record raises, later elements write nothing |
| Layout.LegacyBoxesStuck | alto_tools.py:65-75 | the same for the older writer |
| Layout.WriteBoxes | src/alto_tools/alto_tools.py:91-105 | the loop writes exactly the specification fold of records over the tagged elements in document order |
| Layout.AltoIllustrations | src/alto_tools/alto_tools.py:88-105 | the Illustration writer is that fold over Illustration elements |
| Layout.AltoGraphics | src/alto_tools/alto_tools.py:108-125 | the GraphicalElement writer is that fold over GraphicalElement elements |
| Layout.LegacyIllustrations | alto_tools.py:62-75 | the older loop writes "\n" and a bare record per Illustration, following the older fold |
| Layout.LinesSnoc | src/alto_tools/alto_tools.py:105 | the reference output grows by one line per element |
| Layout.RecordIffBox | src/alto_tools/alto_tools.py:93-104 | both directions: a record is built exactly when ID, HEIGHT, WIDTH, VPOS and HPOS are all present, and then it is `ID=HEIGHT,WIDTH,VPOS,HPOS` |
| Layout.BoxesComplete | src/alto_tools/alto_tools.py:91-105 | with all attributes present, the output is one "\nFile: name, Kind: record" line per element, in order |
| Layout.BoxesIncomplete | src/alto_tools/alto_tools.py:93-104 | any element missing an attribute makes the writer fail |
| Layout.BoxesMeaning | src/alto_tools/alto_tools.py:91-105 | the two previous results together: complete input gives every record, incomplete input an error |
| Layout.LegacyBoxesComplete | alto_tools.py:65-75 | the older writer with all attributes present writes "\n" + record per element |
| Layout.LegacyBoxesIncomplete | alto_tools.py:67-74 | any element missing an attribute makes the older writer fail |
| Layout.LegacyBoxesMeaning | alto_tools.py:65-75 | both cases for the older writer: complete input gives "\n" + record per element, incomplete input an error |
| Layout.LegacyBreakBeforeMissingId | alto_tools.py:69-74 | the older writer emits the line break before it fails on a missing ID; the packaged one writes nothing for that element |
| Layout.RecordSplitsBack | src/alto_tools/alto_tools.py:95-104 | a record splits back at `=` into ID and coordinates, and the coordinates at `,` into the four values |
| Layout.RecordExample | src/alto_tools/alto_tools.py:104 | a concrete element gives `block_20=201,321,61,226` |
| Layout.Decimal | src/alto_tools/alto_tools.py:170-174 | the decimal text of a count is a non-empty string of digits |
| Layout.DecimalRoundTrip | src/alto_tools/alto_tools.py:170-174 | reading the decimal text of a count back gives the count |
| Layout.CountTagged | src/alto_tools/alto_tools.py:159-160 | the counting loop returns the length of the `iterfind` sequence, which equals the independent tree-walk count of descendants with the tag |
| Layout.AltoStatistics | src/alto_tools/alto_tools.py:152-181 | the five counters match the tree-walk counts under the fixed keys, and the output lists them in the fixed order |
| Metadata.Pad | alto_ocr_metadata.py:20 | a label padded with spaces: it starts with the label, the rest is spaces, and it is 27 wide |
| Metadata.FollowBelow | alto_ocr_metadata.py:19 | each `.find(child)` step moves to a descendant with the named tag |
| Metadata.ResolvedElement | alto_ocr_metadata.py:19 | a resolved field element lies inside the document and carries the field's label as its tag |
| Metadata.FirstStepOnly | alto_ocr_metadata.py:48 | only the first descendant with the step's tag is followed, so only the first processing step is reported |
| Metadata.Lookup | alto_ocr_metadata.py:18-22 | a field is undefined exactly when its path finds no element, and otherwise shows that element's text |
| Metadata.DescriptionSection | alto_ocr_metadata.py:17-37 | the description section starts with its `<Description>` header |
| Metadata.Report | alto_ocr_metadata.py:17-171 | the report starts with the `<Description>` header and ends with the final line break |
| Metadata.OcrMetadata | alto_ocr_metadata.py:10-15 | an accepted document gives the report for its own root-tag namespace; a refused one gives only the error line |
| Metadata.FieldOutcomes | alto_ocr_metadata.py:18-22 | a missing element gives the sentinel; an element without text prints `None`; otherwise its text |
| Metadata.IdWithoutAttribute | alto_ocr_metadata.py:40-44 | an OCRProcessing without ID prints `None`, not the sentinel |
| Metadata.FieldsTextConcat | alto_ocr_metadata.py:18-37 | the field list's output is the fields' lines concatenated in order |
| Metadata.MissingFieldIsolated | alto_ocr_metadata.py:18-170 | a missing field prints only its own sentinel line, and the fields before and after it print as they would anyway |
| Metadata.StepLabels | alto_ocr_metadata.py:46-170 | every processing step section has the same eight fields in the same order, from processingDateTime to applicationDescription |
| Metadata.LabelsFit | alto_ocr_metadata.py:17-170 | every label fits the 27-column padding |
| Metadata.FieldLineReadsBack | alto_ocr_metadata.py:20 | a field line reads back: the text before `=` is the padded label, trimmed it is the label, and after `=   ` comes the value |
| Metadata.StripPadding | alto_ocr_metadata.py:20 | trimming the padding gives back the label |
| Metadata.StripSpaces | alto_ocr_metadata.py:20 | trailing spaces after a non-space end are all trimmed |
| Metadata.RefusedDocument | alto_ocr_metadata.py:172-173 | a document outside the three URIs prints only the error line |
| Metadata.V4Refused | alto_ocr_metadata.py:10-15 | an ALTO 4 document is refused by the metadata script |
| Metadata.EmptyDocument | alto_ocr_metadata.py:19-44 | in a document with no elements under the root, every field and the ID print the sentinel |

## Left out

- XML parsing (`ET.parse`) and its ParseError handling are foreign library code. The model starts from a parsed tree. After a ParseError the packaged `alto_parse` would dereference `None`; that path is not modelled.
- `float()` is the parameter `toFloat`: the model does not say which strings parse. Real arithmetic stands for floating point.
- Python's `round(…, 2)` is left out: confidences are stated before rounding.
- The printed confidence texts (`Confidence: …`, `Confidence of folder: …`) are left out because they are float formatting. The per-file printing of `00.00` is represented only by the `None`/`0` result.
- `Namespace.AltoParse`: the ElementTree object and the file handle in the returned triple are not modelled, only the namespace and the written messages. `str(root.attrib)` is the input `attrRepr`, because Python's dict repr is not modelled.
- Command-line handling is argument and file I/O plumbing. This covers `parse_arguments`, the dispatch in both `main` functions, `open_input_file`, `open_input_files`, `_read_from_stdin`, encoding sniffing, `walker` and `write_output`.
- Re-wrapping `sys.stdout` as a UTF-8 writer changes no text. Only the text script's condition on the stdout encoding is modelled, as the parameter `stdoutEncoding`.
- The older `main` is left out as command-line dispatch. On a rejected file, unpacking the `None` from `alto_parse` raises TypeError (alto_tools.py:187), which its `except IndexError` does not catch, so no writer runs.
- `Layout.AltoStatistics`: counts are written with a decimal rendering of natural numbers (`Layout.Decimal`). This stands in for Python's `str(int)`.
- `Metadata.OcrMetadata` writes its 29 values through a fixed field table rather than 29 copies of the lookup. The table holds 4 Description fields, the ID, and 8 fields for each of 3 steps.
- `Namespace.AltoParse` and `Confidence.FolderConfidence` do not model what happens to the batch after a rejection. `open_input_file` unpacks the `None` that `alto_parse` returns (src/alto_tools/alto_tools.py:292, 295), which raises TypeError. Its `except IndexError` (line 296) does not catch that, so the whole run stops instead of skipping the file. `FolderConfidence` takes as input only the files that were accepted.
- `Namespace.AltoParse`, `Layout.WriteBoxes`, `Layout.AltoIllustrations`, `Layout.AltoGraphics` and `Layout.AltoStatistics` take the file name as a string. With an explicit XML encoding, `alto` is the path string itself (src/alto_tools/alto_tools.py:292). Every `alto.name` then raises AttributeError (lines 47, 54, 105, 125, 169); the model does not capture that failure.
- `Confidence.AltoConfidence` takes no file name, because its printed `Confidence: …` line is left out with the other float formatting. The `alto.name` in that line (src/alto_tools/alto_tools.py:145, 148) is part of that printing, so the model does not capture its AttributeError either.
- Differences between the code and its prose description, where the code is followed:
  - A String without CONTENT makes text extraction fail; it is not skipped.
  - The older confidence fails on a String without WC.
  - The confidence script reads `.//alto-2:String`, that is every descendant and not only direct children.
  - The two halves of a hyphenated word are never joined into one word. Every TextLine writes "\n" before its Strings (src/alto_tools/alto_tools.py:67), so the halves stay separated by that line break. This holds even with the `HypPart2` test corrected: "exam" then "ple" gives "\nexam\nple ", not "example" (`Text.SecondHalfWrittenWhenCorrected` proves the same shape for "a" and "b").

## Findings

| source | as written | input that shows it | evidently intended | confidence | as-written member | corrected member |
|---|---|---|---|---|---|---|
| src/alto_tools/alto_tools.py:77-85 | the `HypPart2` test sits inside the `if "HypPart1" in SUBS_TYPE` branch, so a String marked only `HypPart2` leaves `text` unchanged and the first half is written again | two TextLines, each with one String: `CONTENT="a" SUBS_TYPE="HypPart1"`, then `CONTENT="b" SUBS_TYPE="HypPart2"`; the output is "\na\na" | the second half is written with a trailing space, giving "\na\nb "; the line break written before each TextLine still separates the halves, so the code never produces the joined word "ab " | not executed | Text.SecondHalfRepeatsFirst | Text.SecondHalfWrittenWhenCorrected |
