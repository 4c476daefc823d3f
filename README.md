# Delivery-note extraction engine, modelled in Dafny

The system reads supplier delivery notes (bons de livraison, BL) as PDF files and turns them into item records. This project models the part that works on text already extracted from the PDF:

- which pages to read (`_parse_pages_spec`, three dialects);
- which supplier a document comes from:
  - the `must_contain_any` scans of the plumber scripts, with and without the single-profile fallback;
  - the accent- and case-folded `detect_fournisseur`;
  - the per-line test of `lecture.py`;
- line normalisation (`_norm_line`) and the lenient integer reader (`_to_int_safe`);
- isolating the article block of a document (`_extract_block_lines`);
- grouping lines under header lines (`_extract_multi_blocks`, both definitions);
- the multi-line item parser (`_parse_multiline_items`):
  - the nearest-order association (`find_closest_order`);
  - the bounded description lookahead;
- the mode dispatch of the `main` functions;
- the Camelot row buffer (`extract_items_from_tables`) and `normalize_numeric_fields`;
- the header-token matcher and flavour choice (`choose_best_flavor`), and the order-number dedup of `extract_metadata_from_text`;
- the one-shot script `lecture.py`.

Regular expressions are abstract. An `Engine` holds two functions, `reMatch` (`re.match`, anchored at the start) and `reSearch` (`re.search`); each gives an optional `Match` whose groups carry their names and captured texts. Unicode lowering, NFKD decomposition and combining classes are also abstract, as a `CharDb`. `string.punctuation`, `str.isspace`, `strip`, `split` and `replace` are written out; `str.isdigit` is written out for the ASCII digits only (see "Left out"). A Python exception that the code does not catch becomes an `Err` of `Result`.

Modules, one per component:

- `Wrappers`, `Strings`, `Spacing`, `Values`, `Json`, `Regex`: Python's `str`, `dict`, `re` and JSON values used by every file.
- `Pages`: `_parse_pages_spec` of plumber_step1.py, plumber_step2_generic.py, plumber_step3_generic.py, plumber_step2_generic_test.py.
- `TextNorm`, `Numeric`: `_norm_line`, `_to_int_safe`.
- `Suppliers`: `_detect_supplier` (step 2 with fallback, step 3 and test without).
- `Blocks`: `_extract_block_lines`, `_extract_multi_blocks`.
- `Multiline`: `_parse_multiline_items` (step 3 and test dialect, step 2 dialect).
- `Dispatch`: the `main` mode dispatch (step 3), the step 2 single-block loop, the test script's dispatch.
- `Tables`: `extract_items_from_tables`, `normalize_numeric_fields`.
- `Headers`, `Flavors`: `normalize_text`, `table_head_as_text`, `header_tokens`, `table_matches_header`, `_header_tokens_in_text`, `choose_best_flavor`.
- `Metadata`: `extract_metadata_from_text` after the text is read.
- `Fold`: `normalize_text` and the matching loop of detect_fournisseur.py.
- `Lecture`: the supplier, date and table scan of lecture.py.

Each loop of the source is a `method` with a `while` loop. Its `ensures` ties the result to a recursive reference function, and lemmas state the source's properties about that function.

## Where the comments and the code disagree

The model follows the code in each case below.

- `_to_int_safe("2.000")`: the comment at parse_bl.py:239-240 reads "2.000" as 2000. The code drops dots only when there are two or more, so the text reads as the decimal 2.000, which truncates to 2 (`Numeric.ToIntSafeTruncates`). `"2.000.000"` does give 2000000 (`Numeric.ToIntSafeThousands`).
- `normalize_text` of parse_bl.py promises lower-case text, but it lowers before the compatibility decomposition. A decomposition can bring capitals back: "™" gives "TM" (`Headers.NotLowerExample`). Decomposing first and lowering last, as the `normalize_text` of detect_fournisseur.py does, keeps that promise: `Headers.NormalizeLowerLast` gives "tm" (`Headers.LowerLastExample`). The rest of the model uses the code's order.
- The stop filter at the end of `_extract_block_lines` never removes a line: the slice already ends before the first stop line (`Blocks.DropStopsNoOp`).
- The end-of-table retry of `extract_items_from_tables` never adds an item. A non-empty buffer is always a candidate that has already failed to match (`Tables.TableRetryIsDead`).
- In `lecture.py` the `if not selected_config` check after a successful selection never fires, because a claiming entry is a non-empty dict (`Lecture.ClaimIsTruthy`). The error arises only when no entry claims the lines (`Lecture.NoClaimRaises`).
- A multi-line description may be the empty string: the code takes a matching description line without checking that its text is non-empty (`Multiline.EmptyDescriptionTaken`).
- A truthy header that is not a string has no tokens, so `table_matches_header` accepts every table (`Headers.NonStringHeaderMatches`).
- An integer page choice on a document without pages still selects index 0, outside the document (`Pages.ClampEmptyDocument`).

## Model

| member | source | states |
|---|---|---|
| `Pages.Range` | src/mon_projet/plumber_step3_generic.py:35 | `list(range(lo, hi))`: length `hi - lo` (or 0) and element `k` is `lo + k` |
| `Pages.ClampInRange` | src/mon_projet/plumber_step3_generic.py:36-37 | an integer `pages` value selects a page inside a non-empty document: its own page when in range, the last page past the end, the first for `p < 1` |
| `Pages.ClampEmptyDocument` | src/mon_projet/plumber_step2_generic.py:103-104 | with no pages an integer `pages` value still yields index 0, which lies outside the document |
| `Pages.PagesSimpleCases` | src/mon_projet/plumber_step2_generic_test.py:32-37 | the short parser gives every page for `None`, `"all"` and every other text, and the one clamped index for an integer |
| `Pages.IndexOf` | src/mon_projet/plumber_step1.py:46 | the first dash of a chunk: no dash before it, and a dash at it when one exists |
| `Pages.Chunks` | src/mon_projet/plumber_step1.py:38-44 | every comma-separated chunk of the lowered `pages` text comes out stripped |
| `Pages.Select` | src/mon_projet/plumber_step1.py:57 | `sorted(set(...))` of the in-range indices: strictly increasing, inside `[0, total)`, holding exactly the in-range values of `out` |
| `Pages.ParsePagesFull` | src/mon_projet/plumber_step2_generic.py:100-123 | the full parser (step 1 and step 2 copies) returns what `FullPages` defines |
| `Pages.CollectPages` | src/mon_projet/plumber_step1.py:43-56 | the chunk loop extends `out` by exactly what each chunk asks for, in order |
| `Pages.SortedInRange` | src/mon_projet/plumber_step1.py:57 | the final sort and dedup, written as a scan of the page range, equals `Select` |
| `Pages.RangeIncreasing` | src/mon_projet/plumber_step1.py:35 | `range(lo, hi)` is strictly increasing |
| `Pages.FullPagesWellFormed` | src/mon_projet/plumber_step2_generic.py:100-123 | the result is sorted and duplicate-free, and inside the document except for an integer `pages` value on an empty document |
| `Pages.OutMembers` | src/mon_projet/plumber_step1.py:43-56 | a value is in `out` exactly when some chunk asks for it |
| `Pages.AskedSnoc` | src/mon_projet/plumber_step1.py:43-56 | the values asked for by the chunks with one more appended are the earlier ones plus what the new chunk asks for |
| `Pages.FullPagesOfList` | src/mon_projet/plumber_step1.py:41-57 | for a `pages` text other than `"all"`, a page is selected exactly when it is in the document and some chunk asks for it |
| `Pages.ChunkSwapped` | src/mon_projet/plumber_step1.py:50-51 | a reversed range `"b-a"` selects the same pages as `"a-b"` |
| `Pages.RangeChunk` | src/mon_projet/plumber_step1.py:45-52 | `"a-b"` with digit strings selects from the smaller bound to the larger, both raised to 1, the top cut at the page count |
| `Pages.DashAt` | src/mon_projet/plumber_step1.py:46 | in `a-b` with digit strings the first dash is the separator, so the split gives back `a` and `b` |
| `Pages.IndexOfAt` | src/mon_projet/plumber_step1.py:46 | a position holding the first dash is the one found |
| `Pages.RangeChunkTruncated` | src/mon_projet/plumber_step1.py:52 | a range never selects past the last page |
| `Pages.PageChunk` | src/mon_projet/plumber_step1.py:54-56 | a single page number selects one index: page 0 is page 1, and a page past the end is the last one |
| `Pages.ChunkIgnored` | src/mon_projet/plumber_step1.py:45-56 | a chunk that is neither digits nor `digits-digits` contributes nothing |
| `Pages.DigitsAround` | src/mon_projet/plumber_step1.py:45-47 | `digits-digits` holds only digits and the dash |
| `Pages.SimpleAgreesWithFull` | src/mon_projet/plumber_step3_generic.py:33-38 | the short and the full parser agree on `None`, integers and `"all"` |
| `Numeric.ParseUnsigned` | src/mon_projet/parse_bl.py:247-248 | a text starting with a digit is read as an unsigned decimal |
| `Numeric.ParseNegative` | src/mon_projet/parse_bl.py:247-248 | a leading minus negates the truncated value |
| `Numeric.DigitsHaveNoSpace` | src/mon_projet/parse_bl.py:238 | a digit string has none of the characters the cleaning removes or rewrites |
| `Numeric.CleanedPlain` | src/mon_projet/parse_bl.py:234-245 | a trimmed text without spaces, NBSP or commas and with at most one point reaches `float` unchanged |
| `Numeric.UnsignedDigits` | src/mon_projet/parse_bl.py:247-248 | a digit string reads as its value |
| `Numeric.ToIntSafeDigits` | src/mon_projet/plumber_step3_generic.py:76-83 | `_to_int_safe` of a digit string is its value |
| `Numeric.NegativePlain` | src/mon_projet/parse_bl.py:234-245 | `-digits` passes the cleaning unchanged |
| `Numeric.NegativeDigits` | src/mon_projet/parse_bl.py:223-250 | `_to_int_safe("-d")` is minus the value of `d` |
| `Numeric.ToIntSafeOfInt` | src/mon_projet/plumber_step2_generic.py:209-216 | an integer, or its decimal text, converts to itself |
| `Numeric.ToIntSafeIdempotent` | src/mon_projet/plumber_step2_generic.py:209-216 | converting an already converted value changes nothing |
| `Numeric.UnsignedFraction` | src/mon_projet/parse_bl.py:247-248 | `a.b` with digit strings reads as the value of `a` |
| `Numeric.FractionTrimmed` | src/mon_projet/parse_bl.py:234 | `a sep b` with digit strings has nothing to strip |
| `Numeric.CommaToPoint` | src/mon_projet/parse_bl.py:238 | the decimal comma becomes the decimal point |
| `Numeric.OnePoint` | src/mon_projet/parse_bl.py:243 | `a.b` holds one point, so no point is dropped |
| `Numeric.PointFixed` | src/mon_projet/parse_bl.py:234-243 | `a.b` holds one point and is already stripped |
| `Numeric.CleanedOnePoint` | src/mon_projet/parse_bl.py:243-245 | with at most one point the cleaned text is the rewritten text |
| `Numeric.FractionUnspaced` | src/mon_projet/parse_bl.py:234-238 | stripping and dropping spaces leave `a sep b` alone |
| `Numeric.CleanedFraction` | src/mon_projet/parse_bl.py:234-245 | `a,b` and `a.b` both reach `float` as `a.b` |
| `Numeric.ToIntSafeTruncates` | src/mon_projet/parse_bl.py:223-250 | a decimal comma or point is truncated, so `"3,5"` gives 3 |
| `Numeric.UnsignedChars` | src/mon_projet/parse_bl.py:247 | an unsigned decimal holds only digits and points |
| `Numeric.ParseChars` | src/mon_projet/parse_bl.py:247 | a readable number holds only digits, points and a leading sign |
| `Numeric.ToIntSafeRejects` | src/mon_projet/parse_bl.py:247-250 | a cleaned text with any other character gives 0 |
| `Numeric.ToIntSafeBlank` | src/mon_projet/parse_bl.py:232-236 | `None`, the empty string and blanks give 0 |
| `Numeric.ReadIntEmpty` | src/mon_projet/plumber_step3_generic.py:81-83 | `float("")` raises, so the empty text gives 0 |
| `Numeric.ToIntSafeNone` | src/mon_projet/plumber_step3_generic.py:76-83 | `None` gives 0 in the step 2 and step 3 copies too, since `"None"` is no number |
| `Numeric.NoneNotNumber` | src/mon_projet/plumber_step3_generic.py:78 | `"None"` is not the text of a number |
| `Numeric.BlankCleaned` | src/mon_projet/plumber_step3_generic.py:78-80 | a blank text cleans to the empty text |
| `Numeric.NoneCleaned` | src/mon_projet/plumber_step3_generic.py:78-80 | `str(None)` cleans to `"None"` |
| `Numeric.NonePlain` | src/mon_projet/plumber_step3_generic.py:78-80 | `"None"` has nothing the cleaning touches |
| `Numeric.ToIntSafeThousands` | src/mon_projet/parse_bl.py:243-248 | digits grouped by two or more points read with the points dropped, so `"2.000.000"` gives 2000000 |
| `Numeric.PointsOnlyUnspaced` | src/mon_projet/parse_bl.py:234-238 | a text of digits and points passes the rewrites unchanged |
| `Numeric.DroppedPointsDigits` | src/mon_projet/parse_bl.py:245 | dropping the points of such a text with some digit leaves a digit string |
| `Numeric.NotAllPoints` | src/mon_projet/parse_bl.py:245 | fewer points than characters means some character is not a point |
| `Numeric.SplitAt` | src/mon_projet/plumber_step1.py:46 | splitting `a c b` at a separator `c` found in neither part gives `[a, b]` |
| `TextNorm.NormLineSpacing` | src/mon_projet/plumber_step2_generic_test.py:26-29 | the normalised line has no NBSP, only single plain spaces and no space at either end |
| `TextNorm.StripKeepsSpacing` | src/mon_projet/plumber_step3_generic.py:29 | `strip` keeps single plain spacing |
| `TextNorm.NormLineIsWordJoin` | src/mon_projet/plumber_step3_generic.py:27-30 | the normalised line is the line's words joined by single spaces |
| `TextNorm.NormLineIdempotent` | src/mon_projet/plumber_step2_generic.py:92-96 | normalising twice is normalising once |
| `TextNorm.MapLines` | src/mon_projet/plumber_step3_generic.py:89 | the list comprehension keeps the number of lines |
| `TextNorm.MapLinesAt` | src/mon_projet/plumber_step3_generic.py:89 | line `k` of the result is `f` of line `k` |
| `TextNorm.NormLines` | src/mon_projet/plumber_step3_generic.py:89 | the normalised lines have the length of the input, each one normalised |
| `TextNorm.NormLinesAt` | src/mon_projet/plumber_step3_generic.py:89 | normalised line `k` is `_norm_line` of line `k` |
| `Json.GetOr` | src/mon_projet/plumber_step3_generic.py:62 | `d.get(key, default)` fails on a non-dict, gives the default for a missing key and the stored value otherwise |
| `Json.GetOrElse` | src/mon_projet/plumber_step2_generic.py:150 | `d.get(key) or default` fails on a non-dict; a result other than the default is a truthy stored value |
| `Json.Index` | src/mon_projet/lecture.py:59-62 | `d[key]` succeeds exactly on a dict holding the key |
| `Json.Iter` | src/mon_projet/plumber_step3_generic.py:70 | iteration fails exactly on values that are neither list, string nor dict, and a list yields its elements |
| `Json.GetNestedValue` | src/mon_projet/plumber_step3_generic.py:239-249 | an empty path gives `None`; otherwise the result is the walk of the dotted keys, `None` at the first step that is not a dict |
| `Json.WalkConcat` | src/mon_projet/plumber_step2_generic.py:258-265 | walking a path in two pieces is walking it in one |
| `Json.WalkNull` | src/mon_projet/plumber_step2_generic.py:261-264 | once the value is `None`, every further key gives `None` |
| `Json.WalkOne` | src/mon_projet/plumber_step2_generic.py:261-262 | one key of a dict gives its value, or `None` when it is absent |
| `Suppliers.AnyIn` | src/mon_projet/plumber_step3_generic.py:71 | `any(tok in joined ...)` is true only for a string token in the text, exactly so when all tokens are strings, and raises on a non-string token met before a hit |
| `Suppliers.AnyInStrings` | src/mon_projet/plumber_step3_generic.py:71 | for a list of strings, `any(tok in joined ...)` is true exactly when one of the strings occurs in the text |
| `Suppliers.ScanFrom` | src/mon_projet/plumber_step3_generic.py:68-72 | the index found claims the text and none before it does; `None` means no profile claims it; an error is one profile's error |
| `Wrappers.FirstTrue` | src/mon_projet/plumber_step3_generic.py:68-72 | the scan gives the first index at or after the start whose answer is true, every earlier answer being false; `None` when every answer is false; an error is the error of some answer |
| `Suppliers.DetectSupplier` | src/mon_projet/plumber_step3_generic.py:61-73 | the step 3 and test detection loop returns the strict detection without fallback |
| `Suppliers.DetectSupplierWithFallback` | src/mon_projet/plumber_step2_generic.py:148-168 | the step 2 loop returns the lenient detection with the single-profile fallback |
| `Suppliers.DetectLoop` | src/mon_projet/plumber_step2_generic_test.py:60-71 | the shared loop: profiles in declaration order, the first claim returns |
| `Json.StrList` | src/mon_projet/plumber_step3_generic.py:70 | a token list read as JSON strings, element by element |
| `Suppliers.PlainProfileTokens` | src/mon_projet/plumber_step2_generic.py:161-162 | both readings of a well-formed profile find its token list |
| `Suppliers.PlainProfileMatches` | src/mon_projet/plumber_step3_generic.py:69-71 | a well-formed profile claims the text exactly when its token list is non-empty and one token occurs in the joined lines |
| `Suppliers.StrictProfileAgrees` | src/mon_projet/plumber_step2_generic.py:161-163 | where the strict reading of a profile succeeds the lenient one gives the same answer |
| `Suppliers.StrictScanAgrees` | src/mon_projet/plumber_step2_generic.py:160-164 | the same for the whole scan |
| `Suppliers.StrictDetectionAgrees` | src/mon_projet/plumber_step3_generic.py:61-73 | without the fallback, both readings of the configuration detect the same supplier |
| `Suppliers.FallbackOnlyForSingle` | src/mon_projet/plumber_step2_generic.py:165-168 | the fallback changes the answer only when no profile claims the text and exactly one supplier is configured, and then returns that one |
| `Suppliers.DetectionIsFirstClaim` | src/mon_projet/plumber_step3_generic.py:68-73 | a detected supplier is a configured entry that claims the text, and no entry before it does |
| `Blocks.FirstHit` | src/mon_projet/plumber_step3_generic.py:90-94 | the index found is the first line from `from` on whose normalised form the pattern is found in; `None` means no such line |
| `Blocks.DropStops` | src/mon_projet/plumber_step3_generic.py:106-107 | the stop filter never lengthens the block and drops something as soon as a block line is a stop line |
| `Blocks.BlockEnd` | src/mon_projet/plumber_step3_generic.py:98-103 | the end index is the first stop line at or after the start, or the end of the input when there is no such line or no stop pattern |
| `Blocks.ExtractBlockLines` | src/mon_projet/plumber_step2_generic.py:172-197 | `_extract_block_lines` (the same in step 2 and step 3) returns what `ExtractBlock` defines |
| `Blocks.ScanBlock` | src/mon_projet/plumber_step3_generic.py:86-109 | the two index scans and the final filter compute `ExtractBlockOn` |
| `Blocks.DropStopsNoOp` | src/mon_projet/plumber_step3_generic.py:106-107 | the filter removes nothing when no block line is a stop line |
| `Blocks.ExtractBlockIsSlice` | src/mon_projet/plumber_step3_generic.py:86-109 | no start line gives `[]`; otherwise the result is the contiguous slice after the first start line up to the first later stop line, excluded, so that no stop line is kept and the input order is preserved |
| `Blocks.ExtractBlockNoStop` | src/mon_projet/plumber_step3_generic.py:98-105 | without a stop pattern the block is the whole rest of the input after the start line |
| `Blocks.PendingStep` | src/mon_projet/plumber_step3_generic.py:120-133 | reading one line: a header line closes the open block and opens its own; another line adds its item, if any, to the open block |
| `Blocks.GroupStep` | src/mon_projet/plumber_step3_generic.py:120-133 | the loop of the grouper that keeps empty blocks keeps the emitted blocks plus what is pending equal to the whole grouping |
| `Blocks.ExtractMultiBlocks` | src/mon_projet/plumber_step2_generic.py:219-251 | step 3's `_extract_multi_blocks`, and the second step 2 definition that the call at line 623 uses, return the reference grouping `Grouped` of the normalised lines |
| `Blocks.GroupBlocks` | src/mon_projet/plumber_step3_generic.py:117-138 | the grouping loop over the normalised lines returns `Grouped` |
| `Blocks.WithItemsConcat` | src/mon_projet/plumber_step2_generic.py:55-56 | dropping the empty blocks distributes over concatenation |
| `Blocks.WithItemsOne` | src/mon_projet/plumber_step2_generic.py:55-56 | one block is kept exactly when it holds items |
| `Blocks.FlushStep` | src/mon_projet/plumber_step2_generic.py:53-78 | the flushing loop keeps the emitted blocks plus the non-empty pending ones equal to the non-empty blocks of the grouping |
| `Blocks.ExtractMultiBlocksFlush` | src/mon_projet/plumber_step2_generic.py:37-89 | the first step 2 definition returns the reference grouping without its empty blocks |
| `Blocks.GroupNonEmptyBlocks` | src/mon_projet/plumber_step2_generic.py:45-81 | the flushing loop over the normalised lines returns `WithItems(Grouped(...))` |
| `Blocks.HeaderOfBlocks` | src/mon_projet/plumber_step3_generic.py:127 | the headers of a block list, block by block |
| `Blocks.OneBlockPerHeader` | src/mon_projet/plumber_step3_generic.py:112-138 | exactly one block per header line is emitted, in line order, with that line's header groups |
| `Blocks.LeadingLinesIgnored` | src/mon_projet/plumber_step3_generic.py:130 | lines before the first header line contribute nothing |
| `Blocks.EmptyBlockKept` | src/mon_projet/plumber_step3_generic.py:124-127 | a header line directly followed by another header line still gives its block, with no items |
| `Blocks.HeaderNotItem` | src/mon_projet/plumber_step3_generic.py:123-128 | a header line is never read as an item, even when the item pattern matches it; the items of its block are those of the following lines up to the next header, so each item goes to the nearest preceding header |
| `Blocks.ItemsUntilNextHeader` | src/mon_projet/plumber_step3_generic.py:123-133 | items are collected from the lines after a header up to, and not including, the next header line |
| `Blocks.ItemsGoToNearestHeader` | src/mon_projet/plumber_step3_generic.py:120-136 | every item goes to the nearest header line above it: a header's block holds the items of the lines between it and the next header |
| `Multiline.ReadSetup` | src/mon_projet/plumber_step3_generic.py:151-165 | reading the configuration fails with AttributeError exactly on a non-dict, and gives "nothing to parse" exactly when `start_regex` is falsy |
| `Multiline.GroupGet` | src/mon_projet/plumber_step3_generic.py:197-198 | `gd.get(key)` with a configured key raises on an unhashable key and is the group's value for a string key |
| `Multiline.DescText` | src/mon_projet/plumber_step3_generic.py:220 | `gd.get(key, "").strip()`: a group that did not take part raises AttributeError, a missing group gives `""`, a present one its stripped text |
| `Multiline.ScanPositions` | src/mon_projet/plumber_step3_generic.py:167-181 | the first pass returns the item positions and the header positions the reference collections define |
| `Multiline.ForwardHit` | src/mon_projet/plumber_step3_generic.py:187-189 | the entry found is the first header in the window `(idx, idx + 10]`; `None` means no header is in it |
| `Multiline.BackwardHit` | src/mon_projet/plumber_step3_generic.py:190-192 | the entry found is the last header strictly before the item; `None` means there is none |
| `Multiline.FindClosestOrder` | src/mon_projet/plumber_step2_generic.py:412-428 | `find_closest_order` returns the order number of the header `ClosestHeader` chooses |
| `Multiline.FollowLines` | src/mon_projet/plumber_step3_generic.py:206-223 | the description lookahead loop computes `Lookahead` |
| `Multiline.ItemsStep` | src/mon_projet/plumber_step3_generic.py:195-232 | one iteration of the item loop keeps the built items plus the rest equal to the whole parse, and an item that raises ends it |
| `Multiline.ParseMultilineItems` | src/mon_projet/plumber_step2_generic_test.py:74-173 | `_parse_multiline_items` (step 3 and test dialect, or step 2 dialect) returns what `ParseMultiline` defines |
| `Multiline.ParseLines` | src/mon_projet/plumber_step3_generic.py:158-236 | the parser over the normalised lines computes `ParseOn` |
| `Multiline.ParseItem` | src/mon_projet/plumber_step2_generic.py:433-485 | one item: its code and quantity groups, closest order and description, as `BuildItem` defines |
| `Multiline.CollectSound` | src/mon_projet/plumber_step3_generic.py:170-181 | every collected position is a line on which the pattern gives that value |
| `Multiline.CollectComplete` | src/mon_projet/plumber_step3_generic.py:170-181 | every line on which the pattern gives something is collected, with that value |
| `Multiline.CollectNothing` | src/mon_projet/plumber_step3_generic.py:177 | nothing is collected where the pattern never gives anything |
| `Multiline.CollectAscending` | src/mon_projet/plumber_step3_generic.py:170 | positions are collected in strictly increasing line order |
| `Multiline.ItemPositionsExact` | src/mon_projet/plumber_step3_generic.py:170-175 | the item positions are exactly the lines the start pattern matches, in order, each with its groups |
| `Multiline.OrderPositionsExact` | src/mon_projet/plumber_step2_generic.py:392-403 | the header positions are exactly the lines the header pattern finds, in order, each with its first non-empty group, and none without a header pattern |
| `Multiline.ClosestHeaderChoice` | src/mon_projet/plumber_step2_generic_test.py:118-127 | the chosen header is never on the item's own line: it is in the ten lines after it, or before it when none is there; no header means every header is on the item line or beyond the window |
| `Multiline.ClosestHeaderNearest` | src/mon_projet/plumber_step3_generic.py:186-193 | with headers in line order, the choice is the nearest header after the item within ten lines, otherwise the nearest before it |
| `Multiline.ItemsSpec` | src/mon_projet/plumber_step3_generic.py:195-232 | a successful parse builds item `k` from position `k`; a failed one fails with the first position that raises |
| `Multiline.BuildItems` | src/mon_projet/plumber_step3_generic.py:195-232 | the loop over the item positions gives the items `Items` defines: one item per position, in order, or the first exception an item raises |
| `Multiline.FirstFailureAt` | src/mon_projet/plumber_step3_generic.py:195-232 | a failing parse names the first failing position |
| `Multiline.ParseOneItemPerStartLine` | src/mon_projet/plumber_step3_generic.py:195-236 | a successful parse gives one item per start line, in line order, built from that line; the orders list is always empty |
| `Multiline.NoStartRegexNoItems` | src/mon_projet/plumber_step3_generic.py:158-161 | a missing or empty `start_regex` gives `([], [])` |
| `Multiline.BuildItemFields` | src/mon_projet/plumber_step2_generic_test.py:130-173 | an item holds the code and quantity groups of its start line, the closest order number and the description, under `item_code`, `qty`, `your_order`, `description` |
| `Multiline.FollowFound` | src/mon_projet/plumber_step3_generic.py:207-223 | a lookahead result comes from the first line within `max_follow` lines that the scan does not pass over |
| `Multiline.EmptyDescriptionTaken` | src/mon_projet/plumber_step3_generic.py:217-222 | a description match on the line below the item is taken even when its text strips to "", so the description is "" |
| `Multiline.LookaheadFound` | src/mon_projet/plumber_step3_generic.py:207-223 | a found description is the text of a description match within `max_follow` lines that does not start with "Subtotal", with no start line or subtotal line before it |
| `Multiline.FollowWindow` | src/mon_projet/plumber_step3_generic.py:207-208 | the lookahead reads no line beyond the `max_follow`-th below the item |
| `Multiline.LookaheadWindow` | src/mon_projet/plumber_step2_generic.py:450-452 | the same for the description lookahead itself |
| `Multiline.FollowNothing` | src/mon_projet/plumber_step3_generic.py:217-223 | a lookahead that never takes a line finds nothing |
| `Multiline.LookaheadNeedsDescPattern` | src/mon_projet/plumber_step3_generic.py:217 | without `desc_regex` no description is found by lookahead |
| `Multiline.InlineDescriptionWins` | src/mon_projet/plumber_step3_generic.py:203-205 | step 3: a non-empty `description_inline` group is the description, whatever follows |
| `Multiline.ZeroFollowUsesGroup` | src/mon_projet/plumber_step2_generic.py:444-447 | step 2: with `max_follow_lines` 0 the description is the start line's `desc_group` capture |
| `Multiline.DialectsAgree` | src/mon_projet/plumber_step2_generic.py:448-474 | without an inline description and with a positive `max_follow`, both versions look for the description the same way |
| `Tables.CleanTextSpacing` | src/mon_projet/parse_bl.py:86-91 | `clean_text` gives a trimmed text whose only whitespace is single plain spaces |
| `Tables.CellTexts` | src/mon_projet/parse_bl.py:96 | one `str(x).strip()` per cell, in row order |
| `Tables.ReadTableSetup` | src/mon_projet/parse_bl.py:69-81 | AttributeError exactly for a profile that is not a dict; no setup (so no items) exactly when `ligne_regex` is falsy; otherwise the line pattern is the configured string and `fields` defaults to `{}` |
| `Tables.GroupOf` | src/mon_projet/parse_bl.py:105-109 | `m.group(grp)`: a group number in range gives that group, a number out of range, an unknown name or `None` gives `""` (the caught IndexError); a list or dict raises TypeError exactly when the pattern has a named group, and otherwise gives `""` as well (CPython looks it up in the group index only then) |
| `Tables.FillCode` | src/mon_projet/parse_bl.py:111-118 | a truthy `code_article` or an absent code pattern leaves the item alone; any change touches only `code_article`, and only to group 1 of a search in a non-empty description |
| `Tables.BuildItem` | src/mon_projet/parse_bl.py:104-118 | the field loop then the code complement build the item `MakeItem` defines |
| `Tables.RowLines` | src/mon_projet/parse_bl.py:95-96 | one cleaned text per row, in order |
| `Tables.RowStep` | src/mon_projet/parse_bl.py:99-128 | one row: a match emits its item and clears the buffer, an error in the item stops everything, a miss carries the candidate as the new buffer |
| `Tables.TableEndStep` | src/mon_projet/parse_bl.py:130-149 | at the end of a table a non-empty buffer that matches adds one item; otherwise nothing is added |
| `Tables.TableStep` | src/mon_projet/parse_bl.py:93-94 | the tables are scanned one after the other, each with a fresh buffer, and an error in one stops the scan |
| `Tables.ExtractItemsFromTables` | src/mon_projet/parse_bl.py:61-151 | the nested table and row loops return (or raise) what `ExtractItems` defines |
| `Tables.TableRows` | src/mon_projet/parse_bl.py:95-149 | the rows of one table give the items `TableItems` defines |
| `Tables.ScanRows` | src/mon_projet/parse_bl.py:95-149 | the buffered row loop with its end-of-table attempt equals the recursive scan `RowsFrom` |
| `Tables.NoLineRegexNoItems` | src/mon_projet/parse_bl.py:70-72 | without a truthy `ligne_regex` the result is the empty list, whatever the tables |
| `Tables.RetryIsDead` | src/mon_projet/parse_bl.py:130-147 | when the buffer is empty or does not match, the end-of-table attempt changes nothing |
| `Tables.TableRetryIsDead` | src/mon_projet/parse_bl.py:125-147 | the buffer only ever holds a candidate that did not match, so the end-of-table attempt never adds an item |
| `Tables.RowsBound` | src/mon_projet/parse_bl.py:95-128 | a scan emits at most one item per row, plus one for a pending buffer |
| `Tables.AtMostOneItemPerRow` | src/mon_projet/parse_bl.py:93-149 | a table gives at most as many items as it has rows |
| `Tables.TablesConcat` | src/mon_projet/parse_bl.py:93-94 | the items of two lists of tables are the items of the first followed by those of the second |
| `Tables.WrappedRowJoined` | src/mon_projet/parse_bl.py:98-126 | a first row that does not match, followed by a row that completes it, gives one item for the two rows and an empty buffer |
| `Tables.FillFieldsFails` | src/mon_projet/parse_bl.py:105-109 | filling the fields fails exactly when the pattern has a named group and some group selector is a list or a dict |
| `Tables.FieldsTaken` | src/mon_projet/parse_bl.py:104-109 | each field name gets the group its selector names, the keys come in the order of `fields`, and nothing else changes |
| `Tables.ItemFields` | src/mon_projet/parse_bl.py:104-118 | in a built item every field other than `code_article` holds the group its selector names |
| `Tables.NormalizeKeys` | src/mon_projet/parse_bl.py:262-265 | the copy keeps the original keys in their order, and keys that are not quantity-like keep their values |
| `Tables.NormalizeUntouched` | src/mon_projet/parse_bl.py:263-265 | a key that is not visited keeps its value in the copy |
| `Tables.NormalizeConverts` | src/mon_projet/parse_bl.py:263-265 | every visited quantity-like key holds the conversion of its original value |
| `Tables.NormalizeItemMeaning` | src/mon_projet/parse_bl.py:259-265 | an item keeps its keys; keys starting with `qte_` or among `quantite`, `qty`, `quantity` become `_to_int_safe` of their value, the others are unchanged |
| `Tables.NormalizeNumericFields` | src/mon_projet/parse_bl.py:253-267 | one normalised item per input item, in order |
| `Headers.DropPunctuation` | src/mon_projet/parse_bl.py:286 | no character of `string.punctuation` is left, and the text does not grow |
| `Headers.NormalizeText` | src/mon_projet/parse_bl.py:270-292 | the result has no punctuation, only single plain spaces, and no space at either end; when the space is not a combining character, no combining character (accent) is left |
| `Headers.NormalizeLowerLast` | src/mon_projet/parse_bl.py:270-277 | the order that keeps the docstring's lower-case promise (accents dropped, then lowered, then tidied) gives the same spacing and punctuation guarantees |
| `Headers.LowerLastExample` | src/mon_projet/parse_bl.py:270-277 | lowering last, "™" normalises to "tm", which is lower case as the docstring promises |
| `Headers.NormalizeValue` | src/mon_projet/parse_bl.py:279-280 | anything that is not a string normalises to `""`; a string normalises as above |
| `Headers.LStripNoPunctuation` | src/mon_projet/parse_bl.py:291 | stripping the left end keeps a text free of punctuation |
| `Headers.StripNoPunctuation` | src/mon_projet/parse_bl.py:291 | `.strip()` keeps a text free of punctuation |
| `Headers.CollapseNoPunctuation` | src/mon_projet/parse_bl.py:291 | collapsing whitespace runs keeps a text free of punctuation |
| `Headers.NonEmpty` | src/mon_projet/parse_bl.py:317 | only non-empty pieces are kept, each one a piece of the split |
| `Headers.HeaderTokens` | src/mon_projet/parse_bl.py:310-317 | every header token is non-empty and holds neither whitespace nor punctuation |
| `Headers.SpacePiecesClean` | src/mon_projet/parse_bl.py:316-317 | splitting a normalised text at spaces gives tokens free of whitespace and punctuation |
| `Headers.SplitPartChars` | src/mon_projet/parse_bl.py:317 | each piece of `split(" ")` is made of characters of the split text |
| `Headers.Present` | src/mon_projet/parse_bl.py:305 | dropping the `None` cells does not add cells |
| `Headers.HeadCount` | src/mon_projet/parse_bl.py:301-303 | the loop reads `max_rows` rows, or every row of a shorter table |
| `Headers.HeadLines` | src/mon_projet/parse_bl.py:300-306 | one joined line per row read, in order |
| `Headers.TableHeadAsText` | src/mon_projet/parse_bl.py:295-307 | the row loop with its early `break` gives the normalised text of the first `max_rows` rows |
| `Headers.TableMatchesWindow` | src/mon_projet/parse_bl.py:329-330 | only the first six rows decide whether a table carries the header |
| `Headers.NonStringHeaderMatches` | src/mon_projet/parse_bl.py:326-330 | a truthy header that is not a string has no tokens and matches every table |
| `Headers.TokensInNormalized` | src/mon_projet/parse_bl.py:317 | every token of a normalised text occurs in it |
| `Headers.HeaderOccurrenceMatches` | src/mon_projet/parse_bl.py:320-330 | a table whose normalised head contains the normalised header matches it |
| `Headers.NormalizedIsWordJoin` | src/mon_projet/parse_bl.py:347 | a normalised text is its `split()` words joined by single spaces |
| `Headers.TextOccurrenceMatches` | src/mon_projet/parse_bl.py:339-347 | a page text whose normalised form contains the normalised header passes the fallback test |
| `Headers.NotLowerExample` | src/mon_projet/parse_bl.py:281-283 | lowering comes before the compatibility decomposition, so "™" normalises to "TM", which is not lower case |
| `Flavors.ResultOf` | src/mon_projet/parse_bl.py:412 | a flavour has no record exactly when it was never recorded |
| `Flavors.Store` | src/mon_projet/parse_bl.py:432-436 | storing a hashable flavour's record sets that flavour's record and leaves every other flavour's record alone; a flavour tried again keeps its place |
| `Flavors.Record` | src/mon_projet/parse_bl.py:419-436 | `flavor_results[f] = v` raises TypeError exactly when `f` is a list or a dict, which Python cannot hash; otherwise it sets the record of `f` and leaves every other flavour's record alone |
| `Flavors.Matched` | src/mon_projet/parse_bl.py:427-430 | the indexes of exactly the tables that carry the header, increasing and inside the list |
| `Flavors.MatchedIndexes` | src/mon_projet/parse_bl.py:376-379 | the `enumerate` loop collects the indexes `Matched` defines |
| `Flavors.ChooseBestFlavor` | src/mon_projet/parse_bl.py:350-441 | the whole selection returns what `Choose` defines: the error of a profile that is not a dict, TypeError for a list or dict flavour, or the choice with its records |
| `Flavors.ReadFixed` | src/mon_projet/parse_bl.py:364-405 | the fixed flavour is recorded with its tables and matches, and with no matching table the page-text test decides `header_match`; a failed reading records its error |
| `Flavors.TryFlavors` | src/mon_projet/parse_bl.py:411-441 | the loop over the tried flavours gives the choice and records `Tried` defines, and stops with TypeError at the first list or dict flavour; a chosen `null` flavour counts as no choice (`chosen is None`) |
| `Flavors.TriedStaysErr` | src/mon_projet/parse_bl.py:415-436 | once one flavour has raised, the flavours after it do not change the outcome |
| `Flavors.TryOne` | src/mon_projet/parse_bl.py:415-439 | one pass of the flavour loop: TypeError when the flavour is a list or a dict; otherwise the flavour's record is written (an error record when reading fails, else the table count and the matching indexes), and it becomes the choice when none was made (the choice is None or a `null` flavour) and one of its tables matches the header |
| `Flavors.FixedIsChosen` | src/mon_projet/parse_bl.py:360-408 | a truthy fixed flavour raises TypeError exactly when it is a list or a dict; otherwise it is chosen whatever its reading gives, even a failure, and it is the only flavour recorded |
| `Flavors.TriedRaises` | src/mon_projet/parse_bl.py:415-436 | trying the flavours raises exactly when one of them is a list or a dict, and then with TypeError |
| `Flavors.ChosenIsFirstFinder` | src/mon_projet/parse_bl.py:415-441 | without a fixed flavour the selection succeeds exactly when no flavour is a list or a dict; then the choice is the first flavour other than `null` in the list whose tables carry the header, and None exactly when no such flavour's tables do |
| `Flavors.EveryTriedRecorded` | src/mon_projet/parse_bl.py:415-436 | the loop raises TypeError exactly when a flavour is a list or a dict; otherwise every tried flavour has the record its reading gives, and no other flavour has one |
| `Flavors.FailedReadingRecorded` | src/mon_projet/parse_bl.py:416-425 | a flavour whose reading fails is recorded with no tables, no match and the error text; when that flavour is a list or a dict the store in the `except` branch raises TypeError |
| `Fold.DropMarks` | src/mon_projet/detect_fournisseur.py:41 | no combining character is left, and the text does not grow |
| `Fold.StripMarks` | src/mon_projet/detect_fournisseur.py:40-41 | after the compatibility decomposition no combining character is left |
| `Fold.AnyPattern` | src/mon_projet/detect_fournisseur.py:123-124 | true only when some pattern folds without error to a substring of the folded text; false only when every pattern folds and none occurs |
| `Fold.FoldScan` | src/mon_projet/detect_fournisseur.py:121-126 | the entry found is the first whose patterns claim the text; none found means no entry claims it |
| `Fold.Detect` | src/mon_projet/detect_fournisseur.py:118-129 | a successful result carries the document path as `file` |
| `Fold.DetectFournisseur` | src/mon_projet/detect_fournisseur.py:118-129 | the supplier loop with its early return gives what `Detect` defines |
| `Fold.DetectOutcome` | src/mon_projet/detect_fournisseur.py:118-129 | a detection is the first claiming supplier with its name and profile, or `"unknown"` with `{}` when no supplier claims the text |
| `Fold.NoPatternsNoClaim` | src/mon_projet/detect_fournisseur.py:122 | a supplier without `fournisseur_patterns` claims nothing |
| `Fold.FalsyPatternClaims` | src/mon_projet/detect_fournisseur.py:38-39 | a falsy pattern folds to `""`, which occurs in every text, so the supplier claims the text once the scan reaches it |
| `Fold.StringPatternsClaim` | src/mon_projet/detect_fournisseur.py:122-124 | non-empty string patterns claim the text exactly when the fold of one of them occurs in the fold of the text |
| `Fold.FoldConcat` | src/mon_projet/detect_fournisseur.py:29-42 | folding works character by character: the fold of a concatenation is the concatenation of the folds |
| `Fold.FoldKeepsOccurrence` | src/mon_projet/detect_fournisseur.py:118-124 | a pattern found in the raw text is still found after both sides are folded |
| `Fold.FoldIsLower` | src/mon_projet/detect_fournisseur.py:42 | with a stable lowercase mapping, the folded text is lower case |
| `Fold.FoldLowerAscii` | src/mon_projet/detect_fournisseur.py:29-42 | lower-case ASCII text folds to itself |
| `Fold.FoldChar` | src/mon_projet/detect_fournisseur.py:40-42 | one character folds to the lowered, mark-free decomposition of that character |
| `Fold.FoldExample` | src/mon_projet/detect_fournisseur.py:35-36 | the documented example: "Électricité" folds to "electricite" |
| `Metadata.Elems` | src/mon_projet/parse_bl.py:212-216 | the `seen` set holds exactly the elements of the list |
| `Metadata.UniqueOrders` | src/mon_projet/parse_bl.py:211-218 | the dedup loop gives the first occurrences of the `findall` results, in order |
| `Metadata.ExtractMeta` | src/mon_projet/parse_bl.py:197-220 | a profile that is not a dict raises AttributeError; a truthy pattern that is not a string raises TypeError, and a date pattern without group 1 raises IndexError when it hits, and there are no other errors; `date_document` is present exactly when the date pattern is a non-empty string that hits, and is then group 1 of the first hit; `purchase_orders` is present exactly when the order pattern is a non-empty string with `findall` hits, and is then their deduplicated list |
| `Metadata.FirstOccurrencesDistinct` | src/mon_projet/parse_bl.py:212-218 | no order number is listed twice |
| `Metadata.FirstOccurrencesElements` | src/mon_projet/parse_bl.py:212-218 | exactly the distinct `findall` results are listed |
| `Metadata.FirstIndex` | src/mon_projet/parse_bl.py:210 | the position of the first occurrence: it holds the value and no earlier position does |
| `Metadata.FirstIndexUnique` | src/mon_projet/parse_bl.py:210 | a position holding the value with none before it is its first occurrence |
| `Metadata.FirstIndexExtend` | src/mon_projet/parse_bl.py:214-217 | appending a value leaves the first occurrence of an earlier value where it was |
| `Metadata.FirstIndexLast` | src/mon_projet/parse_bl.py:214-217 | a new value appended last has its first occurrence there |
| `Metadata.FirstOccurrencesOrdered` | src/mon_projet/parse_bl.py:210-218 | the order numbers come in the order of their first occurrence in the text |
| `Metadata.OrderedStep` | src/mon_projet/parse_bl.py:214-217 | one step of the dedup keeps the kept values in first-occurrence order |
| `Dispatch.ConvertKeys` | src/mon_projet/plumber_step3_generic.py:368-370 | `k in it` fails exactly when some listed key is a list or a dict, which cannot be hashed |
| `Dispatch.ConvertKeysMeaning` | src/mon_projet/plumber_step3_generic.py:331-333 | the listed keys present in an item hold their converted value, the item keeps its keys, and every other key keeps its value |
| `Dispatch.ConvertOne` | src/mon_projet/plumber_step3_generic.py:332-333 | converting one key keeps the item's keys, gives a present key equal to it its converted value, and leaves every other key as it was |
| `Dispatch.IntFieldsConverted` | src/mon_projet/plumber_step3_generic.py:368-370 | with `_to_int_safe`, every listed `int_fields` key present in an item ends up an int and nothing else changes |
| `Dispatch.ConvertAllMeaning` | src/mon_projet/plumber_step3_generic.py:329-334 | one converted item per groupdict, in order, once `int_fields` can be read |
| `Dispatch.ConvertNothing` | src/mon_projet/plumber_step3_generic.py:330-331 | without an item, `post` is never read and nothing fails |
| `Dispatch.NullPost` | src/mon_projet/plumber_step2_generic.py:709 | a `post` set to null makes step 3's `profile.get("post", {})` raise AttributeError, while step 2's `or {}` reads no `int_fields` |
| `Dispatch.Matched` | src/mon_projet/plumber_step3_generic.py:364-366 | the lines the item pattern matches, no more than there are lines |
| `Dispatch.LineDictsStep` | src/mon_projet/plumber_step3_generic.py:364-367 | one more line adds its groupdict when it matches and nothing otherwise |
| `Dispatch.LineDictsMatched` | src/mon_projet/plumber_step3_generic.py:364-367 | one groupdict per matching line, that of its match, in order |
| `Dispatch.MatchedConcat` | src/mon_projet/plumber_step3_generic.py:364-366 | lines are matched one by one, without regard to what surrounds them |
| `Dispatch.MatchedItems` | src/mon_projet/plumber_step3_generic.py:364-371 | the single-block loop gives the converted groupdicts of the matching lines, or the first conversion failure |
| `Dispatch.LineItem` | src/mon_projet/plumber_step3_generic.py:364-370 | one block line of the loop: a line the pattern does not match adds nothing, a matching line appends its converted groupdict, and a conversion failure is the failure of the whole loop |
| `Dispatch.ConvertStep` | src/mon_projet/plumber_step3_generic.py:367-371 | one converted item is appended and the scan goes on |
| `Dispatch.ConvertFails` | src/mon_projet/plumber_step3_generic.py:368-370 | the first conversion failure ends the scan and is its outcome |
| `Dispatch.ConvertItems` | src/mon_projet/plumber_step3_generic.py:330-333 | the loop over one block's items converts each of them |
| `Dispatch.BlockOrders` | src/mon_projet/plumber_step3_generic.py:329-335 | the loop over the blocks gives the orders `Orders` defines |
| `Dispatch.OrdersStep` | src/mon_projet/plumber_step3_generic.py:329-335 | one block adds its order, with its header and its converted items, or ends the scan with its failure |
| `Dispatch.OrdersMeaning` | src/mon_projet/plumber_step3_generic.py:329-335 | one order per block, in block order, with the block's header and its items converted |
| `Dispatch.MItemDicts` | src/mon_projet/plumber_step3_generic.py:225-232 | one item dict per parsed multiline item, in order |
| `Dispatch.Step3Dispatch` | src/mon_projet/plumber_step3_generic.py:309-371 | `unknown` exactly for a falsy profile; orders only in the multi-blocks mode, never empty, and then the items are those of the orders in turn |
| `Dispatch.Step3MultiBlocksFirst` | src/mon_projet/plumber_step3_generic.py:324-335 | mode 1 wins when its three settings are present: one order per header line, in order, with that line's groups, and the items of all orders in turn |
| `Dispatch.Step3MultilineUnconverted` | src/mon_projet/plumber_step3_generic.py:337-346 | mode 2 returns the parser's items without `int_fields`, never orders, and parses nothing without `multi_blocks` or a start pattern |
| `Dispatch.Step3SingleBlockItems` | src/mon_projet/plumber_step3_generic.py:357-371 | mode 3 emits one item per normalised block line the item pattern matches, in order, with `int_fields` converted |
| `Dispatch.SingleBlockOutputOk` | src/mon_projet/plumber_step3_generic.py:361-371 | with both patterns, the items are the converted matches of the normalised block lines |
| `Dispatch.Step3SingleBlockNeedsBoth` | src/mon_projet/plumber_step3_generic.py:361 | without a start pattern or an item pattern, mode 3 extracts nothing |
| `Dispatch.MultiBlockOutput` | src/mon_projet/plumber_step3_generic.py:324-335 | mode 1 gives an extracted result whose orders, when present, are not empty and whose items are those of the orders in turn |
| `Dispatch.MultilineOutput` | src/mon_projet/plumber_step3_generic.py:337-355 | mode 2 gives an extracted result without orders |
| `Dispatch.SingleBlockOutput` | src/mon_projet/plumber_step3_generic.py:357-370 | mode 3 gives an extracted result without orders |
| `Dispatch.Step2SingleBlockItems` | src/mon_projet/plumber_step2_generic.py:702-712 | the step 2 single-block loop gives the items `Step2SingleBlock` defines |
| `Dispatch.Step2OneItemPerMatch` | src/mon_projet/plumber_step2_generic.py:702-712 | one item per raw block line the pattern matches, in order; the listed `int_fields` become `_to_int_safe` of the captured text, every other key is the captured group |
| `Dispatch.TestDispatch` | src/mon_projet/plumber_step2_generic_test.py:192-217 | `unknown` exactly for a falsy profile; never orders; items only with both `multiline_item` and `multi_blocks`, and then the parser's items over all lines |
| `Dispatch.TestParseErrorCaught` | src/mon_projet/plumber_step2_generic_test.py:204-217 | a parser exception is caught and leaves the items empty |
| `Lecture.PyIndex` | src/mon_projet/lecture.py:82 | `data[k]` succeeds exactly for `-len(data) <= k < len(data)`, a negative index counting from the end |
| `Lecture.Data` | src/mon_projet/lecture.py:76 | `match.groups()`: one entry per group, in order |
| `Lecture.LineHas` | src/mon_projet/lecture.py:39 | the inner `any` over the lines gives what `OnSomeLine` defines |
| `Lecture.PatternsHit` | src/mon_projet/lecture.py:39 | the outer `any` over the patterns gives what `AnyPattern` defines |
| `Lecture.DetectConfig` | src/mon_projet/lecture.py:35-45 | the supplier loop with its `break` gives what `SelectSupplier` defines |
| `Lecture.FindDate` | src/mon_projet/lecture.py:48-54 | the date loop gives what `DateFrom` defines |
| `Lecture.FallbackLine` | src/mon_projet/lecture.py:96-112 | the description lookahead loop gives what `FallbackFrom` defines |
| `Lecture.OrderLookahead` | src/mon_projet/lecture.py:119-126 | the order-number lookahead loop gives what `OrderFrom` defines |
| `Lecture.MakeArticle` | src/mon_projet/lecture.py:76-145 | one article from a matching line's groups, as `BuildArticle` defines |
| `Lecture.DescribeLine` | src/mon_projet/lecture.py:91-112 | the description of an item line is the one `Describe` defines: its own field when not empty, else the first kept line among the next `description_fallback_lines` lines |
| `Lecture.DateSkipTo` | src/mon_projet/lecture.py:49-54 | lines before the first one carrying the date pattern and a date match do not change the date found |
| `Lecture.ScanTable` | src/mon_projet/lecture.py:64-145 | the table loop gives the articles `ArticlesFrom` defines, from the first line with no header seen yet |
| `Lecture.ArticleStep` | src/mon_projet/lecture.py:145 | appending an article extends the articles found so far |
| `Lecture.Run` | src/mon_projet/lecture.py:35-145 | the whole script gives the report `Lecture` defines |
| `Lecture.AnyPatternMeaning` | src/mon_projet/lecture.py:38-39 | a claim means some string pattern occurs in some line; with string patterns only, the entry claims exactly when one of them occurs in one line |
| `Lecture.ClaimIsTruthy` | src/mon_projet/lecture.py:40-45 | a claiming entry is a non-empty dict, so the `not selected_config` check after a claim never fires |
| `Lecture.FirstClaimFirst` | src/mon_projet/lecture.py:37-42 | the entry found claims the lines and no entry before it does |
| `Lecture.SelectSupplierFirst` | src/mon_projet/lecture.py:35-45 | a selected supplier is the first entry of the configuration that claims the lines |
| `Lecture.NoClaimRaises` | src/mon_projet/lecture.py:44-45 | when no entry claims the lines, the script raises "no supplier recognised" |
| `Lecture.FirstClaimSelected` | src/mon_projet/lecture.py:37-42 | the first claiming entry is the one selected |
| `Lecture.DateFirst` | src/mon_projet/lecture.py:49-54 | the date is group 1, stripped, of the first line that holds `date_pattern` and where `date_regex` is found; lines holding only the text are skipped |
| `Lecture.DateNone` | src/mon_projet/lecture.py:48-54 | with no such line the date stays None |
| `Lecture.AfterHeaderStep` | src/mon_projet/lecture.py:65-66 | the table has started after line `i` exactly when it had started before it or line `i` holds the header |
| `Lecture.ItemIndicesStep` | src/mon_projet/lecture.py:64-74 | one more line is listed exactly when it is an item line |
| `Lecture.ItemIndicesSound` | src/mon_projet/lecture.py:64-74 | every listed line comes after a header line, does not hold the header, is not blank and matches `ligne_regex` |
| `Lecture.ItemIndicesComplete` | src/mon_projet/lecture.py:64-74 | every such line is listed |
| `Lecture.ItemIndicesIncreasing` | src/mon_projet/lecture.py:64 | the item lines are listed in document order, each once |
| `Lecture.ArticlesAtCons` | src/mon_projet/lecture.py:145 | an article built from line `i` goes in front of those of the later lines |
| `Lecture.ArticlesAtItems` | src/mon_projet/lecture.py:64-145 | the table loop yields one article per item line, in order, each built from the groups of its own line |
| `Lecture.BuildArticleHeader` | src/mon_projet/lecture.py:137-139 | an article carries the selected supplier name and the document date |
| `Lecture.ArticlesShareHeader` | src/mon_projet/lecture.py:137-145 | every article of the table carries the supplier name and the date |
| `Lecture.ReportHeader` | src/mon_projet/lecture.py:35-145 | the report names the selected supplier and the date found, and so does every article |
| `Lecture.FallbackFirst` | src/mon_projet/lecture.py:96-112 | the description is the first following line, within the configured count, that is not blank and starts with none of the eight prefixes |
| `Lecture.FallbackNone` | src/mon_projet/lecture.py:96-112 | with no such line the lookahead finds nothing |
| `Lecture.PrefixedSkipped` | src/mon_projet/lecture.py:99-110 | a following line that starts with one of the prefixes is skipped |
| `Lecture.DescribeKeeps` | src/mon_projet/lecture.py:95 | a non-empty description is kept without looking ahead |
| `Lecture.DescribeLooks` | src/mon_projet/lecture.py:94-112 | an empty or missing description is replaced by the lookahead line when there is one, and kept otherwise |
| `Lecture.OrderFirst` | src/mon_projet/lecture.py:119-126 | the first of the next ten lines that holds the order pattern decides the order number, even when the order regex is not found there |
| `Lecture.OrderNone` | src/mon_projet/lecture.py:119-126 | when none of the next ten lines holds the order pattern, there is no order number |
| `Lecture.PurchaseOrderIgnoresFields` | src/mon_projet/lecture.py:116-128 | with both order settings the lookahead alone decides; `fields` and the groups play no part |
| `Lecture.PurchaseOrderDirect` | src/mon_projet/lecture.py:127-129 | otherwise an integer `purchase_order` field takes that group of the match |
| `Lecture.CodeReplaced` | src/mon_projet/lecture.py:132-135 | a code pattern found in a non-empty description replaces the code with its group 1 |
| `Lecture.CodeKept` | src/mon_projet/lecture.py:132 | without a code pattern or a description the code stays as it was |
| `Strings.LStrip` | src/mon_projet/plumber_step3_generic.py:29 | the left half of `strip()` removes exactly the leading whitespace: the rest is a suffix of the text that does not start with whitespace |
| `Strings.RStrip` | src/mon_projet/plumber_step3_generic.py:29 | the right half of `strip()` removes exactly the trailing whitespace: the rest is a prefix of the text that does not end with whitespace |
| `Strings.Strip` | src/mon_projet/parse_bl.py:234 | `strip()` leaves a text with no whitespace at either end, no longer than before |
| `Strings.StripEmptyIff` | src/mon_projet/lecture.py:70 | `line.strip()` is empty exactly when the line is all whitespace |
| `Strings.Collapse` | src/mon_projet/parse_bl.py:291 | `re.sub(r"\s+", " ", s)` leaves only single plain spaces, keeps the first character or turns leading whitespace into one space, and empties only the empty text |
| `Strings.CollapseFixed` | src/mon_projet/parse_bl.py:91 | collapsing a text that is already single-spaced changes nothing |
| `Strings.ReplaceChar` | src/mon_projet/parse_bl.py:238 | a one-character `replace` changes exactly the occurrences of that character |
| `Strings.RemoveChar` | src/mon_projet/parse_bl.py:238 | removing a character leaves every other character, counted with its repetitions |
| `Strings.Split` | src/mon_projet/parse_bl.py:317 | `split(" ")` gives one more piece than there are separators, none holding the separator |
| `Strings.SplitJoin` | src/mon_projet/parse_bl.py:317 | joining the pieces of a split with the separator gives the text back |
| `Strings.Words` | src/mon_projet/parse_bl.py:88 | `split()` gives non-empty pieces holding no whitespace |
| `Strings.SubstringOfJoin` | src/mon_projet/parse_bl.py:307 | text found in one part of a join is found in the joined text |
| `Strings.NatString` | src/mon_projet/parse_bl.py:234 | `str(n)` of a natural number is a digit string whose value is `n` |
| `Regex.GroupAt` | src/mon_projet/parse_bl.py:204 | `m.group(k)`: group 0 is the whole match, `1..n` the groups, any other number raises IndexError |
| `Regex.GroupNamed` | src/mon_projet/parse_bl.py:107 | `m.group(name)` raises IndexError exactly when no group carries that name |
| `Regex.GroupDictOf` | src/mon_projet/plumber_step3_generic.py:367 | `m.groupdict()` holds only named groups of the match, each with its captured text |
| `Regex.Find` | src/mon_projet/plumber_step3_generic.py:220 | a key is found exactly when an entry carries it, and then with that entry's value |
| `Regex.FirstNonEmpty` | src/mon_projet/plumber_step3_generic.py:180 | `next((v for v in gd.values() if v), None)` gives the first non-empty value of the groupdict, in order, or None when every value is falsy |
| `Regex.GroupValues` | src/mon_projet/lecture.py:76 | `m.groups()` lists the captured texts of groups 1, 2, ... in order |
| `Values.Lookup` | src/mon_projet/parse_bl.py:115 | `d.get(k)` is None exactly for a missing key, and otherwise the value stored under `k` |
| `Values.Put` | src/mon_projet/parse_bl.py:107 | `d[k] = v` stores `v` under `k`, keeps an existing key in its place or appends a new one last, and changes no other key |
| `Values.OfGroupDict` | src/mon_projet/plumber_step3_generic.py:367 | a groupdict as a record: the same names in order, a group that did not take part as None |

## Left out

- PDF reading is not modelled (`pdfplumber`, `camelot.read_pdf`, `read_pdf_text`, `_read_pdf_lines`). It is I/O through foreign libraries. The lines, the page text and the tables are parameters. A Camelot reading is a list of tables or the text of its exception.
- Configuration loading (`_load_config`, `load_config`), `check_inputs`, config.py, environment variables, argparse, `sys.exit`, every `print`, `display_extraction_summary` and the debug flags are not modelled. They are I/O.
- core.py (`add`), textdupdf.py and the `tests` directory are not part of this model. They are a trivial sum, a printing script and I/O around `detect_fournisseur`.
- The regex engine and `re.findall` are abstract, so pattern syntax and flags are not checked.
- Unicode lowering, NFKD and combining classes are abstract per-character functions. Filtering marks after a per-character decomposition stands for filtering after NFKD, because canonical reordering only moves combining marks among themselves. Context-dependent lowering is not modelled: CPython's `str.lower()` applies Final_Sigma, so "ΑΣ" lowers to "ας" but "ΑΣΑ" to "ασα".
- `Fold.FoldConcat`: holds only for lowering that works character by character. Under Final_Sigma, folding "ΑΣ" and "Α" apart differs from folding "ΑΣΑ".
- `Fold.FoldKeepsOccurrence`: holds only for lowering that works character by character. Under Final_Sigma, a pattern "ΑΣ" inside the text "ΑΣΑ" is not found by detect_fournisseur.py:124.
- `Pages.ParsePagesFull`: `str.isdigit()` is read as the ASCII digits 0-9 (plumber_step1.py:47,54; plumber_step2_generic.py:113,120). Python's test also accepts other Unicode digits. A decimal digit such as "٣" is then selected as its page by `int()`. A digit such as "²", which `int()` rejects, raises ValueError. The model ignores chunks of either kind.
- `Pages.ChunkIgnored`: likewise, its "digits" are ASCII digits. A chunk of other Unicode digits contributes nothing in the model, where the source selects its page or raises ValueError.
- Floating point is not modelled. JSON numbers with a fraction or an exponent are not modelled: a configuration value is an integer, a string, a boolean, null, a list or a dict. Also not modelled: the `float_fields` post-processing (plumber_step3_generic.py:348-355, plumber_step2_generic.py:684-692, plumber_step2_generic_test.py:219-227), `float()` in `_to_int_safe` beyond a sign, digits and one point, and Python's exponents, `inf`, `nan`, underscores and precision loss.
- `Lecture.MakeArticle`: the quantity is the text handed to `float()` after the dot, comma and space rewrites (lecture.py:80-87); its conversion to a float is not modelled.
- `Dispatch.Step3Dispatch`: the items of the multiline mode are returned before the `float_fields` post-processing.
- `Dispatch.TestDispatch`: likewise, the items come before the `float_fields` post-processing.
- `Metadata.ExtractMeta`: the text is a parameter, so the `pages` conversion and the failed read that returns `{}` (parse_bl.py:175-195) are not modelled. `re.findall` is a function to a list of strings, so the tuples it gives for a pattern with two or more groups (parse_bl.py:209) are not modelled.
- `Flavors.Record`: flavours are compared as JSON values, so Python's key collision between `True` and `1` (or `False` and `0`) in `flavor_results` is not modelled. A flavour list holding both keeps two records in the model, where the source keeps one.
- `Flavors.ChooseBestFlavor`: the table reader and the page text are parameters, so the `pages` conversion for the text (parse_bl.py:386-398) is not modelled. A failed text read is the absent text.
- `Fold.DetectFournisseur`: the text is read by the caller; the RuntimeError that wraps a read failure is not modelled.
- plumber_step2_generic.py does not parse as written. There is a stray `)` at 361, inside `_parse_multiline_items`, and a broken string literal at 603-606, inside `main`. A syntax error stops the whole module, so none of the file's functions can run. The members that cite this file model its text as if those two spots were repaired: `Pages.ParsePagesFull`, `Suppliers.DetectSupplierWithFallback`, the step 2 `Blocks` groupers, the step 2 dialect of `Multiline` (`OrderPositionsExact`, `FindClosestOrder`, `ParseItem`) and the `Dispatch` step 2 loop. In `main`, `lines` is also undefined at 645. Only the single-block loop of `main` is modelled, and it takes the block lines as a parameter. The duplicated multiline call at 661-681 would be modelled once, and is covered by `Multiline.ParseMultilineItems`.
- pandas is not modelled. A table is a list of rows of cell values, and `NaN` appears only as the `"nan"` text of a cell, as `str()` renders it.
- Dicts are insertion-ordered lists of entries. Lemmas that need it assume distinct keys, as every Python dict has; duplicate keys in a JSON file are not modelled.
- In-place updates (`it[k] = ...`, `current["items"].append`, `it2 = dict(it)`) are modelled on values. So the model does not capture that step 3's `orders` and `items` share the same dict objects, or that `normalize_numeric_fields` leaves its input untouched. On values both hold trivially.
