# ArabCoverHelper in Dafny

ArabCoverHelper turns a string of basic Arabic letters (U+0600 to U+06FE),
as typed through a Latin transliteration keyboard, into the presentation
forms a renderer without contextual shaping needs. Each letter gets one of
four forms: isolated, beginning, medial or end. The form depends on its
neighbours and on its joining class: WdBeg ends the word, InBeg joins only
backwards, NoBeg joins both ways. LAM followed by ALEF is merged into one
ligature slot. The result is returned as UTF-8 bytes.

The model has five modules:

- `Options`: the Option datatype.
- `Utf8`: `asciiToString` as written, with a decoder written from section 3
  of RFC 3629 as its partner.
- `Tables`: the constants, and the three tables that `init()` builds, written
  as reference functions:
  - `KeyBasic` for `cmList`;
  - `ShapingEntry` for `pFormList`;
  - `Decomposition` for `pfToBasic`;
  - the reverse lookup `FormBasic`.
- `Shaping`: the loop of `convert()` as a pure fold, `Step`, `Run` and
  `Shape`, with the properties of the loop proved as lemmas.
- `ArabCover`: the class `ArabCoverHelper`.
  - The three tables are fields that `Init` fills in place.
  - `Convert` runs the shaping loop over an array buffer (PHP's `$list`) and
    is proved to return `Encode(Shape(Trim(str)))`.

Notes on `convert()`:

- It does not map Latin keys through `cmList`. It shapes code points as they
  come, so Latin keys pass through unchanged.
- It writes both the isolated ligature 0xFEFB and the final one 0xFEFC.
- The end form of the HAMZA record is 0xFB8C, as `init()` writes it. Every
  property below holds with this value; it only decides which glyph is shown.

## Model

| member | source | states |
|---|---|---|
| Utf8.Chr | src/ArabCoverHelper.php:399-407 | chr() returns the byte congruent to its argument modulo 256, and is the identity on 0 to 255. |
| Utf8.AsciiToString | src/ArabCoverHelper.php:397-411 | asciiToString writes one byte below 0x80, two below 0x800 and three for every larger code: it has no four-byte form. The bytes themselves are stated by AsciiToStringLayout, the partner decoder by AsciiToStringRoundTrip and DecodeThenEncode. |
| Utf8.AsciiToStringLayout | src/ArabCoverHelper.php:397-411 | Below 0x10000, asciiToString writes one byte below 0x80, two bytes (0xC0 + code/64, 0x80 + code%64) below 0x800, and three bytes (0xE0 + code/4096, 0x80 + (code%4096)/64, 0x80 + code%64) otherwise. Every byte after the first is a continuation byte in [0x80, 0xBF]. |
| Utf8.TwoByteLayout | src/ArabCoverHelper.php:401-403 | The two bytes asciiToString writes for a code in [0x80, 0x800). |
| Utf8.ThreeByteLayout | src/ArabCoverHelper.php:404-407 | The three bytes asciiToString writes for a code in [0x800, 0x10000). |
| Utf8.AsciiToStringRoundTrip | src/ArabCoverHelper.php:397-411 | Decoding the bytes asciiToString writes for a scalar value below 0x10000 gives the code back. |
| Utf8.DecodeThenEncode | src/ArabCoverHelper.php:397-411 | The other direction: every well-formed UTF-8 sequence of one to three bytes is exactly what asciiToString writes for the code it decodes to, and that code is a scalar value below 0x10000. |
| Utf8.Encode | src/ArabCoverHelper.php:188-192 | No contract of its own: the encoding loop followed by implode(). EncodeLength, EncodeAppend, EncodeRoundTrip and DecodeAllThenEncode state its properties. |
| Utf8.EncodeLength | src/ArabCoverHelper.php:188-192 | Every code adds one to three bytes to the output. |
| Utf8.EncodeAppend | src/ArabCoverHelper.php:188-192 | Encoding a concatenation of code lists is the concatenation of their encodings. |
| Utf8.EncodeCons | src/ArabCoverHelper.php:188-192 | The first code of a list is encoded first, followed by the encoding of the rest. |
| Utf8.EncodeRoundTrip | src/ArabCoverHelper.php:188-192 | The bytes convert returns for a list of scalar values below 0x10000 split and decode back into exactly that list. |
| Utf8.DecodeAllThenEncode | src/ArabCoverHelper.php:188-192 | A byte string that splits and decodes into a list of codes is exactly the encoding of that list. |
| Tables.KeyBasic | src/ArabCoverHelper.php:201-253 | Every key maps to 0 (no letter) or to a code point in [BPAD, BMAX). InitKeys proves that cmList equals it; LetterKeysAreShaped that every letter key has a shaping record. |
| Tables.ShapingEntry | src/ArabCoverHelper.php:265-302 | No contract of its own: the table of records. FormsInPresentationRange, FormBasicOfEntry, FormsDisjoint, EntriesInBasicRange and InBegCorrectionIsNoop state its properties; InitForms proves that pFormList equals it. |
| Tables.Decomposition | src/ArabCoverHelper.php:304-382 | Every entry of pfToBasic holds at most two code points, each in the basic range. DecompositionOfForms and LigatureSlotsAreNotForms state what each entry holds; InitDecompositions proves that pfToBasic equals it. |
| Tables.FormsInPresentationRange | src/ArabCoverHelper.php:269-302 | All four forms of every pFormList record lie in [EPAD, EMAX). |
| Tables.FormBasicOfEntry | src/ArabCoverHelper.php:310-317 | Each of the four forms of the record of letter b leads back to b through the reverse lookup. |
| Tables.FormBasicSound | src/ArabCoverHelper.php:310-317 | Whatever letter the reverse lookup gives for a form has a record, lies in the basic range, and has that form among its four. |
| Tables.FormsDisjoint | src/ArabCoverHelper.php:269-302 | No presentation form belongs to the records of two different letters. |
| Tables.EntriesInBasicRange | src/ArabCoverHelper.php:269-302 | Every letter with a record lies in [BPAD, BMAX), the range convert shapes. |
| Tables.InBegCorrectionIsNoop | src/ArabCoverHelper.php:156-161 | For every InBeg record the beginning form equals the isolated form and the medial form equals the end form, so the correction of such a letter rewrites its slot with the same value. |
| Tables.DecompositionOfForms | src/ArabCoverHelper.php:310-317 | Each form of the record of b decomposes to exactly [b] in pfToBasic. |
| Tables.LigatureSlotsAreNotForms | src/ArabCoverHelper.php:319-382 | The HEH, LAM+ALEF and HAMZA ligature slots written after the walk hold no form of any record, so those writes overwrite nothing the walk filled. |
| Tables.LetterKeysAreShaped | src/ArabCoverHelper.php:206-231 | Every Latin letter key, lower or upper case, names a letter that has a shaping record. |
| Shaping.Tentative | src/ArabCoverHelper.php:127-135 | The tentative form of a letter is its isolated or its end form, a form of its own record. ShapeAppendLetter states which one is chosen. |
| Shaping.Merges | src/ArabCoverHelper.php:146-153 | No contract of its own: the test for a LAM+ALEF merge. MergesFromLam and MergeIff state what it means on inputs. |
| Shaping.Shape | src/ArabCoverHelper.php:122-185 | The output has at most one slot per input code point, and at least one for a non-empty input. ShapeLength gives the exact count. |
| Shaping.Step | src/ArabCoverHelper.php:122-184 | One loop iteration keeps the loop invariant Inv: when bt != WdBeg, j >= 1, prev has a record, list[j-1] == ppfwc, and ppfwc is that record's iForm or eForm. It adds a slot except on a merge, and leaves every slot before j-1 alone. |
| Shaping.Run | src/ArabCoverHelper.php:122-185 | After the whole input, the invariant holds, at most one slot per input code point is filled, and a class other than WdBeg comes from the last code point read. |
| Shaping.StepOnUnshaped | src/ArabCoverHelper.php:166-179 | A code point without a record (outside the basic range, or in it with no record) is written unchanged and resets the class to WdBeg. |
| Shaping.StepOnLetter | src/ArabCoverHelper.php:127-164 | A letter that is not merged gets its tentative form in a new slot and carries its own class. The slot before is replaced by Joined (beginning or medial form) when a class other than WdBeg was carried. |
| Shaping.StepOnMerge | src/ArabCoverHelper.php:146-153 | On a merge, the slot before becomes LA (after LAM's iForm) or LA_FINAL (after its eForm), j does not advance, and bt resets to WdBeg. |
| Shaping.LamFormsOnlyFromLam | src/ArabCoverHelper.php:146-153 | Only LAM's record shares an isolated or end form with LAM, so the ligature test on ppfwc can only fire after a LAM. |
| Shaping.MergesFromLam | src/ArabCoverHelper.php:146-153 | A merge happens only when the letter before is LAM and the current code point is ALEF. |
| Shaping.StepOnLam | src/ArabCoverHelper.php:127-164 | After reading LAM, NoBeg is carried and the last form written is LAM's iForm or eForm. |
| Shaping.AfterLam | src/ArabCoverHelper.php:127-164 | For any input ending in LAM, the state carries NoBeg and LAM's iForm or eForm. |
| Shaping.MergeIff | src/ArabCoverHelper.php:146-153 | Both directions: the loop merges the next code point exactly when the input so far ends in LAM and that code point is ALEF. |
| Shaping.ShapeLengthStep | src/ArabCoverHelper.php:146-153 | Reading one more code point adds one slot, except for the ALEF of a LAM+ALEF pair, which adds none. |
| Shaping.ShapeLength | src/ArabCoverHelper.php:181-184 | The number of slots filled is the input length minus the number of LAM+ALEF pairs. |
| Shaping.StepClass | src/ArabCoverHelper.php:163-179 | The class carried after a step is that of the letter read, unless the letter has no record or is merged; then it is WdBeg. |
| Shaping.CarriedClass | src/ArabCoverHelper.php:163-179 | The same on inputs: the class after p + [c] is c's own class when c is shaped and not the ALEF after a LAM, and WdBeg otherwise. |
| Shaping.ShapeAppendUnshaped | src/ArabCoverHelper.php:166-179 | Appending a code point without a record appends it unchanged to the output and resets the class. |
| Shaping.ResetBeforeLetter | src/ArabCoverHelper.php:127-135 | After such a code point, the next letter starts again from its isolated form. |
| Shaping.ShapeAppendLetter | src/ArabCoverHelper.php:127-164 | Tentative form and lookback correction: a non-merged letter gets eForm when NoBeg is carried and iForm otherwise. When bt != WdBeg, only slot j-1 changes, iForm to bForm or eForm to mForm of the letter before. When bt == WdBeg, no earlier slot changes. |
| Shaping.StepAppendLetter | src/ArabCoverHelper.php:127-164 | The same property stated on loop states. |
| Shaping.StepLamAlef | src/ArabCoverHelper.php:146-153 | From any state, LAM then ALEF leave one ligature slot where LAM's slot was: LA_FINAL when LAM joined the letter before, LA otherwise. The class is then WdBeg. |
| Shaping.LamAlefLigature | src/ArabCoverHelper.php:146-153 | The same on inputs: Shape(s + [LAM, ALEF]) is Shape(s + [LAM]) with its last slot replaced by the ligature, and the class is reset. |
| Shaping.ShapePrefixStable | src/ArabCoverHelper.php:155-161 | Once written, every slot but the last never changes as more input is read. |
| Shaping.FormsNotShaped | src/ArabCoverHelper.php:123-125 | No form of any record is in the range convert shapes. |
| Shaping.LetterStepKeepsUnshaped | src/ArabCoverHelper.php:127-164 | A non-merged letter step writes only code points convert does not shape. |
| Shaping.StepKeepsUnshaped | src/ArabCoverHelper.php:122-184 | Every step keeps the output free of code points convert would shape. |
| Shaping.ShapeOutputUnshaped | src/ArabCoverHelper.php:122-184 | Nothing convert writes is a code point it would shape. |
| Shaping.ShapePassThrough | src/ArabCoverHelper.php:166-179 | Text with no shaped letter is returned unchanged, presentation forms and Latin keys included. |
| Shaping.ShapeIdempotent | src/ArabCoverHelper.php:122-184 | Shaping the output again changes nothing. |
| Shaping.StepSlotsOrigin | src/ArabCoverHelper.php:122-184 | Each slot after a step is the code point read, a presentation form, or a slot that was there before. |
| Shaping.ShapeSlotsOrigin | src/ArabCoverHelper.php:122-184 | Every output slot is a code point of the input or a presentation form in [EPAD, EMAX). |
| Shaping.SingleLetter | src/ArabCoverHelper.php:127-135 | A shaped letter on its own gets its isolated form and carries its own class. |
| Shaping.TwoJoinedLetters | src/ArabCoverHelper.php:155-161 | Two letters, the first NoBeg and not a LAM+ALEF pair, come out as the first's beginning form and the second's end form. |
| ArabCover.Put | src/ArabCoverHelper.php:312-315 | PHP's `$e[pos] = v`: slot pos holds v afterwards, the list grows by one exactly when pos was the next free index, and every other slot is unchanged. |
| ArabCover.SetSlot | src/ArabCoverHelper.php:312-315 | `$t[pos][slot] = v` changes only entry pos, as Put does. |
| ArabCover.SetSlotShort | src/ArabCoverHelper.php:312-315 | Writing slot 0 of an entry holding at most one letter leaves exactly [v]. |
| ArabCover.SetFourSlots | src/ArabCoverHelper.php:312-315 | The four writes of one record yield the four entries [v]. |
| ArabCover.SetPairOnEmpty | src/ArabCoverHelper.php:324-327 | Writing slots 0 and 1 of an empty entry leaves the pair. |
| ArabCover.EncodeSlots | src/ArabCoverHelper.php:188-192 | The encoding loop over the filled slots and implode() over the whole buffer, whose slots from j on are still null, return exactly Encode of the codes in the filled slots. |
| ArabCover.IsTrimmed | src/ArabCoverHelper.php:106 | No contract of its own: the six characters trim() strips. TrimStart, TrimEnd and Trim state what is stripped. |
| ArabCover.TrimStart | src/ArabCoverHelper.php:106 | The result is a suffix of the input, everything dropped is a trimmed character, and the result does not start with one. |
| ArabCover.TrimEnd | src/ArabCoverHelper.php:106 | The result is a prefix of the input, everything dropped is a trimmed character, and the result does not end with one. |
| ArabCover.Trim | src/ArabCoverHelper.php:106 | The trimmed input is a contiguous slice of the input; every character before and after the slice is a space, tab, line feed, carriage return, NUL or vertical tab, and the slice neither starts nor ends with one. |
| ArabCover.TrimIdempotent | src/ArabCoverHelper.php:106 | Trimming twice is trimming once. |
| ArabCover.TrimKeepsBmp | src/ArabCoverHelper.php:106 | Trimming input made only of BMP scalar values leaves only BMP scalar values. |
| ArabCover.ShapeKeepsBmp | src/ArabCoverHelper.php:122-184 | Shaping input made only of BMP scalar values writes only BMP scalar values. |
| ArabCover.UpperByte | src/ArabCoverHelper.php:243 | No lower-case ASCII letter is left, and a byte that changes was a lower-case letter and moves down by 32. |
| ArabCover.StrToUpper | src/ArabCoverHelper.php:243 | strtoupper keeps the length and upper-cases each byte on its own. |
| ArabCover.UpperKeyCode | src/ArabCoverHelper.php:241-248 | The key read back from strtoupper(asciiToString(i)) is i - 32 for a lower-case ASCII letter and i itself for every other key below 256. |
| ArabCover.AllRecordsWritten | src/ArabCoverHelper.php:269-302 | After the five runs of pFormList writes, every record is in place. |
| ArabCover.BasicBeforeShort | src/ArabCoverHelper.php:310-317 | During the walk over pFormList, no pfToBasic entry holds more than one letter. |
| ArabCover.BasicBeforeStep | src/ArabCoverHelper.php:310-317 | Visiting offset i fills exactly the four forms of its record with BPAD + i and leaves every other entry as it was. |
| ArabCover.LinkForms | src/ArabCoverHelper.php:311-316 | The four writes for one record take pfToBasic from its state before offset i to its state after. |
| ArabCover.RecordFormsFree | src/ArabCoverHelper.php:312-315 | Before the walk reaches a record, its four form slots are inside pfToBasic and hold at most one letter. |
| ArabCover.WalkStep | src/ArabCoverHelper.php:310-317 | The whole table after offset i is the table before with the record's four form entries set to [BPAD + i]. |
| ArabCover.WalkSlot | src/ArabCoverHelper.php:310-317 | One entry of WalkStep: a form of the record gets [BPAD + i], any other entry keeps its value. |
| ArabCover.WalkSkip | src/ArabCoverHelper.php:311 | An offset without a record changes nothing. |
| ArabCover.AllLigaturesWritten | src/ArabCoverHelper.php:319-382 | After the six runs of extra writes, every pfToBasic entry holds its decomposition. |
| ArabCover.ArabCoverHelper.constructor | src/ArabCoverHelper.php:93-96 | A new helper has all three tables as init() leaves them. |
| ArabCover.ArabCoverHelper.CmUG | src/ArabCoverHelper.php:386-389 | With a valid cmList, cmUG(x) is the offset of x's basic letter from BPAD. |
| ArabCover.ArabCoverHelper.Convert | src/ArabCoverHelper.php:104-193 | convert returns exactly Encode(Shape(Trim(str))). When every input code is a scalar value below 0x10000, the output decodes back to Shape(Trim(str)). |
| ArabCover.ArabCoverHelper.ShapeAll | src/ArabCoverHelper.php:122-185 | The shaping loop fills list[0 .. j-1] with Shape(s), j is its length, and the slots from j on keep the values they had (null in convert). |
| ArabCover.ArabCoverHelper.ShapeStep | src/ArabCoverHelper.php:123-184 | One iteration on the buffer and the loop variables does what Step does to the state they stand for; the slots from the new j on are unchanged. |
| ArabCover.ArabCoverHelper.ShapeLetter | src/ArabCoverHelper.php:126-164 | The same for a letter with a record: ligature, correction of the slot before, tentative form; the slots from the new j on are unchanged. |
| ArabCover.ArabCoverHelper.Init | src/ArabCoverHelper.php:199-383 | init() leaves cmList, pFormList and pfToBasic equal to KeyBasic, ShapingEntry and Decomposition everywhere. |
| ArabCover.ArabCoverHelper.InitKeys | src/ArabCoverHelper.php:201-253 | cmList after init(): a to z give their letters, upper case inherits lower case, the diacritic keys and the three punctuation keys give theirs, and every other slot is 0. |
| ArabCover.ArabCoverHelper.SetLetterKeys | src/ArabCoverHelper.php:206-239 | After the letter and diacritic writes, cmList is what the copy loop starts from: upper-case and punctuation keys still 0. |
| ArabCover.ArabCoverHelper.InitForms | src/ArabCoverHelper.php:265-302 | pFormList after init() holds exactly the records of ShapingEntry, and None elsewhere. |
| ArabCover.ArabCoverHelper.PutRecordsA | src/ArabCoverHelper.php:269-276 | The first run of record writes. |
| ArabCover.ArabCoverHelper.PutRecordsB | src/ArabCoverHelper.php:277-283 | The second run of record writes: the InBeg letters d, r, z and SZEE, and s, SHEE, GHEE. |
| ArabCover.ArabCoverHelper.PutRecordsC | src/ArabCoverHelper.php:284-291 | The third run of record writes. |
| ArabCover.ArabCoverHelper.PutRecordsD | src/ArabCoverHelper.php:292-297 | The fourth run of record writes. |
| ArabCover.ArabCoverHelper.PutRecordsE | src/ArabCoverHelper.php:299-302 | The records addressed by code rather than by key: HAMZA and the three diacritic letters. |
| ArabCover.ArabCoverHelper.InitDecompositions | src/ArabCoverHelper.php:304-382 | pfToBasic after init() holds Decomposition everywhere: [b] for each form of b, [0x06BE] for 0xFEEB and 0xFEEC, [LAM, ALEF] for both ligatures, [HAMZA, vowel] for the HAMZA ligatures, and [] elsewhere. |
| ArabCover.ArabCoverHelper.LinkRecordForms | src/ArabCoverHelper.php:310-317 | One pass of the walk over pFormList. |
| ArabCover.ArabCoverHelper.PutHehAndLamAlef | src/ArabCoverHelper.php:319-327 | The extra HEH forms map to [0x06BE], and both LAM+ALEF ligatures to [LAM, ALEF]. |
| ArabCover.ArabCoverHelper.PutHamzaAlefAndAe | src/ArabCoverHelper.php:330-340 | HAMZA with ALEF and with AE. |
| ArabCover.ArabCoverHelper.PutHamzaE | src/ArabCoverHelper.php:342-350 | HAMZA with E, four forms including 0xFBD1. |
| ArabCover.ArabCoverHelper.PutHamzaI | src/ArabCoverHelper.php:352-358 | HAMZA with ALEF MAKSURA. |
| ArabCover.ArabCoverHelper.PutHamzaWawAndOe | src/ArabCoverHelper.php:360-370 | HAMZA with WAW and with OE. |
| ArabCover.ArabCoverHelper.PutHamzaUAndYu | src/ArabCoverHelper.php:372-382 | HAMZA with U and with UE. |

## Left out

- `getAsciiCodeAt` and `mb_strlen` are not modelled. They call mbstring,
  `mb_convert_encoding` and `unpack`, which are outside the model. `Convert`
  takes its input already split into code points.
- In `init()`'s copy loop, the key is read back from
  `strtoupper(asciiToString($i))` with the RFC 3629 decoder `Utf8.Decode`
  standing in for `getAsciiCodeAt`.
- The `is_string` check in `convert()` cannot fail on a typed input.
- `cmApiNvList` is written but never read, so it is not modelled.
- The unused constants CPAD, CMAX, RCQUOTE, RCODQUOTE and RCCDQUOTE are not
  modelled.
- Utf8.AsciiToString is modelled as written for every code, with chr()
  taken modulo 256. It has no four-byte form: from 0x10000 to 0x1FFFF the
  lead byte is 0xF0 to 0xFF, and from 0x20000 on chr() wraps it; in both
  cases the output is not UTF-8. Surrogates (0xD800 to 0xDFFF) are encoded
  too, and are not UTF-8 either. The round trips are therefore proved only
  for scalar values below 0x10000.
- ArabCover.ArabCoverHelper.Convert: the decoding round trip is stated only
  for inputs of scalar values below 0x10000, for the same reason.
- `strtoupper` is modelled as ASCII-only upper-casing. PHP 8.2 and later do
  this in every locale, and earlier versions do it in the C locale.
  Locale-dependent upper-casing of Latin-1 bytes is not modelled.
- `cmList`, `pFormList` and `pfToBasic` are modelled as lists addressed by
  index, filled from 0. `init()` writes every index of each of them before
  any other write, so they are never sparse. (`cmApiNvList`, which is
  sparse, is not modelled; see above.)
- ArabCover.ArabCoverHelper.Init requires empty tables. It is only called
  from the constructor.
- `convert()`'s loop body is split into ShapeStep and ShapeLetter, and
  `init()` into one method per run of writes. Several of these write to a
  local copy of a table and assign the copy back at the end. The order of
  the writes within each run is kept.
- The encoding loop and `implode` are merged into `EncodeSlots`. It
  concatenates the encodings of the filled slots, and a null slot adds
  nothing. The buffer slots are not overwritten with strings.
- Bidirectional reordering and font rendering are outside the library.
