# MGRS forward encoding

A Dafny model of the encoding half of a GEOTRANS-style Military Grid Reference System (MGRS) library. The encoder turns a geodetic position into an MGRS reference string such as `31UDQ4825111932`. A reference has these parts:

- a two-digit UTM zone, absent in the polar regions;
- three letters: the latitude band (or polar quadrant), the 100 km column and the 100 km row;
- two digit groups of `precision` digits each, giving the easting and the northing inside the 100 km square.

The model covers the following:

- `mgrs.h`:
  - `Get_Grid_Values`: the column range and row offset of a zone.
  - `Get_Latitude_Letter`: the band letter, with the 20-row latitude band table.
  - `UTM_To_MGRS`: the zone 31 re-projection, the equator fix-up, the row letter with its `while` loop and the column letter with the 31V nudge.
  - `Convert_UPS_To_MGRS`: the four checks, the UPS constant table and the column skip cascades.
  - `Make_MGRS_String`: fills the caller's character buffer.
  - `Convert_Geodetic_To_MGRS`: the input checks, the UTM/UPS routing and the error-flag translation.
- `ups.h`:
  - `Set_UPS_Parameters`: checks the ellipsoid and stores it only when both checks pass.
  - `Convert_Geodetic_To_UPS`: the latitude/longitude checks, the hemisphere and origin choice, and the hand-off to the polar projection.

Modelling choices:

- **Module layout.** One module per concern:
  - `Numeric`: the truncating `(long)` cast, `pow`, `fmod`;
  - `Letters`: letter indices and the I/O skip;
  - `Errors`: the three error-flag namespaces and their translations;
  - `LatitudeBands`;
  - `MgrsFormat`: the string writer;
  - `UtmGrid`;
  - `UpsGrid`;
  - `Ups`: the UPS projection state;
  - `MgrsConvert`: the top-level conversion;
  - `Ellipsoids`: the WGS 84 default.
- **Units and numbers.**
  - Angles are real numbers of degrees.
  - Eastings and northings are real metres.
  - A letter is an index 0..25. The alphabet the formatter reads from is a C string literal, so it has a 27th entry, index 26, its terminating NUL.
  - An error mask is the set of its flags, and `|=` is set union.
- **State and buffers.**
  - The character buffer the source writes into is an `array<char>`.
  - The UPS module's state (`UPS_a`, `UPS_f`, `UPS_Origin_Latitude`) is the class `Ups.UpsProjection`.
  - The MGRS module's ellipsoid globals (`MGRS_a`, `MGRS_f`, `MGRS_Ellipsoid_Code`) are an `Ellipsoid` value passed as a parameter.
- **Methods and specifications.** Each method is proved against a pure function that describes its whole effect:
  - `UtmToMgrs` against `UtmToMgrsResult`;
  - `UpsToMgrs` against `UpsToMgrsResult`;
  - `ConvertGeodeticToMgrs` against `GeodeticToMgrsResult`;
  - `MakeMgrsString` against `MgrsText`.

  The lemmas state the properties of these functions.

Behaviours of the code to note:

- **Ellipsoid codes and row offset.** In `Get_Grid_Values`, the four older ellipsoid codes (CC, CD, BR, BN) give row offsets of 1,500,000 and 1,000,000. Every other code gives 500,000 and 0 (mgrs.h:200-236).
- **Zone 0.** `Make_MGRS_String` with zone 0 copies two blanks and then writes the letters from position 0 over them. So a UPS reference begins directly with its three letters, and its length is `3 + 2 * precision` (mgrs.h:153-160).
- **Eastern edges.** A UTM easting of exactly 900 km, which the range `[MIN_EASTING, MAX_EASTING]` admits (mgrs.h:41-42), counts one column past the zone's eight: the column letter becomes I in sets 1 and 4, S in sets 2 and 5, and index 26 in sets 3 and 6 (mgrs.h:353-355). A UPS easting of exactly 4000 km, and a UPS row index of 24, also reach index 26 (mgrs.h:427-457). Index 26 is the alphabet's NUL, so the C string written ends early, after the first or second letter. The model keeps these outcomes.
- **Column I in UPS.** West of 2000 km the UPS column just west of the false easting gets the letter I (mgrs.h:435-445), and columns further west get B..H.

## Model

| member | source | states |
|---|---|---|
| Numeric.Trunc | mgrs.h:342 | the C `(long)` cast truncates toward zero: for x ≥ 0 the result is the floor of x, for x ≤ 0 the ceiling |
| Numeric.TruncOfSmallNegative | mgrs.h:257 | on (-1, 0) truncation gives 0, not -1; this is why latitudes in (-80.5, -80) still land in band C |
| Numeric.TruncMonotone | mgrs.h:257 | truncation never decreases as its argument grows |
| Numeric.RemHundredKm | mgrs.h:162 | `fmod(x, 100000)` for x ≥ 0 lies in [0, 100000) and leaves a whole number of 100 km squares behind |
| Letters.SkipIO | mgrs.h:342-347 | the two-step row skip maps indices 0..23 to letters that are never I or O, raising an index by at most two; index 24 goes to 26, the alphabet's NUL |
| Letters.SkipIOStrictlyIncreasing | mgrs.h:429-433 | the skip keeps distinct row indices distinct and in order |
| Letters.SkipIOIsGridAlphabet | mgrs.h:342-347 | the k-th row index becomes the k-th letter of the 24-letter alphabet without I and O |
| Letters.GridAlphabetComplete | mgrs.h:150 | that 24-letter alphabet holds exactly the letters other than I and O |
| Letters.LetterChar | mgrs.h:150-160 | the printed character of an alphabet index is 'A'..'Z' for a letter and NUL exactly for index 26; it is 'I' or 'O' exactly for those two letter indices |
| Letters.LetterCharIsAlphabet | mgrs.h:150 | that character is the entry of the source's 27-entry alphabet table at the index |
| Errors.FlagIf | mgrs.h:490 | one conditional flag update of the error mask adds e exactly when its condition holds, and nothing else |
| Errors.FromUtmConversion | mgrs.h:536-545 | MGRS_LAT, LON, ZONE, EASTING and NORTHING are each reported if and only if UTM_LAT, LON, ZONE_OVERRIDE, EASTING and NORTHING respectively are raised; no other flag is reported, and the result is empty exactly when none of the five is raised |
| Errors.FromUtmSetup | mgrs.h:550-555 | MGRS_A, INV_F and ZONE are each reported if and only if UTM_A, INV_F and ZONE_OVERRIDE respectively are raised, and no other flag |
| Errors.FromUpsSetup | mgrs.h:520-523 | MGRS_A and MGRS_INV_F are each reported if and only if UPS_A and UPS_INV_F respectively are raised, and no other flag |
| Errors.FromUpsConversion | mgrs.h:512-515 | MGRS_LAT and MGRS_LON are each reported if and only if UPS_LAT and UPS_LON respectively are raised, and no other flag |
| LatitudeBands.BandIndex | mgrs.h:257 | the truncated band index of any latitude in (-80.5, 72) is a row of the 20-row table |
| LatitudeBands.LatitudeLetter | mgrs.h:239-264 | a letter exists exactly for latitudes in (-80.5, 84.5); [72, 84.5) gives X; every letter is a grid letter between C and X; otherwise MGRS_LAT_ERROR |
| LatitudeBands.BandTableShape | mgrs.h:89-109 | the table partitions [-80.5, 84.5) into contiguous rows with 8-degree inner edges; its letters strictly increase from C to X and are never I or O |
| LatitudeBands.LatitudeLetterIsTableRow | mgrs.h:253-261 | the classifier returns row i's letter if and only if the latitude lies between that row's edges, with inner edges moved south by the 1e-12 nudge |
| LatitudeBands.SouthernmostBandIsC | mgrs.h:253-261 | latitudes in (-80.5, -80) get band C, because truncation toward zero maps their negative index to row 0 |
| LatitudeBands.LatitudeLetterMonotone | mgrs.h:253-261 | the band letter never decreases as the latitude increases |
| MgrsFormat.DigitChar | mgrs.h:166 | a digit 0..9 is rendered as a decimal digit character |
| MgrsFormat.DigitValue | mgrs.h:166 | a decimal digit character reads back as 0..9 |
| MgrsFormat.Decimal | mgrs.h:166 | the significant decimal digits of a natural number, none for zero: only digits, with no leading zero; the padding of ZeroPadded supplies any zeros |
| MgrsFormat.Zeros | mgrs.h:166 | the padding gives k characters, all '0' |
| MgrsFormat.ZeroPadded | mgrs.h:166 | `%*.*ld` gives only digits, exactly w of them when the value is below 10^w |
| MgrsFormat.DecimalRoundTrip | mgrs.h:166 | reading back the decimal rendering gives the number |
| MgrsFormat.DecimalLength | mgrs.h:166 | a number below 10^w has at most w decimal digits |
| MgrsFormat.LeadingZerosValue | mgrs.h:166 | leading zeros do not change the value read back |
| MgrsFormat.ZeroPaddedRoundTrip | mgrs.h:166 | a value below 10^w is written as exactly w digits that read back as that value |
| MgrsFormat.Divisor | mgrs.h:161 | `pow(10, 5 - precision)` times 10^precision is 100000 |
| MgrsFormat.DigitGroup | mgrs.h:162-171 | a digit group is below 10^precision, so it always fits its `precision` digits |
| MgrsFormat.DigitGroupIsTruncatedOffset | mgrs.h:162-171 | the clamp at 99999.5 never changes a group: the group is floor((x mod 100000) / 10^(5 - precision)) |
| MgrsFormat.DigitGroupOfZero | mgrs.h:162-171 | a value on a 100 km line has an all-zero group |
| MgrsFormat.ZoneText | mgrs.h:153-157 | zone 0 contributes no characters (its blanks are overwritten); a zone 1..99 gives two digits that read back as the zone |
| MgrsFormat.LetterText | mgrs.h:159-160 | the three alphabet indices are printed in order as their alphabet entries |
| MgrsFormat.MgrsText | mgrs.h:127-173 | the text has 5 + 2·precision characters for zones 1..99 and 3 + 2·precision for zone 0 |
| MgrsFormat.MgrsTextFields | mgrs.h:153-171 | decoding the text recovers what was encoded: the two-digit zone (none for zone 0), the three letters, and both digit groups, each exactly `precision` digits |
| MgrsFormat.MgrsTextHasNoIO | mgrs.h:153-171 | an I or an O can appear only at one of the three letter positions, and only where that letter is I or O: the zone and the digit groups are all digits |
| MgrsFormat.Written | mgrs.h:166-171 | writing a text leaves it at the front of the buffer, followed by the NUL that `sprintf` writes, and the buffer keeps its length |
| MgrsFormat.Applied | mgrs.h:357 | the buffer after a conversion: written when a reference is produced, untouched otherwise |
| MgrsFormat.Put | mgrs.h:166 | one `sprintf` at an offset: the prefix is kept, the string and a NUL are written, and the rest is kept |
| MgrsFormat.PutsCompose | mgrs.h:166-171 | the two digit-group `sprintf`s after the zone and letters leave exactly the whole text plus a NUL |
| MgrsFormat.PutString | mgrs.h:155 | writes a string and its NUL at an offset, as specified by Put |
| MgrsFormat.PutLetters | mgrs.h:159-160 | the letter loop writes the three alphabet characters at the offset and nothing else |
| MgrsFormat.PutDigitGroup | mgrs.h:161-171 | writes one zero-padded digit group and its NUL, and reports `precision` characters written |
| MgrsFormat.MakeMgrsString | mgrs.h:127-173 | Make_MGRS_String returns no error and leaves the buffer as MgrsText followed by a NUL, the rest unchanged |
| UtmGrid.SetNumber | mgrs.h:195-198 | the set number is 1..6 and agrees with the zone mod 6 (0 becomes 6) |
| UtmGrid.GetGridValues | mgrs.h:175-237 | sets 1/4, 2/5, 3/6 give the column ranges A..H, J..R, S..Z as blocks of the 24-letter alphabet; the offset is 500,000 for even zones plus 1,000,000 for the four old ellipsoid codes |
| UtmGrid.GridValuesPeriodic | mgrs.h:195-198 | zones six apart get identical grid values |
| UtmGrid.FoldedNorthing | mgrs.h:334-337 | the folded northing lies in [0, 2,000,000) |
| UtmGrid.UtmRowIndex | mgrs.h:338-342 | after adding the offset and folding once more, the row index is 0..19 |
| UtmGrid.UtmRowLetter | mgrs.h:342-347 | the UTM row letter is a grid letter in A..V |
| UtmGrid.UtmRowLetterCycle | mgrs.h:334-347 | the row letter is the (floor(northing/100000) + rows) mod 20 letter of the 24-letter alphabet: rows cycle every 2000 km, shifted by the offset |
| UtmGrid.UtmRowLetterPeriodic | mgrs.h:334-337 | adding 2000 km to the northing does not change the row letter |
| UtmGrid.UtmColumnLetter | mgrs.h:353-355 | for eastings in [100 km, 900 km] the column index stays within the alphabet, at most nine places past the set's first letter, and is never O; it is I exactly for the A set at 900 km and the NUL exactly for the S set at 900 km |
| UtmGrid.UtmColumnAtEastEdge | mgrs.h:353-355 | at exactly 900 km the column is I in sets 1 and 4, S in sets 2 and 5, and the alphabet's NUL in sets 3 and 6 |
| UtmGrid.UtmColumnLetterInSet | mgrs.h:353-355 | for an easting in [100 km, 900 km) the column letter is the easting's column within the zone's block; it lies in [low, high] and is never I or O |
| UtmGrid.GridEasting | mgrs.h:349-351 | the easting is lowered by exactly one metre if and only if the band is V, the zone is 31 and the easting is 500,000 |
| UtmGrid.EquatorFix | mgrs.h:320-324 | the fix-up never raises the northing |
| UtmGrid.Zone31Reprojects | mgrs.h:299 | the re-projection guard: zone 31, latitude in [56, 64) and either longitude at least 3 or easting at least 500 km |
| UtmGrid.UtmLetters | mgrs.h:326-355 | the first letter is the band, the row letter a grid letter; the column is within the alphabet and never O, a grid letter below 900 km, and I exactly at 900 km in sets 1 and 4 |
| UtmGrid.UtmLettering | mgrs.h:326-358 | a reference is written exactly when no error is reported, and it has 5 + 2·precision characters |
| UtmGrid.UtmToMgrsResult | mgrs.h:266-360 | a written reference has no error and 5 + 2·precision characters; the only errors are LAT, LON, ZONE, EASTING and NORTHING |
| UtmGrid.UtmReprojectionFailure | mgrs.h:299-317 | a failed re-projection at the 31V edge writes nothing, and each of the five flags is reported if and only if its UTM flag was raised |
| UtmGrid.UtmBandFailure | mgrs.h:328-330 | outside the bands UTM_To_MGRS reports exactly MGRS_LAT_ERROR and writes nothing |
| UtmGrid.UtmZone31Reroutes | mgrs.h:299-302 | when the zone 31 guard fires and the re-projection succeeds, the reference starts with zone "32" |
| UtmGrid.UtmNudgeOnlyJustSouthOf56 | mgrs.h:349-351 | the one-metre nudge can only apply to latitudes in [56 - 8e-12, 56), as elsewhere band V in zone 31 is re-projected |
| UtmGrid.UtmEquatorFix | mgrs.h:320-324 | a point at or south of the equator with northing 10,000 km is written in band N with an all-zero northing group |
| UtmGrid.EquatorLettering | mgrs.h:320-357 | the letter and formatting stages give band N and a zero northing group for the fixed-up point |
| UtmGrid.UtmLetteringText | mgrs.h:326-357 | the text starts with two digits reading as the zone; it never holds O, and holds I only as the column letter, exactly at 900 km in sets 1 and 4 |
| UtmGrid.UtmTextZoneAndLetters | mgrs.h:266-360 | a UTM reference has 5 + 2·precision characters, starts with the zone it is written in (32 after re-projection), never holds O, and holds I only as the column letter |
| UtmGrid.FoldNorthing | mgrs.h:334-337 | the `while` loop subtracting 2,000,000 ends with FoldedNorthing(northing) |
| UtmGrid.LettersOf | mgrs.h:332-355 | the step-by-step letter computation yields UtmLetters and the nudged GridEasting |
| UtmGrid.UtmToMgrs | mgrs.h:266-360 | UTM_To_MGRS returns UtmToMgrsResult's errors and leaves the buffer as Applied to its text |
| UpsGrid.UpsInputErrors | mgrs.h:390-397 | hemisphere, easting in [0, 4e6], northing in [0, 4e6] and precision 0..5 each raise their own flag if and only if violated |
| UpsGrid.UpsInputErrorsTogether | mgrs.h:390-397 | all four flags can be raised by one call |
| UpsGrid.UpsFirstLetter | mgrs.h:401-418 | north gives Z exactly from easting 2,000,000 on and Y below it; south gives B and A the same way |
| UpsGrid.UpsTableIndex | mgrs.h:404-422 | the index computed (`letters[0] - 22` in the north, `letters[0]` in the south) lies in the table and names the row of the first letter |
| UpsGrid.UpsTableRow | mgrs.h:408-422 | the table row read (index `letter - 22` in the north, `letter` in the south) is the row whose letter is the first letter |
| UpsGrid.UpsRowIndex | mgrs.h:425-427 | over the accepted northings the row index ranges from -13 to 32, wider than the 25 rows the alphabet can name |
| UpsGrid.UpsColumnIndex | mgrs.h:435-437 | the column offset is -8..11 west of 2000 km and 0..20 from 2000 km east, 20 exactly at 4000 km |
| UpsGrid.WestCascade | mgrs.h:439-445 | the western skips raise a letter by at most five and leave A..L alone |
| UpsGrid.EastCascade | mgrs.h:447-456 | the eastern skips raise a letter by at most six and leave A..C alone |
| UpsGrid.WestCascadeColumns | mgrs.h:439-445 | west of 2000 km, column c from J is the c-th of J K L P Q R S T U X Y Z: never I, M, N, O, V or W, since each threshold is tested on the shifted value |
| UpsGrid.EastCascadeColumns | mgrs.h:447-456 | from 2000 km east, column c from A is the c-th of A B C F G H J K L P..Z: never D, E, I, M, N or O |
| UpsGrid.WestEastColumnsAreGridLetters | mgrs.h:435-457 | both column alphabets hold grid letters only |
| UpsGrid.UpsColumnLetter | mgrs.h:435-457 | the column: the table row's first column letter plus the offset, through the western or eastern skip cascade |
| UpsGrid.UpsColumnLetterRange | mgrs.h:435-457 | up to 4e6 the column stays within the alphabet and is never O; it is I exactly west of 2e6 at offset -1 and the NUL exactly at 4e6; otherwise a non-negative offset gives the matching western or eastern column letter |
| UpsGrid.UpsLetters | mgrs.h:400-457 | the first letter is the quadrant's grid letter; the column is never O, is I exactly at western offset -1, the NUL exactly at 4e6, and a grid letter for other non-negative offsets; the row letter is never I or O and is a grid letter exactly for row indices up to 23 |
| UpsGrid.UpsToMgrsResult | mgrs.h:362-462 | the errors are exactly the four input checks; a reference is written if and only if there is none, and it has 3 + 2·precision characters (no zone) |
| UpsGrid.UpsTextFields | mgrs.h:400-459 | the reference starts with Y/Z in the north and A/B in the south, and its digit groups decode to the easting's and the northing's groups |
| UpsGrid.UpsColumnCanBeI | mgrs.h:435-445 | inputs the checks accept (north, easting 650 km) give the column letter I |
| UpsGrid.UpsTextIOnlyAsColumn | mgrs.h:425-459 | a UPS reference never holds O, and holds I if and only if its second character is the column I of western offset -1 |
| UpsGrid.UpsEdgesReachNul | mgrs.h:427-459 | accepted inputs at an easting of 4e6, or at row index 24, write the alphabet's NUL as the second or third character |
| UpsGrid.UpsLettersOf | mgrs.h:400-457 | the step-by-step letter computation yields UpsLetters |
| UpsGrid.UpsToMgrs | mgrs.h:362-462 | Convert_UPS_To_MGRS returns UpsToMgrsResult's errors and leaves the buffer as Applied to its text |
| Ups.InvFRange | ups.h:48 | 1/f lies in [250, 350] exactly when f lies in [1/350, 1/250] |
| Ups.UpsParameterErrors | ups.h:44-51 | UPS_A_ERROR is raised if and only if a ≤ 0, and UPS_INV_F_ERROR if and only if 1/f is outside [250, 350] |
| Ups.UpsParameterErrorsTogether | ups.h:44-51 | both flags can be raised by one call |
| Ups.UpsLatLonErrors | ups.h:83-94 | UPS_LAT_ERROR is raised if and only if the latitude is outside [-90, -79.5] ∪ [83.5, 90]; UPS_LON_ERROR if and only if the longitude is outside [-180, 360] |
| Ups.UpsLatLonErrorsTogether | ups.h:83-94 | both flags can be raised by one call |
| Ups.UpsHemisphere | ups.h:98-107 | the hemisphere is 'S' exactly for negative latitudes and 'N' otherwise |
| Ups.PolarOrigin | ups.h:98-107 | the origin latitude is ±81.114528, negative exactly when the hemisphere is 'S' |
| Ups.UpsProjection.constructor | ups.h:22-26 | the initial state is WGS 84 with the northern origin |
| Ups.UpsProjection.SetParameters | ups.h:29-58 | returns UpsParameterErrors; the new a and f are stored only when no flag is raised, otherwise the old ones are kept; the origin latitude is unchanged |
| Ups.UpsProjection.GeodeticToUps | ups.h:60-127 | returns UpsLatLonErrors; on error no position is written and the origin latitude is unchanged; on success the origin follows the hemisphere, and the position is the polar projection with the stored ellipsoid |
| MgrsConvert.GeodeticInputErrors | mgrs.h:488-497 | latitude outside ±90, longitude outside [-180, 360] and precision outside 0..5 each raise their own flag if and only if violated |
| MgrsConvert.GeodeticInputErrorsTogether | mgrs.h:488-497 | all three flags can be raised by one call |
| MgrsConvert.RoutesToUps | mgrs.h:500 | the UPS path is taken for latitudes below -80 or above 84 degrees |
| MgrsConvert.UtmRoutedLatitudesHaveBands | mgrs.h:500-534 | every valid latitude sent down the UTM path has a latitude band |
| MgrsConvert.UpsRoutedLatitudesPassUpsChecks | mgrs.h:500 | every valid position routed to UPS (below -80 or above 84) passes the latitude and longitude checks of Convert_Geodetic_To_UPS |
| MgrsConvert.GeodeticToMgrsResult | mgrs.h:464-560 | a written reference comes with no error |
| MgrsConvert.InputErrorsStopEarly | mgrs.h:498 | with a bad input the outcome is the input flags alone and no reference, whatever the projections |
| MgrsConvert.UpsPathDefined | mgrs.h:500-508 | where the UPS path is defined: when the projected point passes the range checks, its row index reads inside the alphabet |
| MgrsConvert.UpsPathOutcome | mgrs.h:500-524 | on the UPS path a rejected ellipsoid gives its translated flags and nothing written; otherwise the flags are the easting/northing range checks on the projected point; a reference is written exactly when there is no flag, has 3 + 2·precision characters and starts with A/B in the south and Y/Z in the north |
| MgrsConvert.UtmPathOutcome | mgrs.h:526-557 | on the UTM path a rejected set-up or failed projection gives its translated flags and nothing written; otherwise a reference is written unless the zone 31 re-projection fails; it has 5 + 2·precision characters and starts with a zone 1..60 |
| MgrsConvert.GeodeticTextIOnlyAsColumn | mgrs.h:464-560 | a reference Convert_Geodetic_To_MGRS writes never holds O, and holds I only as its column letter |
| MgrsConvert.ConvertGeodeticToMgrs | mgrs.h:464-560 | returns GeodeticToMgrsResult's errors and leaves the buffer as Applied to its text; the UPS state changes exactly on the UPS path with an accepted ellipsoid, to that ellipsoid and the hemisphere's origin |

## Left out

- The Transverse Mercator and UTM projections (`tranmerc.h`, `utm.h`) are not part of this model. `Convert_Geodetic_To_UTM` and `Set_UTM_Parameters` are function parameters (`UtmProjection`, `UtmSetup`). The encoder relies on one guarantee from them, stated as `ProjectsIntoGrid`: a projection without error yields a zone in 1..60 (the override when one is set), an easting in [100 km, 900 km] and a northing in [0, 10,000 km].
- The polar stereographic projection (`polarst.h`) is not part of this model. It is a function parameter (`PolarProjection`), and its error code is ignored, as in `ups.h`. Projected points outside the UPS range checks are reported as errors, as in the source. `UpsPathDefined` asks only that a point passing those checks have a row index from 0 to 24; any other row index reads outside the alphabet array, which is undefined behaviour in C.
- Floating-point arithmetic is not modelled. Latitudes and longitudes are exact degrees rather than radians, so `DEG_TO_RAD`/`RAD_TO_DEG` rounding is not captured, and the 1e-12 band nudge is exact.
- libc is replaced by definitions: `sprintf` by digit rendering, `strcmp` by string equality, `pow` by `Pow10`, `fmod` by `RemHundredKm`.
- UtmGrid.UtmToMgrs: requires `UtmInputs` (easting in [100 km, 900 km], northing in [0, 10,000 km], zone 1..60, precision 0..5). The source has no checks of its own; eastings outside that range can give column indices outside the alphabet array (below 100 km in sets 1 and 4, index -1).
- UtmGrid.UtmToMgrs: the zone 31 re-projection assumes that `Set_UTM_Parameters(a, f, 32)` succeeds. Its error code is not inspected in the source (mgrs.h:301), and the model does not represent UTM set-up state left behind by that call.
- UtmGrid.UtmToMgrs: the `Hemisphere` argument and the re-projected hemisphere are not used by the source, so they are not part of the result.
- UpsGrid.UpsToMgrs: when the input checks pass, it requires `UpsInDomain` (a row index from 0 to 24). The checks alone admit northings far from the false northing, whose row indices are below 0 or above 24 and read outside the alphabet array. That is undefined behaviour in C and is not modelled. Index 26 itself, reached by row index 24 and by an easting of exactly 4e6, is the alphabet's NUL and is modelled.
- `ltr2_high_value` and `ltr3_high_value` of the UPS constant table are kept in `UpsConstant` but nothing here reads them. They serve the MGRS-to-UPS direction, which is not part of this model.
- The caller's buffer must be longer than the reference (`5 + 2 * precision < mgrs.Length`). The C code does not check this.
- The local `letters[]` arrays are sequences. They are never shared, so nothing is lost.
- The zone override left in force in `utm.h` after the zone 31 re-projection is not modelled.
