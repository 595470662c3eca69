# Ame-Artificielle core in Dafny

This project models the four rule-carrying modules of Ame-Artificielle, an "artificial soul" engine:

- **Numerology** (`numerology.dfy`):
  - name normalisation and the Pythagorean letter table (A..I, J..R to 1..9, S..Z to 1..8);
  - vowel, consonant and full name totals;
  - `reduce_number`, the repeated digit sum that stops at a master number (11, 22, 33 by default) or below 10;
  - the inversion d |-> 10 - d with 0 fixed;
  - the life-path and birth-day numbers of a date;
  - the five facets and their assembly into a signature.
- **Digit ontology store** (`ontology.dfy`), the class `PiOntology`:
  - raw JSON entries are filtered and normalised, then grouped by digit in store order;
  - a patch layer is kept apart from the entries;
  - per-digit queries can run through the inversion;
  - the merge policies `first`, `last` and `concat` fold over the entries and then the patch;
  - the "missing or incomplete" test, excerpts, and sorted summaries;
  - the lenient repair of concatenated JSON arrays.
- **Risk gate** (`ethics.dfy`):
  - a two-tier keyword scorer that yields 0.95, 0.75 or 0.10;
  - a compassion adjustment clamped to [0, 1];
  - a three-way decision by threshold: pass, soften with a fixed preamble, or replace with a fixed refusal.
- **Engine bookkeeping** (`engine.dfy`):
  - axis and slider clamping;
  - the profile (`SoulState`) built from an identity;
  - the bounded memory;
  - the state commit and trace of `react`.

Supporting modules:

| file | what it models |
|---|---|
| `wrappers.dfy` | `Option`/`Result`: Python's `None` and raised exceptions |
| `text.dfy` | `str.isspace`, `strip`, ASCII `upper`/`lower`, substring `in`, string order, `re.sub(r"\s+", " ", s)` |
| `ordered_dict.dfy` | insertion-ordered `dict` as a sequence of pairs: `get`, `d[k] = v`, update |
| `py_slice.dfy` | `s[:n]` and `s[n:]`, with negative and out-of-range bounds |
| `int_set.dfy` | `sorted` on a set of ints |

A Python `dict` whose order matters is an ordered association list:
- analyses and patches, because `concat`, the first matching key of `get_tradition_text` and the summaries all depend on that order;
- trait vectors and sliders.

The signature, whose order nothing reads, is a Dafny `map`.

## Model

| member | source | states |
|---|---|---|
| `Numerology.NormalizeName` | src/numerology.py:45-53 | the result holds only `A`..`Z` and is no longer than the name |
| `Numerology.NormalizeNameAppend` | src/numerology.py:45-53 | normalisation works character by character: it distributes over concatenation |
| `Numerology.NormalizeNameFixesUpper` | src/numerology.py:45-53 | a string of capitals only is its own normal form |
| `Numerology.NormalizeNameIdempotent` | src/numerology.py:45-53 | normalising a normalised name changes nothing |
| `Numerology.NormalizeNameExample` | src/numerology.py:45-53 | "O'Connor" becomes "OCONNOR" |
| `Numerology.InvertDigit` | src/numerology.py:60-69 | succeeds exactly on 0..9; 0 stays 0, otherwise result + d = 10; anything else (10, -1, ...) is an `InvertOutOfRange` error |
| `Numerology.InvertDigitInvolution` | src/numerology.py:60-69 | inverting twice gives back every digit 0..9 |
| `Numerology.DigitsRoundTrip` | src/numerology.py:72-73 | the digits that `str(n)` spells read back as `n` |
| `Numerology.SumDigitsOfDigits` | src/numerology.py:72-73 | the digit sum is the sum over the characters of `str(n)` |
| `Numerology.SumDigitsFacts` | src/numerology.py:72-73 | the digit sum is at most `n`, strictly less from two digits on, and at least 1 for `n >= 1` |
| `Numerology.SumDigitsResidue` | src/numerology.py:72-73 | the digit sum keeps the residue mod 9 |
| `Numerology.Reduce` | src/numerology.py:92-100 | the reduced value is at least 1 and is a master number or at most 9 (termination on the value of `x`) |
| `Numerology.ReduceNumber` | src/numerology.py:76-100 | 0 gives 0 with `allow_zero` and `ZeroNotAllowed` without; any other `n` is reduced from `abs(n)` and the result is 1..9 or a master number |
| `Numerology.ReduceResidue` | src/numerology.py:94-100 | reduction keeps the residue mod 9 |
| `Numerology.ReduceIsDigitalRoot` | src/numerology.py:94-100 | without master numbers the result is the digital root `1 + (x - 1) mod 9` |
| `Numerology.ReduceIdempotent` | src/numerology.py:94-100 | reducing a reduced value changes nothing |
| `Numerology.ReduceExamples` | src/numerology.py:92-100 | 31 -> 4, 11 -> 11, and 29 -> 11 with masters (11, 22, 33) but 29 -> 2 with none: the master check comes first |
| `Numerology.ReduceExample999` | src/numerology.py:94-100 | 999 -> 27 -> 9 |
| `Numerology.PythagoreanMapShape` | src/numerology.py:108-112 | the table holds exactly the 26 capitals, and the letter at alphabet position i has value (i mod 9) + 1 |
| `Numerology.LetterValue` | src/numerology.py:117-121 | succeeds exactly when the upper-cased character is `A`..`Z`, with value 1..9 given by the table; otherwise an `UnsupportedCharacter` error carrying the upper-cased character |
| `Numerology.LetterValueBoundaries` | src/numerology.py:108-121 | A=1, I=9, J=1, R=9, S=1, Z=8, lower case maps like upper case, '!' is rejected |
| `Numerology.LetterValueThirdRun` | src/numerology.py:111 | the letters S..Z never exceed 8 |
| `Numerology.ValueIsLetterValue` | src/numerology.py:108-121 | the closed form used in totals is the table's value of every capital |
| `Numerology.ClassTotal` | src/numerology.py:124-139 | a total is non-negative, and 0 exactly when no letter of the class occurs |
| `Numerology.ClassTotalSplit` | src/numerology.py:124-139 | the full total of a normalised string is its vowel total plus its consonant total |
| `Numerology.NameTotalsPartition` | src/numerology.py:124-139 | `name_total` = vowels + consonants (vowels being A, E, I, O, U, Y), and it is 0 exactly for a name with no letter |
| `Numerology.NameTotalsExample` | src/numerology.py:124-139 | "ABC" totals 6, with vowels 1 and consonants 5 |
| `Numerology.PadDigits` | src/numerology.py:174-175 | zero-padding to a width leaves the digit sum unchanged |
| `Numerology.LifePathTotal` | src/numerology.py:174-175 | the life-path total of a valid date is at least 1 |
| `Numerology.LifePathTotalIsDateDigitSum` | src/numerology.py:174-175 | the life-path total is the sum of the digits of the zero-padded `YYYYMMDD` |
| `Numerology.LifePathTotalExample` | src/numerology.py:174-175 | 1990-07-14 totals 31 |
| `Numerology.ParseDate` | src/numerology.py:154-156 | a triple becomes a date exactly when `date(y, m, d)` accepts it (years 1..9999, months 1..12, leap-year February), otherwise an `InvalidDate` error |
| `Numerology.InversionOf` | src/numerology.py:179-180 | `inverted` is present exactly under `apply_inversion` with a reduced value 1..9, and is then that value's inversion |
| `Numerology.AttachInversion` | src/numerology.py:178-180 | the facet keeps the total and reduced value and obeys the inversion rule |
| `Numerology.LifePathNumber` | src/numerology.py:164-181 | an invalid date is an `InvalidDate` error; a valid one gives the reduced life-path facet with its total |
| `Numerology.BirthDayNumber` | src/numerology.py:184-194 | an invalid date is an `InvalidDate` error; a valid one gives the reduced day with no total |
| `Numerology.ExpressionNumber` | src/numerology.py:201-211 | fails with `ZeroNotAllowed` exactly when the name has no letter; otherwise the reduced full total |
| `Numerology.SoulUrgeNumber` | src/numerology.py:214-228 | the vowel total, reduced, or 0 when it is 0 |
| `Numerology.PersonalityNumber` | src/numerology.py:231-244 | the consonant total, reduced, or 0 when it is 0 |
| `Numerology.SoulUrgeZeroIffNoVowel` | src/numerology.py:218-227 | the soul-urge value is 0 exactly when the normalised name has no vowel |
| `Numerology.PersonalityZeroIffNoConsonant` | src/numerology.py:235-243 | the personality value is 0 exactly when the normalised name has no consonant |
| `Numerology.LifePathFacetExample` | src/numerology.py:164-181 | 1990-07-14: total 31, reduced 4, inverted 6 |
| `Numerology.BirthDayFacetExample` | src/numerology.py:184-194 | day 14: reduced 5, inverted 5 |
| `Numerology.NameFacetExample` | src/numerology.py:201-244 | "ABC": expression 6 (inverted 4), soul urge 1 (inverted 9), personality 5 (inverted 5) |
| `Numerology.BuildSignature` | src/numerology.py:251-274 | the step-by-step assembly equals the signature value: date facets, then name facets, or the first error |
| `Numerology.SignatureFailure` | src/numerology.py:263-274 | the signature fails exactly for an invalid date or a name without letters; the date is checked first |
| `Numerology.SignatureKeys` | src/numerology.py:263-274 | `life_path` and `birth_day` are present exactly when a date is given, the three name facets exactly when a name is given |
| `Numerology.SignatureParts` | src/numerology.py:263-274 | a successful signature is the date facets merged with the name facets |
| `Numerology.SignatureDateFacet` | src/numerology.py:265-267 | with a date, each date facet in the signature is the facet of that date |
| `Numerology.SignatureNameFacet` | src/numerology.py:269-272 | with a name, each name facet in the signature is the facet of that name |
| `Numerology.DateFacetsReduced` | src/numerology.py:164-194 | the date facets obey the inversion rule and hold a reduced value, never 0 |
| `Numerology.NameFacetsReduced` | src/numerology.py:201-244 | the name facets obey the inversion rule; the expression is reduced and never 0, soul urge and personality are reduced or 0 |
| `Numerology.SignatureFacetsReduced` | src/numerology.py:251-274 | every facet of a signature obeys the inversion rule and is 1..9, a master number, or 0 for an absent vowel or consonant total |
| `Text.Strip` | src/ontology.py:277 | `str.strip`: the result neither starts nor ends with whitespace |
| `Text.StripSlice` | src/ontology.py:277 | what `strip` keeps is a slice of the input with only whitespace cut on each side |
| `Text.Lower` | src/ethics.py:67-68 | `lower` keeps the length and lower-cases each ASCII capital |
| `Text.CollapseSpaces` | src/ontology.py:284 | the result is single-spaced, empty exactly for an empty input, and starts with a space exactly when the input starts with whitespace |
| `Text.CollapseSpacesScans` | src/ontology.py:284 | the collapse equals a left-to-right scan that turns the first whitespace character of each maximal run into one space, in its place, drops the rest of the run, and keeps every other character |
| `Text.CollapseSpacesKeepsText` | src/ontology.py:284 | the characters that are not whitespace are exactly those of the input, in the same order |
| `Text.CollapseSpacesFixesSingleSpaced` | src/ontology.py:284 | a single-spaced text is left unchanged by the collapse |
| `Text.LexLeTotal` | src/ontology.py:163 | the order on sort keys is total |
| `OrderedDict.Get` | src/ontology.py:106 | `d.get(k)` finds a value exactly when `k` is a key |
| `OrderedDict.Put` | src/ontology.py:149 | `d[k] = v`: `k` maps to `v`, other keys keep their values, an absent key is appended, a present one keeps its place |
| `OrderedDict.PutAll` | src/ontology.py:148-149 | assigning a list of pairs adds their keys and leaves every other key as it was |
| `OrderedDict.PutAllGet` | src/ontology.py:148-149 | after assigning pairs with distinct keys, each of those keys holds its new value |
| `OrderedDict.MapValuesAt` | src/ontology.py:165-167 | mapping the values keeps each key in its place and maps its value |
| `PySlice.Prefix` | src/ontology.py:165 | `items[:n]` is a prefix of length `n` clamped to the sequence, counted from the end for negative `n` |
| `PySlice.Suffix` | src/engine.py:253 | `memory[n:]` is a suffix, of length `-n` (clamped) for negative `n` |
| `IntSet.Sorted` | src/ontology.py:58-60 | `sorted(keys)` is strictly increasing and holds exactly the keys |
| `Ontology.Truncate` | src/ontology.py:219-224 | `int()` on a float truncates toward zero |
| `Ontology.CoerceInt` | src/ontology.py:219-229 | int and bool values are taken as integers; strings go through `int()`; null, lists and objects fail |
| `Ontology.Cleaned` | src/ontology.py:234-238 | the cleaned analysis has exactly the keys whose value is not null, each once |
| `Ontology.CleanAnalysis` | src/ontology.py:234-238 | the cleaning loop computes the cleaned analysis |
| `Ontology.NormalizeOne` | src/ontology.py:211-240 | an element is kept exactly when it is an object with `digit` and `analysis`, the digit coerces and the analysis is an object; a missing or non-coercible index is -1 |
| `Ontology.UsableAppend` | src/ontology.py:210-241 | filtering keeps array order: the entries of `a + b` are those of `a`, then those of `b` |
| `Ontology.UsableFrom` | src/ontology.py:210-241 | every entry is the normal form of some array element |
| `Ontology.NormalizeEntries` | src/ontology.py:202-244 | a non-array root is `RootNotArray`; an array with no usable element is `NoUsableEntries`; otherwise the usable entries in order |
| `Ontology.WithDigit` | src/ontology.py:247-251 | a digit's group holds only entries with that digit |
| `Ontology.WithDigitMembers` | src/ontology.py:247-251 | an entry is in a digit's group exactly when it is in the store with that digit |
| `Ontology.WithDigitAppend` | src/ontology.py:247-251 | grouping keeps store order |
| `Ontology.WithDigitNonEmpty` | src/ontology.py:247-251 | a digit has a non-empty group exactly when it occurs |
| `Ontology.IndexByDigit` | src/ontology.py:247-251 | the index has one group per occurring digit, holding that digit's entries in store order |
| `Ontology.IsIndexOfSnoc` | src/ontology.py:249-250 | `setdefault(...).append(e)` indexes one more entry |
| `Ontology.MergeKey` | src/ontology.py:254-280 | unknown policy is an error; an absent key is inserted as given; on a present key `first` keeps, `last` overwrites, `concat` keeps equal stripped values and otherwise joins with " / "; other keys are untouched |
| `Ontology.MergeItems` | src/ontology.py:115-120 | merging a dict fails exactly for an unknown policy with at least one pair; the keys are the union |
| `Ontology.MergeAll` | src/ontology.py:114-117 | merging the entries' analyses fails exactly for an unknown policy and some non-empty analysis; the keys are the union |
| `Ontology.AnalysesOf` | src/ontology.py:104 | the analyses of the entries, in store order |
| `Ontology.MergeItemsLast` | src/ontology.py:272-274 | under `last`, merging is plain assignment, pair after pair |
| `Ontology.MergeItemsFirst` | src/ontology.py:270-271 | under `first`, a key already merged keeps its value |
| `Ontology.MergedAnalysisKeys` | src/ontology.py:114-122 | the merged view fails exactly for an unknown policy with some key to merge; otherwise its keys are the entries' keys plus the patch keys |
| `Ontology.MergedAnalysisEmpty` | src/ontology.py:114-122 | no entries and no patch merge to `{}` under any policy |
| `Ontology.MergedAnalysisPatchWins` | src/ontology.py:114-122 | under `last` the patch value wins for each patched key |
| `Ontology.ResolveDigit` | src/ontology.py:23-32 | without inversion the digit itself; with it, 0..9 inverted and anything else `DigitOutOfRange` |
| `Ontology.RawAnalyses` | src/ontology.py:102-112 | the analyses in store order, then the patch as one more element only when it is not empty |
| `Ontology.FirstMatchSpec` | src/ontology.py:134-138 | a tradition is found exactly when some key matches once stripped and lower-cased, and it is the value of the first such key |
| `Ontology.Excerpt` | src/ontology.py:282-285 | for `n >= 1` an excerpt has at most `n` characters |
| `Ontology.ExcerptShape` | src/ontology.py:283-285 | for `n >= 1` the excerpt is the cleaned text exactly when that has at most `n` characters; otherwise it has exactly `n` characters, the first `n - 1` those of the cleaned text and the last the ellipsis |
| `Ontology.ExcerptSingleSpaced` | src/ontology.py:284-285 | an excerpt contains no whitespace but single plain spaces |
| `Ontology.CleanedSingleSpaced` | src/ontology.py:284 | collapsing then stripping leaves a single-spaced text |
| `Ontology.ExcerptShortUnchanged` | src/ontology.py:284-285 | an already clean text of at most `n` characters is unchanged |
| `Ontology.Insert` | src/ontology.py:163 | inserting into a sorted list keeps it sorted and adds exactly the element |
| `Ontology.SortItems` | src/ontology.py:163 | the items sorted by lower-cased key: sorted, and a permutation of the input |
| `Ontology.ExcerptItems` | src/ontology.py:165-167 | one excerpt per taken item |
| `Ontology.SummaryBounds` | src/ontology.py:162-168 | a summary has at most `max_items` items (for `max_items >= 0`) and no more than the analysis; it is sorted by lower-cased key, its keys come from the analysis, and each excerpt has at most 220 characters |
| `Ontology.RepairConcatenated` | src/ontology.py:192 | the repair never lengthens the text |
| `Ontology.RepairWithoutBracket` | src/ontology.py:192 | text without a `]` is left unchanged |
| `Ontology.RepairExample` | src/ontology.py:192 | `][` and `] [` both become one comma |
| `Ontology.ParseLenient` | src/ontology.py:182-199 | the text parses as is, else its stripped and repaired form parses, else `InvalidJson` |
| `Ontology.LoadEntries` | src/ontology.py:51-53 | a loaded store has at least one entry |
| `Ontology.PiOntology.constructor` | src/ontology.py:45-54 | a store over the given entries, indexed by digit, with no patch |
| `Ontology.PiOntology.Open` | src/ontology.py:45-54 | opening fails exactly when loading fails, with the same error; otherwise a fresh valid store over the loaded entries |
| `Ontology.PiOntology.EntriesFor` | src/ontology.py:84 | the group of a digit is that digit's entries in store order |
| `Ontology.PiOntology.PatchFor` | src/ontology.py:106 | a patch has distinct keys |
| `Ontology.PiOntology.DigitsPresent` | src/ontology.py:58-60 | the occurring digits, each once, in increasing order |
| `Ontology.PiOntology.GetEntries` | src/ontology.py:82-84 | the resolved digit's entries in store order, or `DigitOutOfRange` exactly when the inversion fails |
| `Ontology.PiOntology.IsDigitMissingOrIncomplete` | src/ontology.py:62-80 | true exactly when the resolved digit has no entries or every entry holds only a `note` key or none; patches play no part |
| `Ontology.PiOntology.GetAnalysisRaw` | src/ontology.py:102-112 | the raw analyses of the resolved digit followed by its non-empty patch |
| `Ontology.PiOntology.GetAnalysis` | src/ontology.py:102-122 | the entries' analyses merged in store order, then the patch |
| `Ontology.PiOntology.GetTraditionText` | src/ontology.py:124-138 | the first tradition of the `last`-merged view matching the normalised name, else the default |
| `Ontology.PiOntology.PatchDigit` | src/ontology.py:140-149 | only the resolved digit's patch changes, by assigning the given pairs, and it is created if needed; entries, index and other patches are untouched; an inversion error changes nothing |
| `Ontology.PiOntology.SummarizeDigit` | src/ontology.py:151-168 | the summary of the merged view, or its error |
| `Ontology.ExcerptAll` | src/ontology.py:164-168 | the summary loop builds one excerpt per taken item |
| `Ontology.AssignAll` | src/ontology.py:148-149 | the patch loop assigns every pair in turn |
| `Ontology.MergeInto` | src/ontology.py:116-117 | the inner merge loop stops at the first error and otherwise merges every pair |
| `Ethics.AnyKeywordIff` | src/ethics.py:82-85 | the `any(...)` scan finds a keyword exactly when one occurs in the string |
| `Ethics.AnyKeywordTooLong` | src/ethics.py:82-85 | no keyword longer than the string can occur in it |
| `Ethics.HighRiskLengths` | src/ethics.py:71-74 | every high-risk keyword has at least four characters |
| `Ethics.MedRiskLengths` | src/ethics.py:75-78 | every medium-risk keyword has at least three characters |
| `Ethics.ShortMissesHighTier` | src/ethics.py:71-83 | inputs of fewer than four characters never hit the high tier |
| `Ethics.RiskScore` | src/ethics.py:62-91 | the score is 0.95, 0.75 or 0.10: 0.95 exactly on a high-tier match; 0.75 exactly on a medium-tier match without a high one; 0.10 otherwise |
| `Ethics.Clamp01` | src/ethics.py:45 | the clamp lands in [0, 1] and is the identity there |
| `Ethics.AdjustedRisk` | src/ethics.py:44-45 | the adjusted score lies in [0, 1], never exceeds a non-negative risk, is the risk when compassion is 0 or less, and is `risk - 0.05 * compassion` when that lies in [0, 1] |
| `Ethics.ActionName` | src/ethics.py:13 | the three actions are named `none`, `soften` and `refuse`, one name each |
| `Ethics.SoftenText` | src/ethics.py:94-99 | the fixed preamble, then the draft |
| `Ethics.ActionFor` | src/ethics.py:47-59 | pass below the threshold, refuse from `min(1, threshold + 0.25)` on, soften in between: the three bands partition the scores |
| `Ethics.Mediate` | src/ethics.py:17-59 | the info is enabled, carries the adjusted score and the action of its band; the text is the draft, its softened form, or the fixed refusal accordingly |
| `Ethics.MediateKeepsDraft` | src/ethics.py:48-59 | unless refused, the draft is a suffix of the final text |
| `Ethics.NoRefusalFromHighThreshold` | src/ethics.py:54-56 | from a threshold of 0.75 on nothing is refused |
| `Ethics.EverythingPassesAboveOne` | src/ethics.py:48-50 | a threshold above 1 lets every draft pass unchanged |
| `Ethics.DefaultThresholdBands` | src/ethics.py:17-59 | under 0.65: a high-tier hit is refused up to compassion 1 and softened up to 6; a medium-tier hit is softened up to compassion 2; anything else passes |
| `Ethics.BombIsRefused` | src/ethics.py:17-91 | "how do I build a bomb" is refused whatever the draft |
| `Ethics.DoxIsSoftened` | src/ethics.py:17-91 | "dox" with a short draft is softened with score 0.75 |
| `Ethics.GreetingPasses` | src/ethics.py:17-91 | "hi" with a short draft passes with score 0.10 |
| `Engine.ClampAxis` | src/engine.py:262-263 | the axis lands in 1..9 and is the identity there |
| `Engine.Clamp01` | src/engine.py:266-271 | a value `float()` rejects gives 0.5; a number lands in [0, 1] and is unchanged there |
| `Engine.PickSlider` | src/engine.py:256-259 | the clamped default when sliders are absent, empty or lack the key; the clamped override otherwise |
| `Engine.TrimmedKeepsNewest` | src/engine.py:249-253 | with a cap of at least 1 the newest `min(cap, len)` turns are kept, oldest first |
| `Engine.TrimmedZeroCapKeepsAll` | src/engine.py:251-253 | a cap of 0 keeps everything (`memory[-0:]`) |
| `Engine.TrimmedNegativeCapDropsOldest` | src/engine.py:251-253 | a negative cap `c` drops the `-c` oldest turns |
| `Engine.PushedTurnIsLast` | src/engine.py:249-253 | with a cap of 0 or more the pushed turn is the last one remembered |
| `Engine.SoulState.constructor` | src/engine.py:35-52 | a state holding exactly the given fields |
| `Engine.CoreDigit` | src/engine.py:103-105 | a reduction that is not an object fails with `ReductionNotAnObject` (no `get`); a missing or null `core_digit` is `MissingCoreDigit`; an integer is taken as is |
| `Engine.Archetype` | src/engine.py:103-108 | the core digit, inverted under `inversion_enabled`; the inversion fails exactly outside 0..9 |
| `Engine.ArchetypeInversionRoundTrip` | src/engine.py:107-108 | inverting the inverted archetype gives the archetype built without inversion |
| `Engine.InitialAxis` | src/engine.py:117 | the caller's axis as given, not clamped, else the clamped default |
| `Engine.NextTrace` | src/engine.py:203 | the new trace overwrites axis, mood and reaction trace and keeps the profile keys |
| `Engine.ReactionSpec` | src/engine.py:150-211 | a reaction follows the dynamics, uses sliders in [0, 1], and gates the draft through mediation when ethics is on; with ethics off the draft is the text and the info is `{enabled: false, action: none, score: None}` |
| `Engine.ReactionInRange` | src/engine.py:45-46 | when the dynamics keep the axis in 1..9 and the mood absent or in 2..8, so does every reaction |
| `Engine.AxisBeforeIsPreviousAfter` | src/engine.py:197-203 | the "axis before" of a reaction is the axis the previous reaction moved to |
| `Engine.ArtificialSoulEngine.constructor` | src/engine.py:67-68 | the given configuration, else the defaults |
| `Engine.ArtificialSoulEngine.BuildStateFromIdentity` | src/engine.py:84-127 | the archetype's failure or a fresh state with the archetype's traits, the archetype, the initial axis, no mood, no memory, and the signature, reduction, archetype and inversion flag in the trace (no axis yet, so the first reaction's "axis before" is None) |
| `Engine.ArtificialSoulEngine.PushMemory` | src/engine.py:249-253 | the exchange is appended and the list trimmed to the cap; nothing else changes |
| `Engine.ArtificialSoulEngine.React` | src/engine.py:132-211 | the result is the reaction of the old state; axis and mood are committed; the exchange with the final text is remembered; the trace is extended; traits and archetype are kept; with dynamics that keep the documented bounds, the new axis and mood are within them |

## Left out

- File reading (`_read_text`, src/ontology.py:172-179) is I/O: `PiOntology.Open` takes the file's text.
- `json.loads` is a library parser: it is the parameter `parse`, which returns `None` where Python raises `JSONDecodeError`.
- Python's `int()` on strings and `str()` on JSON values are library conversions: they are the parameters `parseInt` and `show`.
- `Ontology.CoerceInt`: the float case only says that `int()` truncates (see `Ontology.Truncate`); NaN and infinities are not modelled.
- Accent stripping (`_strip_accents`, NFKD) and Unicode case mapping need Unicode tables: `upper`/`lower` act on ASCII letters only, so a name keeps only its ASCII letters.
- Date inputs as `datetime`, as `date` objects or as strings (`date.fromisoformat`) are library parsing. Only the triple path is modelled, through `ParseDate`; the facet builders take a `Date` and check it the way `date(y, m, d)` does.
- The `TypeError` for an unsupported date input is not modelled: the types rule such inputs out.
- `keep_master_numbers` is any iterable in Python; the model takes the set it is turned into.
- `Numerology.BuildSignature`: the signature is a map, so the order of its keys (date facets first) is not modelled; nothing in the core reads it.
- `src/interpolation.py` (axis descriptors, text shaping, blending) is floating-point shaping outside the core: `update_dynamics` and `_compose_response_text` are the parameters `dynamics` and `compose`.
- `_compose_response_text` (src/engine.py:216-247) is French template text with float formatting, so the draft comes from `compose`.
- `compute_signature`, `reduce_signature` and `digit_to_traits` are not defined in the modelled files: they are the parameters of `BuildStateFromIdentity`, and a signature is a JSON value.
- `Engine.CoreDigit`: any core digit that is not a JSON integer is reported as `NonIntegerCoreDigit`. Python does not check the type. With inversion on, it passes the value to `invert_digit`, which accepts e.g. `5.0` or `True`. With inversion off, it passes any value, including a string, list or dict, to `digit_to_traits`. Here the archetype and the `digitToTraits` parameter are integers.
- The collaborators `dynamics`, `compose`, `parse` and `digitToTraits` are unconstrained functions. The bounds `SoulState` documents (axis 1..9, mood absent or 2..8) are assumed only where a contract says so (`DynamicsInRange`). The caller's starting axis is not clamped, as in the source.
- JSON objects are assumed to list each key once. For a document with a duplicated key, `json.loads` keeps the last value, while `Get` on the parsed fields would find the first.
- Floating point: scores, thresholds, compassion and sliders are exact reals, with no rounding, NaN or infinities.
- `float()` on a trait value (src/ethics.py:44) is not modelled: trait vectors hold reals.
- Inputs of `_risk_score` that are `None` (`stimulus or ""`) are not modelled: inputs are strings.
- The `context` argument of `mediate` is accepted and never read in the source; the model omits it.
- `Ontology.SortItems` is an insertion sort that keeps equal keys in input order, like Python's stable `sorted`, but its contract states only sortedness and permutation, not stability.
- `_merge_key`, `patch_digit` and `state.memory.append` update dicts and lists in place: dicts and lists are values here, so aliasing between the returned lists, the copies made by `dict(...)`/`list(...)` and the store is not modelled.
- `PiOntology.path`, the lazy imports of `ArtificialSoulEngine.__init__` and the `__main__` blocks are I/O or module plumbing.
- `tests/test_ontology.py` reads a differently shaped file from disk and is not part of this model.
