# OpenStreetMap reshaping pipeline, modelled in Dafny

This project models the OpenStreetMap data-wrangling pipeline under `submit/`. The
reshaper `shape_element` turns one `node` or `way` element into the nested dictionary
that becomes one JSON document. The element is given as its tag name, its attributes,
its `tag` children and its `nd` children. Along the way the reshaper corrects field
values:
- abbreviated street types;
- postcodes containing a hyphen;
- phone and fax numbers.

The audit scripts report the same corrections as (original, corrected) pairs.

Modules, one per core file, plus two shared ones:

- `Wrappers`: the option type that stands for Python's `None`-or-value results.
- `PyStrings`: the Python 2 string operations the source relies on. These are
  `strip()`, `split()` with and without a separator, `sep.join`, `s[:n]`, `s[:-1]`,
  substring search, and the character filters. Each comes with lemmas: words survive a
  space join, splitting a comma join gives the pieces back, and occurrences are counted.
- `Corrections` (`submit/src/audit.py`): `correct_street_type`, `correct_postcode`,
  `pure_num`, `for_each_num`, `correct_number`, and the tag classification loop of
  `audit`.
- `LegacyCorrections` (`submit/audit.py`): the older variants of the same correctors.
  Their loops concatenate strings; `purenum` keeps characters through `int(c)`; the
  flags are integers. The file also has its own `audit` loop. Its `correct_postcode` is
  the same function as in the newer file and is modelled once, as
  `Corrections.CorrectPostcode`.
- `Reshape` (`submit/src/data.py`): the reshaper, with the output dictionary as a
  `Node` class.

Every loop of the source is a Dafny method with loop invariants. Each method is proved
equal to a specification function:
- `Corrections.CorrectStreetType` equals `CorrectedStreet`;
- `ForEachNum` equals `JoinedNums`;
- `Audit` equals `AuditOf`;
- `Reshape.ShapeElement` equals `Shape`.

The properties are then lemmas about those functions.

The reshaper mutates one dictionary in place, so `Reshape.Node` holds it as a field.
`ProcessTopTags`, `ProcessSubtags` and the per-iteration methods each update it, and
each `ensures` that the new dictionary, or the exception raised, is what the matching
specification function gives:
- `TopTag` for `process_toptags`;
- `TagStep` and `Subtags` for `process_subtags`;
- `AttribStep` and `AttribPass` for the attribute loop;
- `AppendRef` and `NodeRefs` for the `nd` loop.

Dictionary values are text, a string-to-string dictionary (`created`, `address`), or a
list (`pos`, `node_refs`). Python raises when one of them meets an operation for
another shape. For example, a tag keyed `address` stores text, and the next `addr:`
tag then tries item assignment on that text. Those exceptions are modelled as `Err`
results, carrying the Python exception's name.

Behaviour of the code worth knowing:

- `process_subtags` runs inside the attribute loop (submit/src/data.py:65-73).
  - All tags are re-applied after every attribute, so a tag overrides any attribute
    with the same key, `type` included.
  - An element without attributes gets no `type` and none of its tags.
  - `ShapeLastTagWins`, `ShapeType` and `ShapeWithoutAttributes` state this.
- `problemchars.match` is anchored, so a tag key is skipped only when its first
  character is a problem character, not when one appears later.
- In `lower_colon`, `$` also matches just before a final newline, so an address key part
  such as `street:name` followed by a newline is still treated as compound.
- For the special phone record, the corrected value goes to an unused variable, so
  `correct_number` returns the empty string flagged as changed. It does not pass the
  record through unchanged.
- `correct_number` and `pure_num` are not idempotent: a second pass strips another
  leading "00".
- The "/" ratio test uses Python 2 floor division; without a "/" in the input it never
  succeeds.
- `pos` exists whenever a `lat` or `lon` attribute does, whatever the element kind.
- Of the corrector results, only `None` keeps an address field out. An empty corrected street name is
  stored.

Parameters and approximations:
- `float(s)` and `str(round(x, 2))` are the two fields of `Reshape.Numerics`: a
  conversion that may fail, and a rendering.
- Attribute order is the order the attribute dictionary yields its keys, given as a
  sequence.
- `strip()` and `split()` use the ASCII whitespace set.
- `int(c)` in `purenum` accepts the ASCII digits and the fullwidth digits U+FF10 to
  U+FF19.

## Model

| member | source | states |
|---|---|---|
| Corrections.CorrectStreetType | submit/src/audit.py:33-49 | the name is `CorrectedStreet` of the input (its stripped words, table keys replaced, joined by single spaces); the flag is true exactly when the stripped input differs from it |
| Corrections.FixedWords | submit/src/audit.py:39-45 | the loop yields, word for word, the table value for a key and the word itself otherwise |
| Corrections.FixWordsReplaces | submit/src/audit.py:41-45 | the corrected word list has one entry per word: the table value for a key, the word itself otherwise |
| Corrections.CorrectedStreetWords | submit/src/audit.py:37-46 | the output has as many words as the stripped input; each word that is a table key is replaced by its value, every other word is kept |
| Corrections.CorrectedStreetNormal | submit/src/audit.py:37-46 | the output has no surrounding whitespace and is its own words joined by single spaces |
| Corrections.CorrectedStreetIdempotent | submit/src/audit.py:27-31 | correcting a corrected name gives it back, and the second flag is false, since no table value is a table key |
| Corrections.CorrectedStreetBlank | submit/src/audit.py:37-46 | an empty or all-blank name corrects to the empty string |
| Corrections.FixWordStable | submit/src/audit.py:27-31 | replacing a replaced word changes nothing, and a replacement is still one word |
| Corrections.CorrectPostcode | submit/src/audit.py:51-56 | a kept postcode never contains '-'; the flag is 1 exactly when the result is not the input; an input containing '-' gives (None, 1) and an input without '-' comes back unchanged with 0 |
| Corrections.PureNum | submit/src/audit.py:87-95 | only digits; a digit string starting "8610" becomes "86010" plus the rest; otherwise exactly one leading "00" is removed; otherwise the digits are returned as they are |
| Corrections.PureNumKeepsRewrite | submit/src/audit.py:90-91 | a number rewritten to the "86010" form is left alone by a second pass |
| Corrections.PureNumDoubleZero | submit/src/audit.py:92-93 | on a digit string starting "00" (hence not "8610") one pass removes exactly those two zeros and leaves only digits |
| Corrections.PureNumStripsOneDoubleZero | submit/src/audit.py:92-93 | on digits starting "0000" one pass removes two zeros and a second pass removes two more, so pure_num is not idempotent |
| Corrections.DigitsOfDigits | submit/src/audit.py:89 | filtering a digit string leaves it unchanged |
| Corrections.ForEachNum | submit/src/audit.py:78-84 | the loop's result is pure_num of each sep-separated piece, joined by commas |
| Corrections.JoinedNumsRoundTrip | submit/src/audit.py:78-84 | splitting the result on commas gives back the normalised pieces; it has exactly one comma per separator occurrence and holds only digits and commas |
| Corrections.CorrectNumber | submit/src/audit.py:58-76 | the branches are tried in order " / ", ";", the special record, the "/" ratio, the whole string; the result holds only digits and commas; the flag is true exactly when the result differs from the input |
| Corrections.CorrectNumberSpecialRecord | submit/src/audit.py:65-66 | the special record without " / " or ";" yields ('', True) |
| Corrections.RatioBranchNeedsSlash | submit/src/audit.py:67 | under floor division, the ratio test fails for every input without '/' |
| Corrections.ContainsSlash | submit/src/audit.py:67 | containing the substring "/" means containing the character '/' |
| Corrections.Audit | submit/src/audit.py:100-119 | the classification loop appends, in tag order, what `AuditOf` says for the tag pairs |
| Corrections.AuditStreetReports | submit/src/audit.py:105-108 | a pair is in the street list exactly when some addr:street tag has that value and its correction changed it into the pair's second part |
| Corrections.StreetReportedSnoc | submit/src/audit.py:104-108 | one more tag adds at most its own street report |
| Corrections.AuditPostcodeReports | submit/src/audit.py:109-112 | a pair is in the postcode list exactly when some addr:postcode tag has that value, the value contains '-' and the pair's second part is None |
| Corrections.AuditNumberReports | submit/src/audit.py:113-116 | a pair is in the number list exactly when some fax or phone tag has that value and the number corrector flags it, giving the pair's second part |
| LegacyCorrections.CorrectStreetType | submit/audit.py:34-49 | the string built word by word with trailing spaces, less its last character, is the same name as the newer corrector's; the flag is 1 exactly when the stripped input differs from it, else 0 |
| LegacyCorrections.FixedWordsTerminated | submit/audit.py:38-44 | the loop builds each corrected word followed by one space |
| LegacyCorrections.PureNum | submit/audit.py:86-101 | the loop keeps, in order, exactly the characters `int()` accepts, then applies the "8610", "86010" and "00" prefix rules |
| LegacyCorrections.IntChars | submit/audit.py:87-93 | the loop keeps exactly the characters `int()` accepts, in order |
| LegacyCorrections.PureNumOf | submit/audit.py:86-101 | the result holds only characters `int()` accepts |
| LegacyCorrections.IntAcceptsAscii | submit/audit.py:88-93 | on ASCII characters `int(c)` succeeds exactly for the digits |
| LegacyCorrections.PureNumKeeps86010 | submit/audit.py:96-97 | a number already starting "86010" comes back unchanged |
| LegacyCorrections.PureNumAgrees | submit/audit.py:86-101 | without fullwidth digits, purenum and the newer pure_num compute the same number |
| LegacyCorrections.ForEachNum | submit/audit.py:78-84 | the loop's result is purenum of each piece, joined by commas |
| LegacyCorrections.JoinedNumsOfRoundTrip | submit/audit.py:78-84 | splitting the result on commas gives back the normalised pieces, with one comma per separator occurrence |
| LegacyCorrections.CorrectNumber | submit/audit.py:58-76 | the same choice of cut as the newer version; the flag is 0 or 1, and 1 exactly when the result differs from the input |
| LegacyCorrections.CorrectNumberSpecialRecord | submit/audit.py:65-66 | the special record without " / " or ";" yields ('', 1) |
| LegacyCorrections.Audit | submit/audit.py:106-125 | the classification loop reports exactly what the newer audit's classification would report, when given the older number corrector |
| Reshape.ShapeElement | submit/src/data.py:56-84 | returns what `Shape` gives for the element; that is nothing exactly when the tag is neither "node" nor "way" |
| Reshape.Node.ProcessTopTags | submit/src/data.py:86-110 | the dictionary becomes what `TopTag` gives for the old one, or the exception it names is raised |
| Reshape.Node.ProcessSubtags | submit/src/data.py:112-159 | the tags are applied in order as `Subtags` gives; the first exception ends the pass |
| Reshape.Node.ApplyTag | submit/src/data.py:117-157 | one tag is applied as `TagStep` gives |
| Reshape.Node.ApplyAddress | submit/src/data.py:126-140 | an `addr:` tag is applied as `AddressStep` gives |
| Reshape.Node.StoreAddress | submit/src/data.py:140 | item assignment in `address` succeeds only on a dictionary, and raises TypeError otherwise |
| Reshape.Node.ApplyHeadcount | submit/src/data.py:154-155 | the headcount tag is applied as `HeadcountStep` gives |
| Reshape.Node.ApplyAttribute | submit/src/data.py:65-73 | one pass of the attribute loop sets `type`, applies the attribute, then all tags |
| Reshape.Node.ApplyAttributes | submit/src/data.py:65-73 | the attribute loop yields `AttribPass` over all attributes, or the first exception |
| Reshape.Node.AppendNodeRef | submit/src/data.py:76-80 | appends to a `node_refs` list created empty if missing, or raises AttributeError when the value is not a list |
| Reshape.Node.AppendNodeRefs | submit/src/data.py:75-80 | the nd loop yields `NodeRefs`, or the first exception |
| Reshape.FixAddress | submit/src/data.py:133-138 | street values go through correct_street_type, postcodes through correct_postcode, other values unchanged |
| Reshape.TopTagCreated | submit/src/data.py:92-95 | a metadata attribute changes only `created`, which is created empty if missing and gets the value unchanged under the attribute's key; a `created` that is not a dictionary raises TypeError |
| Reshape.TopTagPosition | submit/src/data.py:98-106 | `lat` sets the first slot and `lon` the second of `pos`, which starts as [0.0, 0.0]; the other slot is kept; an unparsable value raises ValueError |
| Reshape.Index | submit/src/data.py:101-105 | `old_pos[i]` succeeds exactly on text or a list long enough, returning the list's item; a short one raises IndexError and a dictionary KeyError |
| Reshape.TopTagPlain | submit/src/data.py:107-108 | any other attribute is stored verbatim under its own key |
| Reshape.TopTagFrame | submit/src/data.py:86-110 | process_toptags writes no key but `created`, `pos` and the attribute's own |
| Reshape.TagStepProblemKey | submit/src/data.py:122-123 | a tag whose key starts with a problem character changes nothing |
| Reshape.TagStepPlain | submit/src/data.py:156-157 | a tag claimed by no branch is stored verbatim under its key, overwriting what was there |
| Reshape.TagStepCompoundAddress | submit/src/data.py:126-131 | a compound `addr:x:y` tag creates an empty `address` if missing and writes nothing else |
| Reshape.ProblemKeyFirstChar | submit/src/data.py:51 | `problemchars.match` tests only the first character of a key |
| Reshape.LowerColonNewline | submit/src/data.py:50 | `lower_colon.match` accepts an exact key part, and also that part followed by one newline, and no other part ending in a newline |
| Reshape.TagStepNumber | submit/src/data.py:143-145 | fax and phone values are stored as correct_number's output, even when that is empty, and hold only digits and commas |
| Reshape.TagStepShelter | submit/src/data.py:149-150 | both shelter-capacity keys are stored under the one canonical key |
| Reshape.TagStepHeadcount | submit/src/data.py:154-155 | a blank headcount raises IndexError; an unparsable first word raises ValueError; otherwise the count in ten thousands is stored under the renamed key |
| Reshape.TagStepFrame | submit/src/data.py:117-157 | a tag writes no key but its own, `address` and the two renamed keys |
| Reshape.SubtagsFrame | submit/src/data.py:117-157 | a key no tag writes is left as it was by process_subtags |
| Reshape.SubtagsFailed | submit/src/data.py:117-157 | an exception raised by one tag is the result of the whole pass |
| Reshape.AttribFailed | submit/src/data.py:65-73 | an exception raised in one attribute pass is the result of the whole loop |
| Reshape.NodeRefsFailed | submit/src/data.py:75-80 | an exception raised by one reference is the result of the whole loop |
| Reshape.NodeRefsFrame | submit/src/data.py:75-80 | the nd loop changes no key but `node_refs` |
| Reshape.AttribStepFrame | submit/src/data.py:65-73 | one attribute pass writes no key but `type`, `created`, `pos`, the attribute's and the tags' |
| Reshape.AttribPassAbsent | submit/src/data.py:65-73 | a key that no attribute, no tag and no fixed part writes never appears |
| Reshape.NodeRefsCollects | submit/src/data.py:75-80 | starting without `node_refs`, the loop stores the references in document order, and only when there is one |
| Reshape.ShapeWithoutAttributes | submit/src/data.py:64-82 | an element without attributes yields only its node references: no `type` and no tags |
| Reshape.ShapeNodeRefs | submit/src/data.py:75-80 | when no attribute or tag is keyed `node_refs`, the nd loop cannot fail, and `node_refs` is present exactly when there are nd children, listing their refs in order |
| Reshape.ShapeKeepsAttribPass | submit/src/data.py:75-82 | every key other than `node_refs` keeps what the attribute loop left in it |
| Reshape.ShapeLastTagWins | submit/src/data.py:65-73 | the last tag, when plain, ends up stored under its key, even when that key is `type` or an attribute's |
| Reshape.ShapeType | submit/src/data.py:67 | with attributes, and with no attribute or tag writing `type`, the type is the element's tag name |
| Reshape.CreatedTransfer | submit/src/data.py:92-95 | the `created` facts carry over when `created` is untouched |
| Reshape.CreatedStep | submit/src/data.py:92-95 | a new metadata attribute is added to `created` without disturbing the others |
| Reshape.AttribPassCreated | submit/src/data.py:65-73 | after any number of attribute passes, `created` records exactly the metadata attributes seen so far |
| Reshape.ShapeCreated | submit/src/data.py:53-95 | with distinct attribute keys, none of them `created`, and no tag writing `created`, every metadata attribute appears unmodified in `created`, and `created` holds nothing else |
| Reshape.CreatedKeyNotTop | submit/src/data.py:53-95 | after any number of attribute passes, a metadata key that no tag uses is not a key of the dictionary itself |
| Reshape.CreatedKeyStep | submit/src/data.py:66-73 | one attribute pass never adds a metadata key that no tag uses to the dictionary itself, even when that attribute is the key |
| Reshape.ShapeCreatedNotTop | submit/src/data.py:53-95 | a metadata key that no tag uses is not a top-level key of the shaped document: it lives only under `created` |
| Reshape.TagStepAddress | submit/src/data.py:126-140 | one tag keeps every `address` entry traceable to an `addr:` tag and its corrector |
| Reshape.SubtagsAddress | submit/src/data.py:117-157 | process_subtags keeps that tracing |
| Reshape.AttribPassAddress | submit/src/data.py:65-73 | the attribute loop keeps that tracing |
| Reshape.ShapeAddress | submit/src/data.py:126-140 | each `address` entry comes from a non-compound `addr:` tag through its corrector; a stored postcode never contains '-'; a stored street is correct_street_type's output for an addr:street value (the converse, that a tag is stored, is `TagStepAddressStores` and `ShapeLastAddressWins`) |
| Reshape.TagStepAddressStores | submit/src/data.py:126-140 | a simple `addr:` tag stores its corrector's value under the key without the prefix in `address`, created empty if missing; a `None` value stores nothing; an `address` holding text or a list makes a non-`None` store raise TypeError |
| Reshape.ShapeLastAddressWins | submit/src/data.py:65-73 | when the last tag is a simple `addr:` tag whose corrector gives a value, the shaped document's `address` holds that value under the key without the prefix |

## Left out

- XML parsing (`ET.iterparse`, `element.iter`), file handling, JSON output, `process_map`
  and the `test` drivers (submit/src/data.py:161-188, submit/src/audit.py:97-104 and
  122-128, submit/audit.py:103-108 and 128-134). Elements and tag pairs are given as
  sequences in document order.
- `float(s)` and `str(round(x, 2))` are parameters (`Reshape.Numerics`), not Python's
  floating-point behaviour.
- The order of `element.attrib.keys()` is the Python dictionary's and cannot be
  predicted. The model takes attributes as a sequence in that order.
- A `tag` child without a `k` or `v` attribute, or an `nd` without `ref`, makes Python
  raise KeyError. The model's tag pairs and references always carry both.
- Non-ASCII whitespace: Python 2 unicode `strip()` and `split()` also treat other Unicode
  spaces as whitespace. The model uses the ASCII set.
- LegacyCorrections.IntChars, LegacyCorrections.PureNum and LegacyCorrections.PureNumAgrees:
  `int(c)` is modelled as accepting the ASCII and fullwidth digits only. Python also
  accepts other Unicode decimal digits in unicode strings (U+0663, say). The older
  `purenum` keeps those and the newer `pure_num` drops them, so the agreement holds only
  when the input has no non-ASCII decimal digit at all.
- `audit_street_type` (submit/audit.py:27-32) is dead code that refers to an undefined
  name. The `street_type_re` pattern and the `defaultdict` it would fill are unused.
- The audit's restriction to `node` and `way` elements is part of the XML traversal; the
  classification loops take the tag pairs of those elements. Both audits iterate on
  `"start"` events (submit/src/audit.py:101, submit/audit.py:107), where an element's
  children may not be parsed yet, so the real loops may see only a prefix of an
  element's tags. The model's sequence is whatever tag pairs the traversal delivers.
- practce/ and submit/src/general.py: CSV and area-string parsing, file splitting, and
  key statistics. They are not part of this model.
