/**
 The field correctors of the OpenStreetMap audit (submit/src/audit.py), which the
 reshaper imports: the street-type corrector, the postcode corrector and the
 phone/fax-number corrector with its helpers, plus the audit's classification of
 tag pairs into the three lists of reported corrections.
 */
module Corrections {
  import opened Wrappers
  import opened PyStrings

  // ---------------------------------------------------------------------------
  // Street types

  /** The abbreviation table: each key is replaced by its value when it is a whole word. */
  const StreetMapping: map<string, string> :=
    map["St" := "Street", "ave." := "Avenue", "Rd" := "Road", "St." := "Street"]

  function FixWord(w: string): string {
    if w in StreetMapping then StreetMapping[w] else w
  }

  function FixWords(ws: seq<string>): seq<string> {
    seq(|ws|, i requires 0 <= i < |ws| => FixWord(ws[i]))
  }

  /** The corrected street name: the stripped input's words, abbreviations expanded, joined by single spaces. */
  function CorrectedStreet(streetName: string): string {
    Join(FixWords(Words(Strip(streetName))), " ")
  }

  /** No replacement is itself an abbreviation, so a corrected word stays put. */
  lemma FixWordStable(w: string)
    ensures FixWord(FixWord(w)) == FixWord(w)
    ensures IsWord(w) ==> IsWord(FixWord(w))
  {
    assert IsWord("Street") && IsWord("Avenue") && IsWord("Road");
  }

  lemma FixWordsAreWords(ws: seq<string>)
    requires forall i :: 0 <= i < |ws| ==> IsWord(ws[i])
    ensures forall i :: 0 <= i < |ws| ==> IsWord(FixWords(ws)[i])
  {
    forall i | 0 <= i < |ws| ensures IsWord(FixWords(ws)[i]) {
      FixWordStable(ws[i]);
    }
  }

  /**
   correct_street_type: strip, split into words, replace each word that is a key of
   the table, and join with single spaces; the flag says whether the stripped input changed.
   */
  method CorrectStreetType(streetName: string) returns (name: string, changed: bool)
    ensures name == CorrectedStreet(streetName)
    ensures changed <==> Strip(streetName) != name
  {
    var stripped := Strip(streetName);
    var words := Words(stripped);
    var newWords := FixedWords(words);
    name := Join(newWords, " ");
    changed := stripped != name;
  }

  /** The loop of correct_street_type: each word, replaced when it is a key of the table. */
  method FixedWords(words: seq<string>) returns (newWords: seq<string>)
    ensures newWords == FixWords(words)
  {
    ghost var fixed := FixWords(words);
    newWords := [];
    for i := 0 to |words|
      invariant newWords == fixed[..i]
    {
      assert fixed[..i + 1] == fixed[..i] + [FixWord(words[i])];
      if words[i] in StreetMapping {
        newWords := newWords + [StreetMapping[words[i]]];
      } else {
        newWords := newWords + [words[i]];
      }
    }
    assert fixed[..|words|] == fixed;
  }

  /** The output has exactly the input's words, each table key replaced by its value and every other word kept. */
  lemma CorrectedStreetWords(streetName: string)
    ensures var ws := Words(Strip(streetName));
            var out := Words(CorrectedStreet(streetName));
            && |out| == |ws|
            && (forall i :: 0 <= i < |ws| && ws[i] in StreetMapping ==> out[i] == StreetMapping[ws[i]])
            && (forall i :: 0 <= i < |ws| && ws[i] !in StreetMapping ==> out[i] == ws[i])
  {
    var ws := Words(Strip(streetName));
    FixWordsAreWords(ws);
    WordsOfSpaceJoin(FixWords(ws));
    assert Words(CorrectedStreet(streetName)) == FixWords(ws);
    FixWordsReplaces(ws);
  }

  lemma FixWordsReplaces(ws: seq<string>)
    ensures |FixWords(ws)| == |ws|
    ensures forall i :: 0 <= i < |ws| && ws[i] in StreetMapping ==> FixWords(ws)[i] == StreetMapping[ws[i]]
    ensures forall i :: 0 <= i < |ws| && ws[i] !in StreetMapping ==> FixWords(ws)[i] == ws[i]
  {
  }

  /** The output has no surrounding whitespace and is its own words joined by single spaces. */
  lemma CorrectedStreetNormal(streetName: string)
    ensures var r := CorrectedStreet(streetName);
            Strip(r) == r && r == Join(Words(r), " ")
  {
    var ws := Words(Strip(streetName));
    FixWordsAreWords(ws);
    WordsOfSpaceJoin(FixWords(ws));
    SpaceJoinEnds(FixWords(ws));
    StripUnspaced(CorrectedStreet(streetName));
  }

  /** Correcting a corrected name gives it back, and the flag of that second pass is false. */
  lemma CorrectedStreetIdempotent(streetName: string)
    ensures var r := CorrectedStreet(streetName);
            CorrectedStreet(r) == r && Strip(r) == r
  {
    var ws := Words(Strip(streetName));
    var r := CorrectedStreet(streetName);
    CorrectedStreetNormal(streetName);
    FixWordsAreWords(ws);
    WordsOfSpaceJoin(FixWords(ws));
    assert Words(Strip(r)) == FixWords(ws);
    forall i | 0 <= i < |ws| ensures FixWords(FixWords(ws))[i] == FixWords(ws)[i] {
      FixWordStable(ws[i]);
    }
    assert FixWords(FixWords(ws)) == FixWords(ws);
  }

  /** An empty or all-blank street name corrects to the empty string. */
  lemma CorrectedStreetBlank(streetName: string)
    requires forall i :: 0 <= i < |streetName| ==> IsSpace(streetName[i])
    ensures CorrectedStreet(streetName) == ""
  {
    assert TrimLeft(streetName) == [];
  }

  // ---------------------------------------------------------------------------
  // Postcodes

  /** correct_postcode: a postcode with a hyphen is rejected (None, 1); any other is kept (postcode, 0). */
  function CorrectPostcode(postcode: string): (r: (Option<string>, int))
    ensures r.0.Some? ==> '-' !in r.0.value
    ensures r.1 == 1 <==> r.0 != Some(postcode)
    ensures r.1 == 0 || r.1 == 1
    ensures '-' in postcode ==> r == (None, 1)
    ensures '-' !in postcode ==> r == (Some(postcode), 0)
  {
    if '-' in postcode then (None, 1) else (Some(postcode), 0)
  }

  // ---------------------------------------------------------------------------
  // Phone and fax numbers

  /** re.sub('[^0-9]', '', num): the ASCII digits of the input, in order. */
  function Digits(num: string): string {
    Keep(num, IsDigit)
  }

  /**
   pure_num: keep only the digits; then rewrite a leading "8610" to "86010",
   or else drop one leading "00".
   */
  function PureNum(num: string): (r: string)
    ensures AllDigits(r)
    ensures StartsWith(Digits(num), "8610") ==> r == "86010" + Digits(num)[4..]
    ensures !StartsWith(Digits(num), "8610") && StartsWith(Digits(num), "00") ==> Digits(num) == "00" + r
    ensures !StartsWith(Digits(num), "8610") && !StartsWith(Digits(num), "00") ==> r == Digits(num)
  {
    var d := Digits(num);
    if StartsWith(d, "8610") then "86010" + d[4..]
    else if StartsWith(d, "00") then d[2..]
    else d
  }

  lemma DigitsOfDigits(s: string)
    requires AllDigits(s)
    ensures Digits(s) == s
  {
    KeepAll(s, IsDigit);
  }

  /** A number already rewritten to the "86010" form is left alone by a second pass. */
  lemma PureNumKeepsRewrite(num: string)
    requires StartsWith(Digits(num), "8610")
    ensures PureNum(PureNum(num)) == PureNum(num)
  {
    var r := PureNum(num);
    DigitsOfDigits(r);
    assert r[..4] == "8601";
    assert r[..2] == "86";
  }

  /**
   pure_num is not idempotent: it strips only one leading "00", so a number starting
   "0000" loses two more zeros on a second pass.
   */
  lemma PureNumStripsOneDoubleZero(d: string)
    requires AllDigits(d) && StartsWith(d, "0000")
    ensures PureNum(d) == d[2..]
    ensures PureNum(PureNum(d)) == d[4..] != PureNum(d)
  {
    assert d[..4] == "0000";
    assert d[..2] == "00";
    PureNumDoubleZero(d);
    var rest := d[2..];
    assert rest[..2] == d[2..4] == "00";
    PureNumDoubleZero(rest);
    assert rest[2..] == d[4..];
    assert |d[4..]| < |rest|;
  }

  /** One pass over a digit string starting "00" drops exactly those two zeros. */
  lemma PureNumDoubleZero(d: string)
    requires AllDigits(d) && StartsWith(d, "00")
    ensures AllDigits(d[2..])
    ensures PureNum(d) == d[2..]
  {
    DigitsOfDigits(d);
    assert d[0] == '0';
    assert !StartsWith(d, "8610");
  }

  function PureNums(pieces: seq<string>): seq<string> {
    seq(|pieces|, i requires 0 <= i < |pieces| => PureNum(pieces[i]))
  }

  /** The normalised numbers of the sep-separated pieces of the input, joined by commas. */
  function JoinedNums(allnum: string, sep: string): string
    requires sep != []
  {
    Join(PureNums(Split(allnum, sep)), ",")
  }

  /** for_each_num: accumulate pure_num of each piece followed by a comma, then drop the last comma. */
  method ForEachNum(allnum: string, sep: string) returns (r: string)
    requires sep != []
    ensures r == JoinedNums(allnum, sep)
  {
    var pieces := Split(allnum, sep);
    ghost var nums := PureNums(pieces);
    r := "";
    for i := 0 to |pieces|
      invariant r == Terminated(nums[..i], ",")
    {
      assert nums[..i + 1][..i] == nums[..i];
      r := r + PureNum(pieces[i]) + ",";
    }
    assert nums[..|pieces|] == nums;
    TerminatedJoin(nums, ",");
    DropLastOf(Join(nums, ","), ',');
    r := DropLast(r);
  }

  /**
   The joined numbers split back on commas into the normalised pieces, so the output holds
   exactly one comma per occurrence of the separator, and nothing but digits and commas.
   */
  lemma JoinedNumsRoundTrip(allnum: string, sep: string)
    requires sep != []
    ensures Split(JoinedNums(allnum, sep), ",") == PureNums(Split(allnum, sep))
    ensures Count(JoinedNums(allnum, sep), ",") == Count(allnum, sep)
    ensures forall i :: 0 <= i < |JoinedNums(allnum, sep)| ==>
              IsDigit(JoinedNums(allnum, sep)[i]) || JoinedNums(allnum, sep)[i] == ','
  {
    var nums := PureNums(Split(allnum, sep));
    SplitJoin(nums, ',');
    JoinChars(nums, ',', c => IsDigit(c) || c == ',');
  }

  /** Python 2 integer division: floor division, which Dafny's `/` matches for a positive divisor. */
  function FloorDiv(a: int, b: int): int
    requires b > 0
  {
    a / b
  }

  /**
   correct_number: choose how to cut the input ("  / ", then ";", then the special
   record, then the "/" length ratio, else the whole string), normalise, and report
   whether the result differs from the input. In the special-record branch the value
   is computed into an unused variable, so the result stays the empty string.
   */
  function CorrectNumber(num: string): (r: (string, bool))
    ensures r.1 <==> r.0 != num
    ensures forall i :: 0 <= i < |r.0| ==> IsDigit(r.0[i]) || r.0[i] == ','
  {
    var newNum :=
      if Contains(num, " / ") then JoinedNums(num, " / ")
      else if ';' in num then JoinedNums(num, ";")
      else if Contains(num, "+8610-88087384") && Contains(num, "88086667") then ""
      else if |Split(num, "/")[0]| == FloorDiv(|num| - 1, 2) then JoinedNums(num, "/")
      else PureNum(num);
    assert forall i :: 0 <= i < |newNum| ==> IsDigit(newNum[i]) || newNum[i] == ',' by {
      if Contains(num, " / ") {
        JoinedNumsRoundTrip(num, " / ");
      } else if ';' in num {
        JoinedNumsRoundTrip(num, ";");
      } else if Contains(num, "+8610-88087384") && Contains(num, "88086667") {
      } else if |Split(num, "/")[0]| == FloorDiv(|num| - 1, 2) {
        JoinedNumsRoundTrip(num, "/");
      }
    }
    if num == newNum then (num, false) else (newNum, true)
  }

  /** The special record without " / " or ";" comes out as the empty string, flagged as changed. */
  lemma CorrectNumberSpecialRecord(num: string)
    requires Contains(num, "+8610-88087384") && Contains(num, "88086667")
    requires !Contains(num, " / ") && ';' !in num
    ensures CorrectNumber(num) == ("", true)
  {
    ContainsLength(num, "88086667");
  }

  /** The "/" length-ratio branch can only be taken when the input contains a "/". */
  lemma RatioBranchNeedsSlash(num: string)
    requires '/' !in num
    ensures |Split(num, "/")[0]| != FloorDiv(|num| - 1, 2)
  {
    if Contains(num, "/") {
      ContainsSlash(num);
    }
    SplitAbsent(num, "/");
  }

  lemma {:induction false} ContainsSlash(s: string)
    requires Contains(s, "/")
    ensures '/' in s
    decreases |s|
  {
    if StartsWith(s, "/") {
      assert s[0] == '/';
    } else {
      ContainsSlash(s[1..]);
      var j :| 0 <= j < |s[1..]| && s[1..][j] == '/';
      assert s[j + 1] == '/';
    }
  }

  // ---------------------------------------------------------------------------
  // Audit classification

  /** The three lists of the audit: (original, corrected) pairs for each corrector. */
  datatype Audited = Audited(
    overabbreviated: seq<(string, string)>,
    wrongPostcode: seq<(string, Option<string>)>,
    wrongNumber: seq<(string, string)>)

  /**
   What auditing one tag pair adds: a report only when the matching corrector says it
   changed something. The number corrector is a parameter because the two versions of
   the audit differ only in it.
   */
  function AuditTag(a: Audited, k: string, v: string, fixNumber: string -> (string, bool)): Audited {
    if k == "addr:street" then
      var fixed := CorrectedStreet(v);
      if Strip(v) != fixed then a.(overabbreviated := a.overabbreviated + [(v, fixed)]) else a
    else if k == "addr:postcode" then
      var (fixed, c) := CorrectPostcode(v);
      if c != 0 then a.(wrongPostcode := a.wrongPostcode + [(v, fixed)]) else a
    else if k == "fax" || k == "phone" then
      var (fixed, c) := fixNumber(v);
      if c then a.(wrongNumber := a.wrongNumber + [(v, fixed)]) else a
    else a
  }

  /** The audit of a sequence of tag pairs, in order. */
  function AuditOf(tags: seq<(string, string)>, fixNumber: string -> (string, bool)): Audited {
    if tags == [] then Audited([], [], [])
    else
      var last := tags[|tags| - 1];
      AuditTag(AuditOf(tags[..|tags| - 1], fixNumber), last.0, last.1, fixNumber)
  }

  /** The classification loop of audit, over the tag pairs of the node and way elements in document order. */
  method Audit(tags: seq<(string, string)>) returns (audited: Audited)
    ensures audited == AuditOf(tags, CorrectNumber)
  {
    var streets: seq<(string, string)> := [];
    var postcodes: seq<(string, Option<string>)> := [];
    var numbers: seq<(string, string)> := [];
    for i := 0 to |tags|
      invariant Audited(streets, postcodes, numbers) == AuditOf(tags[..i], CorrectNumber)
    {
      assert tags[..i + 1][..i] == tags[..i];
      var (k, v) := tags[i];
      if k == "addr:street" {
        var fixed, c := CorrectStreetType(v);
        if c {
          streets := streets + [(v, fixed)];
        }
      } else if k == "addr:postcode" {
        var (fixed, c) := CorrectPostcode(v);
        if c != 0 {
          postcodes := postcodes + [(v, fixed)];
        }
      } else if k == "fax" || k == "phone" {
        var (fixed, c) := CorrectNumber(v);
        if c {
          numbers := numbers + [(v, fixed)];
        }
      }
    }
    assert tags[..|tags|] == tags;
    audited := Audited(streets, postcodes, numbers);
  }

  ghost predicate StreetReported(tags: seq<(string, string)>, p: (string, string)) {
    ("addr:street", p.0) in tags && p.1 == CorrectedStreet(p.0) && Strip(p.0) != p.1
  }

  ghost predicate PostcodeReported(tags: seq<(string, string)>, p: (string, Option<string>)) {
    ("addr:postcode", p.0) in tags && p.1 == None && '-' in p.0
  }

  ghost predicate NumberReported(tags: seq<(string, string)>, p: (string, string), fixNumber: string -> (string, bool)) {
    (("fax", p.0) in tags || ("phone", p.0) in tags) && fixNumber(p.0) == (p.1, true)
  }

  /** A street-name report exists exactly for each addr:street tag whose correction changed it. */
  lemma {:induction false} AuditStreetReports(tags: seq<(string, string)>, fixNumber: string -> (string, bool))
    ensures forall p :: p in AuditOf(tags, fixNumber).overabbreviated <==> StreetReported(tags, p)
  {
    if tags != [] {
      var init, last := tags[..|tags| - 1], tags[|tags| - 1];
      AuditStreetReports(init, fixNumber);
      AuditTagStreets(AuditOf(init, fixNumber), last.0, last.1, fixNumber);
      forall p ensures p in AuditOf(tags, fixNumber).overabbreviated <==> StreetReported(tags, p) {
        StreetReportedSnoc(tags, p);
        StreetAddedHolds(last.0, last.1, p);
      }
    }
  }

  /** The street-name report, if any, that auditing the pair (k, v) adds. */
  ghost function StreetAdded(k: string, v: string): seq<(string, string)> {
    var fixed := CorrectedStreet(v);
    if k == "addr:street" && Strip(v) != fixed then [(v, fixed)] else []
  }

  lemma AuditTagStreets(a: Audited, k: string, v: string, fixNumber: string -> (string, bool))
    ensures AuditTag(a, k, v, fixNumber).overabbreviated == a.overabbreviated + StreetAdded(k, v)
  {
  }

  lemma StreetAddedHolds(k: string, v: string, p: (string, string))
    ensures p in StreetAdded(k, v) <==>
              (k, v) == ("addr:street", p.0) && p.1 == CorrectedStreet(p.0) && Strip(p.0) != p.1
  {
  }

  lemma StreetReportedSnoc(tags: seq<(string, string)>, p: (string, string))
    requires tags != []
    ensures var last := tags[|tags| - 1];
            StreetReported(tags, p) <==>
              StreetReported(tags[..|tags| - 1], p) ||
              (last == ("addr:street", p.0) && p.1 == CorrectedStreet(p.0) && Strip(p.0) != p.1)
  {
    assert tags == tags[..|tags| - 1] + [tags[|tags| - 1]];
  }

  /** A postcode report exists exactly for each addr:postcode tag with a hyphen. */
  lemma {:induction false} AuditPostcodeReports(tags: seq<(string, string)>, fixNumber: string -> (string, bool))
    ensures forall p :: p in AuditOf(tags, fixNumber).wrongPostcode <==> PostcodeReported(tags, p)
  {
    if tags != [] {
      var init, last := tags[..|tags| - 1], tags[|tags| - 1];
      AuditPostcodeReports(init, fixNumber);
      assert tags == init + [last];
      forall p ensures p in AuditOf(tags, fixNumber).wrongPostcode <==> PostcodeReported(tags, p) {
        assert ("addr:postcode", p.0) in tags <==> ("addr:postcode", p.0) in init || ("addr:postcode", p.0) == last;
      }
    }
  }

  /** A number report exists exactly for each fax or phone tag whose correction changed it. */
  lemma {:induction false} AuditNumberReports(tags: seq<(string, string)>, fixNumber: string -> (string, bool))
    ensures forall p :: p in AuditOf(tags, fixNumber).wrongNumber <==> NumberReported(tags, p, fixNumber)
  {
    if tags != [] {
      var init, last := tags[..|tags| - 1], tags[|tags| - 1];
      AuditNumberReports(init, fixNumber);
      assert tags == init + [last];
      forall p ensures p in AuditOf(tags, fixNumber).wrongNumber <==> NumberReported(tags, p, fixNumber) {
        assert ("fax", p.0) in tags <==> ("fax", p.0) in init || ("fax", p.0) == last;
        assert ("phone", p.0) in tags <==> ("phone", p.0) in init || ("phone", p.0) == last;
      }
    }
  }
}
