/**
 The older corrector variants (submit/audit.py): the street-type corrector that
 concatenates words with trailing spaces, `purenum` that filters character by
 character with `int(i)`, `foreachnum`, `correct_number` with integer flags, and the
 audit classification loop. `correct_postcode` there is textually the same function
 as in the newer file and is `Corrections.CorrectPostcode`.
 */
module LegacyCorrections {
  import opened Wrappers
  import opened PyStrings
  import Corrections

  /**
   correct_street_type (older): append each corrected word and a space to one string,
   then drop the final character; the flag is 1 when the stripped input changed.
   It computes the same name as the newer list-and-join version.
   */
  method CorrectStreetType(streetName: string) returns (name: string, changed: int)
    ensures name == Corrections.CorrectedStreet(streetName)
    ensures changed == (if Strip(streetName) != name then 1 else 0)
  {
    changed := 0;
    var stripped := Strip(streetName);
    var words := Words(stripped);
    var newwords := FixedWordsTerminated(words);
    ghost var fixed := Corrections.FixWords(words);
    if words != [] {
      TerminatedJoin(fixed, " ");
      DropLastOf(Join(fixed, " "), ' ');
    }
    name := DropLast(newwords);
    if stripped != name {
      changed := 1;
    }
  }

  /** The loop of correct_street_type: each word, expanded if it is an abbreviation, followed by a space. */
  method FixedWordsTerminated(words: seq<string>) returns (newwords: string)
    ensures newwords == Terminated(Corrections.FixWords(words), " ")
  {
    ghost var fixed := Corrections.FixWords(words);
    newwords := "";
    for i := 0 to |words|
      invariant newwords == Terminated(fixed[..i], " ")
    {
      assert fixed[..i + 1][..i] == fixed[..i];
      assert fixed[i] == Corrections.FixWord(words[i]);
      if words[i] in Corrections.StreetMapping {
        newwords := newwords + Corrections.StreetMapping[words[i]] + " ";
      } else {
        newwords := newwords + words[i] + " ";
      }
    }
    assert fixed[..|words|] == fixed;
  }

  /**
   The characters c for which Python 2's `int(c)` succeeds: the ASCII digits and, in a
   unicode string, the fullwidth digits U+FF10 to U+FF19.
   */
  predicate IntAccepts(c: char) {
    IsDigit(c) || '\U{FF10}' <= c <= '\U{FF19}'
  }

  /** On ASCII characters `int()` accepts exactly the digits. */
  lemma IntAcceptsAscii(c: char)
    requires c <= '\U{7F}'
    ensures IntAccepts(c) <==> IsDigit(c)
  {
  }

  /** The prefix rules of purenum: "8610" becomes "86010", "86010" stays, else one leading "00" goes. */
  function Prefixed(d: string): string {
    if StartsWith(d, "8610") then "86010" + d[4..]
    else if StartsWith(d, "86010") then "86010" + d[5..]
    else if StartsWith(d, "00") then d[2..]
    else d
  }

  /** The characters of `num` that `int()` accepts, with the prefix rules of purenum applied. */
  function PureNumOf(num: string): (r: string)
    ensures forall i :: 0 <= i < |r| ==> IntAccepts(r[i])
  {
    Prefixed(Keep(num, IntAccepts))
  }

  /** purenum: keep, in order, each character `int()` accepts; then rewrite the prefix. */
  method PureNum(num: string) returns (r: string)
    ensures r == PureNumOf(num)
  {
    r := IntChars(num);
    HeadStartsWith(r, "8610");
    HeadStartsWith(r, "86010");
    HeadStartsWith(r, "00");
    if Head(r, 4) == "8610" {
      r := "86010" + r[4..];
    } else if Head(r, 5) == "86010" {
      r := "86010" + r[5..];
    } else if Head(r, 2) == "00" {
      r := r[2..];
    }
  }

  /** The loop of purenum: the characters for which `int()` succeeds, in order. */
  method IntChars(num: string) returns (r: string)
    ensures r == Keep(num, IntAccepts)
  {
    r := "";
    for i := 0 to |num|
      invariant r == Keep(num[..i], IntAccepts)
    {
      assert num[..i + 1][..i] == num[..i];
      if IntAccepts(num[i]) {
        r := r + [num[i]];
      }
    }
    assert num[..|num|] == num;
  }

  /** A number already starting with "86010" is left as its accepted characters. */
  lemma PureNumKeeps86010(num: string)
    requires StartsWith(Keep(num, IntAccepts), "86010")
    ensures PureNumOf(num) == Keep(num, IntAccepts)
  {
    var d := Keep(num, IntAccepts);
    assert d[..4] == "8601";
    assert "86010" + d[5..] == d[..5] + d[5..];
  }

  lemma {:induction false} KeepAgrees(s: string)
    requires forall i :: 0 <= i < |s| ==> !('\U{FF10}' <= s[i] <= '\U{FF19}')
    ensures Keep(s, IntAccepts) == Keep(s, IsDigit)
  {
    if s != [] {
      KeepAgrees(s[..|s| - 1]);
    }
  }

  /** Without fullwidth digits, the older purenum and the newer pure_num compute the same number. */
  lemma PureNumAgrees(num: string)
    requires forall i :: 0 <= i < |num| ==> !('\U{FF10}' <= num[i] <= '\U{FF19}')
    ensures PureNumOf(num) == Corrections.PureNum(num)
  {
    KeepAgrees(num);
    var d := Keep(num, IsDigit);
    assert Corrections.Digits(num) == d;
    if !StartsWith(d, "8610") && StartsWith(d, "86010") {
      assert d[..4] == "8601" && d[0] == '8';
      assert !StartsWith(d, "00");
      assert "86010" + d[5..] == d[..5] + d[5..] == d;
    }
  }

  function PureNumsOf(pieces: seq<string>): seq<string> {
    seq(|pieces|, i requires 0 <= i < |pieces| => PureNumOf(pieces[i]))
  }

  /** The purenum of each sep-separated piece, joined by commas. */
  function JoinedNumsOf(allnum: string, sep: string): string
    requires sep != []
  {
    Join(PureNumsOf(Split(allnum, sep)), ",")
  }

  /** foreachnum: accumulate purenum of each piece followed by a comma, then drop the last comma. */
  method ForEachNum(allnum: string, sep: string) returns (r: string)
    requires sep != []
    ensures r == JoinedNumsOf(allnum, sep)
  {
    var pieces := Split(allnum, sep);
    ghost var nums := PureNumsOf(pieces);
    r := "";
    for i := 0 to |pieces|
      invariant r == Terminated(nums[..i], ",")
    {
      assert nums[..i + 1][..i] == nums[..i];
      var n := PureNum(pieces[i]);
      r := r + n + ",";
    }
    assert nums[..|pieces|] == nums;
    TerminatedJoin(nums, ",");
    DropLastOf(Join(nums, ","), ',');
    r := DropLast(r);
  }

  /** The joined numbers split back on commas into the normalised pieces. */
  lemma JoinedNumsOfRoundTrip(allnum: string, sep: string)
    requires sep != []
    ensures Split(JoinedNumsOf(allnum, sep), ",") == PureNumsOf(Split(allnum, sep))
    ensures Count(JoinedNumsOf(allnum, sep), ",") == Count(allnum, sep)
    ensures forall i :: 0 <= i < |JoinedNumsOf(allnum, sep)| ==>
              IntAccepts(JoinedNumsOf(allnum, sep)[i]) || JoinedNumsOf(allnum, sep)[i] == ','
  {
    var nums := PureNumsOf(Split(allnum, sep));
    SplitJoin(nums, ',');
    JoinChars(nums, ',', c => IntAccepts(c) || c == ',');
  }

  /**
   correct_number (older): the same choice of cut as the newer version, with integer
   flags; in the special-record branch the value goes to an unused variable and the
   result stays the empty string.
   */
  function CorrectNumber(num: string): (r: (string, int))
    ensures r.1 == 0 || r.1 == 1
    ensures r.1 == 1 <==> r.0 != num
    ensures forall i :: 0 <= i < |r.0| ==> IntAccepts(r.0[i]) || r.0[i] == ','
  {
    var newnum :=
      if Contains(num, " / ") then JoinedNumsOf(num, " / ")
      else if ';' in num then JoinedNumsOf(num, ";")
      else if Contains(num, "+8610-88087384") && Contains(num, "88086667") then ""
      else if |Split(num, "/")[0]| == Corrections.FloorDiv(|num| - 1, 2) then JoinedNumsOf(num, "/")
      else PureNumOf(num);
    assert forall i :: 0 <= i < |newnum| ==> IntAccepts(newnum[i]) || newnum[i] == ',' by {
      if Contains(num, " / ") {
        JoinedNumsOfRoundTrip(num, " / ");
      } else if ';' in num {
        JoinedNumsOfRoundTrip(num, ";");
      } else if Contains(num, "+8610-88087384") && Contains(num, "88086667") {
      } else if |Split(num, "/")[0]| == Corrections.FloorDiv(|num| - 1, 2) {
        JoinedNumsOfRoundTrip(num, "/");
      }
    }
    if num == newnum then (num, 0) else (newnum, 1)
  }

  /** The special record without " / " or ";" comes out as ('', 1). */
  lemma CorrectNumberSpecialRecord(num: string)
    requires Contains(num, "+8610-88087384") && Contains(num, "88086667")
    requires !Contains(num, " / ") && ';' !in num
    ensures CorrectNumber(num) == ("", 1)
  {
    ContainsLength(num, "88086667");
  }

  /** The older corrector seen as the audit sees it: a value and whether the flag is set. */
  function NumberFix(num: string): (string, bool) {
    var (fixed, c) := CorrectNumber(num);
    (fixed, c != 0)
  }

  /** The classification loop of the older audit, over the tag pairs of the node and way elements in document order. */
  method Audit(tags: seq<(string, string)>) returns (audited: Corrections.Audited)
    ensures audited == Corrections.AuditOf(tags, NumberFix)
  {
    var overabbreviated: seq<(string, string)> := [];
    var wrongpostcode: seq<(string, Option<string>)> := [];
    var wrongnumber: seq<(string, string)> := [];
    for i := 0 to |tags|
      invariant Corrections.Audited(overabbreviated, wrongpostcode, wrongnumber) == Corrections.AuditOf(tags[..i], NumberFix)
    {
      assert tags[..i + 1][..i] == tags[..i];
      var (k, v) := tags[i];
      if k == "addr:street" {
        var fixed, c := CorrectStreetType(v);
        if c != 0 {
          overabbreviated := overabbreviated + [(v, fixed)];
        }
      } else if k == "addr:postcode" {
        var (fixed, c) := Corrections.CorrectPostcode(v);
        if c != 0 {
          wrongpostcode := wrongpostcode + [(v, fixed)];
        }
      } else if k == "fax" || k == "phone" {
        var (fixed, c) := CorrectNumber(v);
        if c != 0 {
          wrongnumber := wrongnumber + [(v, fixed)];
        }
      }
    }
    assert tags[..|tags|] == tags;
    audited := Corrections.Audited(overabbreviated, wrongpostcode, wrongnumber);
  }
}
