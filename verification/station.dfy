/** `chars_to_str` and `station`: station identifiers stored as rows of
    single characters, joined and stripped of surrounding whitespace. */
module Station {
  import opened Outcomes
  import opened Grid

  /** Python's `str.isspace`: the characters `str.strip()` removes. */
  predicate IsSpace(c: char) {
    || '\t' <= c <= '\r'
    || '\U{1C}' <= c <= ' '
    || c == '\U{85}' || c == '\U{A0}' || c == '\U{1680}'
    || '\U{2000}' <= c <= '\U{200A}'
    || c == '\U{2028}' || c == '\U{2029}' || c == '\U{202F}'
    || c == '\U{205F}' || c == '\U{3000}'
  }

  predicate AllSpace(s: string) {
    forall k :: 0 <= k < |s| ==> IsSpace(s[k])
  }

  /** Neither starts nor ends with whitespace. */
  predicate Trimmed(r: string) {
    |r| == 0 || (!IsSpace(r[0]) && !IsSpace(r[|r| - 1]))
  }

  /** `r` is `s` with its leading and trailing whitespace removed: a
      contiguous piece of `s`, with only whitespace around it in `s`, and no
      whitespace at its own ends. */
  ghost predicate IsStripOf(r: string, s: string) {
    exists lo: nat, hi: nat ::
      && lo <= hi <= |s|
      && r == s[lo..hi]
      && AllSpace(s[..lo])
      && AllSpace(s[hi..])
      && Trimmed(r)
  }

  /** The length of the whitespace run at the start of `s`. */
  function LeadingSpaces(s: string): (n: nat)
    ensures n <= |s|
    ensures AllSpace(s[..n])
    ensures n < |s| ==> !IsSpace(s[n])
  {
    if |s| == 0 || !IsSpace(s[0]) then 0
    else
      var n := 1 + LeadingSpaces(s[1..]);
      assert s[..n] == [s[0]] + s[1..][..n - 1];
      n
  }

  /** The length of the whitespace run at the end of `s`. */
  function TrailingSpaces(s: string): (n: nat)
    ensures n <= |s|
    ensures AllSpace(s[|s| - n..])
    ensures n < |s| ==> !IsSpace(s[|s| - n - 1])
  {
    if |s| == 0 || !IsSpace(s[|s| - 1]) then 0
    else
      var init := s[..|s| - 1];
      var n := 1 + TrailingSpaces(init);
      assert s[|s| - n..] == init[|init| - (n - 1)..] + [s[|s| - 1]];
      n
  }

  /** `str.strip()`: from the first to the last non-whitespace character,
      or nothing when there is none. */
  function Strip(s: string): (r: string)
    ensures IsStripOf(r, s)
  {
    var lo := LeadingSpaces(s);
    var hi := |s| - TrailingSpaces(s);
    if hi <= lo then
      SpaceSuffix(s, hi, lo);
      assert s[lo..lo] == [];
      []
    else
      assert s[lo..hi][0] == s[lo] && s[lo..hi][hi - lo - 1] == s[hi - 1];
      s[lo..hi]
  }

  /** A suffix of a whitespace-only suffix is whitespace only. */
  lemma SpaceSuffix(s: string, hi: nat, lo: nat)
    requires hi <= lo <= |s| && AllSpace(s[hi..])
    ensures AllSpace(s[lo..])
  {
    forall k | 0 <= k < |s| - lo ensures IsSpace(s[lo..][k]) {
      assert s[lo..][k] == s[hi..][k + lo - hi];
    }
  }

  /** A non-whitespace character with only whitespace before it is where the
      leading run ends. */
  lemma LeadingUnique(s: string, lo: nat)
    requires lo < |s| && AllSpace(s[..lo]) && !IsSpace(s[lo])
    ensures LeadingSpaces(s) == lo
  {
    var n := LeadingSpaces(s);
    if n > lo {
      assert false;
    } else if n < lo {
      assert false;
    }
  }

  /** A non-whitespace character with only whitespace after it is where the
      trailing run starts. */
  lemma TrailingUnique(s: string, hi: nat)
    requires 0 < hi <= |s| && AllSpace(s[hi..]) && !IsSpace(s[hi - 1])
    ensures |s| - TrailingSpaces(s) == hi
  {
    var n := TrailingSpaces(s);
    if |s| - n < hi {
      assert false;
    } else if |s| - n > hi {
      assert false;
    }
  }

  /** A string of whitespace only is all leading run. */
  lemma LeadingAllSpace(s: string)
    requires AllSpace(s)
    ensures LeadingSpaces(s) == |s|
  {
    var n := LeadingSpaces(s);
    if n < |s| {
      assert false;
    }
  }

  /** Only one string is the strip of `s`. */
  lemma StripUnique(r: string, s: string)
    requires IsStripOf(r, s)
    ensures r == Strip(s)
  {
    var lo: nat, hi: nat :| && lo <= hi <= |s| && r == s[lo..hi] && AllSpace(s[..lo])
                            && AllSpace(s[hi..]) && Trimmed(r);
    if lo == hi {
      assert AllSpace(s) by {
        forall k | 0 <= k < |s| ensures IsSpace(s[k]) {
          if k < lo {
            assert s[..lo][k] == s[k];
          } else {
            assert s[hi..][k - hi] == s[k];
          }
        }
      }
      LeadingAllSpace(s);
    } else {
      assert r[0] == s[lo] && r[|r| - 1] == s[hi - 1];
      LeadingUnique(s, lo);
      TrailingUnique(s, hi);
    }
  }

  /** A string without whitespace at its ends is its own strip. */
  lemma StripTrimmed(r: string)
    requires Trimmed(r)
    ensures Strip(r) == r
  {
    assert r[0..|r|] == r;
    assert AllSpace(r[..0]) && AllSpace(r[|r|..]);
    StripUnique(r, r);
  }

  /** Stripping twice changes nothing more. */
  lemma StripIdempotent(s: string)
    ensures Strip(Strip(s)) == Strip(s)
  {
    var r := Strip(s);
    var lo: nat, hi: nat :| && lo <= hi <= |s| && r == s[lo..hi] && AllSpace(s[..lo])
                            && AllSpace(s[hi..]) && Trimmed(r);
    StripTrimmed(r);
  }

  /** `chars_to_str(chars)`: `''.join(chars.astype(str)).strip()`, the
      entries of `chars` being the one-character (or empty) strings numpy
      yields for a character row. */
  function CharsToStr(chars: seq<string>): (r: string)
    ensures IsStripOf(r, Flatten(chars))
  {
    Strip(Flatten(chars))
  }

  /** `station(data)` as intended: one stripped name per row of
      `Station_ID`; numpy refuses to iterate over zero rows. */
  function Station(rows: seq<seq<string>>): (r: Result<seq<string>>)
    ensures r.Ok? <==> |rows| > 0
    ensures r.Err? ==> r.error == EmptyIteration
    ensures r.Ok? ==> (|r.value| == |rows| &&
                       forall k :: 0 <= k < |rows| ==> IsStripOf(r.value[k], Flatten(rows[k])))
  {
    if |rows| == 0 then Err(EmptyIteration)
    else Ok(seq(|rows|, k requires 0 <= k < |rows| => CharsToStr(rows[k])))
  }

  function Min(a: nat, b: nat): nat {
    if a <= b then a else b
  }

  /** The first `width` characters of `s`: what a numpy string array of
      item size `width` keeps of `s` on assignment. */
  function Truncate(s: string, width: nat): (t: string)
    ensures t <= s && |t| == Min(|s|, width)
  {
    if |s| <= width then s else s[..width]
  }

  /** `np.apply_along_axis` sizes its output from the first row's result: a
      string array of item size `max(1, len(first))`. */
  function FirstWidth(rows: seq<seq<string>>): nat
    requires |rows| > 0
  {
    var w := |CharsToStr(rows[0])|;
    if w == 0 then 1 else w
  }

  /** `station(data)` as written: every name is cut to the width of the
      first row's name. */
  function StationAsWritten(rows: seq<seq<string>>): (r: Result<seq<string>>)
    ensures r.Ok? <==> |rows| > 0
    ensures r.Err? ==> r.error == EmptyIteration
    ensures r.Ok? ==> (|r.value| == |rows| &&
                       forall k :: 0 <= k < |rows| ==>
                         && r.value[k] <= CharsToStr(rows[k])
                         && |r.value[k]| == Min(|CharsToStr(rows[k])|, FirstWidth(rows)))
  {
    if |rows| == 0 then Err(EmptyIteration)
    else
      var width := FirstWidth(rows);
      Ok(seq(|rows|, k requires 0 <= k < |rows| => Truncate(CharsToStr(rows[k]), width)))
  }

  /** The written version agrees with the intended one exactly when no
      stripped name is longer than the first row's result width. */
  lemma StationAsWrittenAgreesIff(rows: seq<seq<string>>)
    requires |rows| > 0
    ensures StationAsWritten(rows) == Station(rows) <==>
              forall k :: 0 <= k < |rows| ==> |CharsToStr(rows[k])| <= FirstWidth(rows)
  {
    var width := FirstWidth(rows);
    var w, s := StationAsWritten(rows).value, Station(rows).value;
    if forall k :: 0 <= k < |rows| ==> |CharsToStr(rows[k])| <= width {
      assert w == s;
    } else {
      var k :| 0 <= k < |rows| && |CharsToStr(rows[k])| > width;
      assert |w[k]| == width < |s[k]|;
    }
  }

  /** The stripped names of the two character rows of the example below. */
  lemma ExampleNames()
    ensures CharsToStr(["A", " "]) == "A"
    ensures CharsToStr(["B", "C"]) == "BC"
  {
    var first, second := ["A", " "], ["B", "C"];
    assert Flatten(first) == "A " by {
      assert Flatten(first) == "A" + Flatten(first[1..]);
      assert Flatten(first[1..]) == " " + Flatten(first[2..]);
    }
    assert Flatten(second) == "BC" by {
      assert Flatten(second) == "B" + Flatten(second[1..]);
      assert Flatten(second[1..]) == "C" + Flatten(second[2..]);
    }
    var joined := "A ";
    assert IsStripOf("A", joined) by {
      assert joined[0..1] == "A" && joined[1..] == " ";
      assert AllSpace(joined[..0]) && AllSpace(joined[1..]);
    }
    StripUnique("A", joined);
    StripTrimmed("BC");
  }

  /** A second station longer than the first is cut short: the character
      rows `["A", " "]` and `["B", "C"]` give `"A"` and `"B"` instead of
      `"A"` and `"BC"`. */
  lemma StationAsWrittenTruncates()
    ensures StationAsWritten([["A", " "], ["B", "C"]]) == Ok(["A", "B"])
    ensures Station([["A", " "], ["B", "C"]]) == Ok(["A", "BC"])
  {
    var rows := [["A", " "], ["B", "C"]];
    ExampleNames();
    assert CharsToStr(rows[0]) == "A" && CharsToStr(rows[1]) == "BC";
    assert FirstWidth(rows) == 1;
    var w := StationAsWritten(rows).value;
    assert w[0] == Truncate("A", 1) == "A";
    assert w[1] == Truncate("BC", 1) == "B";
    assert w == ["A", "B"];
    var v := Station(rows).value;
    assert v[0] == "A" && v[1] == "BC";
    assert v == ["A", "BC"];
  }
}
