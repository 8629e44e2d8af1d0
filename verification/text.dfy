/** The handful of JavaScript string operations the components rely on:
    truthiness of optional strings, `||` defaulting, `trim`, ASCII case
    mapping and `includes`. */
module Text {
  import opened Wrappers

  /** JavaScript truthiness of an optional string: present and non-empty. */
  predicate Truthy(s: Option<string>) {
    s.Some? && s.value != ""
  }

  /** JavaScript `a || b` on optional strings: the first operand when it is
      truthy, otherwise the second. */
  function OrElse(a: Option<string>, b: Option<string>): (r: Option<string>)
    ensures Truthy(r) <==> Truthy(a) || Truthy(b)
    ensures r == a || r == b
  {
    if Truthy(a) then a else b
  }

  /** What `a || b || … || fallback` evaluates to, stated without `OrElse`:
      the value of the earliest truthy candidate, or the fallback when none
      is truthy. */
  predicate IsFirstTruthy(cands: seq<Option<string>>, fallback: string, r: string) {
    || (exists i :: 0 <= i < |cands| && Truthy(cands[i]) && r == cands[i].value &&
                    forall j :: 0 <= j < i ==> !Truthy(cands[j]))
    || ((forall i :: 0 <= i < |cands| ==> !Truthy(cands[i])) && r == fallback)
  }

  /** The candidates and the fallback determine the value. */
  lemma FirstTruthyIsUnique(cands: seq<Option<string>>, fallback: string, r1: string, r2: string)
    requires IsFirstTruthy(cands, fallback, r1) && IsFirstTruthy(cands, fallback, r2)
    ensures r1 == r2
  {
    if exists i :: 0 <= i < |cands| && Truthy(cands[i]) {
      var i :| 0 <= i < |cands| && Truthy(cands[i]) && r1 == cands[i].value &&
               forall j :: 0 <= j < i ==> !Truthy(cands[j]);
      var k :| 0 <= k < |cands| && Truthy(cands[k]) && r2 == cands[k].value &&
               forall j :: 0 <= j < k ==> !Truthy(cands[j]);
      assert i == k;
    }
  }

  /** JavaScript `a || ''` on an optional string. */
  function OrEmpty(a: Option<string>): (r: string)
    ensures r != "" <==> Truthy(a)
  {
    match a
    case Some(v) => v
    case None => ""
  }

  /** JavaScript truthiness of an optional number: present and non-zero
      (NaN is not modelled). */
  function NumOr(a: Option<real>, default: real): (r: real)
    ensures a.Some? && a.value != 0.0 ==> r == a.value
    ensures (a.None? || a.value == 0.0) ==> r == default
  {
    if a.Some? && a.value != 0.0 then a.value else default
  }

  /** The text of a form input together with the number the JavaScript
      runtime reads from it (`None` when the reading is NaN). */
  datatype NumericText = NumericText(text: string, number: Option<real>) {

    /** The input is accepted by the components' `!x || isNaN(x)` test:
        non-empty and numeric. */
    predicate IsValidNumber() {
      text != "" && number.Some?
    }
  }

  // ---------------------------------------------------------------------
  // Whitespace and trim
  // ---------------------------------------------------------------------

  /** The characters ECMAScript's `String.prototype.trim` removes: the
      WhiteSpace code points (tab, vertical tab, form feed, BOM and the
      Unicode space separators) and the LineTerminator code points. */
  predicate IsWhitespace(c: char) {
    var n := c as int;
    || n == 0x09 || n == 0x0B || n == 0x0C || n == 0x20 || n == 0xA0 || n == 0xFEFF
    || n == 0x1680 || (0x2000 <= n <= 0x200A) || n == 0x202F || n == 0x205F || n == 0x3000
    || n == 0x0A || n == 0x0D || n == 0x2028 || n == 0x2029
  }

  /** Every character of `s` is whitespace (so `s.trim()` is empty). */
  predicate IsBlank(s: string) {
    forall i :: 0 <= i < |s| ==> IsWhitespace(s[i])
  }

  /** Removes the leading whitespace of `s`. */
  function TrimStart(s: string): (r: string)
    ensures |r| <= |s| && r == s[|s| - |r|..]
    ensures forall i :: 0 <= i < |s| - |r| ==> IsWhitespace(s[i])
    ensures r != [] ==> !IsWhitespace(r[0])
    decreases |s|
  {
    if |s| > 0 && IsWhitespace(s[0]) then TrimStart(s[1..]) else s
  }

  /** Removes the trailing whitespace of `s`. */
  function TrimEnd(s: string): (r: string)
    ensures |r| <= |s| && r == s[..|r|]
    ensures forall i :: |r| <= i < |s| ==> IsWhitespace(s[i])
    ensures r != [] ==> !IsWhitespace(r[|r| - 1])
    decreases |s|
  {
    if |s| > 0 && IsWhitespace(s[|s| - 1]) then TrimEnd(s[..|s| - 1]) else s
  }

  /** JavaScript `s.trim()`. */
  function Trim(s: string): string {
    TrimEnd(TrimStart(s))
  }

  /** Trimming the start of an all-whitespace string leaves nothing. */
  lemma {:induction false} BlankTrimsToEmpty(s: string)
    requires IsBlank(s)
    ensures TrimStart(s) == ""
    decreases |s|
  {
    if |s| > 0 {
      assert IsBlank(s[1..]) by {
        forall i | 0 <= i < |s[1..]|
          ensures IsWhitespace(s[1..][i])
        {
          assert s[1..][i] == s[i + 1];
        }
      }
      BlankTrimsToEmpty(s[1..]);
    }
  }

  /** `s.trim()` is empty exactly when `s` consists of whitespace only. */
  lemma TrimEmptyIffBlank(s: string)
    ensures Trim(s) == "" <==> IsBlank(s)
  {
    var a := TrimStart(s);
    if IsBlank(s) {
      BlankTrimsToEmpty(s);
    }
    if Trim(s) == "" {
      assert a == [];
    }
  }

  /** JavaScript `!s.trim()`: the text is empty once trimmed, which is to
      say it is blank. */
  function TrimsToEmpty(s: string): (b: bool)
    ensures b <==> IsBlank(s)
  {
    TrimEmptyIffBlank(s);
    Trim(s) == ""
  }

  /** Every character is an ASCII decimal digit. */
  predicate AllDigits(s: string) {
    forall i :: 0 <= i < |s| ==> '0' <= s[i] <= '9'
  }

  // ---------------------------------------------------------------------
  // Case mapping (ASCII letters only)
  // ---------------------------------------------------------------------

  function LowerChar(c: char): char {
    if 'A' <= c <= 'Z' then (c as int + 32) as char else c
  }

  function UpperChar(c: char): char {
    if 'a' <= c <= 'z' then (c as int - 32) as char else c
  }

  /** JavaScript `s.toLowerCase()`, restricted to ASCII letters. */
  function ToLower(s: string): (r: string)
    ensures |r| == |s|
    ensures forall i :: 0 <= i < |s| ==> r[i] == LowerChar(s[i])
  {
    seq(|s|, i requires 0 <= i < |s| => LowerChar(s[i]))
  }

  /** JavaScript `s.toUpperCase()`, restricted to ASCII letters. */
  function ToUpper(s: string): (r: string)
    ensures |r| == |s|
    ensures forall i :: 0 <= i < |s| ==> r[i] == UpperChar(s[i])
  {
    seq(|s|, i requires 0 <= i < |s| => UpperChar(s[i]))
  }

  /** Lower-casing twice is lower-casing once. */
  lemma ToLowerIdempotent(s: string)
    ensures ToLower(ToLower(s)) == ToLower(s)
  {
    assert forall i :: 0 <= i < |s| ==> LowerChar(LowerChar(s[i])) == LowerChar(s[i]);
  }

  // ---------------------------------------------------------------------
  // Substring search
  // ---------------------------------------------------------------------

  predicate IsPrefix(p: string, s: string) {
    |p| <= |s| && s[..|p|] == p
  }

  /** JavaScript `s.includes(t)`. */
  predicate Contains(s: string, t: string)
    decreases |s|
  {
    IsPrefix(t, s) || (|s| > 0 && Contains(s[1..], t))
  }

  /** `t` occurs in `s` starting at position `i`. */
  predicate OccursAt(s: string, t: string, i: int) {
    0 <= i <= |s| - |t| && s[i..i + |t|] == t
  }

  /** An inclusion found by `Contains` has a position. */
  lemma {:induction false} ContainsHasPosition(s: string, t: string)
    requires Contains(s, t)
    ensures exists i :: OccursAt(s, t, i)
    decreases |s|
  {
    if IsPrefix(t, s) {
      assert OccursAt(s, t, 0);
    } else {
      ContainsHasPosition(s[1..], t);
      var j :| OccursAt(s[1..], t, j);
      assert s[j + 1..j + 1 + |t|] == s[1..][j..j + |t|];
      assert OccursAt(s, t, j + 1);
    }
  }

  /** An occurrence at any position is found by `Contains`. */
  lemma {:induction false} PositionIsContained(s: string, t: string, i: int)
    requires OccursAt(s, t, i)
    ensures Contains(s, t)
    decreases i
  {
    if i == 0 {
      assert s[..|t|] == s[i..i + |t|];
    } else {
      assert s[1..][i - 1..i - 1 + |t|] == s[i..i + |t|];
      PositionIsContained(s[1..], t, i - 1);
    }
  }

  /** `Contains` agrees with the positional definition of a substring. */
  lemma ContainsIffOccurs(s: string, t: string)
    ensures Contains(s, t) <==> exists i :: OccursAt(s, t, i)
  {
    if Contains(s, t) {
      ContainsHasPosition(s, t);
    }
    if exists i :: OccursAt(s, t, i) {
      var i :| OccursAt(s, t, i);
      PositionIsContained(s, t, i);
    }
  }

  /** Every string includes the empty string, so an empty search term
      keeps every entry. */
  lemma {:induction false} ContainsEmpty(s: string)
    ensures Contains(s, "")
  {
    assert IsPrefix("", s);
  }

  /** `(field || '').toLowerCase().includes(term.toLowerCase())`, the
      search test of the admin lists. */
  predicate MatchesIgnoringCase(field: Option<string>, term: string) {
    Contains(ToLower(OrEmpty(field)), ToLower(term))
  }

  /** An entry matches a term when the term occurs in the entry's field
      once both are lower-cased. */
  lemma MatchIsOccurrence(field: Option<string>, term: string)
    ensures MatchesIgnoringCase(field, term) <==>
              exists i :: OccursAt(ToLower(OrEmpty(field)), ToLower(term), i)
  {
    ContainsIffOccurs(ToLower(OrEmpty(field)), ToLower(term));
  }

  /** A field that matches a term matches every prefix of that term. */
  lemma PrefixTermMatches(field: Option<string>, term: string, more: string)
    requires MatchesIgnoringCase(field, term + more)
    ensures MatchesIgnoringCase(field, term)
  {
    var v := ToLower(OrEmpty(field));
    var t := ToLower(term + more);
    ContainsHasPosition(v, t);
    var k :| OccursAt(v, t, k);
    assert t[..|term|] == ToLower(term);
    assert v[k..k + |term|] == ToLower(term);
    PositionIsContained(v, ToLower(term), k);
  }
}
