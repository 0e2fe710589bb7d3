/**
 * String helpers with the JavaScript meaning the application relies on:
 * `String.prototype.trim`, `toUpperCase`, `toLowerCase`, `includes`, and
 * the truthiness of a string (only the empty string is falsy).
 */
module Text {

  import opened Wrappers

  /** JavaScript's WhiteSpace and LineTerminator code points, which `trim` removes. */
  predicate IsWhitespace(c: char) {
    || c == '\t' || c == '\n' || c == '\U{000B}' || c == '\U{000C}' || c == '\r'
    || c == ' ' || c == '\U{00A0}' || c == '\U{1680}'
    || ('\U{2000}' <= c <= '\U{200A}')
    || c == '\U{2028}' || c == '\U{2029}' || c == '\U{202F}' || c == '\U{205F}'
    || c == '\U{3000}' || c == '\U{FEFF}'
  }

  predicate AllWhitespace(s: string) {
    forall i :: 0 <= i < |s| ==> IsWhitespace(s[i])
  }

  /** How many white-space characters `s` starts with. */
  function LeadingWhitespace(s: string): (n: nat)
    ensures n <= |s|
    ensures forall k :: 0 <= k < n ==> IsWhitespace(s[k])
    ensures n < |s| ==> !IsWhitespace(s[n])
  {
    if s == [] || !IsWhitespace(s[0]) then 0
    else
      var n := LeadingWhitespace(s[1..]);
      assert forall k :: 1 <= k <= n && k < |s| ==> s[k] == s[1..][k - 1];
      1 + n
  }

  /** Where the trailing white space of `s` starts. */
  function ContentEnd(s: string): (e: nat)
    ensures e <= |s|
    ensures forall k :: e <= k < |s| ==> IsWhitespace(s[k])
    ensures e > 0 ==> !IsWhitespace(s[e - 1])
  {
    if s == [] || !IsWhitespace(s[|s| - 1]) then |s|
    else ContentEnd(s[..|s| - 1])
  }

  /** The leading white space is the run before the first other character. */
  lemma {:induction false} LeadingUnique(s: string, n: nat)
    requires n <= |s| && (forall k :: 0 <= k < n ==> IsWhitespace(s[k]))
    requires n < |s| ==> !IsWhitespace(s[n])
    ensures LeadingWhitespace(s) == n
  {
  }

  /** The trailing white space is the run after the last other character. */
  lemma {:induction false} ContentEndUnique(s: string, e: nat)
    requires e <= |s| && (forall k :: e <= k < |s| ==> IsWhitespace(s[k]))
    requires e > 0 ==> !IsWhitespace(s[e - 1])
    ensures ContentEnd(s) == e
  {
  }

  /** Neither end of `s` is white space: what `trim` leaves. */
  predicate IsTrimmed(s: string) {
    s == [] || (!IsWhitespace(s[0]) && !IsWhitespace(s[|s| - 1]))
  }

  /**
   * `s.trim()`: the part of `s` between its leading and its trailing white
   * space. Everything cut off is white space and neither end of what is
   * left is.
   */
  function Trim(s: string): (r: string)
    ensures var i := LeadingWhitespace(s);
            && i + |r| <= |s| && r == s[i..i + |r|]
            && forall k :: 0 <= k < |s| && !(i <= k < i + |r|) ==> IsWhitespace(s[k])
    ensures IsTrimmed(r)
  {
    var i := LeadingWhitespace(s);
    var t := s[i..];
    TrimCutSlice(s);
    TrimCutOutside(s);
    TrimCutEnds(s);
    t[..ContentEnd(t)]
  }

  lemma {:induction false} TrimCutSlice(s: string)
    ensures var i := LeadingWhitespace(s);
            var t := s[i..];
            t[..ContentEnd(t)] == s[i..i + ContentEnd(t)]
  {
  }

  lemma {:induction false} TrimCutOutside(s: string)
    ensures var i := LeadingWhitespace(s);
            var e := ContentEnd(s[i..]);
            forall k :: 0 <= k < |s| && !(i <= k < i + e) ==> IsWhitespace(s[k])
  {
    var i := LeadingWhitespace(s);
    var t := s[i..];
    assert forall k :: i <= k < |s| ==> s[k] == t[k - i];
  }

  lemma {:induction false} TrimCutEnds(s: string)
    ensures var t := s[LeadingWhitespace(s)..];
            IsTrimmed(t[..ContentEnd(t)])
  {
    var i := LeadingWhitespace(s);
    var t := s[i..];
    var e := ContentEnd(t);
    if e > 0 {
      assert t[0] == s[i];
    }
  }

  /** `trim` leaves a string unchanged exactly when neither of its ends is white space. */
  lemma {:induction false} TrimFixesExactlyTrimmed(s: string)
    ensures Trim(s) == s <==> IsTrimmed(s)
  {
    if IsTrimmed(s) && s != [] {
      assert LeadingWhitespace(s) == 0;
      assert ContentEnd(s) == |s|;
    }
  }

  /** A string is blank when `trim` leaves nothing of it. */
  lemma {:induction false} TrimEmptyIffBlank(s: string)
    ensures Trim(s) == [] <==> AllWhitespace(s)
  {
    if AllWhitespace(s) {
      LeadingUnique(s, |s|);
    }
  }

  /** JavaScript truthiness of a string: only `""` is falsy. */
  predicate Truthy(s: string) { s != "" }

  /** Truthiness of an optional string field: absent, `null` and `""` are falsy. */
  predicate TruthyStr(x: Option<string>) {
    x.Some? && x.value != ""
  }

  /** Truthiness of an optional number field: absent, `null` and 0 are falsy. */
  predicate TruthyNum(x: Option<int>) {
    x.Some? && x.value != 0
  }

  /** Upper-cases the ASCII letters (`toUpperCase` restricted to ASCII). */
  function UpperChar(c: char): char {
    if 'a' <= c <= 'z' then (c as int - 32) as char else c
  }

  function LowerChar(c: char): char {
    if 'A' <= c <= 'Z' then (c as int + 32) as char else c
  }

  function ToUpper(s: string): (r: string)
    ensures |r| == |s|
    ensures forall i :: 0 <= i < |s| ==> r[i] == UpperChar(s[i])
  {
    if s == [] then [] else [UpperChar(s[0])] + ToUpper(s[1..])
  }

  function ToLower(s: string): (r: string)
    ensures |r| == |s|
    ensures forall i :: 0 <= i < |s| ==> r[i] == LowerChar(s[i])
  {
    if s == [] then [] else [LowerChar(s[0])] + ToLower(s[1..])
  }

  /** Upper-casing a string that is already upper-cased changes nothing. */
  lemma {:induction false} ToUpperIdempotent(s: string)
    ensures ToUpper(ToUpper(s)) == ToUpper(s)
  {
    assert forall i :: 0 <= i < |s| ==> UpperChar(UpperChar(s[i])) == UpperChar(s[i]);
  }


  lemma {:induction false} UpperCharKeepsWhitespace(c: char)
    ensures IsWhitespace(UpperChar(c)) == IsWhitespace(c)
  {
  }

  /** Case changes leave white space where it is, so they commute with `trim`. */
  lemma {:induction false} TrimToUpper(s: string)
    ensures Trim(ToUpper(s)) == ToUpper(Trim(s))
  {
    var i := LeadingWhitespace(s);
    LeadingToUpper(s);
    var t := s[i..];
    ToUpperDrop(s, i);
    ContentEndToUpper(t);
    ToUpperTake(t, ContentEnd(t));
  }

  lemma {:induction false} LeadingToUpper(s: string)
    ensures LeadingWhitespace(ToUpper(s)) == LeadingWhitespace(s)
  {
    UpperKeepsWhitespace(s);
    LeadingUnique(ToUpper(s), LeadingWhitespace(s));
  }

  lemma {:induction false} ContentEndToUpper(s: string)
    ensures ContentEnd(ToUpper(s)) == ContentEnd(s)
  {
    UpperKeepsWhitespace(s);
    ContentEndUnique(ToUpper(s), ContentEnd(s));
  }

  /** Upper-casing keeps every white-space character where it was, and adds none. */
  lemma {:induction false} UpperKeepsWhitespace(s: string)
    ensures forall k :: 0 <= k < |s| ==> IsWhitespace(ToUpper(s)[k]) == IsWhitespace(s[k])
  {
    forall k | 0 <= k < |s| ensures IsWhitespace(ToUpper(s)[k]) == IsWhitespace(s[k]) {
      UpperCharKeepsWhitespace(s[k]);
    }
  }

  lemma {:induction false} ToUpperDrop(s: string, i: int)
    requires 0 <= i <= |s|
    ensures ToUpper(s)[i..] == ToUpper(s[i..])
  {
    var a, b := ToUpper(s)[i..], ToUpper(s[i..]);
    assert forall k :: 0 <= k < |a| ==> a[k] == UpperChar(s[i + k]) == b[k];
  }

  lemma {:induction false} ToUpperTake(s: string, j: int)
    requires 0 <= j <= |s|
    ensures ToUpper(s)[..j] == ToUpper(s[..j])
  {
    var a, b := ToUpper(s)[..j], ToUpper(s[..j]);
    assert forall k :: 0 <= k < |a| ==> a[k] == UpperChar(s[k]) == b[k];
  }

  /** Trimming a trimmed string changes nothing. */
  lemma {:induction false} TrimIdempotent(s: string)
    ensures Trim(Trim(s)) == Trim(s)
  {
    TrimFixesExactlyTrimmed(Trim(s));
  }

  /** `s.startsWith(p)`. */
  predicate StartsWith(s: string, p: string) {
    |p| <= |s| && s[..|p|] == p
  }

  /** `sub` occurs in `s` starting at position `i`. */
  predicate OccursAt(s: string, sub: string, i: int) {
    0 <= i <= |s| - |sub| && s[i..i + |sub|] == sub
  }

  /** `s.includes(sub)`: `sub` occurs in `s` at some position. */
  function Includes(s: string, sub: string): (r: bool)
    ensures r <==> exists i :: OccursAt(s, sub, i)
  {
    if StartsWith(s, sub) then
      assert OccursAt(s, sub, 0);
      true
    else if s == [] then
      assert forall i :: !OccursAt(s, sub, i);
      false
    else
      var r := Includes(s[1..], sub);
      assert forall i :: OccursAt(s[1..], sub, i) <==> OccursAt(s, sub, i + 1) by {
        forall i ensures OccursAt(s[1..], sub, i) <==> OccursAt(s, sub, i + 1) {
          if 0 <= i <= |s| - 1 - |sub| {
            assert s[1..][i..i + |sub|] == s[i + 1..i + 1 + |sub|];
          }
        }
      }
      assert !OccursAt(s, sub, 0);
      assert (exists i :: OccursAt(s, sub, i)) ==> exists i :: OccursAt(s[1..], sub, i) by {
        if exists i :: OccursAt(s, sub, i) {
          var i :| OccursAt(s, sub, i);
          assert OccursAt(s[1..], sub, i - 1);
        }
      }
      r
  }

  /** A character beyond the Basic Multilingual Plane, which UTF-16 writes as a surrogate pair. */
  predicate IsAstral(c: char) {
    c as int >= 0x1_0000
  }

  /**
   * JavaScript's `length`, the measure Mongoose's `maxlength` checks: the
   * number of UTF-16 code units, two for an astral character and one for
   * any other.
   */
  function Utf16Length(s: string): (n: nat)
    ensures |s| <= n <= 2 * |s|
  {
    if s == [] then 0 else Utf16Length(s[..|s| - 1]) + (if IsAstral(s[|s| - 1]) then 2 else 1)
  }

  /** The code units of a concatenation are those of its parts. */
  lemma {:induction false} Utf16LengthAppend(a: string, b: string)
    ensures Utf16Length(a + b) == Utf16Length(a) + Utf16Length(b)
  {
    if b == [] {
      assert a + b == a;
    } else {
      Utf16LengthAppend(a, b[..|b| - 1]);
      assert (a + b)[..|a + b| - 1] == a + b[..|b| - 1];
    }
  }

  /** The length counts characters exactly when no character is astral. */
  lemma {:induction false} Utf16LengthIsCharCount(s: string)
    ensures Utf16Length(s) == |s| <==> forall i :: 0 <= i < |s| ==> !IsAstral(s[i])
  {
    if s != [] {
      var init := s[..|s| - 1];
      Utf16LengthIsCharCount(init);
      assert forall i :: 0 <= i < |init| ==> init[i] == s[i];
    }
  }

  /** The length is twice the character count exactly when every character is astral. */
  lemma {:induction false} Utf16LengthAllAstral(s: string)
    ensures Utf16Length(s) == 2 * |s| <==> forall i :: 0 <= i < |s| ==> IsAstral(s[i])
  {
    if s != [] {
      var init := s[..|s| - 1];
      Utf16LengthAllAstral(init);
      assert forall i :: 0 <= i < |init| ==> init[i] == s[i];
    }
  }

  /** The decimal numeral of `n`, as template literals print a non-negative integer. */
  function NatToString(n: nat): (r: string)
    ensures |r| >= 1 && forall i :: 0 <= i < |r| ==> '0' <= r[i] <= '9'
  {
    var d := ['0' + (n % 10) as char];
    if n < 10 then d else NatToString(n / 10) + d
  }

  /** The decimal numeral of `i`, with a leading minus sign when negative. */
  function IntToString(i: int): string {
    if i < 0 then "-" + NatToString(-i) else NatToString(i)
  }
}
