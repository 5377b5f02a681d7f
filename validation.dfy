/**
 * The data-annotation rules the profile documents declare: the slug pattern
 * `^[a-z0-9]+(?:-[a-z0-9]+)*$` with its 3-50 length bound, the hex colour
 * pattern `^#[0-9A-Fa-f]{6}$`, and length and range bounds.
 */
module Validation {
  import opened Wrappers
  import opened Text

  /** `[a-z0-9]`. */
  predicate IsSlugChar(c: char) {
    'a' <= c <= 'z' || '0' <= c <= '9'
  }

  /** `[0-9A-Fa-f]`. */
  predicate IsHexDigit(c: char) {
    '0' <= c <= '9' || 'a' <= c <= 'f' || 'A' <= c <= 'F'
  }

  /** The states of the matcher for the slug pattern: nothing read yet, inside a
      run of `[a-z0-9]`, just after a `-`, or rejected. */
  datatype SlugState = Start | InWord | AfterDash | Dead

  function SlugStep(q: SlugState, c: char): SlugState {
    match q
    case Start => if IsSlugChar(c) then InWord else Dead
    case InWord => if IsSlugChar(c) then InWord else if c == '-' then AfterDash else Dead
    case AfterDash => if IsSlugChar(c) then InWord else Dead
    case Dead => Dead
  }

  /** The matcher's state after reading `s`. */
  function SlugRun(s: string): SlugState
    decreases |s|
  {
    if |s| == 0 then Start else SlugStep(SlugRun(s[..|s| - 1]), s[|s| - 1])
  }

  /** `^[a-z0-9]+(?:-[a-z0-9]+)*$`: the matcher ends inside a word. */
  predicate MatchesSlugPattern(s: string) {
    SlugRun(s) == InWord
  }

  /** The same language described character by character: non-empty, and every
      character is `[a-z0-9]` or a `-` that is neither first nor last and is
      followed by `[a-z0-9]`. */
  predicate SlugShape(s: string) {
    |s| > 0 && forall i :: 0 <= i < |s| ==> SlugCharAt(s, i)
  }

  /** Position `i` of `s` holds `[a-z0-9]`, or an inner `-` followed by `[a-z0-9]`. */
  predicate SlugCharAt(s: string, i: int)
    requires 0 <= i < |s|
  {
    IsSlugChar(s[i]) || (s[i] == '-' && 0 < i < |s| - 1 && IsSlugChar(s[i + 1]))
  }

  /** The slug rule of templates, sections and styles: 3 to 50 characters
      matching the pattern. */
  predicate IsValidSlug(s: string) {
    3 <= |s| <= 50 && MatchesSlugPattern(s)
  }

  /** What each matcher state says about the text read so far. */
  lemma {:induction false} SlugRunMeaning(s: string)
    ensures SlugRun(s) == Start <==> |s| == 0
    ensures SlugRun(s) == InWord <==> SlugShape(s)
    ensures SlugRun(s) == AfterDash <==> |s| > 1 && s[|s| - 1] == '-' && SlugShape(s[..|s| - 1])
    decreases |s|
  {
    if |s| > 0 {
      var init := s[..|s| - 1];
      var c := s[|s| - 1];
      SlugRunMeaning(init);
      if SlugShape(s) {
        assert SlugCharAt(s, |s| - 1);
        if |init| > 0 && init[|init| - 1] == '-' {
          assert SlugCharAt(s, |s| - 2);
          var pre := init[..|init| - 1];
          forall i | 0 <= i < |pre| ensures SlugCharAt(pre, i) {
            assert SlugCharAt(s, i);
            assert s[i] == pre[i];
            if i + 1 < |pre| {
              assert s[i + 1] == pre[i + 1];
            }
          }
        } else if |init| > 0 {
          assert SlugCharAt(s, |s| - 2);
          forall i | 0 <= i < |init| ensures SlugCharAt(init, i) {
            assert SlugCharAt(s, i);
            assert s[i] == init[i];
            if i + 1 < |init| {
              assert s[i + 1] == init[i + 1];
            }
          }
        }
      }
      if SlugRun(s) == InWord {
        assert IsSlugChar(c);
        forall i | 0 <= i < |s| ensures SlugCharAt(s, i) {
          if i < |init| {
            assert s[i] == init[i];
            if SlugRun(init) == AfterDash {
              var pre := init[..|init| - 1];
              if i < |pre| {
                assert SlugCharAt(pre, i);
                assert s[i] == pre[i];
                if i + 1 < |pre| {
                  assert s[i + 1] == pre[i + 1];
                }
              }
            } else {
              assert SlugCharAt(init, i);
              if i + 1 < |init| {
                assert s[i + 1] == init[i + 1];
              } else {
                assert SlugCharAt(init, |init| - 1);
              }
            }
          }
        }
      }
      if |s| > 1 && c == '-' && SlugShape(init) {
        assert SlugCharAt(init, |init| - 1);
      }
    }
  }

  /** The matcher and the character-by-character description accept the same
      strings. */
  lemma SlugPatternIff(s: string)
    ensures MatchesSlugPattern(s) <==> SlugShape(s)
  {
    SlugRunMeaning(s);
  }

  /** A slug never starts or ends with `-` and never holds `--`. */
  lemma SlugHasNoStrayDash(s: string, i: int)
    requires MatchesSlugPattern(s) && 0 <= i < |s|
    ensures s[0] != '-' && s[|s| - 1] != '-'
    ensures i + 1 < |s| && s[i] == '-' ==> s[i + 1] != '-'
  {
    SlugRunMeaning(s);
    assert SlugCharAt(s, 0) && SlugCharAt(s, |s| - 1) && SlugCharAt(s, i);
  }

  /** Every position from `i` on satisfies `SlugCharAt`: the same check, one
      character at a time from the front. */
  predicate SlugCharsFrom(s: string, i: nat)
    decreases |s| - i
  {
    i >= |s| || (SlugCharAt(s, i) && SlugCharsFrom(s, i + 1))
  }

  lemma {:induction false} SlugCharsFromAll(s: string, i: nat, j: int)
    requires SlugCharsFrom(s, i) && i <= j < |s|
    ensures SlugCharAt(s, j)
    decreases |s| - i
  {
    if i < j {
      SlugCharsFromAll(s, i + 1, j);
    }
  }

  /** A string of 3 to 50 characters that passes the front-to-back check is a
      valid slug. */
  lemma SlugByChars(s: string)
    requires 3 <= |s| <= 50 && SlugCharsFrom(s, 0)
    ensures IsValidSlug(s)
  {
    forall j | 0 <= j < |s| ensures SlugCharAt(s, j) {
      SlugCharsFromAll(s, 0, j);
    }
    SlugPatternIff(s);
  }

  /** `^#[0-9A-Fa-f]{6}$`. */
  predicate IsHexColor(s: string) {
    && |s| == 7 && s[0] == '#'
    && IsHexDigit(s[1]) && IsHexDigit(s[2]) && IsHexDigit(s[3])
    && IsHexDigit(s[4]) && IsHexDigit(s[5]) && IsHexDigit(s[6])
  }

  /** `[RegularExpression]` with the hex colour pattern on an optional string:
      null and the empty string pass, as the attribute skips them; any other
      text must be well formed. */
  predicate IsOptionalHexColor(s: Option<string>) {
    s.None? || s.value == "" || IsHexColor(s.value)
  }

  /** `[StringLength(max, MinimumLength = min)]` on a required string. */
  predicate LengthBetween(s: string, min: nat, max: nat) {
    min <= |s| <= max
  }

  /** `[StringLength(max)]` on an optional string: null passes. */
  predicate OptionalLengthAtMost(s: Option<string>, max: nat) {
    s.None? || |s.value| <= max
  }

  /** `[Required]` on a string: not empty and not white space only. */
  predicate Required(s: string) {
    !IsBlank(s)
  }

  /** A string whose first character is not white space passes `[Required]`. */
  lemma VisibleFirst(s: string)
    requires |s| > 0 && !IsWhiteSpace(s[0])
    ensures Required(s)
  {
  }

  /** A valid slug passes `[Required]`: it starts with `[a-z0-9]`. */
  lemma SlugRequired(s: string)
    requires IsValidSlug(s)
    ensures Required(s)
  {
    SlugPatternIff(s);
    assert SlugCharAt(s, 0);
    VisibleFirst(s);
  }

  /** `[Url]` on an optional string: null passes, and otherwise the text must
      begin with `http://`, `https://` or `ftp://`, compared ignoring case. */
  predicate IsOptionalUrl(s: Option<string>) {
    || s.None?
    || StartsWithIgnoreCase(s.value, "http://")
    || StartsWithIgnoreCase(s.value, "https://")
    || StartsWithIgnoreCase(s.value, "ftp://")
  }

  /** `[Range(0, 100)]`. */
  predicate InPercentRange(n: int) {
    0 <= n <= 100
  }
}
