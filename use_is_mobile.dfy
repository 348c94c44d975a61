/** The `useIsMobile` hook: a device is mobile when its user agent names a
    mobile platform (case-insensitively) or its viewport is at most 768 CSS
    pixels wide; the hook's state starts out `false` and is recomputed on
    mount and on every resize. */
module MobileDetection {

  /** The alternatives of `/Android|webOS|iPhone|iPad|iPod|BlackBerry|IEMobile|Opera Mini/i`. */
  const MobileTokens: seq<string> :=
    ["Android", "webOS", "iPhone", "iPad", "iPod", "BlackBerry", "IEMobile", "Opera Mini"]

  /** The `max-width` of the media query, in CSS pixels. */
  const MobileMaxWidth: real := 768.0

  /** Case folding of an ignore-case regular expression without the `u` flag:
      a character folds to its upper case unless that would turn a non-ASCII
      character into an ASCII one, so against the ASCII alternatives above
      only ASCII letters ever match across case. */
  function Fold(c: char): (f: char)
    ensures 'a' <= c <= 'z' ==> f as int == c as int - 32
    ensures !('a' <= c <= 'z') ==> f == c
  {
    if 'a' <= c <= 'z' then (c as int - 32) as char else c
  }

  /** `token` occurs in `text` at `i`, ignoring case. */
  predicate MatchesAt(text: string, token: string, i: nat)
    requires i + |token| <= |text|
  {
    forall k :: 0 <= k < |token| ==> Fold(text[i + k]) == Fold(token[k])
  }

  predicate OccursIgnoringCase(text: string, token: string)
  {
    exists i: nat :: i + |token| <= |text| && MatchesAt(text, token, i)
  }

  /** The regular expression's scan: tries each start position from `from`. */
  function SearchFrom(text: string, token: string, from: nat): (found: bool)
    ensures found <==> exists i: nat :: from <= i && i + |token| <= |text| && MatchesAt(text, token, i)
    decreases |text| - from
  {
    if from + |token| > |text| then false
    else if MatchesAt(text, token, from) then true
    else SearchFrom(text, token, from + 1)
  }

  function ContainsIgnoringCase(text: string, token: string): (found: bool)
    ensures found <==> OccursIgnoringCase(text, token)
  {
    SearchFrom(text, token, 0)
  }

  /** The regular expression's `test` on the user agent. */
  function UserAgentIsMobile(userAgent: string): (mobile: bool)
    ensures mobile <==> exists t :: t in MobileTokens && OccursIgnoringCase(userAgent, t)
  {
    AnyToken(userAgent, MobileTokens)
  }

  function AnyToken(userAgent: string, tokens: seq<string>): (found: bool)
    ensures found <==> exists t :: t in tokens && OccursIgnoringCase(userAgent, t)
  {
    if tokens == [] then false
    else ContainsIgnoringCase(userAgent, tokens[0]) || AnyToken(userAgent, tokens[1..])
  }

  /** `checkMobile`'s classification. */
  function IsMobile(userAgent: string, viewportWidth: real): (mobile: bool)
    ensures mobile <==>
              (exists t :: t in MobileTokens && OccursIgnoringCase(userAgent, t)) || viewportWidth <= MobileMaxWidth
  {
    UserAgentIsMobile(userAgent) || viewportWidth <= MobileMaxWidth
  }

  /** A mobile user agent is mobile whatever the viewport; a narrow viewport
      is mobile whatever the user agent; otherwise the device is a desktop. */
  lemma ClassificationCases(userAgent: string, viewportWidth: real)
    ensures (exists t :: t in MobileTokens && OccursIgnoringCase(userAgent, t)) ==> IsMobile(userAgent, viewportWidth)
    ensures viewportWidth <= MobileMaxWidth ==> IsMobile(userAgent, viewportWidth)
    ensures !IsMobile(userAgent, viewportWidth) <==>
              (forall t :: t in MobileTokens ==> !OccursIgnoringCase(userAgent, t)) && viewportWidth > MobileMaxWidth
  {
  }

  /** Changing the case of ASCII letters in the user agent never changes the
      verdict. */
  lemma {:induction false} FoldInvariant(text: string, other: string, token: string)
    requires |text| == |other|
    requires forall k :: 0 <= k < |text| ==> Fold(text[k]) == Fold(other[k])
    ensures OccursIgnoringCase(text, token) <==> OccursIgnoringCase(other, token)
  {
    if OccursIgnoringCase(text, token) {
      var i: nat :| i + |token| <= |text| && MatchesAt(text, token, i);
      assert MatchesAt(other, token, i);
    }
    if OccursIgnoringCase(other, token) {
      var i: nat :| i + |token| <= |other| && MatchesAt(other, token, i);
      assert MatchesAt(text, token, i);
    }
  }

  /** A token whose first letter does not occur (in either case) is absent. */
  lemma {:induction false} FirstLetterAbsent(text: string, token: string)
    requires |token| > 0
    requires forall k :: 0 <= k < |text| ==> Fold(text[k]) != Fold(token[0])
    ensures !OccursIgnoringCase(text, token)
  {
    forall i: nat | i + |token| <= |text|
      ensures !MatchesAt(text, token, i)
    {
      assert Fold(text[i + 0]) != Fold(token[0]);
    }
  }

  /** An iPhone's user agent is mobile on a wide viewport. */
  lemma IPhoneIsMobile(viewportWidth: real)
    ensures IsMobile("Mozilla/5.0 (iPhone; CPU iPhone OS 17_0)", viewportWidth)
  {
    var ua := "Mozilla/5.0 (iPhone; CPU iPhone OS 17_0)";
    assert MatchesAt(ua, "iPhone", 13);
    assert "iPhone" in MobileTokens;
  }

  /** Upper-case spelling still matches. */
  lemma ShoutedAndroidIsMobile()
    ensures IsMobile("ANDROID", 1920.0)
  {
    assert MatchesAt("ANDROID", "Android", 0);
    assert "Android" in MobileTokens;
  }

  /** A command-line client on a wide viewport is a desktop. */
  lemma CurlIsDesktop()
    ensures !IsMobile("curl/8.0", 1920.0)
  {
    var ua := "curl/8.0";
    forall t | t in MobileTokens
      ensures !OccursIgnoringCase(ua, t)
    {
      FirstLetterAbsent(ua, t);
    }
  }

  /** The hook's state. */
  class MobileHook {
    var isMobile: bool

    /** `useState(false)`: false until the effect has run. */
    constructor ()
      ensures !isMobile
    {
      isMobile := false;
    }

    /** `checkMobile`: classifies and stores the result. */
    method CheckMobile(userAgent: string, viewportWidth: real)
      modifies this
      ensures isMobile == IsMobile(userAgent, viewportWidth)
    {
      isMobile := IsMobile(userAgent, viewportWidth);
    }

    /** The effect on mount: without a `window` (server rendering) the state
        stays as it was; otherwise it is classified once. Each later resize
        calls CheckMobile again. */
    method Mount(hasWindow: bool, userAgent: string, viewportWidth: real)
      modifies this
      ensures hasWindow ==> isMobile == IsMobile(userAgent, viewportWidth)
      ensures !hasWindow ==> isMobile == old(isMobile)
    {
      if hasWindow {
        CheckMobile(userAgent, viewportWidth);
      }
    }
  }
}
