/**
 * The two ways the demo turns an SDK error into display text.
 *
 * The sandbox widget shows `String(e)` with its leading "...Error: " run
 * removed (an anchored regular expression), and the React demo shows the
 * error text with everything up to "Rainway SDK Error: " removed (an
 * unanchored one). In a JavaScript regular expression `.` never matches a
 * line terminator, so each rule only ever removes text from within one line.
 */
module ErrorText {
  import opened Handles

  /** The characters `.` does not match in a JavaScript regular expression. */
  predicate IsLineTerminator(c: char)
  {
    c == '\n' || c == '\r' || c == '\U{2028}' || c == '\U{2029}'
  }

  /** A marker the strip rules can look for: non-empty and within one line. */
  predicate IsMarker(marker: string)
  {
    |marker| > 0 && forall i :: 0 <= i < |marker| ==> !IsLineTerminator(marker[i])
  }

  const ErrorMarker: string := "Error: "
  const SdkErrorMarker: string := "Rainway SDK Error: "

  /** The length of the first line of s: the index of its first line terminator, or |s|. */
  function LineEnd(s: string): (e: nat)
    ensures e <= |s|
    ensures e < |s| ==> IsLineTerminator(s[e])
  {
    if s == [] || IsLineTerminator(s[0]) then 0 else 1 + LineEnd(s[1..])
  }

  /** No line terminator comes before LineEnd(s). */
  lemma {:induction false} LineEndIsFirst(s: string)
    ensures forall k :: 0 <= k < LineEnd(s) ==> !IsLineTerminator(s[k])
  {
    if s != [] && !IsLineTerminator(s[0]) {
      LineEndIsFirst(s[1..]);
      assert forall k :: 1 <= k < LineEnd(s) ==> s[k] == s[1..][k - 1];
    }
  }

  /** An occurrence of marker in s ends at index k. */
  predicate EndsWithAt(s: string, marker: string, k: int)
  {
    |marker| <= k <= |s| && s[k - |marker|..k] == marker
  }

  ghost predicate Occurs(s: string, marker: string)
  {
    exists k :: EndsWithAt(s, marker, k)
  }

  /** The last index at or before bound at which an occurrence of marker ends, if there is one. */
  function LastEndAtOrBefore(s: string, marker: string, bound: nat): (r: Option<nat>)
    requires bound <= |s|
    ensures r.Some? ==> r.value <= bound && EndsWithAt(s, marker, r.value)
    decreases bound
  {
    if EndsWithAt(s, marker, bound) then Some(bound)
    else if bound == 0 then None
    else LastEndAtOrBefore(s, marker, bound - 1)
  }

  /** No occurrence of marker ends after the one LastEndAtOrBefore finds, up to bound; without one, none ends at or before bound. */
  lemma {:induction false} LastEndIsLast(s: string, marker: string, bound: nat)
    requires bound <= |s|
    ensures var r := LastEndAtOrBefore(s, marker, bound);
            && (r.Some? ==> forall k :: r.value < k <= bound ==> !EndsWithAt(s, marker, k))
            && (r.None? ==> forall k :: k <= bound ==> !EndsWithAt(s, marker, k))
    decreases bound
  {
    if !EndsWithAt(s, marker, bound) && bound > 0 {
      LastEndIsLast(s, marker, bound - 1);
    }
  }

  /**
   * `s.replace(/^(.*M)+/, "")`: the longest prefix of the first line of s that
   * ends with M is removed; without such a prefix s is returned unchanged.
   */
  function StripLinePrefix(s: string, marker: string): (r: string)
    requires IsMarker(marker)
    ensures |r| <= |s| && r == s[|s| - |r|..]
    ensures r == s <==> forall k :: k <= LineEnd(s) ==> !EndsWithAt(s, marker, k)
    ensures r != s ==> |s| - |r| <= LineEnd(s) && EndsWithAt(s, marker, |s| - |r|)
    ensures forall k :: |s| - |r| < k <= LineEnd(s) ==> !EndsWithAt(s, marker, k)
  {
    LastEndIsLast(s, marker, LineEnd(s));
    match LastEndAtOrBefore(s, marker, LineEnd(s))
    case Some(k) => s[k..]
    case None => s
  }

  /** The sandbox's showError text (sandbox.ts, line 167). */
  function StripErrorPrefix(s: string): (r: string)
    ensures r == StripLinePrefix(s, ErrorMarker)
  {
    assert IsMarker(ErrorMarker) by {
      assert forall i :: 0 <= i < |ErrorMarker| ==> ErrorMarker[i] in "Error: ";
    }
    StripLinePrefix(s, ErrorMarker)
  }

  /** Cutting a prefix that lies within the first line shortens the first line by that much. */
  lemma {:induction false} LineEndAfterCut(s: string, k: nat)
    requires k <= LineEnd(s)
    ensures LineEnd(s[k..]) == LineEnd(s) - k
  {
    var t := s[k..];
    var e, e' := LineEnd(s), LineEnd(t);
    LineEndIsFirst(s);
    LineEndIsFirst(t);
    assert forall i :: 0 <= i < |t| ==> t[i] == s[k + i];
  }

  /** Stripping twice removes nothing more: what is left of the first line holds no further marker. */
  lemma {:induction false} StripLinePrefixIdempotent(s: string, marker: string)
    requires IsMarker(marker)
    ensures StripLinePrefix(StripLinePrefix(s, marker), marker) == StripLinePrefix(s, marker)
  {
    var r := StripLinePrefix(s, marker);
    if r != s {
      var k := |s| - |r|;
      LineEndAfterCut(s, k);
      forall j | j <= LineEnd(r) ensures !EndsWithAt(r, marker, j) {
        ShiftOccurrence(s, marker, k, j);
      }
    }
  }

  /**
   * `s.replace(/.*M/, "")`: the first line that contains M loses everything
   * from its start through the last M on it; lines before it, and everything
   * after it, are kept. Without any M, s is returned unchanged.
   */
  function StripThroughMarker(s: string, marker: string): (r: string)
    requires IsMarker(marker)
    ensures |r| <= |s|
    decreases |s|
  {
    var e := LineEnd(s);
    match LastEndAtOrBefore(s, marker, e)
    case Some(k) => s[k..]
    case None =>
      if e == |s| then s else s[..e + 1] + StripThroughMarker(s[e + 1..], marker)
  }

  /** On text whose first line holds the marker, the unanchored rule and the anchored one agree. */
  lemma {:induction false} StripRulesAgreeOnFirstLine(s: string, marker: string)
    requires IsMarker(marker)
    requires Occurs(s[..LineEnd(s)], marker)
    ensures StripThroughMarker(s, marker) == StripLinePrefix(s, marker)
  {
    var e := LineEnd(s);
    var j :| EndsWithAt(s[..e], marker, j);
    assert s[..e][j - |marker|..j] == s[j - |marker|..j];
    assert EndsWithAt(s, marker, j);
    LastEndIsLast(s, marker, e);
  }

  /** The React demo's connectError text (Demo.tsx, line 239). */
  function StripThroughSdkError(s: string): (r: string)
    ensures r == StripThroughMarker(s, SdkErrorMarker)
  {
    assert IsMarker(SdkErrorMarker) by {
      assert forall i :: 0 <= i < |SdkErrorMarker| ==> SdkErrorMarker[i] in "Rainway SDK Error: ";
    }
    StripThroughMarker(s, SdkErrorMarker)
  }

  /** A marker cannot straddle a line terminator: an occurrence ending after a terminator starts after it. */
  lemma {:induction false} MarkerAfterTerminator(s: string, marker: string, e: nat, k: int)
    requires IsMarker(marker)
    requires e < |s| && IsLineTerminator(s[e])
    requires EndsWithAt(s, marker, k) && k > e
    ensures k - |marker| > e
  {
    assert forall i :: k - |marker| <= i < k ==> s[i] == s[k - |marker|..k][i - (k - |marker|)];
  }

  /** Occurrences in the text after index c, shifted back to positions in s. */
  lemma {:induction false} ShiftOccurrence(s: string, marker: string, c: nat, j: int)
    requires c <= |s|
    ensures EndsWithAt(s[c..], marker, j) <==> j >= |marker| && EndsWithAt(s, marker, c + j)
  {
    var t := s[c..];
    if |marker| <= j <= |t| {
      assert t[j - |marker|..j] == s[c + j - |marker|..c + j];
    }
  }

  /**
   * When no marker ends at or before the line terminator at e, the markers of
   * s are exactly those of the text after e.
   */
  lemma {:induction false} OccursPastTerminator(s: string, marker: string, e: nat)
    requires IsMarker(marker)
    requires e < |s| && IsLineTerminator(s[e])
    requires forall k :: k <= e ==> !EndsWithAt(s, marker, k)
    ensures Occurs(s, marker) <==> Occurs(s[e + 1..], marker)
  {
    if Occurs(s, marker) {
      var k :| EndsWithAt(s, marker, k);
      MarkerAfterTerminator(s, marker, e, k);
      ShiftOccurrence(s, marker, e + 1, k - e - 1);
    }
    if Occurs(s[e + 1..], marker) {
      var j :| EndsWithAt(s[e + 1..], marker, j);
      ShiftOccurrence(s, marker, e + 1, j);
    }
  }

  /** Without a marker on the first line, the unanchored rule keeps that line and goes on with the rest. */
  lemma {:induction false} StripThroughMarkerNextLine(s: string, marker: string, e: nat)
    requires IsMarker(marker)
    requires e == LineEnd(s) && e < |s| && LastEndAtOrBefore(s, marker, e).None?
    ensures StripThroughMarker(s, marker) == s[..e + 1] + StripThroughMarker(s[e + 1..], marker)
  {
  }

  /** A common prefix cancels: p + u == p + t exactly when u == t. */
  lemma {:induction false} PrefixCancels(p: string, u: string, t: string)
    ensures p + u == p + t <==> u == t
  {
    if p + u == p + t {
      assert u == (p + u)[|p|..] && t == (p + t)[|p|..];
    }
  }

  /** With a marker on the first line, the unanchored rule shortens the text. */
  lemma {:induction false} StripThroughMarkedFirstLine(s: string, marker: string)
    requires IsMarker(marker)
    requires LastEndAtOrBefore(s, marker, LineEnd(s)).Some?
    ensures StripThroughMarker(s, marker) != s && Occurs(s, marker)
  {
    var k := LastEndAtOrBefore(s, marker, LineEnd(s)).value;
    assert EndsWithAt(s, marker, k);
    assert |StripThroughMarker(s, marker)| < |s|;
  }

  /**
   * Without a marker on the first line, the unanchored rule changes s exactly
   * when it changes the text after the first line terminator.
   */
  lemma {:induction false} StripThroughUnmarkedFirstLine(s: string, marker: string, e: nat)
    requires IsMarker(marker)
    requires e == LineEnd(s) && e < |s| && LastEndAtOrBefore(s, marker, e).None?
    requires StripThroughMarker(s[e + 1..], marker) == s[e + 1..] <==> !Occurs(s[e + 1..], marker)
    ensures StripThroughMarker(s, marker) == s <==> !Occurs(s, marker)
  {
    var t := s[e + 1..];
    LastEndIsLast(s, marker, e);
    OccursPastTerminator(s, marker, e);
    StripThroughMarkerNextLine(s, marker, e);
    assert s == s[..e + 1] + t;
    PrefixCancels(s[..e + 1], StripThroughMarker(t, marker), t);
  }

  /** The unanchored rule changes the text exactly when the marker occurs in it. */
  lemma {:induction false} StripThroughMarkerChanges(s: string, marker: string)
    requires IsMarker(marker)
    ensures StripThroughMarker(s, marker) == s <==> !Occurs(s, marker)
    decreases |s|
  {
    var e := LineEnd(s);
    if LastEndAtOrBefore(s, marker, e).Some? {
      StripThroughMarkedFirstLine(s, marker);
    } else if e == |s| {
      LastEndIsLast(s, marker, e);
      assert forall k :: !EndsWithAt(s, marker, k);
    } else {
      StripThroughMarkerChanges(s[e + 1..], marker);
      StripThroughUnmarkedFirstLine(s, marker, e);
    }
  }

  /** On one-line text (the usual SDK error string) the unanchored rule leaves no marker behind. */
  lemma {:induction false} SingleLineStripLeavesNoMarker(s: string, marker: string)
    requires IsMarker(marker)
    requires LineEnd(s) == |s|
    ensures !Occurs(StripThroughMarker(s, marker), marker)
  {
    var r := StripThroughMarker(s, marker);
    LastEndIsLast(s, marker, LineEnd(s));
    if LastEndAtOrBefore(s, marker, LineEnd(s)).Some? {
      var k := |s| - |r|;
      forall j ensures !EndsWithAt(r, marker, j) {
        ShiftOccurrence(s, marker, k, j);
      }
    } else {
      StripThroughMarkerChanges(s, marker);
    }
  }
}
