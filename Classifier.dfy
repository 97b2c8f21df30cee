/** The response classifier of tapik.py: `process_response` scans a response
    body for three fixed denial markers and collapses any hit to
    "PERMISSION_DENIED"; otherwise the body itself (verbose) or "WORKED" is
    returned. Only the body text and the verbose flag are inputs: the status
    code and headers of the HTTP response are never consulted. */
module Classifier {

  /** The denial vocabulary, in the order the source lists it. */
  const ErrorMessages: seq<string> := ["PERMISSION_DENIED", "INVALID_ARGUMENT", "REQUEST_DENIED"]

  /** The single verdict every denial collapses to. */
  const PermissionDenied: string := "PERMISSION_DENIED"

  /** The non-verbose success verdict. */
  const Worked: string := "WORKED"

  /** `p` is a prefix of `s`. */
  predicate IsPrefix(p: string, s: string) {
    |p| <= |s| && s[..|p|] == p
  }

  /** Reference meaning of Python's `p in t` on strings: `p` occurs in `t`
      at some position, character for character (so case-sensitively). */
  ghost predicate OccursIn(p: string, t: string) {
    exists i | 0 <= i <= |t| :: IsPrefix(p, t[i..])
  }

  /** Substring search, position by position from the front. */
  function Contains(p: string, t: string): (b: bool)
    ensures b <==> OccursIn(p, t)
    decreases |t|
  {
    if IsPrefix(p, t) then
      assert IsPrefix(p, t[0..]);
      true
    else if t == [] then
      assert t[0..] == t;
      false
    else
      var rest := Contains(p, t[1..]);
      ShiftOccurrence(p, t);
      rest
  }

  /** An occurrence in `t` that is not at position 0 is an occurrence in `t[1..]`, and back. */
  lemma ShiftOccurrence(p: string, t: string)
    requires t != [] && !IsPrefix(p, t)
    ensures OccursIn(p, t) <==> OccursIn(p, t[1..])
  {
    if OccursIn(p, t) {
      var i :| 0 <= i <= |t| && IsPrefix(p, t[i..]);
      assert i != 0;
      assert t[1..][i - 1..] == t[i..];
    }
    if OccursIn(p, t[1..]) {
      var i :| 0 <= i <= |t[1..]| && IsPrefix(p, t[1..][i..]);
      assert t[1..][i..] == t[i + 1..];
    }
  }

  /** Python's `any(m in t for m in ms)`: some marker of `ms` occurs in `t`. */
  function AnyOccurs(ms: seq<string>, t: string): (b: bool)
    ensures b <==> exists k | 0 <= k < |ms| :: OccursIn(ms[k], t)
  {
    if ms == [] then false
    else
      var rest := AnyOccurs(ms[1..], t);
      assert forall k | 1 <= k < |ms| :: ms[k] == ms[1..][k - 1];
      Contains(ms[0], t) || rest
  }

  /** The body contains at least one of the three denial markers. */
  ghost predicate HasMarker(body: string) {
    exists k | 0 <= k < |ErrorMessages| :: OccursIn(ErrorMessages[k], body)
  }

  /** `process_response`: a body with a marker is denied whatever `verbose`
      is; a marker-free body is returned unchanged when verbose, and as
      "WORKED" otherwise. */
  function ProcessResponse(body: string, verbose: bool): (r: string)
    ensures HasMarker(body) ==> r == PermissionDenied
    ensures !HasMarker(body) && verbose ==> r == body
    ensures !HasMarker(body) && !verbose ==> r == Worked
  {
    if AnyOccurs(ErrorMessages, body) then PermissionDenied
    else if verbose then body
    else Worked
  }

  /** Every string occurs in itself. */
  lemma OccursInSelf(s: string)
    ensures OccursIn(s, s)
  {
    assert s[0..] == s;
    assert IsPrefix(s, s[0..]);
  }

  /** A marker-free body is not itself one of the markers. */
  lemma MarkerFreeIsNotMarker(body: string)
    requires !HasMarker(body)
    ensures body !in ErrorMessages
  {
    OccursInSelf(body);
  }

  /** A marker anywhere in the body, with any text around it, denies. */
  lemma MarkerAnywhereDenies(before: string, k: nat, after: string, verbose: bool)
    requires k < |ErrorMessages|
    ensures ProcessResponse(before + ErrorMessages[k] + after, verbose) == PermissionDenied
  {
    var m := ErrorMessages[k];
    var body := before + m + after;
    assert body[|before|..][..|m|] == m;
    assert IsPrefix(m, body[|before|..]);
    assert OccursIn(m, body);
  }

  /** The verdict is never "INVALID_ARGUMENT" or "REQUEST_DENIED": those two
      markers are reported as "PERMISSION_DENIED". */
  lemma NeverReturnsOtherMarkers(body: string, verbose: bool)
    ensures ProcessResponse(body, verbose) != ErrorMessages[1]
    ensures ProcessResponse(body, verbose) != ErrorMessages[2]
    ensures ProcessResponse(body, verbose) in ErrorMessages ==> ProcessResponse(body, verbose) == PermissionDenied
  {
    if !HasMarker(body) && verbose {
      MarkerFreeIsNotMarker(body);
    }
  }

  /** "WORKED" holds no marker: every marker is longer than it. */
  lemma WorkedHasNoMarker()
    ensures !HasMarker(Worked)
  {
    forall k | 0 <= k < |ErrorMessages|
      ensures !OccursIn(ErrorMessages[k], Worked)
    {
      assert |ErrorMessages[k]| > |Worked|;
    }
  }

  /** Classifying a verdict again yields the same verdict. */
  lemma ProcessResponseIdempotent(body: string, verbose: bool)
    ensures ProcessResponse(ProcessResponse(body, verbose), verbose) == ProcessResponse(body, verbose)
  {
    if HasMarker(body) {
      OccursInSelf(PermissionDenied);
      assert OccursIn(ErrorMessages[0], PermissionDenied);
    } else if !verbose {
      WorkedHasNoMarker();
    }
  }

  /** A string whose first character appears nowhere in `t` does not occur in `t`. */
  lemma FirstCharAbsent(p: string, t: string)
    requires p != [] && forall i | 0 <= i < |t| :: t[i] != p[0]
    ensures !OccursIn(p, t)
  {
    forall i | 0 <= i <= |t|
      ensures !IsPrefix(p, t[i..])
    {
      if i < |t| {
        assert t[i..][0] == t[i];
      }
    }
  }

  /** Matching is case-sensitive: every marker starts with an upper-case
      letter, so a body without upper-case letters (a marker written in lower
      case, say) is never denied. */
  lemma NoUpperCaseNeverDenied(body: string, verbose: bool)
    requires forall i | 0 <= i < |body| :: !('A' <= body[i] <= 'Z')
    ensures ProcessResponse(body, verbose) == if verbose then body else Worked
  {
    forall k | 0 <= k < |ErrorMessages|
      ensures !OccursIn(ErrorMessages[k], body)
    {
      assert 'A' <= ErrorMessages[k][0] <= 'Z';
      FirstCharAbsent(ErrorMessages[k], body);
    }
  }
}
