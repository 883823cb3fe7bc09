/** Vocabulary shared by every route module: identifiers, the clock, HTTP
    outcomes and the whitespace trimming that the request validators apply. */
module Common {

  // Row identifiers. In the store they are UUIDs; the model only compares them.
  type UserId = nat
  type DogId = nat
  type MatchId = nat
  type MessageId = nat
  type PlaydateId = nat
  type RatingId = nat

  /** An opaque clock reading. The handlers stamp rows with ISO-8601 strings
      taken from one clock, which order like these numbers. */
  type Time = nat

  datatype Option<+T> = None | Some(value: T)

  /** The HTTP statuses the route handlers answer with. Every error thrown by
      the store client ends in the shared error handler, which answers 500. */
  datatype Code =
    | Ok200
    | Created201
    | NoContent204
    | BadRequest400
    | Forbidden403
    | NotFound404
    | Conflict409
    | StoreError500

  /** A handler's answer: a status and, where the handler sends one, a JSON body. */
  datatype Reply<+T> = Reply(code: Code, body: Option<T>)

  function Fail<T>(code: Code): Reply<T> { Reply(code, None) }

  function Answer<T>(code: Code, body: T): Reply<T> { Reply(code, Some(body)) }

  /** The supplied value if there is one, else the current one. */
  function Or<T>(o: Option<T>, current: T): (r: T)
    ensures o.None? ==> r == current
    ensures o.Some? ==> r == o.value
  {
    if o.Some? then o.value else current
  }

  /** `value || null` on an optional string: omitted or empty becomes null. */
  function EmptyAsNull(s: Option<string>): (r: Option<string>)
    ensures r.Some? <==> s.Some? && s.value != ""
    ensures r.Some? ==> r == s
  {
    if s.Some? && s.value != "" then s else None
  }

  /** The characters matched by `\s` in a JavaScript regular expression, which
      is what the validators' `trim()` sanitizer strips from both ends. */
  predicate IsSpace(c: char)
  {
    || c == ' ' || c == '\t' || c == '\n' || c == '\r'
    || c == '\U{000B}' || c == '\U{000C}' || c == '\U{00A0}' || c == '\U{1680}'
    || ('\U{2000}' <= c <= '\U{200A}')
    || c == '\U{2028}' || c == '\U{2029}' || c == '\U{202F}' || c == '\U{205F}'
    || c == '\U{3000}' || c == '\U{FEFF}'
  }

  predicate Blank(s: string)
  {
    forall i :: 0 <= i < |s| ==> IsSpace(s[i])
  }

  /** Strips leading whitespace: the result is a suffix of `s`, everything cut
      off is whitespace and what is left does not start with whitespace. */
  function TrimStart(s: string): (r: string)
    ensures |r| <= |s| && r == s[|s| - |r|..]
    ensures r == [] || !IsSpace(r[0])
    ensures forall i :: 0 <= i < |s| - |r| ==> IsSpace(s[i])
  {
    if s != [] && IsSpace(s[0]) then TrimStart(s[1..]) else s
  }

  /** Strips trailing whitespace: the result is a prefix of `s`, everything cut
      off is whitespace and what is left does not end with whitespace. */
  function TrimEnd(s: string): (r: string)
    ensures |r| <= |s| && r == s[..|r|]
    ensures r == [] || !IsSpace(r[|r| - 1])
    ensures Blank(s[|r|..])
    ensures r == [] ==> Blank(s)
  {
    if s != [] && IsSpace(s[|s| - 1]) then
      var r := TrimEnd(s[..|s| - 1]);
      assert s[|r|..] == s[..|s| - 1][|r|..] + [s[|s| - 1]];
      r
    else s
  }

  /** `r` occurs in `s` starting at index `k`. */
  predicate InfixAt(r: string, s: string, k: int)
  {
    0 <= k <= |s| - |r| && r == s[k..k + |r|]
  }

  /** The `trim()` sanitizer: a contiguous piece of `s` with no whitespace at
      either end, where everything cut off before and after it is whitespace. */
  function Trim(s: string): (r: string)
    ensures exists k :: InfixAt(r, s, k) && Blank(s[..k]) && Blank(s[k + |r|..])
    ensures r == [] || (!IsSpace(r[0]) && !IsSpace(r[|r| - 1]))
  {
    var t := TrimStart(s);
    var r := TrimEnd(t);
    CutOffIsBlank(s, t, r);
    r
  }

  /** The pieces `Trim` cuts off are the ones `TrimStart` and `TrimEnd` cut off. */
  lemma CutOffIsBlank(s: string, t: string, r: string)
    requires |t| <= |s| && t == s[|s| - |t|..]
    requires forall i :: 0 <= i < |s| - |t| ==> IsSpace(s[i])
    requires |r| <= |t| && r == t[..|r|] && Blank(t[|r|..])
    ensures var k := |s| - |t|;
            InfixAt(r, s, k) && Blank(s[..k]) && Blank(s[k + |r|..])
  {
    var k := |s| - |t|;
    assert s[k + |r|..] == t[|r|..];
    assert forall i :: 0 <= i < k ==> s[..k][i] == s[i];
  }

  /** Two first non-space positions after whitespace-only prefixes coincide. */
  lemma SameStart(s: string, k: int, j: int)
    requires 0 <= k < |s| && 0 <= j < |s|
    requires Blank(s[..k]) && Blank(s[..j]) && !IsSpace(s[k]) && !IsSpace(s[j])
    ensures k == j
  {
    assert forall i :: 0 <= i < k ==> s[..k][i] == s[i];
    assert forall i :: 0 <= i < j ==> s[..j][i] == s[i];
  }

  /** Two last non-space positions before whitespace-only suffixes coincide. */
  lemma SameEnd(s: string, e: int, f: int)
    requires 0 < e <= |s| && 0 < f <= |s|
    requires Blank(s[e..]) && Blank(s[f..]) && !IsSpace(s[e - 1]) && !IsSpace(s[f - 1])
    ensures e == f
  {
    assert forall i :: e <= i < |s| ==> s[e..][i - e] == s[i];
    assert forall i :: f <= i < |s| ==> s[f..][i - f] == s[i];
  }

  /** A piece with whitespace-free ends and only whitespace around it is
      empty exactly when the whole string is whitespace. */
  lemma PieceEmptyIffBlank(s: string, r: string, k: int)
    requires InfixAt(r, s, k) && Blank(s[..k]) && Blank(s[k + |r|..])
    requires r == [] || (!IsSpace(r[0]) && !IsSpace(r[|r| - 1]))
    ensures r == [] <==> Blank(s)
  {
    if r == [] {
      forall i | 0 <= i < |s| ensures IsSpace(s[i]) {
        if i < k { assert s[..k][i] == s[i]; } else { assert s[k..][i - k] == s[i]; }
      }
    } else {
      assert s[k] == r[0];
    }
  }

  /** The contract of `Trim` determines its result: the only piece of `s`
      with whitespace-free ends and nothing but whitespace cut off around it
      is `Trim(s)`. */
  lemma TrimIsUnique(s: string, r: string, k: int)
    requires InfixAt(r, s, k) && Blank(s[..k]) && Blank(s[k + |r|..])
    requires r == [] || (!IsSpace(r[0]) && !IsSpace(r[|r| - 1]))
    ensures r == Trim(s)
  {
    var t := Trim(s);
    var j :| InfixAt(t, s, j) && Blank(s[..j]) && Blank(s[j + |t|..]);
    PieceEmptyIffBlank(s, r, k);
    PieceEmptyIffBlank(s, t, j);
    if r != [] {
      SamePiece(s, r, k, t, j);
    }
  }

  /** Two non-empty pieces with whitespace-free ends and only whitespace
      around them are the same piece. */
  lemma SamePiece(s: string, r: string, k: int, t: string, j: int)
    requires InfixAt(r, s, k) && Blank(s[..k]) && Blank(s[k + |r|..])
    requires InfixAt(t, s, j) && Blank(s[..j]) && Blank(s[j + |t|..])
    requires r != [] && !IsSpace(r[0]) && !IsSpace(r[|r| - 1])
    requires t != [] && !IsSpace(t[0]) && !IsSpace(t[|t| - 1])
    ensures r == t
  {
    assert s[k] == r[0] && s[j] == t[0];
    SameStart(s, k, j);
    assert s[k + |r| - 1] == r[|r| - 1] && s[j + |t| - 1] == t[|t| - 1];
    SameEnd(s, k + |r|, j + |t|);
  }

  /** The `optional().trim()` sanitizer: an absent field stays absent. */
  function TrimOpt(s: Option<string>): (r: Option<string>)
    ensures r.Some? <==> s.Some?
    ensures r.Some? ==> r.value == Trim(s.value)
  {
    if s.Some? then Some(Trim(s.value)) else None
  }

  /** `trim().notEmpty()` rejects exactly the strings made only of whitespace. */
  lemma TrimEmptyIffBlank(s: string)
    ensures Trim(s) == [] <==> Blank(s)
  {
  }

  /** A string that survives `trim().notEmpty()` keeps a non-space character. */
  lemma NonBlankTrimKeepsText(s: string)
    requires !Blank(s)
    ensures Trim(s) != [] && !Blank(Trim(s))
  {
  }
}
