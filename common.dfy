/** Types shared by the two provider callbacks: optional values, results,
    the error an API call reports, and the substring test used to recognise
    a "not found" error by its text. */
module Common {

  datatype Option<+T> = None | Some(value: T)

  datatype Result<+T, +E> = Ok(value: T) | Err(error: E)

  /** An error returned by the Cloudflare API client; only its text is observable. */
  datatype ApiError = ApiError(message: string)

  /** `sub` occurs in `s` starting at offset `i`. */
  predicate OccursAt(s: string, sub: string, i: int)
  {
    0 <= i && i + |sub| <= |s| && s[i..i + |sub|] == sub
  }

  /** Go's strings.Contains: does `sub` occur anywhere in `s`?
      (The empty string occurs in every string.) */
  function Contains(s: string, sub: string): (r: bool)
    ensures r <==> exists i :: OccursAt(s, sub, i)
    decreases |s|
  {
    if |sub| > |s| then
      false
    else if s[..|sub|] == sub then
      assert OccursAt(s, sub, 0);
      true
    else
      var r := Contains(s[1..], sub);
      ShiftOccurrence(s, sub);
      r
  }

  /** An occurrence in `s` is either at offset 0 or an occurrence in `s[1..]`, one place later. */
  lemma ShiftOccurrence(s: string, sub: string)
    requires |s| > 0
    ensures (exists i :: OccursAt(s, sub, i)) <==>
            OccursAt(s, sub, 0) || exists i :: OccursAt(s[1..], sub, i)
  {
    forall i | OccursAt(s, sub, i) && i != 0
      ensures OccursAt(s[1..], sub, i - 1)
    {
      assert s[1..][i - 1..i - 1 + |sub|] == s[i..i + |sub|];
    }
    forall i | OccursAt(s[1..], sub, i)
      ensures OccursAt(s, sub, i + 1)
    {
      assert s[i + 1..i + 1 + |sub|] == s[1..][i..i + |sub|];
    }
  }
}
