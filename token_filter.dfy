/** A filter that looks for a regular expression in the message content,
    optionally anchored at word boundaries. */
module TokenFilters {
  import opened Text
  import opened FilterContexts
  import opened Filters

  /** The regular-expression word boundary: a backslash followed by `b`. */
  const WordBoundary: string := "\\b"

  /** The one-character string the Python literal "\b" denotes. */
  const Backspace: string := "\U{0008}"

  /** The pattern searched for: unchanged unless the filter is exact, then
      given a word boundary at each end that lacks one. */
  function Anchored(pattern: string, exact: bool): (r: string)
    ensures !exact ==> r == pattern
    ensures exact ==> StartsWith(r, WordBoundary) && EndsWith(r, WordBoundary)
  {
    if !exact then pattern
    else
      var p := if StartsWith(pattern, WordBoundary) then pattern else WordBoundary + pattern;
      if EndsWith(p, WordBoundary) then p else p + WordBoundary
  }

  /** At most one boundary is added at each end, and only where none is. */
  lemma AnchoredAddsAtMostOne(pattern: string)
    ensures exists prefix, suffix ::
      && prefix in {"", WordBoundary} && suffix in {"", WordBoundary}
      && Anchored(pattern, true) == prefix + pattern + suffix
      && (prefix == "" <==> StartsWith(pattern, WordBoundary))
      && (suffix == "" <==> EndsWith(prefix + pattern, WordBoundary))
  {
    var prefix := if StartsWith(pattern, WordBoundary) then "" else WordBoundary;
    var p := prefix + pattern;
    var suffix := if EndsWith(p, WordBoundary) then "" else WordBoundary;
    assert Anchored(pattern, true) == prefix + pattern + suffix;
  }

  /** Anchoring an anchored pattern changes nothing. */
  lemma AnchoredIdempotent(pattern: string, exact: bool)
    ensures Anchored(Anchored(pattern, exact), exact) == Anchored(pattern, exact)
  {
  }

  /** `triggered_on`: the (anchored) pattern searched for, ignoring case, in
      the context's content. The regular-expression engine is a parameter. */
  predicate TriggeredOn(f: Filter, ctx: FilterContext, search: (string, string) -> bool)
    reads ctx
  {
    search(Anchored(f.token, f.exact), ctx.content)
  }

  /** A non-exact filter searches for its token as it is. */
  lemma TriggeredOnInexact(f: Filter, ctx: FilterContext, search: (string, string) -> bool)
    requires !f.exact
    ensures TriggeredOn(f, ctx, search) == search(f.token, ctx.content)
  {
  }

  /** Lines 16-19 as written: the check is for the two characters `\b`, but
      what is added is a single backspace character. */
  function AnchoredAsWritten(pattern: string, exact: bool): string {
    if !exact then pattern
    else
      var p := if StartsWith(pattern, WordBoundary) then pattern else Backspace + pattern;
      if EndsWith(p, WordBoundary) then p else p + Backspace
  }

  /** As written, anchoring "spam" adds backspaces (no word boundary) and
      adds them again on every pass. */
  lemma BackspaceCounterexample()
    ensures AnchoredAsWritten("spam", true) == Backspace + "spam" + Backspace
    ensures !StartsWith(AnchoredAsWritten("spam", true), WordBoundary)
    ensures AnchoredAsWritten(AnchoredAsWritten("spam", true), true) != AnchoredAsWritten("spam", true)
    ensures Anchored("spam", true) == WordBoundary + "spam" + WordBoundary
  {
    var once := AnchoredAsWritten("spam", true);
    assert once[..2] != WordBoundary by { assert once[0] == '\U{0008}'; }
    assert !EndsWith(once, WordBoundary) by { assert once[|once| - 1] == '\U{0008}'; }
    assert |AnchoredAsWritten(once, true)| == |once| + 2;
  }
}
