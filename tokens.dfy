/** The token filter list: normalises the message content (spoilers
    expanded, invisible characters removed) and sifts its deny list. */
module Tokens {
  import opened Text
  import opened FilterContexts
  import opened Filters
  import opened FilterLists

  const Name := "tokens"

  /** `segments[0::2]`: the text outside spoilers. */
  function Evens(segments: seq<string>): seq<string> {
    if segments == [] then [] else [segments[0]] + Odds(segments[1..])
  }

  /** `segments[1::2]`: the spoilers, bars included. */
  function Odds(segments: seq<string>): seq<string> {
    if segments == [] then [] else Evens(segments[1..])
  }

  /** `_expand_spoilers` on the segments the spoiler pattern splits the text
      into: the text outside spoilers, then the spoilers, then the text. */
  function ExpandSpoilers(segments: seq<string>): string {
    Concat(Evens(segments) + Odds(segments) + segments)
  }

  /** A search for the spoiler pattern succeeds: two bars, at least one
      character (any, newlines included), then two bars. */
  predicate HasSpoiler(s: string) {
    exists j, k :: 0 <= j < |s| && 0 <= k < |s| && j + 3 <= k && BarsAt(s, j) && BarsAt(s, k)
  }

  /** Two bars start at position `j`. */
  predicate BarsAt(s: string, j: int) {
    0 <= j && j + 2 <= |s| && s[j..j + 2] == "||"
  }

  /** What splitting on the spoiler pattern (with its capturing group) gives:
      segments that re-join to the text, odd in number, every second one a
      spoiler enclosed in double bars. The search is leftmost, so the text
      between two matches holds no spoiler of its own and no bars in it
      could open the spoiler that follows; the match is non-greedy, so a
      spoiler closes at the first bars after its first character. */
  predicate IsSpoilerSplit(text: string, segments: seq<string>) {
    && Concat(segments) == text
    && |segments| % 2 == 1
    && (forall i :: 0 <= i < |segments| && i % 2 == 1 ==>
          |segments[i]| >= 5 && StartsWith(segments[i], "||") && EndsWith(segments[i], "||"))
    && (forall i :: 0 <= i < |segments| && i % 2 == 0 ==> !HasSpoiler(segments[i]))
    && (forall i, j :: 0 <= i < |segments| && i % 2 == 1 && 3 <= j < |segments[i]| - 2 ==>
          !BarsAt(segments[i], j))
    && (forall i, p :: 0 <= i < |segments| && i % 2 == 0 && 0 <= p < |segments[i]| ==>
          !OpensBefore(segments, i, p))
  }

  /** Bars start at position `p` of segment `i` read on into the next one. */
  predicate OpensBefore(segments: seq<string>, i: int, p: int) {
    0 <= i && i + 1 < |segments| && BarsAt(segments[i] + segments[i + 1], p)
  }

  /** A split has more than one segment exactly when the text holds a
      spoiler: the first spoiler segment is one, and a single segment is the
      whole text, which then holds none. */
  lemma SplitIffSpoiler(text: string, segments: seq<string>)
    requires IsSpoilerSplit(text, segments)
    ensures |segments| > 1 <==> HasSpoiler(text)
  {
    if |segments| > 1 {
      var a, b := segments[0], segments[1];
      ConcatAppend(segments[..2], segments[2..]);
      assert segments == segments[..2] + segments[2..];
      assert segments[..2][..1] == [a];
      ConcatSingle(a);
      assert Concat(segments[..2]) == a + b;
      var j, k := |a|, |a| + |b| - 2;
      assert text[j..k + 2] == b;
      assert text[j..j + 2] == b[..2];
      assert text[k..k + 2] == b[|b| - 2..];
      assert BarsAt(text, j) && BarsAt(text, k);
    } else {
      ConcatSingle(segments[0]);
      assert segments == [segments[0]];
    }
  }

  lemma ConcatSingle(s: string)
    ensures Concat([s]) == s
  {
    assert [s][..0] == [];
  }

  /** The segments outside and inside spoilers share out the text's length. */
  lemma {:induction false} EvensOddsLength(segments: seq<string>)
    ensures |Concat(Evens(segments))| + |Concat(Odds(segments))| == |Concat(segments)|
  {
    if segments != [] {
      var rest := segments[1..];
      EvensOddsLength(rest);
      ConcatAppend([segments[0]], Odds(rest));
      ConcatAppend([segments[0]], rest);
      ConcatSingle(segments[0]);
      assert segments == [segments[0]] + rest;
    }
  }

  /** The expansion is twice as long as the text, begins with the text
      outside spoilers followed by the spoilers, and ends with the text. */
  lemma ExpandSpoilersShape(segments: seq<string>)
    ensures |ExpandSpoilers(segments)| == 2 * |Concat(segments)|
    ensures ExpandSpoilers(segments) == Concat(Evens(segments)) + Concat(Odds(segments)) + Concat(segments)
    ensures StartsWith(ExpandSpoilers(segments), Concat(Evens(segments)) + Concat(Odds(segments)))
    ensures EndsWith(ExpandSpoilers(segments), Concat(segments))
  {
    ConcatAppend(Evens(segments) + Odds(segments), segments);
    ConcatAppend(Evens(segments), Odds(segments));
    EvensOddsLength(segments);
    var head := Concat(Evens(segments)) + Concat(Odds(segments));
    var e := ExpandSpoilers(segments);
    assert e == head + Concat(segments);
    assert e[..|head|] == head;
    assert e[|e| - |Concat(segments)|..] == Concat(segments);
  }

  /** The deny list's result, or nothing when no deny list is loaded. */
  function DenyResult(list: FilterList, ctx: FilterContext): seq<Filter>
    reads list
  {
    if Deny in list.filterLists && Deny in list.defaults
    then Sift(ctx, list.filterLists[Deny], list.defaults[Deny])
    else []
  }

  /** `trigger_for`: the content is rewritten in place (spoilers expanded
      only when there is one, then cleaned) before the deny list is sifted.
      The spoiler split and the cleaning are parameters. */
  method TriggerFor(list: FilterList, ctx: FilterContext, segments: seq<string>, clean: string -> string)
    returns (triggered: seq<Filter>)
    requires IsSpoilerSplit(ctx.content, segments)
    modifies ctx`content
    ensures ctx.content == clean(if HasSpoiler(old(ctx.content)) then ExpandSpoilers(segments) else old(ctx.content))
    ensures |segments| > 1 <==> HasSpoiler(old(ctx.content))
    ensures triggered == DenyResult(list, ctx)
  {
    SplitIffSpoiler(ctx.content, segments);
    var text := ctx.content;
    if |segments| > 1 {
      text := ExpandSpoilers(segments);
    }
    text := clean(text);
    ctx.content := text;
    if Deny in list.filterLists && Deny in list.defaults {
      triggered := FilterListResult(ctx, list.filterLists[Deny], list.defaults[Deny]);
    } else {
      triggered := [];
    }
  }
}
