/**
 * Menu titles are drawn from a copy that cannot wrap: every space becomes a
 * no-break space (U+00A0) and every hyphen a non-breaking hyphen (U+2011)
 * (UnwrappableString in QJColorGridView.swift).
 */
module MenuText {
  const NoBreakSpace: char := '\U{A0}'
  const NonBreakingHyphen: char := '\U{2011}'

  /** Every occurrence of `from` replaced by `to`, everything else kept in place. */
  function ReplaceAll(s: seq<char>, from: char, to: char): (r: seq<char>)
    ensures |r| == |s|
    ensures forall i :: 0 <= i < |s| ==> r[i] == (if s[i] == from then to else s[i])
  {
    if s == [] then [] else [if s[0] == from then to else s[0]] + ReplaceAll(s[1..], from, to)
  }

  /** Spaces first, then hyphens, as QJColorGridView chains its two replacements. */
  function UnwrappableString(s: seq<char>): (r: seq<char>)
    ensures |r| == |s|
    ensures forall i :: 0 <= i < |s| ==>
      r[i] == (if s[i] == ' ' then NoBreakSpace else if s[i] == '-' then NonBreakingHyphen else s[i])
    ensures ' ' !in r && '-' !in r
  {
    ReplaceAll(ReplaceAll(s, ' ', NoBreakSpace), '-', NonBreakingHyphen)
  }

  /** Making a string unwrappable twice is the same as once. */
  lemma UnwrappableIdempotent(s: seq<char>)
    ensures UnwrappableString(UnwrappableString(s)) == UnwrappableString(s)
  {
  }
}
