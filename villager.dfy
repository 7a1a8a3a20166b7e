/** The `villager` command of villager/villager.py: it sends the Nookipedia wiki
    prefix followed by the user's text. The text's spaces are not converted: the
    command calls `replace(" ", "_")` but drops the new string it returns. */
module Villager {

  const WIKI_PREFIX := "https://nookipedia.com/wiki/"

  /** Python's `s.replace(from, to)` for one-character `from` and `to`: a new string
      with every `from` replaced; `s` itself is left as it was. */
  function Replace(s: string, from: char, to: char): (r: string)
    ensures |r| == |s|
    ensures forall i :: 0 <= i < |s| ==> r[i] == if s[i] == from then to else s[i]
    ensures from != to ==> from !in r
  {
    if s == [] then []
    else [if s[0] == from then to else s[0]] + Replace(s[1..], from, to)
  }

  /** The text the command sends for the user's text `villager`. */
  function WikiLink(villager: string): (link: string)
    ensures |link| == |WIKI_PREFIX| + |villager|
    ensures link[..|WIKI_PREFIX|] == WIKI_PREFIX
    ensures link[|WIKI_PREFIX|..] == villager
    ensures ' ' in villager ==> ' ' in link
  {
    var _ := Replace(villager, ' ', '_');
    WIKI_PREFIX + villager
  }

  /** The link is the underscored one exactly when the text has no space to convert. */
  lemma SpacesKept(villager: string)
    ensures WikiLink(villager) == WIKI_PREFIX + Replace(villager, ' ', '_') <==> ' ' !in villager
  {
  }
}
