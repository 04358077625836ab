/**
 * `extract_doc_id` of `docs_sync.py`: the document id of a Google Docs URL, found as
 * `re.search(r"/d/([a-zA-Z0-9-_]+)", url).group(1)`.
 */
module DocId {
  import opened Wrappers

  /** A character of the class `[a-zA-Z0-9-_]` (the `-` after the range `0-9` is a literal). */
  predicate IdChar(c: char) {
    ('a' <= c <= 'z') || ('A' <= c <= 'Z') || ('0' <= c <= '9') || c == '-' || c == '_'
  }

  /** The pattern can start matching at `k`: `/d/` followed by at least one id character. */
  predicate MarkerAt(url: string, k: int) {
    0 <= k && k + 4 <= |url| && url[k] == '/' && url[k + 1] == 'd' && url[k + 2] == '/' && IdChar(url[k + 3])
  }

  /** The length of the greedy run of id characters that starts at `i`. */
  function IdRun(url: string, i: nat): (n: nat)
    requires i <= |url|
    ensures i + n <= |url|
    ensures forall j :: i <= j < i + n ==> IdChar(url[j])
    ensures i + n == |url| || !IdChar(url[i + n])
    decreases |url| - i
  {
    if i < |url| && IdChar(url[i]) then 1 + IdRun(url, i + 1) else 0
  }

  /** Where the regex search started at `k` finds its match: the leftmost position at or after `k` where it can start. */
  function FirstMarker(url: string, k: nat): (r: Option<nat>)
    requires k <= |url|
    ensures r.None? ==> forall j :: k <= j ==> !MarkerAt(url, j)
    ensures r.Some? ==> k <= r.value && MarkerAt(url, r.value) && forall i :: k <= i < r.value ==> !MarkerAt(url, i)
    decreases |url| - k
  {
    if k + 4 > |url| then None
    else if MarkerAt(url, k) then Some(k)
    else FirstMarker(url, k + 1)
  }

  /** The id: the run of id characters after the leftmost `/d/` that is followed by one; none when there is no such `/d/`. */
  function ExtractDocId(url: string): (r: Option<string>)
    ensures r.None? <==> forall j :: !MarkerAt(url, j)
    ensures r.Some? ==> |r.value| >= 1
  {
    match FirstMarker(url, 0)
    case None => None
    case Some(j) => Some(url[j + 3 .. j + 3 + IdRun(url, j + 3)])
  }

  /**
   * A found id is made of id characters, follows the leftmost `/d/` that is followed by an id
   * character, and is maximal: the character after it, if any, is not an id character.
   */
  lemma ExtractDocIdFound(url: string)
    requires ExtractDocId(url).Some?
    ensures var id := ExtractDocId(url).value;
      && (forall i :: 0 <= i < |id| ==> IdChar(id[i]))
      && exists j :: && MarkerAt(url, j) && (forall i :: 0 <= i < j ==> !MarkerAt(url, i))
                     && id == url[j + 3 .. j + 3 + |id|]
                     && (j + 3 + |id| == |url| || !IdChar(url[j + 3 + |id|]))
  {
    var j := FirstMarker(url, 0).value;
    var n := IdRun(url, j + 3);
    var id := url[j + 3 .. j + 3 + n];
    assert ExtractDocId(url).value == id;
    forall i | 0 <= i < |id|
      ensures IdChar(id[i])
    {
      assert id[i] == url[j + 3 + i];
    }
    assert MarkerAt(url, j) && (forall i :: 0 <= i < j ==> !MarkerAt(url, i));
  }
}
