/** The clean-up of model output in backend/app/utils/text_parser.py: every
    `<think>...</think>` block is cut out (the shortest block from the leftmost
    opening tag, scanning on after it), then surrounding white space is
    stripped. */
module TextParser {
  import opened Common
  import opened Seqs

  const OpenTag: string := "<think>"
  const CloseTag: string := "</think>"

  /** The block removal of `re.sub(r'<think>.*?</think>', '', s, flags=re.DOTALL)`.
      An opening tag without a closing tag after it ends the scan. */
  function RemoveThink(s: string): (r: string)
    ensures |r| <= |s|
    ensures Find(s, OpenTag).None? ==> r == s
    decreases |s|
  {
    match NextBlock(s)
    case None => s
    case Some((i, k)) => s[..i] + RemoveThink(s[k..])
  }

  /** Where the first block starts (its opening tag, the first in s) and where
      it ends (just after the first closing tag that follows); none when either
      tag is missing. */
  function NextBlock(s: string): (r: Option<(nat, nat)>)
    ensures r.Some? ==> r.value.0 + |OpenTag| + |CloseTag| <= r.value.1 <= |s|
    ensures Find(s, OpenTag).None? ==> r.None?
  {
    match Find(s, OpenTag)
    case None => None
    case Some(i) =>
      match Find(s[i + |OpenTag|..], CloseTag)
      case None => None
      case Some(j) => Some((i, i + |OpenTag| + j + |CloseTag|))
  }

  /** What remains keeps the order of the original text: the removal only deletes. */
  lemma {:induction false} RemoveThinkDeletesOnly(s: string)
    ensures Subseq(RemoveThink(s), s)
    decreases |s|
  {
    match NextBlock(s)
    case None => SubseqRefl(s);
    case Some((i, k)) =>
      RemoveThinkDeletesOnly(s[k..]);
      SubseqCut(s, i, k, RemoveThink(s[k..]));
  }

  /** `sanitize_ai_response` (also exported as `strip_think_tags`). */
  function Sanitize(s: string): (r: string)
    ensures r != [] ==> !PySpace(r[0]) && !PySpace(r[|r| - 1])
    ensures Find(s, OpenTag).None? ==> r == Trim(s, false)
    ensures |r| <= |s|
  {
    var t := RemoveThink(s);
    PythonEnds(t);
    Trim(t, false)
  }

  /** A Python-trimmed string neither starts nor ends with a Python space. */
  lemma PythonEnds(t: string)
    ensures var r := Trim(t, false); r != [] ==> !PySpace(r[0]) && !PySpace(r[|r| - 1])
  {
    var r := Trim(t, false);
    TrimCutsSpaces(t, false);
    var k :| PaddedAt(t, r, k, SpaceTest(false));
  }

  /** An occurrence inside a suffix is an occurrence in the whole string. */
  lemma OccursInSuffix(s: string, q: string, k: nat, j: int)
    requires k <= |s| && OccursAt(s[k..], q, j)
    ensures OccursAt(s, q, k + j)
  {
    assert s[k..][j..j + |q|] == s[k + j..k + j + |q|];
  }

  /** Without any closing tag nothing is removed. */
  lemma NoCloseTagUnchanged(s: string)
    requires Find(s, CloseTag).None?
    ensures RemoveThink(s) == s
  {
    var f := Find(s, OpenTag);
    if f.Some? {
      var i := f.value;
      var g := Find(s[i + |OpenTag|..], CloseTag);
      if g.Some? {
        FindFirst(s, CloseTag);
        FindFirst(s[i + |OpenTag|..], CloseTag);
        OccursInSuffix(s, CloseTag, i + |OpenTag|, g.value);
        assert false;
      }
    }
  }

  /** When no closing tag follows the first opening tag, nothing is removed:
      the dangling opening tag and everything after it stay in place. */
  lemma DanglingOpenTagKept(s: string, i: nat)
    requires OccursAt(s, OpenTag, i)
    requires forall j :: 0 <= j < i ==> !OccursAt(s, OpenTag, j)
    requires forall j :: i + |OpenTag| <= j ==> !OccursAt(s, CloseTag, j)
    ensures RemoveThink(s) == s
  {
    FindFirst(s, OpenTag);
    assert Find(s, OpenTag) == Some(i);
    var rest := s[i + |OpenTag|..];
    FindFirst(rest, CloseTag);
    var g := Find(rest, CloseTag);
    if g.Some? {
      OccursInSuffix(s, CloseTag, i + |OpenTag|, g.value);
      assert false;
    }
  }

  /** A string starting with q, after a prefix without '<', has its first
      occurrence of q (which starts with '<') right after that prefix. */
  lemma FirstAfterPlainPrefix(pre: string, q: string, rest: string)
    requires q != [] && q[0] == '<' && '<' !in pre
    ensures Find(pre + q + rest, q) == Some(|pre|)
  {
    var s := pre + q + rest;
    assert s[|pre|..|pre| + |q|] == q;
    assert OccursAt(s, q, |pre|);
    FindFirst(s, q);
    var f := Find(s, q);
    assert f.Some?;
  }

  /** One block is cut out and the scan resumes after it. */
  lemma RemovesBlock(pre: string, mid: string, post: string)
    requires '<' !in pre && '<' !in mid
    ensures RemoveThink(pre + OpenTag + mid + CloseTag + post) == pre + RemoveThink(post)
  {
    var s := pre + OpenTag + mid + CloseTag + post;
    assert s == pre + OpenTag + (mid + CloseTag + post);
    FirstAfterPlainPrefix(pre, OpenTag, mid + CloseTag + post);
    var rest := s[|pre| + |OpenTag|..];
    assert rest == mid + CloseTag + post;
    FirstAfterPlainPrefix(mid, CloseTag, post);
    assert NextBlock(s) == Some((|pre|, |pre| + |OpenTag| + |mid| + |CloseTag|));
    assert s[..|pre|] == pre;
    assert s[|pre| + |OpenTag| + |mid| + |CloseTag|..] == post;
  }
}
