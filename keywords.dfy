/** `check_keywords`: case-insensitive substring matching of a join request's
    comment against the reject list, then the approve list. */
module Keywords {
  import opened Wrappers
  import opened Text

  datatype Verdict = Reject | Approve | Skip

  /** `keyword.lower() in text.lower()`. */
  predicate Matches(keyword: string, text: string) {
    Contains(Lower(text), Lower(keyword))
  }

  /** Python's truth value of the comment: absent (`None`) and `""` are false. */
  predicate IsBlank(comment: Option<string>) {
    comment.None? || comment.value == ""
  }

  /** Some keyword of `keywords`, lower-cased, occurs in `lowered`; the
      search visits the keywords in their configured order. */
  function AnyOccurs(keywords: seq<string>, lowered: string): bool {
    if keywords == [] then false
    else Contains(lowered, Lower(keywords[0])) || AnyOccurs(keywords[1..], lowered)
  }

  /** The verdict `check_keywords` returns for a comment. */
  function Classify(rejects: seq<string>, approves: seq<string>, comment: Option<string>): Verdict {
    if IsBlank(comment) then Skip
    else
      var lowered := Lower(comment.value);
      if AnyOccurs(rejects, lowered) then Reject
      else if AnyOccurs(approves, lowered) then Approve
      else Skip
  }

  /** The ordered search finds a match exactly when one exists. */
  lemma {:induction false} AnyOccursIff(keywords: seq<string>, text: string)
    ensures AnyOccurs(keywords, Lower(text)) <==> exists k :: k in keywords && Matches(k, text)
  {
    if keywords != [] {
      AnyOccursIff(keywords[1..], text);
      if exists k :: k in keywords && Matches(k, text) {
        var k :| k in keywords && Matches(k, text);
        if k != keywords[0] {
          assert k in keywords[1..];
        }
      } else {
        assert keywords[0] in keywords;
      }
    }
  }

  /** An empty or absent comment is left for a human, whatever the lists hold. */
  lemma BlankIsSkipped(rejects: seq<string>, approves: seq<string>, comment: Option<string>)
    requires IsBlank(comment)
    ensures Classify(rejects, approves, comment) == Skip
  {
  }

  /** A reject keyword occurring in the comment decides the verdict, even when
      an approve keyword occurs too: the reject list has priority. */
  lemma RejectWins(rejects: seq<string>, approves: seq<string>, text: string, k: string)
    requires text != ""
    requires k in rejects && Matches(k, text)
    ensures Classify(rejects, approves, Some(text)) == Reject
  {
    AnyOccursIff(rejects, text);
  }

  /** The three verdicts, each characterised in both directions by which
      lists have a keyword occurring in the comment. */
  lemma ClassifyIff(rejects: seq<string>, approves: seq<string>, comment: Option<string>)
    ensures Classify(rejects, approves, comment) == Reject <==>
      !IsBlank(comment) && exists k :: k in rejects && Matches(k, comment.value)
    ensures Classify(rejects, approves, comment) == Approve <==>
      && !IsBlank(comment)
      && (forall k :: k in rejects ==> !Matches(k, comment.value))
      && (exists k :: k in approves && Matches(k, comment.value))
    ensures Classify(rejects, approves, comment) == Skip <==>
      || IsBlank(comment)
      || ((forall k :: k in rejects ==> !Matches(k, comment.value))
          && (forall k :: k in approves ==> !Matches(k, comment.value)))
  {
    if !IsBlank(comment) {
      AnyOccursIff(rejects, comment.value);
      AnyOccursIff(approves, comment.value);
    }
  }

  /** An empty keyword occurs in every text, so an empty entry in the reject
      list rejects every request that has a comment. */
  lemma EmptyRejectKeywordRejectsAll(rejects: seq<string>, approves: seq<string>, text: string)
    requires "" in rejects && text != ""
    ensures Classify(rejects, approves, Some(text)) == Reject
  {
    ContainsEmpty(Lower(text));
    assert Lower("") == "";
    RejectWins(rejects, approves, text, "");
  }

  /** Lowering the comment before classifying it never changes the verdict. */
  lemma CaseInsensitive(rejects: seq<string>, approves: seq<string>, text: string)
    ensures Classify(rejects, approves, Some(Lower(text))) == Classify(rejects, approves, Some(text))
  {
    LowerIdempotent(text);
  }

  /** `check_keywords`: two early-return searches, reject list first. */
  method CheckKeywords(rejects: seq<string>, approves: seq<string>, comment: Option<string>)
    returns (v: Verdict)
    ensures v == Classify(rejects, approves, comment)
  {
    if IsBlank(comment) {
      return Skip;
    }
    var lowered := Lower(comment.value);
    for i := 0 to |rejects|
      invariant AnyOccurs(rejects, lowered) == AnyOccurs(rejects[i..], lowered)
    {
      assert rejects[i..][1..] == rejects[i + 1..];
      if Contains(lowered, Lower(rejects[i])) {
        return Reject;
      }
    }
    for i := 0 to |approves|
      invariant AnyOccurs(approves, lowered) == AnyOccurs(approves[i..], lowered)
    {
      assert approves[i..][1..] == approves[i + 1..];
      if Contains(lowered, Lower(approves[i])) {
        return Approve;
      }
    }
    return Skip;
  }
}
