/** Worked examples of the pipeline on concrete requests. */
module Examples {
  import opened Wrappers
  import opened Text
  import opened Gateway
  import opened Settings
  import opened Keywords
  import opened Reputation
  import opened Approver

  function SampleConfig(levelCheck: bool): Config {
    Config("ws://127.0.0.1:3001", "", 5, levelCheck, ["spam"], ["friend referral"], [])
  }

  function SampleRequest(comment: string): Event {
    Event(Some("request"), Some("group"), Some("add"), Some(100), Some(200), Some(comment), Some("f1"))
  }

  /** A lookup that reports level 3 for everyone. */
  function LevelThree(userId: int): HttpOutcome {
    Response(200, Some(LevelBody(3)))
  }

  /** "friend referral, hi" matches no reject word and the approve phrase. */
  lemma FriendReferralApproved()
    ensures Classify(["spam"], ["friend referral"], Some("friend referral, hi")) == Approve
  {
    var text := "friend referral, hi";
    LowerOfLowerCase(text);
    LowerOfLowerCase("spam");
    LowerOfLowerCase("friend referral");
    MissingFirstChar(text, "spam");
    assert "friend referral" <= text[0..];
    assert forall k :: k in ["spam"] ==> k == "spam";
    ClassifyIff(["spam"], ["friend referral"], Some(text));
  }

  /** Level check off, the comment names the approve phrase: approved, no reason. */
  lemma ApprovedByKeyword(service: int -> HttpOutcome)
    ensures MessageDecision(SampleConfig(false), SampleRequest("friend referral, hi"), service)
            == Some(Command("f1", "add", true, None))
  {
    FriendReferralApproved();
    KeywordVerdictDecides(SampleConfig(false), SampleRequest("friend referral, hi"), service);
  }

  /** The same configuration and a comment naming the reject word: rejected with "拒绝". */
  lemma RejectedByKeyword(service: int -> HttpOutcome)
    ensures MessageDecision(SampleConfig(false), SampleRequest("spam account"), service)
            == Some(Command("f1", "add", false, Some("拒绝")))
  {
    var text := "spam account";
    LowerOfLowerCase(text);
    LowerOfLowerCase("spam");
    assert "spam" <= text[0..];
    RejectWins(["spam"], ["friend referral"], text, "spam");
    KeywordVerdictDecides(SampleConfig(false), SampleRequest(text), service);
  }

  /** Level check on and a level of 3 against a minimum of 5: rejected for the
      level, although the comment names the approve phrase. */
  lemma RejectedForLevel()
    ensures MessageDecision(SampleConfig(true), SampleRequest("friend referral, hi"), LevelThree)
            == Some(Command("f1", "add", false, Some("QQ等级低于5级")))
  {
    QQLevelOfLevelBody(3);
    assert PyInt.Show(5) == "5";
    assert "QQ等级低于" + "5" + "级" == "QQ等级低于5级";
    LowLevelRejected(SampleConfig(true), SampleRequest("friend referral, hi"), LevelThree);
  }
}
