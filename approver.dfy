/** The request pipeline of `SimpleAutoApproveWS`: which gateway events it acts
    on, the gates a join request passes, the reputation check, the keyword
    verdict, and the command it sends back. */
module Approver {
  import opened Wrappers
  import opened Json
  import opened Gateway
  import opened Settings
  import opened Keywords
  import opened Reputation
  import PyInt

  /** The rejection reason for a requester below the level threshold:
      "QQ等级低于{min}级". */
  function LevelReason(minLevel: int): string {
    "QQ等级低于" + PyInt.Show(minLevel) + "级"
  }

  /** The rejection reason sent when a reject keyword matches. */
  const KeywordRejectReason: string := "拒绝"

  /** The reputation gate rejects a level of 0 (also every failed lookup) and
      every level below the threshold. */
  predicate LevelTooLow(level: int, minLevel: int) {
    level == 0 || level < minLevel
  }

  /** The request passes the required-field and whitelist gates. */
  predicate PassesGates(cfg: Config, ev: Event) {
    HasRequiredFields(ev) && IsGroupWhitelisted(cfg, ev.groupId.value)
  }

  /** The command `process_request` answers an event with, or `None` when it
      sends nothing. `service` is the reputation service: what a lookup of a
      user id returns. */
  function Decide(cfg: Config, ev: Event, service: int -> HttpOutcome): Option<Command> {
    if !PassesGates(cfg, ev) then None
    else
      var flag, subType := ev.flag.value, ev.subType.value;
      if cfg.enableLevelCheck && LevelTooLow(QQLevel(service(ev.userId.value)), cfg.minQQLevel) then
        Some(Command(flag, subType, false, Some(LevelReason(cfg.minQQLevel))))
      else
        match Classify(cfg.rejectKeywords, cfg.approveKeywords, ev.comment)
        case Reject => Some(Command(flag, subType, false, Some(KeywordRejectReason)))
        case Approve => Some(Command(flag, subType, true, None))
        case Skip => None
  }

  /** The user ids `process_request` looks up: the requester's, once, when the
      request passes the gates and the level check is enabled. */
  function Lookups(cfg: Config, ev: Event): seq<int> {
    if PassesGates(cfg, ev) && cfg.enableLevelCheck then [ev.userId.value] else []
  }

  /** What `handle_message` makes of an event: only join requests reach
      `process_request`. */
  function MessageDecision(cfg: Config, ev: Event, service: int -> HttpOutcome): Option<Command> {
    if IsJoinRequest(ev) then Decide(cfg, ev, service) else None
  }

  /** The dictionaries that reach the socket for a decision: none when there is
      no command or the socket is not usable (the send raises and is swallowed). */
  function Transmitted(connected: bool, decision: Option<Command>): seq<Value> {
    if connected && decision.Some? then [Encode(decision.value)] else []
  }

  /** Every command the pipeline produces answers the event's own request
      (its flag and sub-type), is well formed, and reaches the gateway intact. */
  lemma DecisionWellFormed(cfg: Config, ev: Event, service: int -> HttpOutcome)
    requires Decide(cfg, ev, service).Some?
    ensures PassesGates(cfg, ev)
    ensures Decide(cfg, ev, service).value.flag == ev.flag.value
    ensures Decide(cfg, ev, service).value.subType == ev.subType.value
    ensures Decide(cfg, ev, service).value.Valid()
    ensures DecodeRequest(Encode(Decide(cfg, ev, service).value)) == Decide(cfg, ev, service)
  {
  }

  /** A request missing a required field, or from a group outside a non-empty
      whitelist, is answered with nothing and looked up nowhere. */
  lemma FailedGateSendsNothing(cfg: Config, ev: Event, service: int -> HttpOutcome)
    requires !HasRequiredFields(ev) || (cfg.groupWhitelist != [] && ev.groupId.value !in cfg.groupWhitelist)
    ensures Decide(cfg, ev, service) == None
    ensures Lookups(cfg, ev) == []
  {
  }

  /** With the level check on and a level of 0 or below the minimum, the answer
      is a rejection giving the threshold as the reason. */
  lemma LowLevelRejected(cfg: Config, ev: Event, service: int -> HttpOutcome)
    requires PassesGates(cfg, ev) && cfg.enableLevelCheck
    requires LevelTooLow(QQLevel(service(ev.userId.value)), cfg.minQQLevel)
    ensures Decide(cfg, ev, service) ==
      Some(Command(ev.flag.value, ev.subType.value, false, Some("QQ等级低于" + PyInt.Show(cfg.minQQLevel) + "级")))
  {
  }

  /** ... and the keyword rules play no part in it: any other keyword lists and
      any other comment give the same answer. */
  lemma LowLevelIgnoresKeywords(cfg: Config, ev: Event, service: int -> HttpOutcome,
                                rejects: seq<string>, approves: seq<string>, comment: Option<string>)
    requires PassesGates(cfg, ev) && cfg.enableLevelCheck
    requires LevelTooLow(QQLevel(service(ev.userId.value)), cfg.minQQLevel)
    ensures Decide(cfg.(rejectKeywords := rejects, approveKeywords := approves), ev.(comment := comment), service)
            == Decide(cfg, ev, service)
  {
  }

  /** Once past the gates, the keyword verdict alone decides: a rejection with
      "拒绝", an approval without a reason, or nothing at all. */
  lemma KeywordVerdictDecides(cfg: Config, ev: Event, service: int -> HttpOutcome)
    requires PassesGates(cfg, ev)
    requires !cfg.enableLevelCheck || !LevelTooLow(QQLevel(service(ev.userId.value)), cfg.minQQLevel)
    ensures Classify(cfg.rejectKeywords, cfg.approveKeywords, ev.comment) == Reject ==>
      Decide(cfg, ev, service) == Some(Command(ev.flag.value, ev.subType.value, false, Some("拒绝")))
    ensures Classify(cfg.rejectKeywords, cfg.approveKeywords, ev.comment) == Approve ==>
      Decide(cfg, ev, service) == Some(Command(ev.flag.value, ev.subType.value, true, None))
    ensures Classify(cfg.rejectKeywords, cfg.approveKeywords, ev.comment) == Skip ==>
      Decide(cfg, ev, service) == None
  {
  }

  /** A comment containing a reject keyword is rejected even when it also
      contains an approve keyword. */
  lemma RejectKeywordBeatsApprove(cfg: Config, ev: Event, service: int -> HttpOutcome, k: string)
    requires PassesGates(cfg, ev)
    requires !cfg.enableLevelCheck || !LevelTooLow(QQLevel(service(ev.userId.value)), cfg.minQQLevel)
    requires ev.comment.Some? && ev.comment.value != ""
    requires k in cfg.rejectKeywords && Matches(k, ev.comment.value)
    ensures Decide(cfg, ev, service) == Some(Command(ev.flag.value, ev.subType.value, false, Some(KeywordRejectReason)))
  {
    RejectWins(cfg.rejectKeywords, cfg.approveKeywords, ev.comment.value, k);
  }

  /** With the level check off, no lookup happens and the reputation service
      has no influence on the answer. */
  lemma DisabledCheckIgnoresService(cfg: Config, ev: Event, s1: int -> HttpOutcome, s2: int -> HttpOutcome)
    requires !cfg.enableLevelCheck
    ensures Lookups(cfg, ev) == []
    ensures Decide(cfg, ev, s1) == Decide(cfg, ev, s2)
  {
  }

  /** Events other than group-join requests are never answered. */
  lemma OtherEventsIgnored(cfg: Config, ev: Event, service: int -> HttpOutcome)
    requires !IsJoinRequest(ev)
    ensures MessageDecision(cfg, ev, service) == None
  {
  }

  /** `SimpleAutoApproveWS`: the immutable configuration, the gateway socket
      (whether it is usable, and the dictionaries sent through it) and the
      user ids looked up at the reputation service, in order. */
  class AutoApprover {
    const config: Config
    var connected: bool
    var sent: seq<Value>
    var queried: seq<int>

    /** A fresh instance has no socket yet (`self.ws = None`). */
    constructor (config: Config)
      ensures this.config == config && !connected && sent == [] && queried == []
    {
      this.config := config;
      connected := false;
      sent := [];
      queried := [];
    }

    /** The connection is established and becomes `self.ws`. */
    method Attach()
      modifies this`connected
      ensures connected
    {
      connected := true;
    }

    /** The transport closes; later sends raise. */
    method Detach()
      modifies this`connected
      ensures !connected
    {
      connected := false;
    }

    /** `get_qq_level`: one lookup of `userId` at the service, interpreted. */
    method GetQQLevel(userId: int, service: int -> HttpOutcome) returns (level: int)
      modifies this`queried
      ensures queried == old(queried) + [userId]
      ensures level == QQLevel(service(userId))
    {
      queried := queried + [userId];
      var reply := service(userId);
      level := QQLevel(reply);
    }

    /** `handle_group_request`: builds the command and sends it; reports
      whether the send went through (it fails when the socket is unusable). */
    method HandleGroupRequest(flag: string, subType: string, approve: bool, reason: string) returns (ok: bool)
      modifies this`sent
      ensures ok == connected
      ensures sent == old(sent) + (if ok then [BuildRequest(flag, subType, approve, reason)] else [])
    {
      var request := BuildRequest(flag, subType, approve, reason);
      if !connected {
        return false;
      }
      sent := sent + [request];
      return true;
    }

    /** `process_request`: the gates, the reputation check, the keyword verdict
        and the one send they lead to. */
    method ProcessRequest(ev: Event, service: int -> HttpOutcome)
      modifies this`sent, this`queried
      ensures sent == old(sent) + Transmitted(connected, Decide(config, ev, service))
      ensures |sent| <= |old(sent)| + 1
      ensures queried == old(queried) + Lookups(config, ev)
    {
      if !HasRequiredFields(ev) {
        return;
      }
      var groupId, userId, flag, subType := ev.groupId.value, ev.userId.value, ev.flag.value, ev.subType.value;
      if !IsGroupWhitelisted(config, groupId) {
        return;
      }
      var level := 0;
      if config.enableLevelCheck {
        level := GetQQLevel(userId, service);
        if level == 0 || level < config.minQQLevel {
          var ok := HandleGroupRequest(flag, subType, false, LevelReason(config.minQQLevel));
          return;
        }
      }
      assert !(config.enableLevelCheck && LevelTooLow(QQLevel(service(userId)), config.minQQLevel));
      var verdict := CheckKeywords(config.rejectKeywords, config.approveKeywords, ev.comment);
      if verdict == Reject {
        var ok := HandleGroupRequest(flag, subType, false, KeywordRejectReason);
      } else if verdict == Approve {
        var ok := HandleGroupRequest(flag, subType, true, "");
      }
    }

    /** `handle_message`: forwards group-join requests to `process_request`
        and ignores every other event. */
    method HandleMessage(ev: Event, service: int -> HttpOutcome)
      modifies this`sent, this`queried
      ensures sent == old(sent) + Transmitted(connected, MessageDecision(config, ev, service))
      ensures queried == old(queried) + (if IsJoinRequest(ev) then Lookups(config, ev) else [])
    {
      if ev.postType == Some("request") && ev.requestType == Some("group") {
        if ev.subType == Some("add") || ev.subType == Some("invite") {
          ProcessRequest(ev, service);
        }
      }
    }
  }
}
