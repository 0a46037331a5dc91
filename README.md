# AutoHandleGroupRequest in Dafny

A model of the bot that moderates QQ group-join requests (`SimpleAutoApproveWS` in
`AutoHandleGroupRequest.py`). For each gateway event the bot decides whether to approve the
request, reject it, or leave it for a human. The sequence is:

- the event filter of `handle_message`;
- the gates of `process_request`: required fields and the group whitelist;
- the QQ-level check against the reputation service, with the answer interpreted by `get_qq_level`;
- the keyword classifier `check_keywords`;
- the `set_group_add_request` command built and sent by `handle_group_request`.

Modules, one per concern:

- `Wrappers`: `Option`.
- `Text`: `str.lower()` (ASCII) and Python's substring test `a in b`.
- `PyInt`: Python's `int(str)` and `str(int)`, with the round trip `int(str(n)) == n` for integers of any size (no limit on the number of digits; see "Left out").
- `Json`: decoded JSON values and `dict.get`.
- `Reputation`: how `get_qq_level` turns an HTTP outcome into a level. Every failure gives 0.
- `Keywords`: `check_keywords`. The loop method is proved against the function `Classify`, and
  `Classify` is characterised by which lists have a match.
- `Gateway`: the inbound `Event` (every field optional, so Python's falsy values are explicit
  predicates), the join-request filter, and the `api_request` dictionary with a decoder. The two are
  proved inverse.
- `Settings`: the immutable configuration record and `is_group_whitelisted`.
- `Approver`: the pure decision `Decide` and the lemmas about it, plus the class `AutoApprover`.
  The class holds the configuration, whether the socket is usable, the log of dictionaries sent
  (`sent`) and the log of user ids looked up (`queried`).
- `Examples`: three concrete requests and the commands they lead to.

External inputs become parameters. The reputation service is a function `service: int -> HttpOutcome`
from user id to HTTP outcome. `connected` says whether `self.ws` is a live socket; sending on a socket
that is not live raises, and `handle_group_request` swallows the exception and returns `False`.

Points of the program's behaviour worth knowing:

- A requester rejected for the level gets the reason `"QQ等级低于{min}级"`, with the configured minimum.
- The required-field gate drops falsy values (0, `""`) as well as absent ones.
- The command's action is `set_group_add_request`.
- A request that passes every gate can still get no command: the keyword verdict may be "skip", or
  the socket may be closed.

## Model

| member | source | states |
|---|---|---|
| `Text.Lower` | AutoHandleGroupRequest.py:95 | the lowered comment has the same length, each character lowered, and no capital letters are left |
| `Text.LowerIdempotent` | AutoHandleGroupRequest.py:98 | lowering an already lowered string changes nothing |
| `Text.MissingFirstChar` | AutoHandleGroupRequest.py:98 | a keyword whose first character is absent from the text does not occur in it |
| `PyInt.ParseShow` | AutoHandleGroupRequest.py:76 | `int()` reads back exactly the number `str()` printed, negative numbers included |
| `PyInt.ParseRejectsBlank` | AutoHandleGroupRequest.py:75-79 | an empty or all-white-space level string is not a number (the ValueError path) |
| `PyInt.SeparatorIsNotSkipped` | AutoHandleGroupRequest.py:75-79 | `int()` does not skip the control separator U+001C, so `"\x1c5"` is not a number |
| `PyInt.LeadingSpaceIsSkipped` | AutoHandleGroupRequest.py:76 | `int()` skips a leading space: `" 5"` reads 5 |
| `Reputation.PyIntOfShownLevel` | AutoHandleGroupRequest.py:76 | `int()` of the decimal string of any integer n gives n |
| `Reputation.PyIntOfBlankFails` | AutoHandleGroupRequest.py:75-79 | `int()` of an empty or all-white-space `iQQLevel` fails (the ValueError path) |
| `Reputation.QQLevel` | AutoHandleGroupRequest.py:62-89 | level 0 for a transport exception, a non-200 status, a non-JSON body, a non-object body, a `code` other than 0, a `data` or `level_info` that is not an object, and an `iQQLevel` that `int()` cannot read |
| `Reputation.QQLevelOfLevelBody` | AutoHandleGroupRequest.py:68-76 | a 200 reply `{"code":0,"data":{"level_info":{"iQQLevel":"<n>"}}}` yields exactly n |
| `Reputation.QQLevelOfAnyWellFormedBody` | AutoHandleGroupRequest.py:71-76 | any 200 reply whose code is 0 and whose nested iQQLevel string parses as n yields n, whatever the other keys hold |
| `Reputation.NonZeroLevelNeedsSuccess` | AutoHandleGroupRequest.py:68-85 | a non-zero level implies status 200, an object body with `code` equal to 0, `data` and `level_info` objects (or absent), and an `iQQLevel` that `int()` reads as that level |
| `Reputation.MissingLevelReadsZero` | AutoHandleGroupRequest.py:72-73 | an accepted reply whose `data` and `level_info` are absent or objects and which has no `iQQLevel` takes the `{}`, `{}` and `"0"` defaults and reads as level 0 |
| `Reputation.CodeOnlyReadsZero` | AutoHandleGroupRequest.py:72-73 | a 200 reply `{"code": 0}` with no `data` reads as level 0 |
| `Keywords.AnyOccursIff` | AutoHandleGroupRequest.py:97-103 | the ordered search over a keyword list finds a match if and only if some keyword, lowered, is a substring of the lowered text |
| `Keywords.BlankIsSkipped` | AutoHandleGroupRequest.py:92-93 | an absent or empty comment is "skip" whatever the keyword lists hold |
| `Keywords.RejectWins` | AutoHandleGroupRequest.py:95-99 | a matching reject keyword gives "reject" even when approve keywords match too |
| `Keywords.ClassifyIff` | AutoHandleGroupRequest.py:91-105 | "reject" iff the comment is non-empty and some reject keyword matches; "approve" iff non-empty, no reject keyword matches and some approve keyword matches; "skip" iff empty or nothing matches |
| `Keywords.EmptyRejectKeywordRejectsAll` | AutoHandleGroupRequest.py:97-99 | an empty string in the reject list rejects every non-empty comment (`"" in s` holds) |
| `Keywords.CaseInsensitive` | AutoHandleGroupRequest.py:95 | lower-casing the comment first never changes the verdict |
| `Keywords.CheckKeywords` | AutoHandleGroupRequest.py:91-105 | the two early-return loops compute exactly the verdict `Classify` defines |
| `Gateway.JoinRequestHasSubType` | AutoHandleGroupRequest.py:200-203 | every event the filter forwards has a non-empty sub_type |
| `Gateway.BuildRequest` | AutoHandleGroupRequest.py:107-119 | the dictionary has action `set_group_add_request` and decodes to the given flag, sub_type and approve; `reason` is present iff approve is false and the reason is non-empty |
| `Gateway.DecodeRequest` | AutoHandleGroupRequest.py:109-119 | every dictionary the decoder accepts carries a reason only on a rejection, and never an empty one |
| `Gateway.DecodeEncode` | AutoHandleGroupRequest.py:109-121 | a valid command survives being built into the dictionary and read back |
| `Gateway.EncodeDecode` | AutoHandleGroupRequest.py:109-121 | every dictionary the decoder accepts is exactly the one built for the command it decodes to |
| `Settings.IsGroupWhitelisted` | AutoHandleGroupRequest.py:56-59 | an empty whitelist admits every group; a non-empty one admits exactly its members |
| `Approver.DecisionWellFormed` | AutoHandleGroupRequest.py:159-191 | any command produced follows the gates, answers the event's own flag and sub_type, is valid, and decodes back unchanged from the wire form |
| `Approver.FailedGateSendsNothing` | AutoHandleGroupRequest.py:167-171 | a missing or falsy group_id, user_id, flag or sub_type, or a group outside a non-empty whitelist, gives no command and no level lookup |
| `Approver.LowLevelRejected` | AutoHandleGroupRequest.py:175-180 | with the check on and a level of 0 or below the minimum, the answer is approve=false with reason "QQ等级低于{min}级" |
| `Approver.LowLevelIgnoresKeywords` | AutoHandleGroupRequest.py:175-182 | in that case the keyword lists and the comment do not influence the answer |
| `Approver.KeywordVerdictDecides` | AutoHandleGroupRequest.py:182-191 | past the gates: "reject" sends approve=false with reason "拒绝", "approve" sends approve=true with no reason, "skip" sends nothing |
| `Approver.RejectKeywordBeatsApprove` | AutoHandleGroupRequest.py:182-186 | a comment with a matching reject keyword is rejected with "拒绝" whatever approve keywords it holds |
| `Approver.DisabledCheckIgnoresService` | AutoHandleGroupRequest.py:173-176 | with the level check off, nothing is looked up and the service's answers have no influence |
| `Approver.OtherEventsIgnored` | AutoHandleGroupRequest.py:200-203 | an event that is not a group add/invite request is never answered |
| `Approver.AutoApprover.constructor` | AutoHandleGroupRequest.py:13-30 | a new instance keeps the given configuration, has no socket, and nothing sent or looked up yet |
| `Approver.AutoApprover.Attach` | AutoHandleGroupRequest.py:218-219 | after the connection is made, the socket is usable |
| `Approver.AutoApprover.Detach` | AutoHandleGroupRequest.py:218 | after the transport closes, the socket is not usable |
| `Approver.AutoApprover.GetQQLevel` | AutoHandleGroupRequest.py:62-89 | one lookup of the user id is logged, and the result is the interpretation of the service's answer |
| `Approver.AutoApprover.HandleGroupRequest` | AutoHandleGroupRequest.py:107-126 | returns true iff the socket is usable; then exactly the built dictionary is appended to what was sent, otherwise nothing |
| `Approver.AutoApprover.ProcessRequest` | AutoHandleGroupRequest.py:159-194 | appends at most one dictionary, the encoding of `Decide` when there is a decision and a usable socket, and logs a lookup exactly when the gates pass and the check is on |
| `Approver.AutoApprover.HandleMessage` | AutoHandleGroupRequest.py:196-208 | a join request is processed as above; every other event changes nothing |
| `Examples.FriendReferralApproved` | AutoHandleGroupRequest.py:97-103 | "friend referral, hi" against reject ["spam"] and approve ["friend referral"] is classified "approve" |
| `Examples.ApprovedByKeyword` | AutoHandleGroupRequest.py:187-188 | with the check off, that request is answered approve=true with flag f1, sub_type add and no reason |
| `Examples.RejectedByKeyword` | AutoHandleGroupRequest.py:184-185 | "spam account" is answered approve=false with reason "拒绝" |
| `Examples.RejectedForLevel` | AutoHandleGroupRequest.py:175-178 | with the check on, a level of 3 against a minimum of 5 gives a rejection with reason "QQ等级低于5级", even though the comment holds an approve keyword |

## Left out

- `connect_to_napcat`, `start`, `main` and the signal handler (lines 210-257). These are the websocket connect and read loop and the shutdown flag `should_exit`. They are transport and signal plumbing. The model has `Attach`/`Detach` for the socket becoming usable or closing, and handles one event per call.
- The aiohttp request in `get_qq_level` (lines 63-67) is network I/O. It is the `service` parameter, and the model interprets only its outcome.
- `json.loads` and `json.dumps` (lines 121, 198) are library parsing. Events arrive already as `Event`, and commands are logged as the dictionary before serialisation. A malformed message (the JSONDecodeError path) and an event that is not a dictionary are not modelled.
- Event fields of an unexpected JSON type are not modelled: the model types them as integers and strings. In the program most such events are still answered. A string `group_id` is admitted by an empty whitelist and never matches an integer whitelist (line 59). A string `user_id` or a numeric `flag` is formatted and serialised without error (lines 64, 121). Only a truthy non-string `comment` raises, at `.lower()` (line 95). That exception is swallowed at line 193, so no keyword command is sent, though a level rejection before it still is.
- Loading the YAML configuration, its defaults (lines 13-25) and `print_config` are file I/O. The configuration is a given record.
- Configuration values of other types are not modelled: `Config` types keywords as strings and the whitelist as integers. In the program a numeric keyword makes `keyword.lower()` (line 98) raise for every non-empty comment that reaches it, so no keyword command is sent. A `null` list (`group_whitelist`, `keywords.reject` or `keywords.approve`) makes `print_config` raise TypeError at `len()` (lines 43-45) at start-up, so the program never reads an event.
- `format_log` is left out: it builds a log line and reads the clock (`datetime.now()`, line 129). Every other `print` is plain console output.
- asyncio: processing is strictly sequential per event, so each call runs to completion.
- `Text.Lower` lower-cases ASCII letters only. Python's `str.lower()` folds the whole Unicode range.
- `PyInt.ParseInt` reads numbers of any length. Python 3.11 and later, and the security releases 3.7.14, 3.8.14, 3.9.14 and 3.10.7, refuse by default to convert decimal text of more than 4300 digits (`sys.int_info.default_max_str_digits`, changeable at run time). So an `iQQLevel` string that long makes line 76 raise ValueError; the program reads level 0 and rejects at line 177, while the model reads the large number and may let the request pass.
- `PyInt.Show` prints integers of any length, and `int(str(n)) == n` is proved for all of them. Under the same limit, `str()` of an integer of more than 4300 digits raises. So a `min_qq_level` that large stops the program at start-up. Written in decimal, `yaml.safe_load` (line 15) already fails to read it. Written in hexadecimal or octal, it loads, but `print_config` formats it at line 41 and raises ValueError there. Either way the constructor fails at line 237, outside the `try` of line 245, and no event is read. The model's constructor accepts such a configuration, and `Approver.LowLevelRejected` sends the rejection.
- `PyInt.ParseInt` accepts ASCII digits only. Python's `int()` also reads other Unicode decimal digits.
- `Reputation.PyIntOf` does not model JSON floating-point numbers: `int(5.0) == 5` and `0.0 == 0` in the `code` test.
