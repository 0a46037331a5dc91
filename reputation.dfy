/** The interpretation of the reputation service's answer in `get_qq_level`:
    how an HTTP status and a JSON body become a QQ level, 0 on every failure. */
module Reputation {
  import opened Wrappers
  import opened Json
  import PyInt

  /** What one GET to the level-query service produced. `body` is `None`
      when `response.json()` raises (the body is not JSON). */
  datatype HttpOutcome =
    | TransportError
    | Response(status: int, body: Option<Value>)

  /** Python's `x == 0` for a decoded JSON value `x` (`False == 0` holds too);
      `None` stands for a key `.get` did not find. */
  predicate EqualsZero(x: Option<Value>) {
    x == Some(JInt(0)) || x == Some(JBool(false))
  }

  /** Python's `int(x)` for a decoded JSON value: `None` where it raises
      (ValueError for a malformed string, TypeError for null, lists, dicts). */
  function PyIntOf(x: Value): Option<int> {
    match x
    case JInt(i) => Some(i)
    case JBool(b) => Some(if b then 1 else 0)
    case JStr(s) => PyInt.ParseInt(s)
    case _ => None
  }

  /** `data.get("data", {})`. */
  function DataField(top: map<string, Value>): Value {
    Get(top, "data", JObject(map[]))
  }

  /** `data.get("level_info", {})` on the `data` object. */
  function LevelInfoField(data: map<string, Value>): Value {
    Get(data, "level_info", JObject(map[]))
  }

  /** `level_info.get("iQQLevel", "0")`. */
  function LevelText(info: map<string, Value>): Value {
    Get(info, "iQQLevel", JStr("0"))
  }

  /** `data.get("code")`, `None` when the key is missing. */
  function CodeField(top: map<string, Value>): Option<Value> {
    if "code" in top then Some(top["code"]) else None
  }

  /** `int()` of the decimal string of `n` is `n`. */
  lemma PyIntOfShownLevel(n: int)
    ensures PyIntOf(JStr(PyInt.Show(n))) == Some(n)
  {
    PyInt.ParseShow(n);
  }

  /** `int()` of an empty or all-white-space string fails (ValueError). */
  lemma PyIntOfBlankFails(s: string)
    requires forall i :: 0 <= i < |s| ==> PyInt.IsIntSpace(s[i])
    ensures PyIntOf(JStr(s)) == None
  {
    PyInt.ParseRejectsBlank(s);
  }

  /** The level a reply reports, or `None` where `get_qq_level` takes one of its
      failure paths: a transport exception, a status other than 200, a body that
      is not JSON, a `code` that is not 0, a `data` or `level_info` that
      is present but not an object (`.get` raises), or an `iQQLevel`
      `int()` cannot read. A missing `data`, `level_info` or `iQQLevel`
      falls back to `{}`, `{}` and `"0"`. */
  function ReportedLevel(h: HttpOutcome): Option<int> {
    match h
    case TransportError => None
    case Response(status, body) =>
      if status != 200 || body.None? || !body.value.JObject? then None
      else
        var top := body.value.fields;
        if !EqualsZero(CodeField(top)) then None
        else
          var data := DataField(top);
          if !data.JObject? then None
          else
            var info := LevelInfoField(data.fields);
            if !info.JObject? then None
            else PyIntOf(LevelText(info.fields))
  }

  /** A 200 reply whose body is an object with `code` equal to 0. */
  predicate AcceptedReply(h: HttpOutcome) {
    h.Response? && h.status == 200 && h.body.Some? && h.body.value.JObject?
    && EqualsZero(CodeField(h.body.value.fields))
  }

  /** `get_qq_level`'s result: the reported level, 0 on every failure. */
  function QQLevel(h: HttpOutcome): (level: int)
    ensures h.TransportError? ==> level == 0
    ensures h.Response? && h.status != 200 ==> level == 0
    ensures h.Response? && h.body.None? ==> level == 0
    ensures h.Response? && h.body.Some? && !h.body.value.JObject? ==> level == 0
    ensures (h.Response? && h.body.Some? && h.body.value.JObject?
             && !EqualsZero(CodeField(h.body.value.fields))) ==> level == 0
    ensures AcceptedReply(h) && !DataField(h.body.value.fields).JObject? ==> level == 0
    ensures (AcceptedReply(h) && DataField(h.body.value.fields).JObject?
             && !LevelInfoField(DataField(h.body.value.fields).fields).JObject?) ==> level == 0
    ensures (AcceptedReply(h) && DataField(h.body.value.fields).JObject?
             && LevelInfoField(DataField(h.body.value.fields).fields).JObject?
             && PyIntOf(LevelText(LevelInfoField(DataField(h.body.value.fields).fields).fields)).None?)
            ==> level == 0
  {
    ReportedLevel(h).GetOr(0)
  }

  /** The body the service returns for a level: `{"code": 0, "data":
      {"level_info": {"iQQLevel": "<n>"}}}`, with the level as a decimal string. */
  function LevelBody(level: int): Value {
    JObject(map["code" := JInt(0),
                "data" := JObject(map["level_info" := JObject(map["iQQLevel" := JStr(PyInt.Show(level))])])])
  }

  /** A 200 reply carrying a level in the documented shape yields exactly that level. */
  lemma QQLevelOfLevelBody(level: int)
    ensures QQLevel(Response(200, Some(LevelBody(level)))) == level
  {
    PyInt.ParseShow(level);
  }

  /** Whatever the rest of the body holds, a 200 reply whose `code` is 0 and whose
      `data.level_info.iQQLevel` is a string `int()` reads as `n` yields `n`. */
  lemma QQLevelOfAnyWellFormedBody(top: map<string, Value>, data: map<string, Value>,
                                   info: map<string, Value>, text: string, n: int)
    requires "code" in top && EqualsZero(Some(top["code"]))
    requires "data" in top && top["data"] == JObject(data)
    requires "level_info" in data && data["level_info"] == JObject(info)
    requires "iQQLevel" in info && info["iQQLevel"] == JStr(text)
    requires PyInt.ParseInt(text) == Some(n)
    ensures QQLevel(Response(200, Some(JObject(top)))) == n
  {
  }

  /** A non-zero level only comes from a 200 reply whose body is an object
      with `code` equal to 0, whose `data` and `level_info` are objects (or
      absent), and whose `iQQLevel` `int()` reads as that level. */
  lemma NonZeroLevelNeedsSuccess(h: HttpOutcome)
    requires QQLevel(h) != 0
    ensures AcceptedReply(h)
    ensures DataField(h.body.value.fields).JObject?
    ensures LevelInfoField(DataField(h.body.value.fields).fields).JObject?
    ensures PyIntOf(LevelText(LevelInfoField(DataField(h.body.value.fields).fields).fields)) == Some(QQLevel(h))
  {
  }

  /** An accepted reply without a level falls back to the defaults: a missing
      `data` or `level_info` reads as `{}`, a missing `iQQLevel` as "0", and
      so the level is 0, the same as a failure. */
  lemma MissingLevelReadsZero(h: HttpOutcome)
    requires AcceptedReply(h)
    requires DataField(h.body.value.fields).JObject?
    requires LevelInfoField(DataField(h.body.value.fields).fields).JObject?
    requires "iQQLevel" !in LevelInfoField(DataField(h.body.value.fields).fields).fields
    ensures ReportedLevel(h) == Some(0)
    ensures QQLevel(h) == 0
  {
    PyInt.ParseShow(0);
  }

  /** In particular a reply `{"code": 0}` with no `data` at all reads as level 0. */
  lemma CodeOnlyReadsZero()
    ensures ReportedLevel(Response(200, Some(JObject(map["code" := JInt(0)])))) == Some(0)
  {
    MissingLevelReadsZero(Response(200, Some(JObject(map["code" := JInt(0)]))));
  }
}
