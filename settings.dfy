/** The program's configuration, read once at start-up and never changed. */
module Settings {

  datatype Config = Config(
    websocketUrl: string,
    accessToken: string,
    minQQLevel: int,
    enableLevelCheck: bool,
    rejectKeywords: seq<string>,
    approveKeywords: seq<string>,
    groupWhitelist: seq<int>)

  /** `is_group_whitelisted`: an empty whitelist admits every group; a
      non-empty one admits exactly the groups it lists. */
  function IsGroupWhitelisted(cfg: Config, groupId: int): (admitted: bool)
    ensures cfg.groupWhitelist == [] ==> admitted
    ensures cfg.groupWhitelist != [] ==> (admitted <==> exists i :: 0 <= i < |cfg.groupWhitelist| && cfg.groupWhitelist[i] == groupId)
  {
    cfg.groupWhitelist == [] || groupId in cfg.groupWhitelist
  }
}
