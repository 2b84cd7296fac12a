/**
 * Premium entitlements (`premium.js`): which users and guilds may use the
 * premium features. Answers come from Discord's entitlements endpoint, are
 * cached per user and per guild for 60 seconds, and are bypassed entirely
 * when no SKU is configured or the guild is on the test whitelist.
 */
module Premium {
  import opened Wrappers
  import opened Strings
  import opened Sorting

  // ---------------------------------------------------------------------------
  // parseSkuList, configuration
  // ---------------------------------------------------------------------------

  /**
   * `parseSkuList(s)`: nothing for a missing or empty setting; otherwise the
   * comma-separated items, trimmed, with the empty ones dropped.
   */
  function ParseSkuList(s: Option<string>): (r: seq<string>)
    ensures s.None? || s == Some("") ==> r == []
    ensures s.Some? ==> r == CommaList(s.value)
  {
    if s.None? || s.value == "" then [] else CommaList(s.value)
  }

  /** The environment: whether a token and client id are set, and the three lists. */
  datatype Config = Config(credentials: bool, userSkus: seq<string>, guildSkus: seq<string>, testGuildAllow: seq<string>)

  /**
   * The configuration read from `ACCESS_TOKEN_DISCORD`, `CLIENT_ID`,
   * `PREMIUM_SKU_USER`, `PREMIUM_SKU_GUILD` and
   * `PREMIUM_TEST_ALLOW_GUILD_IDS`.
   */
  function ConfigOf(token: Option<string>, clientId: Option<string>, skuUser: Option<string>,
                    skuGuild: Option<string>, allowGuilds: Option<string>): (r: Config)
    ensures r.credentials <==> OrNull(token).Some? && OrNull(clientId).Some?
    ensures r.userSkus == ParseSkuList(skuUser) && r.guildSkus == ParseSkuList(skuGuild)
    ensures r.testGuildAllow == ParseSkuList(allowGuilds)
  {
    Config(OrNull(token).Some? && OrNull(clientId).Some?, ParseSkuList(skuUser), ParseSkuList(skuGuild),
           ParseSkuList(allowGuilds))
  }

  /** `isWhitelistedGuild(guildId)`. */
  predicate IsWhitelistedGuild(cfg: Config, guildId: string) {
    guildId in cfg.testGuildAllow
  }

  /**
   * With `PREMIUM_TEST_ALLOW_GUILD_IDS` set to ids written out with commas,
   * a guild is whitelisted exactly when its id is one of them.
   */
  lemma WhitelistedIffListed(token: Option<string>, clientId: Option<string>, skuUser: Option<string>,
                             skuGuild: Option<string>, ids: seq<string>, guildId: string)
    requires forall i :: 0 <= i < |ids| ==> Trimmed(ids[i]) && ',' !in ids[i]
    ensures IsWhitelistedGuild(ConfigOf(token, clientId, skuUser, skuGuild, Some(Join(ids, ","))), guildId) <==> guildId in ids
  {
    CommaListRoundTrip(ids);
  }

  // ---------------------------------------------------------------------------
  // fetchEntitlements
  // ---------------------------------------------------------------------------

  datatype Entitlement = Entitlement(id: string, deleted: bool)

  /** What the entitlements request gave: a list, some other JSON value, or an error. */
  datatype Response = Listed(items: seq<Entitlement>) | NotAList | Failed

  predicate Live(e: Entitlement) {
    !e.deleted
  }

  /**
   * `fetchEntitlements(params)`: the entitlements that are not deleted. No
   * credentials, a reply that is not a list and a failed request all give
   * none.
   */
  function FetchEntitlements(cfg: Config, response: Response): (r: seq<Entitlement>)
    ensures !cfg.credentials || !response.Listed? ==> r == []
    ensures cfg.credentials && response.Listed? ==> forall e :: e in r <==> e in response.items && !e.deleted
  {
    if !cfg.credentials then []
    else match response
      case Listed(items) => Filter(items, Live)
      case NotAList => []
      case Failed => []
  }

  /** `ents.length > 0`. */
  predicate Entitled(cfg: Config, response: Response): (r: bool)
    ensures r ==> cfg.credentials && response.Listed?
  {
    |FetchEntitlements(cfg, response)| > 0
  }

  /**
   * A check succeeds exactly when the credentials are set and the reply
   * lists a live entitlement; so missing credentials deny, whatever the
   * comment at the top of `fetchEntitlements` says about a "dev mode".
   */
  lemma EntitledIffLive(cfg: Config, response: Response)
    ensures Entitled(cfg, response) <==> cfg.credentials && response.Listed? && exists e :: e in response.items && !e.deleted
  {
    var r := FetchEntitlements(cfg, response);
    if |r| > 0 {
      assert r[0] in r;
    }
    if cfg.credentials && response.Listed? && exists e :: e in response.items && !e.deleted {
      var e :| e in response.items && !e.deleted;
      assert e in FetchEntitlements(cfg, response);
    }
  }

  // ---------------------------------------------------------------------------
  // The cached check shared by hasUserEntitlement and hasGuildEntitlement
  // ---------------------------------------------------------------------------

  datatype CacheEntry = CacheEntry(at: int, ok: bool)

  const TTL_MS: int := 60 * 1000

  /** `hit && now - hit.at < TTL_MS`. */
  predicate Fresh(cache: map<string, CacheEntry>, id: string, now: int) {
    id in cache && now - cache[id].at < TTL_MS
  }

  /**
   * The answer and the new cache: always yes when no SKU is configured; the
   * cached answer while it is fresh; otherwise a new answer, recorded with
   * the time of the check.
   */
  function Check(skus: seq<string>, cache: map<string, CacheEntry>, id: string, now: int,
                 cfg: Config, response: Response): (r: (bool, map<string, CacheEntry>))
    ensures skus == [] ==> r == (true, cache)
    ensures skus != [] && Fresh(cache, id, now) ==> r == (cache[id].ok, cache)
    ensures skus != [] && !Fresh(cache, id, now) ==> r.0 == Entitled(cfg, response) && r.1 == cache[id := CacheEntry(now, r.0)]
    ensures forall k :: k in cache && k != id ==> k in r.1 && r.1[k] == cache[k]
  {
    if skus == [] then (true, cache)
    else if Fresh(cache, id, now) then (cache[id].ok, cache)
    else
      var ok := Entitled(cfg, response);
      (ok, cache[id := CacheEntry(now, ok)])
  }

  /**
   * What a check answers: yes without a fetch when no SKU is configured, the
   * cached answer when fresh, else whether a live entitlement came back;
   * only the checked id's entry can change.
   */
  lemma CheckAnswer(skus: seq<string>, cache: map<string, CacheEntry>, id: string, now: int, cfg: Config, response: Response)
    ensures var r := Check(skus, cache, id, now, cfg, response);
      && (skus == [] ==> r == (true, cache))
      && (skus != [] && Fresh(cache, id, now) ==> r == (cache[id].ok, cache))
      && (skus != [] && !Fresh(cache, id, now) ==>
            && (r.0 <==> cfg.credentials && response.Listed? && exists e :: e in response.items && !e.deleted)
            && r.1 == cache[id := CacheEntry(now, r.0)])
  {
    EntitledIffLive(cfg, response);
  }

  /**
   * Within 60 seconds of a check that asked the endpoint, the same check
   * gives the same answer and leaves the cache as it is, whatever the
   * endpoint would now say.
   */
  lemma CheckIsCached(skus: seq<string>, cache: map<string, CacheEntry>, id: string, now: int, cfg: Config,
                      response: Response, later: int, laterResponse: Response)
    requires !Fresh(cache, id, now) && later - now < TTL_MS
    ensures var r := Check(skus, cache, id, now, cfg, response);
      Check(skus, r.1, id, later, cfg, laterResponse) == r
  {
  }

  // ---------------------------------------------------------------------------
  // The caches
  // ---------------------------------------------------------------------------

  /** The configuration and the two in-memory caches, `cacheUser` and `cacheGuild`. */
  class PremiumCache {
    const cfg: Config
    var users: map<string, CacheEntry>
    var guilds: map<string, CacheEntry>

    constructor(cfg: Config)
      ensures this.cfg == cfg && users == map[] && guilds == map[]
    {
      this.cfg := cfg;
      users := map[];
      guilds := map[];
    }

    /** `hasUserEntitlement(userId)` at time `now`; `response` is what the endpoint would answer. */
    method HasUserEntitlement(userId: string, now: int, response: Response) returns (ok: bool)
      modifies this
      ensures (ok, users) == Check(cfg.userSkus, old(users), userId, now, cfg, response)
      ensures guilds == old(guilds)
    {
      if |cfg.userSkus| == 0 {
        return true;
      }
      if userId in users && now - users[userId].at < TTL_MS {
        return users[userId].ok;
      }
      var ents := FetchEntitlements(cfg, response);
      ok := |ents| > 0;
      users := users[userId := CacheEntry(now, ok)];
    }

    /**
     * `hasGuildEntitlement(guildId)`: a whitelisted guild is entitled before
     * the SKUs or the cache are looked at.
     */
    method HasGuildEntitlement(guildId: string, now: int, response: Response) returns (ok: bool)
      modifies this
      ensures IsWhitelistedGuild(cfg, guildId) ==> ok && guilds == old(guilds)
      ensures !IsWhitelistedGuild(cfg, guildId) ==> (ok, guilds) == Check(cfg.guildSkus, old(guilds), guildId, now, cfg, response)
      ensures users == old(users)
    {
      if guildId in cfg.testGuildAllow {
        return true;
      }
      if |cfg.guildSkus| == 0 {
        return true;
      }
      if guildId in guilds && now - guilds[guildId].at < TTL_MS {
        return guilds[guildId].ok;
      }
      var ents := FetchEntitlements(cfg, response);
      ok := |ents| > 0;
      guilds := guilds[guildId := CacheEntry(now, ok)];
    }

    /**
     * `hasPremiumAccess({ userId, guildId })`: the guild whitelist, then the
     * guild's entitlement, then the user's; no id at all means no access.
     * An empty id counts as absent.
     */
    method HasPremiumAccess(userId: Option<string>, guildId: Option<string>, now: int,
                            guildResponse: Response, userResponse: Response) returns (ok: bool)
      modifies this
      ensures var hasGuild, hasUser := OrNull(guildId).Some?, OrNull(userId).Some?;
        var g := if hasGuild then Check(cfg.guildSkus, old(guilds), guildId.value, now, cfg, guildResponse) else (false, old(guilds));
        var guildOk := hasGuild && (IsWhitelistedGuild(cfg, guildId.value) || g.0);
        && guilds == (if hasGuild && !IsWhitelistedGuild(cfg, guildId.value) then g.1 else old(guilds))
        && (guildOk ==> ok && users == old(users))
        && (!guildOk && hasUser ==> (ok, users) == Check(cfg.userSkus, old(users), userId.value, now, cfg, userResponse))
        && (!guildOk && !hasUser ==> !ok && users == old(users))
      ensures ok == Access(cfg, old(users), old(guilds), userId, guildId, now, guildResponse, userResponse)
    {
      if guildId.Some? && guildId.value != "" && guildId.value in cfg.testGuildAllow {
        return true;
      }
      if guildId.Some? && guildId.value != "" {
        var guildOk := HasGuildEntitlement(guildId.value, now, guildResponse);
        if guildOk {
          return true;
        }
      }
      if userId.Some? && userId.value != "" {
        ok := HasUserEntitlement(userId.value, now, userResponse);
        return;
      }
      return false;
    }
  }

  /**
   * The answer of `hasPremiumAccess` as a function of the caches: the
   * guild whitelist, the guild check and the user check, in that order.
   */
  predicate Access(cfg: Config, users: map<string, CacheEntry>, guilds: map<string, CacheEntry>,
                   userId: Option<string>, guildId: Option<string>, now: int, guildResponse: Response, userResponse: Response): (r: bool)
    ensures OrNull(userId).None? && OrNull(guildId).None? ==> !r
  {
    || (OrNull(guildId).Some? && IsWhitelistedGuild(cfg, guildId.value))
    || (OrNull(guildId).Some? && Check(cfg.guildSkus, guilds, guildId.value, now, cfg, guildResponse).0)
    || (OrNull(userId).Some? && Check(cfg.userSkus, users, userId.value, now, cfg, userResponse).0)
  }
}
