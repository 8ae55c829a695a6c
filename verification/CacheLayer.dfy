/** The cache over Redis (src/cache/mod.rs): replies, blocks and logs, and per chain a head set
    that lists what a reorganization must wipe. */
module CacheLayer {
  import opened Wrappers
  import opened Json
  import opened RpcTypes
  import opened CacheKeys
  import opened CachePolicy
  import opened RedisStore

  const BLOCK_TTL: nat := 60_000
  const BLOCK_HASH_TTL: nat := 3_600_000
  const LOGS_TTL: nat := 60_000

  datatype Config = Config(policies: seq<Policy>, digest: Digest)

  function HeadKey(cfg: Config, chain: nat): string {
    Encode(cfg.digest, HeadSet(chain))
  }

  function Name(cfg: Config, k: CacheKey): string {
    Encode(cfg.digest, k)
  }

  /** Stores a text and lists its key in the head set of the chain. */
  function Listed(cfg: Config, store: Store, k: CacheKey, payload: Payload, ttl: nat, now: nat): Store {
    WithMember(WithText(store, Name(cfg, k), payload, ttl, now), HeadKey(cfg, k.chain), Name(cfg, k), now)
  }

  function StoreReply(cfg: Config, store: Store, chain: nat, req: Request, resp: Response,
                      unfinalized: bool, now: nat): Store
  {
    match ResolveTtl(cfg.policies, req.rpcMethod, unfinalized)
    case None => store
    case Some(ttl) =>
      var k := Reply(chain, NormalizeForCache(req));
      if unfinalized then Listed(cfg, store, k, ReplyText(resp), ttl, now)
      else WithText(store, Name(cfg, k), ReplyText(resp), ttl, now)
  }

  /** Both keys of a block are written before either is listed. */
  function StoreBlock(cfg: Config, store: Store, chain: nat, number: nat, hash: string, block: Json, now: nat): Store {
    var byNumber, byHash := Name(cfg, BlockNumber(chain, number)), Name(cfg, BlockHash(chain, hash));
    var s := WithText(store, byNumber, ValueText(block), BLOCK_TTL, now);
    var s := WithText(s, byHash, ValueText(block), BLOCK_HASH_TTL, now);
    WithMember(WithMember(s, HeadKey(cfg, chain), byNumber, now), HeadKey(cfg, chain), byHash, now)
  }

  function StoreLogs(cfg: Config, store: Store, chain: nat, number: nat, logs: Json, now: nat): Store {
    Listed(cfg, store, BlockLogs(chain, number), ValueText(logs), LOGS_TTL, now)
  }

  function InvalidateHead(cfg: Config, store: Store, chain: nat): Store {
    WithoutSetAndMembers(store, HeadKey(cfg, chain))
  }

  class Cache {
    const redis: RedisClient
    const config: Config

    constructor (config: Config)
      ensures fresh(redis) && this.config == config && redis.data == map[]
    {
      this.config := config;
      redis := new RedisClient();
    }

    method Get(chain: nat, req: Request, now: nat) returns (r: Option<Payload>)
      ensures r == Lookup(redis.data, KeyOf(config.digest, chain, req), now)
    {
      r := redis.Get(KeyOf(config.digest, chain, req), now);
    }

    method Set(chain: nat, req: Request, resp: Response, unfinalized: bool, now: nat)
      modifies redis
      ensures redis.data == StoreReply(config, old(redis.data), chain, req, resp, unfinalized, now)
    {
      var ttl := ResolveTtl(config.policies, req.rpcMethod, unfinalized);
      if ttl == None {
        return;
      }
      var key := KeyOf(config.digest, chain, req);
      redis.Set(key, ReplyText(resp), ttl.value, now);
      if unfinalized {
        redis.Sadd(HeadKey(config, chain), key, now);
      }
    }

    method CacheBlock(chain: nat, number: nat, hash: string, block: Json, now: nat)
      modifies redis
      ensures redis.data == StoreBlock(config, old(redis.data), chain, number, hash, block, now)
    {
      var byNumber, byHash := Name(config, BlockNumber(chain, number)), Name(config, BlockHash(chain, hash));
      redis.Set(byNumber, ValueText(block), BLOCK_TTL, now);
      redis.Set(byHash, ValueText(block), BLOCK_HASH_TTL, now);
      redis.Sadd(HeadKey(config, chain), byNumber, now);
      redis.Sadd(HeadKey(config, chain), byHash, now);
    }

    method CacheLogs(chain: nat, number: nat, logs: Json, now: nat)
      modifies redis
      ensures redis.data == StoreLogs(config, old(redis.data), chain, number, logs, now)
    {
      var key := Name(config, BlockLogs(chain, number));
      redis.Set(key, ValueText(logs), LOGS_TTL, now);
      redis.Sadd(HeadKey(config, chain), key, now);
    }

    method InvalidateHeadCache(chain: nat)
      modifies redis
      ensures redis.data == InvalidateHead(config, old(redis.data), chain)
    {
      redis.DeleteSetAndMembers(HeadKey(config, chain));
    }
  }
}
