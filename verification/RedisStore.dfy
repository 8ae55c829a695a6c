/** The Redis server as the cache uses it (src/cache/redis.rs): one key space that holds texts,
    which may expire, and sets of strings.  Commands do not fail. */
module RedisStore {
  import opened Wrappers
  import opened Json
  import opened RpcTypes

  /** A serialized reply, or some other serialized JSON value. */
  datatype Payload = ReplyText(resp: Response) | ValueText(v: Json)

  datatype Item = Text(payload: Payload, expires: Option<nat>) | Members(members: set<string>)

  type Store = map<string, Item>

  predicate Live(item: Item, now: nat) {
    item.Text? && item.expires.Some? ==> now < item.expires.value
  }

  /** A read finds a text that has not expired; reading a set is an error and finds nothing. */
  function Lookup(store: Store, key: string, now: nat): Option<Payload> {
    if key in store && store[key].Text? && Live(store[key], now) then Some(store[key].payload) else None
  }

  function Expiry(ttl: nat, now: nat): Option<nat> {
    if ttl == 0 then None else Some(now + ttl)
  }

  function WithText(store: Store, key: string, payload: Payload, ttl: nat, now: nat): Store {
    store[key := Text(payload, Expiry(ttl, now))]
  }

  /** Adding to what is not a set is an error and changes nothing. */
  function WithMember(store: Store, key: string, m: string, now: nat): Store {
    if key !in store || !Live(store[key], now) then store[key := Members({m})]
    else if store[key].Members? then store[key := Members(store[key].members + {m})]
    else store
  }

  function MembersOf(store: Store, key: string): set<string> {
    if key in store && store[key].Members? then store[key].members else {}
  }

  /** Deletes the members of a set and the set; an empty set is left alone. */
  function WithoutSetAndMembers(store: Store, setKey: string): Store {
    var ms := MembersOf(store, setKey);
    if ms == {} then store else store - ms - {setKey}
  }

  class RedisClient {
    var data: Store

    constructor ()
      ensures data == map[]
    {
      data := map[];
    }

    method Get(key: string, now: nat) returns (r: Option<Payload>)
      ensures r == Lookup(data, key, now)
    {
      r := None;
      if key in data {
        match data[key] {
          case Text(payload, expires) =>
            if expires == None || now < expires.value {
              r := Some(payload);
            }
          case Members(_) =>
        }
      }
    }

    method Set(key: string, payload: Payload, ttl: nat, now: nat)
      modifies this
      ensures data == WithText(old(data), key, payload, ttl, now)
    {
      if ttl == 0 {
        data := data[key := Text(payload, None)];
      } else {
        data := data[key := Text(payload, Some(now + ttl))];
      }
    }

    method Del(key: string)
      modifies this
      ensures data == old(data) - {key}
    {
      data := data - {key};
    }

    method Sadd(key: string, m: string, now: nat)
      modifies this
      ensures data == WithMember(old(data), key, m, now)
    {
      if key !in data || !Live(data[key], now) {
        data := data[key := Members({m})];
      } else if data[key].Members? {
        data := data[key := Members(data[key].members + {m})];
      }
    }

    /** The members in some order. */
    method Smembers(key: string) returns (ms: seq<string>)
      ensures forall m :: m in ms <==> m in MembersOf(data, key)
    {
      var left := MembersOf(data, key);
      ms := [];
      while left != {}
        invariant left <= MembersOf(data, key)
        invariant forall m :: m in ms <==> m in MembersOf(data, key) - left
        decreases left
      {
        var m :| m in left;
        ms := ms + [m];
        left := left - {m};
      }
    }

    method DeleteSetAndMembers(setKey: string)
      modifies this
      ensures data == WithoutSetAndMembers(old(data), setKey)
    {
      var members := Smembers(setKey);
      if members == [] {
        assert MembersOf(data, setKey) == {};
        return;
      }
      assert members[0] in MembersOf(data, setKey);
      for i := 0 to |members|
        invariant data == old(data) - set m | m in members[..i]
      {
        Del(members[i]);
        assert members[..i + 1] == members[..i] + [members[i]];
      }
      assert members[..|members|] == members;
      assert (set m | m in members) == MembersOf(old(data), setKey);
      Del(setKey);
    }
  }
}
