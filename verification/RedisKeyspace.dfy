/** The part of a Redis server the storage back end uses: one typed keyspace and eight commands. */
module RedisKeyspace {
  import opened Jobs
  import opened Sorting

  datatype Item = Str(text: string) | Hash(fields: map<string, string>) | Items(elements: seq<string>)

  type Keyspace = map<string, Item>

  datatype Reply<+T> = Ok(value: T) | WrongType

  /** The mapping a reader builds from an alternating field/value reply; a field without a value is ignored. */
  function Pairs(flat: seq<string>): map<string, string> {
    if |flat| < 2 then map[]
    else if |flat| % 2 == 1 then Pairs(flat[..|flat| - 1])
    else Pairs(flat[..|flat| - 2])[flat[|flat| - 2] := flat[|flat| - 1]]
  }

  /** The elements LRANGE returns for an inclusive range starting at the head. */
  function Front(s: seq<string>, last: nat): seq<string> {
    if |s| <= last + 1 then s else s[..last + 1]
  }

  class RedisServer {
    var keys: Keyspace

    constructor ()
      ensures keys == map[]
    {
      keys := map[];
    }

    method HGetAll(key: string) returns (r: Reply<seq<string>>)
      ensures key !in keys ==> r == Ok([])
      ensures key in keys && !keys[key].Hash? ==> r == WrongType
      ensures key in keys && keys[key].Hash? ==>
                r.Ok? && |r.value| % 2 == 0 && Pairs(r.value) == keys[key].fields
    {
      if key !in keys { return Ok([]); }
      if !keys[key].Hash? { return WrongType; }
      var fields := keys[key].fields;
      var flat: seq<string> := [];
      var left := fields.Keys;
      while left != {}
        invariant left <= fields.Keys && |flat| % 2 == 0
        invariant Pairs(flat) == map f | f in fields && f !in left :: fields[f]
        decreases left
      {
        var f :| f in left;
        ghost var before := flat;
        flat := flat + [f, fields[f]];
        assert flat[..|flat| - 2] == before;
        left := left - {f};
      }
      r := Ok(flat);
    }

    method HSet(key: string, values: map<string, string>) returns (r: Reply<()>)
      modifies this
      ensures if key in old(keys) && !old(keys)[key].Hash? then r == WrongType && keys == old(keys)
              else r == Ok(()) && keys == old(keys)[key := Hash((if key in old(keys) then old(keys)[key].fields else map[]) + values)]
    {
      if key in keys && !keys[key].Hash? { return WrongType; }
      var before: map<string, string> := if key in keys then keys[key].fields else map[];
      keys := keys[key := Hash(before + values)];
      r := Ok(());
    }

    method Del(key: string)
      modifies this
      ensures keys == old(keys) - {key}
    {
      keys := keys - {key};
    }

    method LPush(key: string, element: string) returns (r: Reply<()>)
      modifies this
      ensures if key in old(keys) && !old(keys)[key].Items? then r == WrongType && keys == old(keys)
              else r == Ok(()) && keys == old(keys)[key := Items([element] + if key in old(keys) then old(keys)[key].elements else [])]
    {
      if key in keys && !keys[key].Items? { return WrongType; }
      keys := keys[key := Items([element] + if key in keys then keys[key].elements else [])];
      r := Ok(());
    }

    /** LREM with count 0: every occurrence goes; a list left empty is deleted. */
    method LRem(key: string, element: string) returns (r: Reply<()>)
      modifies this
      ensures if key !in old(keys) then r == Ok(()) && keys == old(keys)
              else if !old(keys)[key].Items? then r == WrongType && keys == old(keys)
              else r == Ok(()) && var left := Without(old(keys)[key].elements, element);
                   keys == if left == [] then old(keys) - {key} else old(keys)[key := Items(left)]
    {
      if key !in keys { return Ok(()); }
      if !keys[key].Items? { return WrongType; }
      var left := Without(keys[key].elements, element);
      keys := if left == [] then keys - {key} else keys[key := Items(left)];
      r := Ok(());
    }

    method LRange(key: string, last: nat) returns (r: Reply<seq<string>>)
      ensures key !in keys ==> r == Ok([])
      ensures key in keys && !keys[key].Items? ==> r == WrongType
      ensures key in keys && keys[key].Items? ==> r == Ok(Front(keys[key].elements, last))
    {
      if key !in keys { return Ok([]); }
      if !keys[key].Items? { return WrongType; }
      r := Ok(Front(keys[key].elements, last));
    }

    /** SET with NX: stores only when the key is absent, and says whether it did. */
    method SetNX(key: string, text: string) returns (stored: bool)
      modifies this
      ensures stored <==> key !in old(keys)
      ensures keys == if stored then old(keys)[key := Str(text)] else old(keys)
    {
      stored := key !in keys;
      if stored { keys := keys[key := Str(text)]; }
    }

    method Get(key: string) returns (r: Reply<Option<string>>)
      ensures key !in keys ==> r == Ok(None)
      ensures key in keys && !keys[key].Str? ==> r == WrongType
      ensures key in keys && keys[key].Str? ==> r == Ok(Some(keys[key].text))
    {
      if key !in keys { return Ok(None); }
      if !keys[key].Str? { return WrongType; }
      r := Ok(Some(keys[key].text));
    }
  }
}
