/** An in-memory Redis keyspace and the commands the policy store and the
    seeding script issue, with the behaviour redis-py (decode_responses=True)
    gives them: one value type per key, WRONGTYPE errors, missing keys read
    as empty, empty sets and lists removed, and values encoded as redis-py
    encodes them. */
module KeyValue {
  import opened PyValue

  /** The value held at one key. */
  datatype Entry =
    | Hash(fields: map<string, string>)
    | Members(members: set<string>)
    | Items(items: seq<string>)
    | Text(text: string)

  type Store = map<string, Entry>

  /** How redis-py encodes a value it sends: a `str` as is, an `int` or a
      `float` by its `repr`; a `bool`, `None`, a list or a dict raises `DataError`. */
  function Encode(v: Value): (r: Option<string>)
    ensures r.Some? <==> v.VStr? || v.VInt? || v.VFloat?
    ensures v.VStr? ==> r == Some(v.s)
  {
    match v
    case VStr(s) => Some(s)
    case VInt(i) => Some(IntToDecimal(i))
    case VFloat(_, text) => Some(text)
    case _ => None
  }

  /** The mapping `hset(..., mapping=m)` sends, or `None` when a value cannot be encoded. */
  function EncodeAll(m: map<string, Value>): (r: Option<map<string, string>>)
    ensures r.Some? <==> forall k :: k in m ==> Encode(m[k]).Some?
    ensures r.Some? ==> r.value.Keys == m.Keys && forall k :: k in m ==> Encode(m[k]) == Some(r.value[k])
  {
    if forall k :: k in m ==> Encode(m[k]).Some? then Some(map k | k in m :: Encode(m[k]).value) else None
  }

  predicate Exists(st: Store, key: string) {
    key in st
  }

  /** HGETALL: the fields of a hash, `{}` for a missing key. */
  function HGetAll(st: Store, key: string): Result<map<string, string>> {
    if key !in st then Ok(map[])
    else if st[key].Hash? then Ok(st[key].fields)
    else Fault
  }

  /** HSET key mapping: merges the mapping into the hash (later values win).
      redis-py refuses an empty mapping before sending anything. */
  function HSet(st: Store, key: string, mapping: map<string, string>): Result<Store> {
    if mapping == map[] then Fault
    else match HGetAll(st, key)
      case Fault => Fault
      case Ok(fields) => Ok(st[key := Hash(fields + mapping)])
  }

  /** SMEMBERS: the members of a set, `{}` for a missing key. */
  function SMembers(st: Store, key: string): Result<set<string>> {
    if key !in st then Ok({})
    else if st[key].Members? then Ok(st[key].members)
    else Fault
  }

  function SAdd(st: Store, key: string, member: string): Result<Store> {
    match SMembers(st, key)
    case Fault => Fault
    case Ok(s) => Ok(st[key := Members(s + {member})])
  }

  /** SREM: a set left empty is removed from the keyspace. */
  function SRem(st: Store, key: string, member: string): Result<Store> {
    match SMembers(st, key)
    case Fault => Fault
    case Ok(s) => Ok(if s - {member} == {} then st - {key} else st[key := Members(s - {member})])
  }

  function SCard(st: Store, key: string): Result<nat> {
    match SMembers(st, key)
    case Fault => Fault
    case Ok(s) => Ok(|s|)
  }

  /** DEL: removes a key of any type. */
  function Delete(st: Store, key: string): Store {
    st - {key}
  }

  /** The items of a list, `[]` for a missing key. */
  function ListAt(st: Store, key: string): Result<seq<string>> {
    if key !in st then Ok([])
    else if st[key].Items? then Ok(st[key].items)
    else Fault
  }

  /** LPUSH of one value: it becomes the head of the list. */
  function LPush(st: Store, key: string, v: string): Result<Store> {
    match ListAt(st, key)
    case Fault => Fault
    case Ok(xs) => Ok(st[key := Items([v] + xs)])
  }

  function LLen(st: Store, key: string): Result<nat> {
    match ListAt(st, key)
    case Fault => Fault
    case Ok(xs) => Ok(|xs|)
  }

  /** The half-open slice `[lo, hi)` that the inclusive Redis range
      `start..stop` selects in a list of length `n`; a negative index counts
      from the end, an index past the end is clamped, and a range that
      selects nothing gives `lo == hi`. */
  function RangeBounds(n: nat, start: int, stop: int): (b: (nat, nat))
    ensures b.0 <= b.1 <= n
  {
    var lo := if start < 0 then (if n + start < 0 then 0 else n + start) else start;
    var hi := if stop < 0 then n + stop + 1 else (if stop >= n then n else stop + 1);
    if lo >= n || hi <= lo then (0, 0) else (lo, hi)
  }

  /** LRANGE key start stop. */
  function LRange(st: Store, key: string, start: int, stop: int): Result<seq<string>> {
    match ListAt(st, key)
    case Fault => Fault
    case Ok(xs) => var b := RangeBounds(|xs|, start, stop); Ok(xs[b.0..b.1])
  }

  /** LTRIM key start stop: keeps the range; a list left empty is removed. */
  function LTrim(st: Store, key: string, start: int, stop: int): Result<Store> {
    match ListAt(st, key)
    case Fault => Fault
    case Ok(xs) =>
      var b := RangeBounds(|xs|, start, stop);
      if key !in st then Ok(st)
      else if b.0 == b.1 then Ok(st - {key})
      else Ok(st[key := Items(xs[b.0..b.1])])
  }

  /** SET key value: replaces whatever the key held. */
  function SetText(st: Store, key: string, v: string): Store {
    st[key := Text(v)]
  }

  // ---------------------------------------------------------------------
  // Properties of the commands
  // ---------------------------------------------------------------------

  /** HSET fails exactly for an empty mapping or a key of another type;
      afterwards HGETALL gives the old fields overridden by the mapping and
      every other key is untouched. */
  lemma HSetThenHGetAll(st: Store, key: string, mapping: map<string, string>, other: string)
    requires other != key
    ensures HSet(st, key, mapping).Fault? <==> mapping == map[] || HGetAll(st, key).Fault?
    ensures HSet(st, key, mapping).Ok? ==>
      var st' := HSet(st, key, mapping).value;
      HGetAll(st', key) == Ok(HGetAll(st, key).value + mapping)
      && (other in st' <==> other in st) && (other in st ==> st'[other] == st[other])
  {
  }

  /** SADD then SMEMBERS contains the member and the old members. */
  lemma SAddThenSMembers(st: Store, key: string, member: string)
    requires SAdd(st, key, member).Ok?
    ensures SMembers(SAdd(st, key, member).value, key) == Ok(SMembers(st, key).value + {member})
  {
  }

  /** SREM then SMEMBERS lacks the member; the key disappears with its last member. */
  lemma SRemThenSMembers(st: Store, key: string, member: string)
    requires SRem(st, key, member).Ok?
    ensures SMembers(SRem(st, key, member).value, key) == Ok(SMembers(st, key).value - {member})
    ensures key in SRem(st, key, member).value <==> SMembers(st, key).value - {member} != {}
  {
  }

  /** LRANGE 0 -1 is the whole list; LRANGE 0 (n - 1) is its first n items. */
  lemma LRangeFromHead(xs: seq<string>, n: int)
    ensures var b := RangeBounds(|xs|, 0, -1); xs[b.0..b.1] == xs
    ensures n >= 1 ==> var b := RangeBounds(|xs|, 0, n - 1); xs[b.0..b.1] == xs[..if n < |xs| then n else |xs|]
  {
  }

  /** LPUSH followed by LTRIM 0 (cap - 1): the list is at most `cap` long,
      starts with the pushed value and continues with the old list's head. */
  lemma PushThenTrimCapped(st: Store, key: string, v: string, cap: nat)
    requires cap >= 1
    requires LPush(st, key, v).Ok?
    ensures var st1 := LPush(st, key, v).value;
      var st2 := LTrim(st1, key, 0, cap - 1);
      st2.Ok? && ListAt(st2.value, key).Ok?
      && var xs := ListAt(st2.value, key).value;
      1 <= |xs| <= cap && xs[0] == v && xs[1..] == ListAt(st, key).value[..|xs| - 1]
  {
    var old_ := ListAt(st, key).value;
    var st1 := LPush(st, key, v).value;
    assert ListAt(st1, key) == Ok([v] + old_);
    var b := RangeBounds(|[v] + old_|, 0, cap - 1);
    assert b.0 == 0 && b.1 >= 1;
    var xs := ([v] + old_)[b.0..b.1];
    assert xs[1..] == old_[..|xs| - 1];
  }
}
