/** Option and Result: the outcome of a transform, where `Fail` stands for
    `module.fail_json`, an `AnsibleError` or an uncaught Python exception. */
module Outcomes {

  datatype Option<+T> = None | Some(value: T)

  datatype Result<+T, +E> = Ok(value: T) | Fail(error: E)
}

/** Python values as the modules receive them from Ansible, and the dict
    filters the modules apply before sending a struct to WAPI. */
module PyValues {
  import Outcomes

  /** A Python value: None, a bool, an int, a str, a list or a dict with str keys. */
  datatype Value =
    | VNone
    | VBool(b: bool)
    | VInt(i: int)
    | VStr(s: string)
    | VList(items: seq<Value>)
    | VDict(entries: map<string, Value>)

  /** A Python dict with str keys; the order of its keys is not modelled. */
  type Dict = map<string, Value>

  /** Python truthiness. */
  predicate Truthy(v: Value)
  {
    match v
    case VNone => false
    case VBool(b) => b
    case VInt(i) => i != 0
    case VStr(s) => s != ""
    case VList(items) => items != []
    case VDict(entries) => entries != map[]
  }

  /** `d.get(k)` */
  function Get(d: Dict, k: string): Value
  {
    if k in d then d[k] else VNone
  }

  /** `d.get(k, default)` */
  function GetOr(d: Dict, k: string, default: Value): Value
  {
    if k in d then d[k] else default
  }

  /** Python's `a or b`: the first operand when it is truthy, else the second. */
  function Or(a: Value, b: Value): Value
  {
    if Truthy(a) then a else b
  }

  /** A str parameter that Ansible leaves as None when it is not given. */
  function OptStr(s: Outcomes.Option<string>): Value
  {
    if s.Some? then VStr(s.value) else VNone
  }

  /** The dict comprehension the transforms share: the entries of `d` that are
      set (not None) and whose key is not filtered out. */
  function Keep(d: Dict, drop: set<string>): (r: Dict)
    ensures forall k :: k in r <==> k in d && d[k] != VNone && k !in drop
    ensures forall k | k in r :: r[k] == d[k]
  {
    map k | k in d && d[k] != VNone && k !in drop :: d[k]
  }

  /** The entries of `d` that are not None. */
  function DropNone(d: Dict): Dict
  {
    Keep(d, {})
  }

  /** Filtering is idempotent: a second pass with the same keys changes nothing. */
  lemma KeepIdempotent(d: Dict, drop: set<string>)
    ensures Keep(Keep(d, drop), drop) == Keep(d, drop)
  {
  }

  /** What filtering keeps has no None value and is a sub-dict of the input. */
  lemma KeepIsSubDict(d: Dict, drop: set<string>)
    ensures forall k | k in Keep(d, drop) :: k in d && Keep(d, drop)[k] == d[k] && Keep(d, drop)[k] != VNone
  {
  }
}

/** The WAPI client as an oracle: `get_object` and `call_func` are parameters
    of the transforms, so every result below holds for any remote answer. */
module Wapi {
  import opened Outcomes
  import opened PyValues

  /** `wapi.get_object(objType, fields)` */
  datatype Query = Query(objType: string, fields: Dict)

  /** An object returned by WAPI: its `_ref` and its other fields. */
  datatype WapiObj = WapiObj(ref: string, fields: Dict)

  /** The answer of `get_object`: None, or the list of matching objects. */
  type Reply = Option<seq<WapiObj>>

  type GetObject = Query -> Reply

  /** `wapi.call_func(name, ref, args)` */
  datatype FuncCall = FuncCall(name: string, ref: string, args: Dict)

  /** The list stored under the result key of a `call_func` answer, or None
      when the call raises or the key is missing. */
  type CallFunc = FuncCall -> Option<seq<Value>>

  /** A lookup of `objType` by name. */
  function NameQuery(objType: string, name: Value): Query
  {
    Query(objType, map["name" := name])
  }

  /** Python truthiness of a reply: only a non-empty list is truthy. */
  predicate Found(reply: Reply)
  {
    reply.Some? && |reply.value| > 0
  }

  /** The reference of the first object of a reply. */
  function FirstRef(reply: Reply): string
    requires Found(reply)
  {
    reply.value[0].ref
  }

  /** The `_ref` of the first match of `preferred`, else of `fallback`, else None:
      the range-over-view precedence of the VLAN parent lookups. */
  function PreferredRef(preferred: Reply, fallback: Reply): (r: Option<string>)
    ensures Found(preferred) ==> r == Some(FirstRef(preferred))
    ensures !Found(preferred) && Found(fallback) ==> r == Some(FirstRef(fallback))
    ensures r.None? <==> !Found(preferred) && !Found(fallback)
  {
    if Found(preferred) then Some(FirstRef(preferred))
    else if Found(fallback) then Some(FirstRef(fallback))
    else None
  }
}

/** `ipaddress.ip_network` as an oracle: the parsed network, or None when the
    string is not a network (ValueError or TypeError). */
module IpAddress {
  import opened Outcomes

  /** A parsed network: its IP version, its prefix length (RFC 4632 section 3.1
      for IPv4, RFC 4291 section 2.3 for IPv6) and its `with_prefixlen` text. */
  datatype IpNetwork = IpNetwork(version: int, prefixLen: nat, withPrefixLen: string)

  /** `ip_network(text, strict)` */
  type ParseNetwork = (string, bool) -> Option<IpNetwork>
}
