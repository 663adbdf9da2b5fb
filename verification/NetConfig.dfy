/** The net section of a configuration: named nets whose options refer to other
    nets, either by name or by an inline net (src/config.rs, rd-interface/src/config.rs). */
module NetConfig {
  import opened Outcomes

  datatype Error =
    | Malformed                       // the reference is neither a string nor a net
    | NotFound(name: string)          // no such entry in the config
    | TypeNotLoaded(kind: string)     // the registry has no such type
    | BadOptions(kind: string)        // the options do not deserialize
    | BuildFailed(kind: string)       // the type's own builder refused
    | NotRunning                      // no config has been started

  type Fallible<+T> = Result<T, Error>

  /** A net or a server entry. `data` is the part of its options that holds no
      reference; `children` are the references its options hold, in the order the
      visitor meets them, each with the visitor's path. */
  datatype Net = Net(kind: string, data: string, children: seq<Child>)
  datatype Child = Child(path: seq<string>, ref: NetRef)
  datatype NetRef = Name(name: string) | Inline(net: Net) | Garbage

  /** What a registered type does with its options: deserialize, then build. */
  datatype Resolver = Resolver(parses: string -> bool, builds: string -> bool)
  type Registry = map<string, Resolver>

  type Nets = map<string, Net>

  const CIRCULAR: string := "circular reference"
  const PLACEHOLDER: Net := Net(CIRCULAR, "null", [])
  const DELIMITER: string := "/"

  function Join(parts: seq<string>, separator: string): string {
    if |parts| == 0 then ""
    else if |parts| == 1 then parts[0]
    else parts[0] + separator + Join(parts[1..], separator)
  }

  /** The other way round: every part after the first comes after a separator. */
  lemma {:induction false} JoinLast(parts: seq<string>, last: string, separator: string)
    ensures Join(parts + [last], separator) == if parts == [] then last else Join(parts, separator) + separator + last
  {
    if |parts| == 1 {
      assert (parts + [last])[1..] == [last];
    } else if parts != [] {
      assert (parts + [last])[1..] == parts[1..] + [last];
      JoinLast(parts[1..], last, separator);
      var rest := Join(parts[1..], separator);
      assert parts[0] + separator + (rest + separator + last) == parts[0] + separator + rest + separator + last;
    }
  }

  /** The name given to an inline net found at `path` below `prefix`. */
  function GenName(prefix: seq<string>, path: seq<string>): string {
    Join(prefix + path, DELIMITER)
  }

  function NetPrefix(name: string): seq<string> { ["net", name] }
  function ServerPrefix(name: string): seq<string> { ["server", name] }

  function NetSize(net: Net): nat {
    1 + ChildrenSize(net.children)
  }

  function ChildrenSize(cs: seq<Child>): nat {
    if cs == [] then 0 else RefSize(cs[0].ref) + ChildrenSize(cs[1..])
  }

  function RefSize(r: NetRef): nat {
    if r.Inline? then 1 + NetSize(r.net) else 1
  }

  /** A server entry of the config; servers are kept in file order. */
  datatype Server = Server(name: string, item: Net)

  predicate IsDefault(name: string) { name == "noop" || name == "blackhole" || name == "local" }

  /** The three nets every config has (src/config.rs, init_default_net): each of the type
      it is called after, without references; only the local one has options. */
  function WithDefaults(nets: Nets, localOptions: string): (r: Nets)
    ensures forall n :: n in nets ==> n in r && r[n] == nets[n]
    ensures r.Keys == nets.Keys + {"noop", "blackhole", "local"}
    ensures forall n :: IsDefault(n) && n !in nets ==>
              n in r && r[n].kind == n && r[n].children == [] && r[n].data == if n == "local" then localOptions else "null"
  {
    map["noop" := Net("noop", "null", []),
        "blackhole" := Net("blackhole", "null", []),
        "local" := Net("local", localOptions, [])] + nets
  }
}
