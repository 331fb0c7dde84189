/** The pure part of the server: configuration loading and the MongoDB
    connection string built from the storage node list. */
module Server {
  import opened JsValues

  datatype NodeConfig = NodeConfig(host: string, port: JsValue)

  datatype StorageConfig = StorageConfig(name: string, user: JsValue, pass: JsValue, nodes: seq<NodeConfig>)

  datatype ServerConfig = ServerConfig(port: JsValue)

  datatype Config = Config(server: ServerConfig, storage: StorageConfig)

  /** The credentials handed to the driver beside the connection string. */
  datatype ConnectOptions = ConnectOptions(user: JsValue, pass: JsValue)

  /** The two arguments `mongoose.connect` receives. */
  datatype Connection = Connection(uri: string, options: ConnectOptions)

  /** Configuration is accepted as given: no validation, no defaults. */
  function LoadConfig(config: Config): (r: Config)
    ensures r == config
  {
    config
  }

  const MongoScheme := "mongodb://"

  /** The URI of one storage node: host, a colon, the port's text, then the
      database name after a slash. */
  function NodeUri(node: NodeConfig, name: string): (u: string)
    ensures |u| == |MongoScheme| + |node.host| + 1 + |ToJsString(node.port)| + 1 + |name|
    ensures u[|MongoScheme| + |node.host|] == ':'
    ensures u[|MongoScheme| + |node.host| + 1..|u| - |name| - 1] == ToJsString(node.port)
  {
    var u := MongoScheme + node.host + ":" + ToJsString(node.port) + "/" + name;
    var head := MongoScheme + node.host + ":";
    assert u == head + ToJsString(node.port) + ("/" + name);
    assert u[|head|..|head| + |ToJsString(node.port)|] == ToJsString(node.port);
    u
  }

  /** One URI per storage node, in node order. */
  function Uris(nodes: seq<NodeConfig>, name: string): (r: seq<string>)
    ensures |r| == |nodes|
    ensures forall i :: 0 <= i < |nodes| ==> r[i] == NodeUri(nodes[i], name)
  {
    if |nodes| == 0 then [] else [NodeUri(nodes[0], name)] + Uris(nodes[1..], name)
  }

  /** `Array.prototype.join()` with its default separator, a comma. */
  function Join(parts: seq<string>): (s: string)
    ensures |parts| == 0 ==> s == ""
    ensures |parts| >= 1 ==> |parts[0]| <= |s| && s[..|parts[0]|] == parts[0]
    ensures |parts| >= 2 ==> |parts[0]| < |s| && s[|parts[0]|] == ','
  {
    if |parts| == 0 then ""
    else if |parts| == 1 then parts[0]
    else parts[0] + "," + Join(parts[1..])
  }

  /** `String.prototype.split(',')` (reference inverse of `Join`). */
  function Split(s: string): (r: seq<string>)
    ensures |r| >= 1
  {
    if |s| == 0 then [""]
    else if s[0] == ',' then [""] + Split(s[1..])
    else
      var rest := Split(s[1..]);
      [[s[0]] + rest[0]] + rest[1..]
  }

  /** The arguments of `mongoose.connect`: the joined node URIs, and the
      credentials as options. */
  function Connect(config: Config): (c: Connection)
    ensures c.options.user == config.storage.user && c.options.pass == config.storage.pass
    ensures |config.storage.nodes| == 0 ==> c.uri == ""
    ensures |config.storage.nodes| == 1 ==> c.uri == NodeUri(config.storage.nodes[0], config.storage.name)
  {
    var storage := config.storage;
    Connection(Join(Uris(storage.nodes, storage.name)), ConnectOptions(storage.user, storage.pass))
  }

  predicate CommaFree(s: string) { forall i :: 0 <= i < |s| ==> s[i] != ',' }

  lemma {:induction false} SplitCommaFreePrefix(p: string, t: string)
    requires CommaFree(p)
    ensures Split(p + t) == [p + Split(t)[0]] + Split(t)[1..]
    decreases |p|
  {
    if |p| > 0 {
      assert (p + t)[0] == p[0];
      assert (p + t)[1..] == p[1..] + t;
      SplitCommaFreePrefix(p[1..], t);
      assert [p[0]] + (p[1..] + Split(t)[0]) == p + Split(t)[0];
    } else {
      var r := Split(t);
      assert p + t == t;
      assert p + r[0] == r[0];
      assert r == [r[0]] + r[1..];
    }
  }

  /** Splitting the joined list at its commas gives the list back, provided
      no part has a comma of its own. */
  lemma {:induction false} SplitJoin(parts: seq<string>)
    requires |parts| >= 1
    requires forall i :: 0 <= i < |parts| ==> CommaFree(parts[i])
    ensures Split(Join(parts)) == parts
  {
    if |parts| == 1 {
      SplitCommaFreePrefix(parts[0], "");
      assert parts[0] + "" == parts[0];
    } else {
      var rest := Join(parts[1..]);
      SplitJoin(parts[1..]);
      assert Join(parts) == parts[0] + ("," + rest);
      SplitCommaFreePrefix(parts[0], "," + rest);
      assert ("," + rest)[1..] == rest;
      assert Split("," + rest) == [""] + parts[1..];
      assert parts[0] + "" == parts[0];
    }
  }

  lemma NodeUriCommaFree(node: NodeConfig, name: string)
    requires CommaFree(node.host) && CommaFree(name)
    requires node.port.Str? ==> CommaFree(node.port.s)
    ensures CommaFree(NodeUri(node, name))
  {
  }

  /** Each URI is the scheme, the node's host and port, and the single
      configured database name; user name and password never appear in it. */
  lemma NodeUriShape(node: NodeConfig, name: string)
    ensures var u := NodeUri(node, name);
      && u[..|MongoScheme|] == "mongodb://"
      && u[|MongoScheme|..|MongoScheme| + |node.host|] == node.host
      && u[|u| - |name| - 1..] == "/" + name
  {
  }

  /** The connection string holds exactly one URI per storage node, in node
      order, separated by commas: splitting it gives back the node URIs. */
  lemma ConnectionStringPerNode(config: Config)
    requires |config.storage.nodes| >= 1
    requires CommaFree(config.storage.name)
    requires forall i :: 0 <= i < |config.storage.nodes| ==> CommaFree(config.storage.nodes[i].host)
    requires forall i :: 0 <= i < |config.storage.nodes| ==>
      config.storage.nodes[i].port.Str? ==> CommaFree(config.storage.nodes[i].port.s)
    ensures var uris := Split(Connect(config).uri);
      && |uris| == |config.storage.nodes|
      && forall i :: 0 <= i < |uris| ==> uris[i] == NodeUri(config.storage.nodes[i], config.storage.name)
  {
    var storage := config.storage;
    var uris := Uris(storage.nodes, storage.name);
    forall i | 0 <= i < |uris| ensures CommaFree(uris[i]) {
      NodeUriCommaFree(storage.nodes[i], storage.name);
    }
    SplitJoin(uris);
  }

  /** User name and password go to the options, never into the connection
      string: changing them changes nothing else. */
  lemma CredentialsOnlyInOptions(config: Config, user: JsValue, pass: JsValue)
    ensures var other := config.(storage := config.storage.(user := user, pass := pass));
      && Connect(other).uri == Connect(config).uri
      && Connect(other).options == ConnectOptions(user, pass)
  {
  }
}
